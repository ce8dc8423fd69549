/**
 The six messages of filerail/protocol.h on the wire: filerail/serializer.h and filerail/deserializer.h, as functions
 with their round trip and sizes, and as the step-by-step code that computes them.
 */
module Codec {
  import opened Bytes
  import opened Cipher
  import opened Disk
  import P = Protocol
  import opened MsgPack

  type Msg = P.Msg
  type Kind = P.Kind

  const MAX_RESOURCE_LENGTH := 256

  /** Messages that fit the C structures. */
  predicate Sendable(m: Msg) {
    match m
    case Code(_) => true
    case Resource(size, name, dir) => size < TWO64 && |name| < MAX_RESOURCE_LENGTH && |dir| < MAX_PATH_LENGTH
    case Offset(o) => o < TWO64
    case Digest(_) => true
    case Packet(payload, count) => |payload| == BUFFER_SIZE && count < TWO64
  }

  // ---------------------------------------------------------------- encoding

  function Octets(s: Bytes): (vs: seq<Value>)
    ensures |vs| == |s| && forall i | 0 <= i < |s| :: vs[i] == UInt(s[i]) && Packable(vs[i])
  {
    seq(|s|, i requires 0 <= i < |s| => UInt(s[i]))
  }

  /** A C string in a zeroed array of n octets. */
  function Padded(s: CString, n: nat): (r: Bytes)
    requires |s| < n
    ensures |r| == n
  {
    s + [0] + seq(n - |s| - 1, _ => 0)
  }

  function ToValue(m: Msg): (v: Value)
    requires Sendable(m)
    ensures Packable(v)
  {
    match m
    case Code(c) => UInt(c)
    case Resource(size, name, dir) =>
      Arr([UInt(size), Str(Padded(name, MAX_RESOURCE_LENGTH)), Str(Padded(dir, MAX_PATH_LENGTH))])
    case Offset(o) => UInt(o)
    case Digest(h) => Arr(Octets(h))
    case Packet(payload, count) => Arr([Arr(Octets(payload)), UInt(count)])
  }

  function Encode(m: Msg): Bytes
    requires Sendable(m)
  {
    Pack(ToValue(m))
  }

  // ---------------------------------------------------------------- decoding

  /** What the deserializer for a kind takes for granted about the object it was given. */
  predicate Shaped(k: Kind, v: Value) {
    match k
    case ACode => v.UInt?
    case AnOffset => v.UInt?
    case AResource =>
      && v.Arr? && |v.items| >= 3 && v.items[0].UInt? && v.items[1].Str? && v.items[2].Str?
      && |v.items[1].s| >= MAX_RESOURCE_LENGTH && |v.items[2].s| >= MAX_PATH_LENGTH
    case ADigest => v.Arr? && Numbers(v.items, HASH_LENGTH)
    case APacket =>
      && v.Arr? && |v.items| >= 2 && v.items[0].Arr? && Numbers(v.items[0].items, BUFFER_SIZE) && v.items[1].UInt?
  }

  predicate Numbers(vs: seq<Value>, n: nat) {
    |vs| >= n && forall i | 0 <= i < n :: vs[i].UInt?
  }

  /** The first n numbers, each cut to uint8_t. */
  function Narrowed(vs: seq<Value>, n: nat): (s: Bytes)
    requires Numbers(vs, n)
    ensures |s| == n
  {
    seq(n, i requires 0 <= i < n => vs[i].n % 256)
  }

  function FromValue(k: Kind, v: Value): Msg
    requires Shaped(k, v)
  {
    match k
    case ACode => P.Code(v.n % 256)
    case AnOffset => P.Offset(v.n)
    case AResource =>
      P.Resource(v.items[0].n, CStr(v.items[1].s[..MAX_RESOURCE_LENGTH]), CStr(v.items[2].s[..MAX_PATH_LENGTH]))
    case ADigest => P.Digest(Narrowed(v.items, HASH_LENGTH))
    case APacket => P.Packet(Narrowed(v.items[0].items, BUFFER_SIZE), v.items[1].n)
  }

  /** The message read from a buffer; None if unpacking fails or the object has another shape. */
  function Decode(k: Kind, b: Bytes): Option<Msg> {
    match Unpack(b)
    case None => None
    case Some((v, _)) => if Shaped(k, v) then Some(FromValue(k, v)) else None
  }

  lemma NarrowedOctets(s: Bytes)
    ensures Numbers(Octets(s), |s|) && Narrowed(Octets(s), |s|) == s
  {
    var n := Narrowed(Octets(s), |s|);
    forall i | 0 <= i < |s| ensures n[i] == s[i] {
      assert Octets(s)[i].n == s[i] && s[i] % 256 == s[i];
    }
  }

  lemma PaddedBack(s: CString, n: nat)
    requires |s| < n
    ensures CStr(Padded(s, n)[..n]) == s
  {
    CStrStops(s, seq(n - |s| - 1, _ => 0));
    assert Padded(s, n)[..n] == s + [0] + seq(n - |s| - 1, _ => 0);
  }

  lemma ValueBack(m: Msg)
    requires Sendable(m)
    ensures Shaped(P.KindOf(m), ToValue(m)) && FromValue(P.KindOf(m), ToValue(m)) == m
  {
    match m
    case Resource(size, name, dir) =>
      PaddedBack(name, MAX_RESOURCE_LENGTH);
      PaddedBack(dir, MAX_PATH_LENGTH);
    case Digest(h) => NarrowedOctets(h);
    case Packet(payload, count) => NarrowedOctets(payload);
    case _ =>
  }

  /** Decoding an encoding followed by anything returns the message and consumes exactly the encoding. */
  lemma DecodeEncode(m: Msg, rest: Bytes)
    requires Sendable(m)
    ensures Decode(P.KindOf(m), Encode(m) + rest) == Some(m)
    ensures Unpack(Encode(m) + rest).Some? && Unpack(Encode(m) + rest).value.1 == rest
  {
    RoundTrip(ToValue(m), rest);
    ValueBack(m);
  }

  /** The wire does not carry the kind: an offset below 256 looks just like a code. */
  lemma KindNotOnWire(c: byte)
    ensures Encode(P.Offset(c)) == Encode(P.Code(c))
  {
  }

  // ---------------------------------------------------------------- the wire, octet by octet

  function Zeros(n: nat): Bytes { seq(n, _ => 0) }

  /** The octets of each message but the arrays of octets, for which see OctetWire. */
  lemma WireFormat(m: Msg)
    requires Sendable(m)
    ensures match m
            case Code(c) => Encode(m) == if c < 0x80 then [c] else [0xcc, c]
            case Offset(o) => Encode(m) == UIntHead(o)
            case Resource(size, name, dir) =>
              Encode(m) == [0x93] + UIntHead(size)
                           + [0xda, 0x01, 0x00] + name + Zeros(256 - |name|)
                           + [0xda, 0x10, 0x01] + dir + Zeros(4097 - |dir|)
            case Digest(h) => Encode(m) == [0xdc, 0x00, 0x10] + PackAll(Octets(h))
            case Packet(payload, count) =>
              Encode(m) == [0x92, 0xdc, 0x04, 0x00] + PackAll(Octets(payload)) + UIntHead(count)
  {
    match m
    case Code(c) => UIntFormats(c);
    case Offset(_) =>
    case Resource(size, name, dir) => ResourceWire(size, name, dir);
    case Digest(_) => LengthFormats(0x10);
    case Packet(payload, count) => PacketWire(payload, count);
  }

  lemma ResourceWire(size: nat, name: CString, dir: CString)
    requires Sendable(P.Resource(size, name, dir))
    ensures Encode(P.Resource(size, name, dir))
            == [0x93] + UIntHead(size) + [0xda, 0x01, 0x00] + name + Zeros(256 - |name|)
               + [0xda, 0x10, 0x01] + dir + Zeros(4097 - |dir|)
  {
    var n, d := Padded(name, MAX_RESOURCE_LENGTH), Padded(dir, MAX_PATH_LENGTH);
    LengthFormats(3);
    LengthFormats(256);
    LengthFormats(4097);
    PackThree(UInt(size), Str(n), Str(d));
    PaddedZeros(name, 256);
    PaddedZeros(dir, 4097);
    Regrouped([0x93], UIntHead(size), [0xda, 0x01, 0x00], name, Zeros(256 - |name|), [0xda, 0x10, 0x01], dir,
              Zeros(4097 - |dir|));
  }

  lemma PaddedZeros(s: CString, n: nat)
    requires |s| < n
    ensures Padded(s, n) == s + Zeros(n - |s|)
  {
  }

  lemma Regrouped(a: Bytes, b: Bytes, c: Bytes, d: Bytes, e: Bytes, f: Bytes, g: Bytes, h: Bytes)
    ensures a + (b + (c + (d + e)) + (f + (g + h))) == a + b + c + d + e + f + g + h
  {
  }

  lemma PacketWire(payload: Bytes, count: nat)
    requires Sendable(P.Packet(payload, count))
    ensures Encode(P.Packet(payload, count)) == [0x92, 0xdc, 0x04, 0x00] + PackAll(Octets(payload)) + UIntHead(count)
  {
    var body := PackAll(Octets(payload));
    LengthFormats(2);
    LengthFormats(1024);
    PackTwo(Arr(Octets(payload)), UInt(count));
    assert [0x92] + ([0xdc, 0x04, 0x00] + body + UIntHead(count)) == [0x92, 0xdc, 0x04, 0x00] + body + UIntHead(count);
  }

  /** An array of octets, one after the other: two octets for each from 128 on. */
  lemma OctetWire(s: Bytes, b: byte)
    ensures PackAll(Octets([])) == []
    ensures PackAll(Octets(s + [b])) == PackAll(Octets(s)) + if b < 0x80 then [b] else [0xcc, b]
  {
    UIntFormats(b);
    assert Octets(s + [b]) == Octets(s) + [UInt(b)];
    PackAllAppend(Octets(s), [UInt(b)]);
    assert [UInt(b)][1..] == [];
    assert PackAll([UInt(b)]) == Pack(UInt(b)) + [];
  }

  // ---------------------------------------------------------------- sizes

  lemma {:induction false} OctetsSize(s: Bytes)
    ensures |s| <= |PackAll(Octets(s))| <= 2 * |s|
    decreases |s|
  {
    if s != [] {
      assert Octets(s)[1..] == Octets(s[1..]);
      OctetsSize(s[1..]);
    }
  }

  lemma PackTwo(a: Value, b: Value)
    requires Packable(a) && Packable(b)
    ensures PackAll([a, b]) == Pack(a) + Pack(b)
  {
    assert [a, b][1..] == [b] && [b][1..] == [];
    assert PackAll([b]) == Pack(b) + PackAll([]);
    assert Pack(b) + [] == Pack(b);
  }

  lemma PackThree(a: Value, b: Value, c: Value)
    requires Packable(a) && Packable(b) && Packable(c)
    ensures PackAll([a, b, c]) == Pack(a) + Pack(b) + Pack(c)
  {
    assert [a, b, c][1..] == [b, c];
    PackTwo(b, c);
    Associative(Pack(a), Pack(b), Pack(c));
  }

  /** Every message is short enough for its uint32_t length prefix. */
  lemma EncodedSize(m: Msg)
    requires Sendable(m)
    ensures 1 <= |Encode(m)| < TWO32
    ensures m.Code? ==> |Encode(m)| <= 2
    ensures m.Offset? ==> |Encode(m)| <= 9
    ensures m.Resource? ==> 4361 <= |Encode(m)| <= 4369
    ensures m.Digest? ==> 19 <= |Encode(m)| <= 35
    ensures m.Packet? ==> 1029 <= |Encode(m)| <= 2061
  {
    match m
    case Code(_) =>
    case Offset(_) =>
    case Resource(size, name, dir) =>
      PackThree(UInt(size), Str(Padded(name, MAX_RESOURCE_LENGTH)), Str(Padded(dir, MAX_PATH_LENGTH)));
    case Digest(h) => OctetsSize(h);
    case Packet(payload, count) =>
      OctetsSize(payload);
      PackTwo(Arr(Octets(payload)), UInt(count));
  }
}
