/**
 The MessagePack specification: the formats that filerail packs ("int format family", "str format family" and "array
 format family"), of which msgpack-c picks the shortest, and all formats when unpacking.
 */
module MsgPack {
  import opened Bytes

  /** `Other` is an object that filerail never packs: nil, a boolean, negative, float, binary, extension or map. */
  datatype Value = UInt(n: nat) | Str(s: Bytes) | Arr(items: seq<Value>) | Other

  /** Values that have an encoding. */
  predicate Packable(v: Value) {
    match v
    case UInt(n) => n < TWO64
    case Str(s) => |s| < TWO32
    case Arr(items) => |items| < TWO32 && forall i | 0 <= i < |items| :: Packable(items[i])
    case Other => false
  }

  // ---------------------------------------------------------------- packing

  function UIntHead(n: nat): (b: Bytes)
    requires n < TWO64
    ensures 1 <= |b| <= 9
    ensures |b| == if n < 128 then 1 else if n < 256 then 2 else if n < 65536 then 3 else if n < TWO32 then 5 else 9
  {
    if n < 128 then [n]
    else if n < 256 then [0xcc] + BigEndian(n, 1)
    else if n < 65536 then [0xcd] + BigEndian(n, 2)
    else if n < TWO32 then [0xce] + BigEndian(n, 4)
    else [0xcf] + BigEndian(n, 8)
  }

  function StrHead(n: nat): (b: Bytes)
    requires n < TWO32
    ensures |b| == if n < 32 then 1 else if n < 256 then 2 else if n < 65536 then 3 else 5
  {
    if n < 32 then [0xa0 + n]
    else if n < 256 then [0xd9] + BigEndian(n, 1)
    else if n < 65536 then [0xda] + BigEndian(n, 2)
    else [0xdb] + BigEndian(n, 4)
  }

  function ArrHead(n: nat): (b: Bytes)
    requires n < TWO32
    ensures |b| == if n < 16 then 1 else if n < 65536 then 3 else 5
  {
    if n < 16 then [0x90 + n]
    else if n < 65536 then [0xdc] + BigEndian(n, 2)
    else [0xdd] + BigEndian(n, 4)
  }

  function Pack(v: Value): Bytes
    requires Packable(v)
    decreases v, 1
  {
    match v
    case UInt(n) => UIntHead(n)
    case Str(s) => StrHead(|s|) + s
    case Arr(items) => ArrHead(|items|) + PackAll(items)
  }

  function PackAll(items: seq<Value>): Bytes
    requires forall i | 0 <= i < |items| :: Packable(items[i])
    decreases items, 0
  {
    if items == [] then [] else Pack(items[0]) + PackAll(items[1..])
  }

  // ---------------------------------------------------------------- unpacking

  /**
   A first octet, with the number or length it announces; `HSkip` stands for an object of another type that takes so
   many further octets.
   */
  datatype Head = HUInt(n: nat) | HStr(len: nat) | HArr(len: nat) | HMap(len: nat) | HSkip(len: nat)

  /** The big-endian number in octets 1..k+1. */
  function Following(b: Bytes, k: nat): Option<nat> {
    if |b| < k + 1 then None else Some(FromBigEndian(b[1..k + 1]))
  }

  /** The head of an encoding and the number of octets it takes. */
  function ReadHead(b: Bytes): (r: Option<(Head, nat)>)
    ensures r.Some? ==> 0 < r.value.1 <= |b|
  {
    if b == [] then None
    else if b[0] < 0x80 then Some((HUInt(b[0]), 1))
    else if b[0] < 0x90 then Some((HMap(b[0] - 0x80), 1))
    else if b[0] < 0xa0 then Some((HArr(b[0] - 0x90), 1))
    else if b[0] < 0xc0 then Some((HStr(b[0] - 0xa0), 1))
    else if b[0] == 0xc1 then None
    else
      var k := Width(b[0]);
      if k == 0 then Some((HSkip(Fixed(b[0])), 1)) else
        match Following(b, k)
        case None => None
        case Some(n) => Some((Wide(b[0], n), k + 1))
  }

  /** How many octets of a number or length follow a first octet. */
  function Width(first: byte): nat {
    if first in {0xc4, 0xc7, 0xcc, 0xd0, 0xd9} then 1
    else if first in {0xc5, 0xc8, 0xcd, 0xd1, 0xda, 0xdc, 0xde} then 2
    else if first in {0xc6, 0xc9, 0xce, 0xd2, 0xdb, 0xdd, 0xdf} then 4
    else if first in {0xcf, 0xd3} then 8
    else 0
  }

  /** Octets of a float or of an extension of fixed size; nil, booleans and small negative numbers have none. */
  function Fixed(first: byte): nat {
    if first == 0xca then 4
    else if first == 0xcb then 8
    else if first == 0xd4 then 2
    else if first == 0xd5 then 3
    else if first == 0xd6 then 5
    else if first == 0xd7 then 9
    else if first == 0xd8 then 17
    else 0
  }

  /** What a first octet makes of the number behind it; a signed one that is not negative is read as unsigned. */
  function Wide(first: byte, n: nat): Head {
    if first <= 0xc6 then HSkip(n)
    else if first <= 0xc9 then HSkip(n + 1)
    else if first <= 0xcf then HUInt(n)
    else if first <= 0xd3 then (if 2 * n < Pow256(Width(first)) then HUInt(n) else HSkip(0))
    else if first <= 0xdb then HStr(n)
    else if first <= 0xdd then HArr(n)
    else HMap(n)
  }

  /** msgpack_unpack_next: one object and the octets behind it; None if the buffer ends early, or at the octet 0xc1. */
  function Unpack(b: Bytes): (r: Option<(Value, Bytes)>)
    ensures r.Some? ==> |r.value.1| < |b| && r.value.1 == b[|b| - |r.value.1|..]
    decreases |b|, 0
  {
    match ReadHead(b)
    case None => None
    case Some((HUInt(n), k)) => Some((UInt(n), b[k..]))
    case Some((HStr(len), k)) => if |b| < k + len then None else Some((Str(b[k..k + len]), b[k + len..]))
    case Some((HArr(len), k)) =>
      (match UnpackMany(len, b[k..])
       case None => None
       case Some((items, rest)) => Some((Arr(items), rest)))
    case Some((HMap(len), k)) =>
      (match UnpackMany(2 * len, b[k..])
       case None => None
       case Some((_, rest)) => Some((Other, rest)))
    case Some((HSkip(len), k)) => if |b| < k + len then None else Some((Other, b[k + len..]))
  }

  function UnpackMany(k: nat, b: Bytes): (r: Option<(seq<Value>, Bytes)>)
    ensures r.Some? ==> |r.value.0| == k && |r.value.1| <= |b| && r.value.1 == b[|b| - |r.value.1|..]
    decreases |b|, 1
  {
    if k == 0 then Some(([], b)) else
      match Unpack(b)
      case None => None
      case Some((v, rest)) =>
        match UnpackMany(k - 1, rest)
        case None => None
        case Some((vs, rest')) => Some(([v] + vs, rest'))
  }

  // ---------------------------------------------------------------- the formats, octet by octet

  lemma UIntFormats(n: nat)
    requires n < TWO64
    ensures n < 0x80 ==> UIntHead(n) == [n]
    ensures 0x80 <= n < 0x100 ==> UIntHead(n) == [0xcc, n]
    ensures 0x100 <= n < 0x1_0000 ==> UIntHead(n) == [0xcd, n / 0x100, n % 0x100]
    ensures 0x1_0000 <= n < TWO32 ==>
              UIntHead(n) == [0xce, n / 0x100_0000, n / 0x1_0000 % 0x100, n / 0x100 % 0x100, n % 0x100]
    ensures TWO32 <= n ==>
              && |UIntHead(n)| == 9 && UIntHead(n)[0] == 0xcf
              && forall i | 1 <= i < 9 :: UIntHead(n)[i] == n / Pow256(8 - i) % 0x100
  {
    NetworkOrder(n);
    OneOctet(n);
    if TWO32 <= n {
      forall i | 1 <= i < 9 ensures UIntHead(n)[i] == n / Pow256(8 - i) % 0x100 {
        BigEndianAt(n, 8, i - 1);
      }
    }
  }

  lemma OneOctet(n: nat)
    ensures n < 0x100 ==> BigEndian(n, 1) == [n]
  {
    assert BigEndian(n / 256, 0) == [];
  }

  lemma LengthFormats(n: nat)
    requires n < 0x1_0000
    ensures n < 0x20 ==> StrHead(n) == [0xa0 + n]
    ensures 0x20 <= n < 0x100 ==> StrHead(n) == [0xd9, n]
    ensures 0x100 <= n ==> StrHead(n) == [0xda, n / 0x100, n % 0x100]
    ensures n < 0x10 ==> ArrHead(n) == [0x90 + n]
    ensures 0x10 <= n ==> ArrHead(n) == [0xdc, n / 0x100, n % 0x100]
  {
    NetworkOrder(n);
    OneOctet(n);
  }

  /** Unpacking takes `size` octets of a longer buffer for an object of another type, and fails on a shorter one. */
  predicate Skips(b: Bytes, size: nat) {
    Unpack(b) == if |b| < size then None else Some((Other, b[size..]))
  }

  /** What filerail never packs: how long each of these objects is. */
  lemma ForeignFormats(b: Bytes)
    requires b != []
    ensures b[0] in {0xc0, 0xc2, 0xc3} || 0xe0 <= b[0] ==> Skips(b, 1)
    ensures b[0] == 0xc1 ==> Unpack(b) == None
    ensures b[0] == 0x80 ==> Unpack(b) == Some((Other, b[1..]))
  {
  }

  lemma ForeignSizes(b: Bytes)
    requires b != []
    ensures (b[0] == 0xca ==> Skips(b, 5)) && (b[0] == 0xcb ==> Skips(b, 9))
    ensures (b[0] == 0xd4 ==> Skips(b, 3)) && (b[0] == 0xd5 ==> Skips(b, 4)) && (b[0] == 0xd6 ==> Skips(b, 6))
    ensures (b[0] == 0xd7 ==> Skips(b, 10)) && (b[0] == 0xd8 ==> Skips(b, 18))
  {
    assert Pow256(1) == 256 * Pow256(0);
  }

  /** Binary strings and extensions begin with their length; a negative number is another type. */
  lemma ForeignLengths(b: Bytes)
    requires 1 < |b|
    ensures b[0] == 0xc4 ==> (var n: nat := b[1]; Skips(b, n + 2))
    ensures b[0] == 0xc7 ==> (var n: nat := b[1]; Skips(b, n + 3))
    ensures b[0] == 0xd0 ==> if b[1] < 0x80 then Unpack(b) == Some((UInt(b[1]), b[2..])) else Skips(b, 2)
  {
    var tail := b[1..2];
    assert tail == [b[1]] && tail[..0] == [];
    assert FromBigEndian(tail) == b[1];
    assert Pow256(1) == 256 * Pow256(0);
  }

  // ---------------------------------------------------------------- round trip

  lemma WideHead(first: byte, n: nat, k: nat, rest: Bytes)
    requires k == Width(first) && 0 < k && n < Pow256(k)
    ensures var b := [first] + BigEndian(n, k) + rest;
            Following(b, k) == Some(n) && b[k + 1..] == rest
  {
    var b := [first] + BigEndian(n, k) + rest;
    ReadBack(n, k, rest);
    assert b[1..k + 1] == BigEndian(n, k);
    BigEndianRoundTrip(n, k);
  }

  lemma UIntHeadBack(n: nat, rest: Bytes)
    requires n < TWO64
    ensures ReadHead(UIntHead(n) + rest) == Some((HUInt(n), |UIntHead(n)|))
    ensures (UIntHead(n) + rest)[|UIntHead(n)|..] == rest
  {
    Powers();
    if 128 <= n {
      var first := UIntHead(n)[0];
      WideHead(first, n, Width(first), rest);
      assert UIntHead(n) + rest == [first] + BigEndian(n, Width(first)) + rest;
    }
  }

  lemma StrHeadBack(n: nat, rest: Bytes)
    requires n < TWO32
    ensures ReadHead(StrHead(n) + rest) == Some((HStr(n), |StrHead(n)|))
    ensures (StrHead(n) + rest)[|StrHead(n)|..] == rest
  {
    Powers();
    if 32 <= n {
      var first := StrHead(n)[0];
      WideHead(first, n, Width(first), rest);
      assert StrHead(n) + rest == [first] + BigEndian(n, Width(first)) + rest;
    }
  }

  lemma ArrHeadBack(n: nat, rest: Bytes)
    requires n < TWO32
    ensures ReadHead(ArrHead(n) + rest) == Some((HArr(n), |ArrHead(n)|))
    ensures (ArrHead(n) + rest)[|ArrHead(n)|..] == rest
  {
    Powers();
    if 16 <= n {
      var first := ArrHead(n)[0];
      WideHead(first, n, Width(first), rest);
      assert ArrHead(n) + rest == [first] + BigEndian(n, Width(first)) + rest;
    }
  }

  /** Unpacking an encoding, whatever follows it, gives the value back and consumes exactly the encoding. */
  lemma {:induction false} RoundTrip(v: Value, rest: Bytes)
    requires Packable(v)
    ensures Unpack(Pack(v) + rest) == Some((v, rest))
    decreases v, 1
  {
    match v
    case UInt(n) => UIntHeadBack(n, rest);
    case Str(s) =>
      StrHeadBack(|s|, s + rest);
      assert Pack(v) + rest == StrHead(|s|) + (s + rest);
      var b, k := Pack(v) + rest, |StrHead(|s|)|;
      assert b[k..] == s + rest;
      assert b[k..k + |s|] == b[k..][..|s|] && b[k + |s|..] == b[k..][|s|..];
    case Arr(items) =>
      ArrHeadBack(|items|, PackAll(items) + rest);
      assert Pack(v) + rest == ArrHead(|items|) + (PackAll(items) + rest);
      RoundTripAll(items, rest);
  }

  lemma {:induction false} RoundTripAll(items: seq<Value>, rest: Bytes)
    requires forall i | 0 <= i < |items| :: Packable(items[i])
    ensures UnpackMany(|items|, PackAll(items) + rest) == Some((items, rest))
    decreases items, 0
  {
    if items == [] {
      assert PackAll(items) + rest == rest;
    } else {
      var head, vs := items[0], items[1..];
      var tail := PackAll(vs) + rest;
      var b := PackAll(items) + rest;
      PackAllCons(items, rest);
      RoundTrip(head, tail);
      RoundTripAll(vs, rest);
      assert Unpack(b) == Some((head, tail)) && [head] + vs == items;
      UnpackManyStep(|vs| + 1, b, head, tail, vs, items, rest);
    }
  }

  lemma PackAllCons(items: seq<Value>, rest: Bytes)
    requires items != [] && forall i | 0 <= i < |items| :: Packable(items[i])
    ensures PackAll(items) + rest == Pack(items[0]) + (PackAll(items[1..]) + rest)
  {
    Associative(Pack(items[0]), PackAll(items[1..]), rest);
  }

  lemma Associative(a: Bytes, b: Bytes, c: Bytes)
    ensures (a + b) + c == a + (b + c)
  {
  }

  lemma UnpackManyStep(k: nat, b: Bytes, v: Value, mid: Bytes, vs: seq<Value>, all: seq<Value>, rest: Bytes)
    requires 0 < k && Unpack(b) == Some((v, mid)) && UnpackMany(k - 1, mid) == Some((vs, rest)) && [v] + vs == all
    ensures UnpackMany(k, b) == Some((all, rest))
  {
  }

  lemma {:induction false} PackAllAppend(a: seq<Value>, b: seq<Value>)
    requires forall i | 0 <= i < |a| :: Packable(a[i])
    requires forall i | 0 <= i < |b| :: Packable(b[i])
    ensures PackAll(a + b) == PackAll(a) + PackAll(b)
    decreases |a|
  {
    if a == [] {
      assert a + b == b;
    } else {
      PackAllAppend(a[1..], b);
      assert (a + b)[1..] == a[1..] + b;
    }
  }
}
