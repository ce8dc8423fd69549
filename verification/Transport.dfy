/**
 filerail/socket.h between messages and the byte stream: length-prefixed frames, the partial send and recv loops, and
 recovery of the message sequence under any fragmentation.
 */
module Transport {
  import opened Bytes
  import opened Cipher
  import opened Disk
  import P = Protocol
  import opened MsgPack
  import opened Codec
  import opened Serializer

  /** A message body behind its length as a big-endian uint32_t. */
  function Frame(body: Bytes): Bytes {
    BigEndian(|body|, 4) + body
  }

  /** The length comes first, its most significant octet foremost. */
  lemma FrameLayout(body: Bytes)
    requires |body| < TWO32
    ensures var n := |body|;
            Frame(body) == [n / 0x100_0000, n / 0x1_0000 % 0x100, n / 0x100 % 0x100, n % 0x100] + body
  {
    NetworkOrder(|body|);
  }

  /** PING, PONG and an offset of one block, as they go over the wire. */
  lemma KnownFrames()
    ensures Frame(Encode(P.Code(P.PING))) == [0, 0, 0, 1, 2] && Frame(Encode(P.Code(P.PONG))) == [0, 0, 0, 1, 1]
    ensures Frame(Encode(P.Offset(1024))) == [0, 0, 0, 3, 0xcd, 4, 0]
  {
    WireFormat(P.Code(P.PING));
    WireFormat(P.Code(P.PONG));
    UIntFormats(1024);
    FrameLayout([2]);
    FrameLayout([1]);
    FrameLayout([0xcd, 4, 0]);
  }

  function Frames(bodies: seq<Bytes>): Bytes {
    if bodies == [] then [] else Frame(bodies[0]) + Frames(bodies[1..])
  }

  // ---------------------------------------------------------------- fragmentation

  /** Where the receiving code is: in a length prefix, or in the body it announced. */
  datatype Reader = InLength(got: Bytes) | InBody(size: nat, got: Bytes)

  /**
   A connection in one direction: octets handed to send but not accepted yet, octets under way, and the receiver with
   the bodies it has completed.
   */
  datatype Pipe = Pipe(unsent: Bytes, wire: Bytes, reader: Reader, delivered: seq<Bytes>)

  /** One send accepts n octets, or one recv returns n octets. */
  datatype Transfer = Push(n: nat) | Pull(n: nat)

  /** How many octets the current recv loop still asks for. */
  function Wanted(r: Reader): int {
    match r
    case InLength(got) => 4 - |got|
    case InBody(size, got) => size - |got|
  }

  /** The reader after some octets, with a body if one is complete; an empty body is complete at once. */
  function Take(r: Reader, s: Bytes): (Reader, seq<Bytes>) {
    match r
    case InLength(got) =>
      if |got + s| < 4 then (InLength(got + s), [])
      else if FromBigEndian(got + s) == 0 then (InLength([]), [[]])
      else (InBody(FromBigEndian(got + s), []), [])
    case InBody(size, got) =>
      if |got + s| < size then (InBody(size, got + s), []) else (InLength([]), [got + s])
  }

  /** At most `cap` octets are under way. */
  function Move(p: Pipe, cap: nat, t: Transfer): Option<Pipe> {
    match t
    case Push(n) =>
      if 0 < n <= |p.unsent| && |p.wire| + n <= cap
      then Some(p.(unsent := p.unsent[n..], wire := p.wire + p.unsent[..n])) else None
    case Pull(n) =>
      if 0 < n <= |p.wire| && n <= Wanted(p.reader) then
        var (r, done) := Take(p.reader, p.wire[..n]);
        Some(p.(wire := p.wire[n..], reader := r, delivered := p.delivered + done))
      else None
  }

  function Moves(p: Pipe, cap: nat, ts: seq<Transfer>): Option<Pipe>
    decreases |ts|
  {
    if ts == [] then Some(p) else
      match Move(p, cap, ts[0])
      case None => None
      case Some(p') => Moves(p', cap, ts[1..])
  }

  predicate Framable(bodies: seq<Bytes>) {
    forall i | 0 <= i < |bodies| :: |bodies[i]| < TWO32
  }

  /** The octets the reader holds, as they came from the stream. */
  function Held(r: Reader): Bytes {
    match r
    case InLength(got) => got
    case InBody(size, got) => BigEndian(size, 4) + got
  }

  predicate ReaderGood(r: Reader) {
    match r
    case InLength(got) => |got| < 4
    case InBody(size, got) => |got| < size < TWO32
  }

  /** What was delivered is a prefix of what was sent, and everything else is held, under way or unsent. */
  predicate PipeInv(bodies: seq<Bytes>, p: Pipe) {
    && ReaderGood(p.reader)
    && p.delivered <= bodies
    && Held(p.reader) + p.wire + p.unsent == Frames(bodies[|p.delivered|..])
  }

  lemma PushKeeps(bodies: seq<Bytes>, p: Pipe, cap: nat, n: nat)
    requires PipeInv(bodies, p) && Move(p, cap, Push(n)).Some?
    ensures PipeInv(bodies, Move(p, cap, Push(n)).value)
  {
    assert p.unsent == p.unsent[..n] + p.unsent[n..];
    assert Held(p.reader) + (p.wire + p.unsent[..n]) + p.unsent[n..] == Held(p.reader) + p.wire + p.unsent;
  }

  /** Two streams that agree, cut at the same place, agree on both parts. */
  lemma CutEqual(a: Bytes, b: Bytes, c: Bytes, d: Bytes)
    requires a + b == c + d && |a| == |c|
    ensures a == c && b == d
  {
    assert a == (a + b)[..|a|] && c == (c + d)[..|c|];
    assert b == (a + b)[|a|..] && d == (c + d)[|c|..];
  }

  lemma PullKeeps(bodies: seq<Bytes>, p: Pipe, cap: nat, n: nat)
    requires Framable(bodies) && PipeInv(bodies, p) && Move(p, cap, Pull(n)).Some?
    ensures PipeInv(bodies, Move(p, cap, Pull(n)).value)
  {
    var k, s := |p.delivered|, p.wire[..n];
    var rest := p.wire[n..] + p.unsent;
    assert p.wire == s + p.wire[n..];
    assert Held(p.reader) + p.wire + p.unsent == (Held(p.reader) + s) + rest;
    assert k < |bodies|;
    assert Frames(bodies[k..]) == BigEndian(|bodies[k]|, 4) + (bodies[k] + Frames(bodies[k + 1..])) by {
      assert bodies[k..][1..] == bodies[k + 1..];
      Associative(BigEndian(|bodies[k]|, 4), bodies[k], Frames(bodies[k + 1..]));
    }
    match p.reader
    case InLength(got) => PullLength(bodies, p, cap, n, got, s, rest);
    case InBody(size, got) => PullBody(bodies, p, cap, n, size, got, s, rest);
  }

  ghost predicate AtLength(bodies: seq<Bytes>, p: Pipe, cap: nat, n: nat, got: Bytes, s: Bytes, rest: Bytes) {
    && Framable(bodies) && PipeInv(bodies, p) && Move(p, cap, Pull(n)).Some? && p.reader == InLength(got)
    && s == p.wire[..n] && rest == p.wire[n..] + p.unsent && |p.delivered| < |bodies|
    && var k := |p.delivered|;
       (got + s) + rest == BigEndian(|bodies[k]|, 4) + (bodies[k] + Frames(bodies[k + 1..]))
  }

  lemma PullLength(bodies: seq<Bytes>, p: Pipe, cap: nat, n: nat, got: Bytes, s: Bytes, rest: Bytes)
    requires AtLength(bodies, p, cap, n, got, s, rest)
    ensures PipeInv(bodies, Move(p, cap, Pull(n)).value)
  {
    if |got + s| < 4 {
      PullShort(bodies, p, cap, n, got, s, rest);
    } else {
      PullWhole(bodies, p, cap, n, got, s, rest);
    }
  }

  lemma PullShort(bodies: seq<Bytes>, p: Pipe, cap: nat, n: nat, got: Bytes, s: Bytes, rest: Bytes)
    requires AtLength(bodies, p, cap, n, got, s, rest) && |got + s| < 4
    ensures PipeInv(bodies, Move(p, cap, Pull(n)).value)
  {
    var k, p' := |p.delivered|, Move(p, cap, Pull(n)).value;
    assert p'.delivered == p.delivered;
    assert Held(p'.reader) + p'.wire + p'.unsent == (got + s) + rest;
    assert bodies[k..][1..] == bodies[k + 1..];
    Associative(BigEndian(|bodies[k]|, 4), bodies[k], Frames(bodies[k + 1..]));
  }

  lemma PullWhole(bodies: seq<Bytes>, p: Pipe, cap: nat, n: nat, got: Bytes, s: Bytes, rest: Bytes)
    requires AtLength(bodies, p, cap, n, got, s, rest) && |got + s| >= 4
    ensures PipeInv(bodies, Move(p, cap, Pull(n)).value)
  {
    var k, p' := |p.delivered|, Move(p, cap, Pull(n)).value;
    CutEqual(got + s, rest, BigEndian(|bodies[k]|, 4), bodies[k] + Frames(bodies[k + 1..]));
    LengthRoundTrip(|bodies[k]|);
    if |bodies[k]| == 0 {
      assert p'.delivered == p.delivered + [[]] && bodies[k] == [];
      assert p'.delivered == bodies[..k + 1];
      assert Held(p'.reader) + p'.wire + p'.unsent == rest;
    } else {
      assert p'.delivered == p.delivered;
      assert Held(p'.reader) + p'.wire + p'.unsent == (got + s) + rest;
      assert bodies[k..][1..] == bodies[k + 1..];
      Associative(BigEndian(|bodies[k]|, 4), bodies[k], Frames(bodies[k + 1..]));
    }
  }

  lemma LengthRoundTrip(n: nat)
    requires n < TWO32
    ensures FromBigEndian(BigEndian(n, 4)) == n
  {
    Powers();
    BigEndianRoundTrip(n, 4);
  }

  /** A length that has been read is that of the body behind it. */
  lemma SameLength(size: nat, got: Bytes, s: Bytes, rest: Bytes, body: Bytes, more: Bytes)
    requires size < TWO32 && |body| < TWO32
    requires (BigEndian(size, 4) + got + s) + rest == BigEndian(|body|, 4) + (body + more)
    ensures size == |body| && got + s + rest == body + more
  {
    var a, b := BigEndian(size, 4), BigEndian(|body|, 4);
    Regroup(a, got, s, rest);
    CutEqual(a, got + s + rest, b, body + more);
    LengthRoundTrip(|body|);
    LengthRoundTrip(size);
  }

  lemma Regroup(a: Bytes, b: Bytes, c: Bytes, d: Bytes)
    ensures (a + b + c) + d == a + (b + c + d)
  {
  }

  lemma PullBody(bodies: seq<Bytes>, p: Pipe, cap: nat, n: nat, size: nat, got: Bytes, s: Bytes, rest: Bytes)
    requires Framable(bodies) && PipeInv(bodies, p) && Move(p, cap, Pull(n)).Some? && p.reader == InBody(size, got)
    requires s == p.wire[..n] && rest == p.wire[n..] + p.unsent && |p.delivered| < |bodies|
    requires var k := |p.delivered|;
             (BigEndian(size, 4) + got + s) + rest == BigEndian(|bodies[k]|, 4) + (bodies[k] + Frames(bodies[k + 1..]))
    ensures PipeInv(bodies, Move(p, cap, Pull(n)).value)
  {
    var k := |p.delivered|;
    SameLength(size, got, s, rest, bodies[k], Frames(bodies[k + 1..]));
    if |got + s| < size {
      PullMore(bodies, p, cap, n, size, got, s, rest);
    } else {
      PullLast(bodies, p, cap, n, size, got, s, rest);
    }
  }

  lemma PullMore(bodies: seq<Bytes>, p: Pipe, cap: nat, n: nat, size: nat, got: Bytes, s: Bytes, rest: Bytes)
    requires PipeInv(bodies, p) && Move(p, cap, Pull(n)).Some? && p.reader == InBody(size, got)
    requires s == p.wire[..n] && rest == p.wire[n..] + p.unsent && |got + s| < size
    ensures PipeInv(bodies, Move(p, cap, Pull(n)).value)
  {
    var p' := Move(p, cap, Pull(n)).value;
    assert p'.delivered == p.delivered;
    assert p.wire == s + p.wire[n..];
    assert Held(p'.reader) + p'.wire + p'.unsent == Held(p.reader) + p.wire + p.unsent;
  }

  lemma PullLast(bodies: seq<Bytes>, p: Pipe, cap: nat, n: nat, size: nat, got: Bytes, s: Bytes, rest: Bytes)
    requires PipeInv(bodies, p) && Move(p, cap, Pull(n)).Some? && p.reader == InBody(size, got)
    requires s == p.wire[..n] && rest == p.wire[n..] + p.unsent && |got + s| == size && |p.delivered| < |bodies|
    requires var k := |p.delivered|; got + s + rest == bodies[k] + Frames(bodies[k + 1..]) && size == |bodies[k]|
    ensures PipeInv(bodies, Move(p, cap, Pull(n)).value)
  {
    var k, p' := |p.delivered|, Move(p, cap, Pull(n)).value;
    CutEqual(got + s, rest, bodies[k], Frames(bodies[k + 1..]));
    assert p'.delivered == p.delivered + [bodies[k]] == bodies[..k + 1];
    assert Held(p'.reader) + p'.wire + p'.unsent == rest;
  }

  lemma {:induction false} MovesKeep(bodies: seq<Bytes>, p: Pipe, cap: nat, ts: seq<Transfer>)
    requires Framable(bodies) && PipeInv(bodies, p) && Moves(p, cap, ts).Some?
    ensures PipeInv(bodies, Moves(p, cap, ts).value)
    decreases |ts|
  {
    if ts != [] {
      match ts[0] {
        case Push(n) => PushKeeps(bodies, p, cap, n);
        case Pull(n) => PullKeeps(bodies, p, cap, n);
      }
      MovesKeep(bodies, Move(p, cap, ts[0]).value, cap, ts[1..]);
    }
  }

  function Fresh(bodies: seq<Bytes>): Pipe { Pipe(Frames(bodies), [], InLength([]), []) }

  lemma FramesNonEmpty(bodies: seq<Bytes>)
    ensures bodies != [] ==> |Frames(bodies)| >= 4
  {
  }

  /**
   Stream recovery. For any bodies, any room for octets under way and any positive split chosen by each send and recv,
   in any interleaving, what the receiver has completed is a prefix of what was sent, in order; when nothing is unsent
   or under way it is all of it, with no octet left over; and until then some send or recv can make progress.
   */
  lemma StreamRecovery(bodies: seq<Bytes>, cap: nat, ts: seq<Transfer>, p: Pipe)
    requires Framable(bodies) && 0 < cap && Moves(Fresh(bodies), cap, ts) == Some(p)
    ensures p.delivered <= bodies
    ensures p.unsent == [] && p.wire == [] <==> p.delivered == bodies
    ensures p.delivered == bodies ==> p.reader == InLength([])
    ensures p.delivered != bodies ==> Move(p, cap, Push(1)).Some? || Move(p, cap, Pull(1)).Some?
  {
    assert bodies[0..] == bodies;
    MovesKeep(bodies, Fresh(bodies), cap, ts);
    var left := bodies[|p.delivered|..];
    if p.unsent == [] && p.wire == [] && left != [] {
      HeldTooShort(p.reader, left);
    }
  }

  lemma HeldTooShort(r: Reader, left: seq<Bytes>)
    requires ReaderGood(r) && left != [] && Framable(left)
    ensures Held(r) + [] + [] != Frames(left)
  {
    if Held(r) + [] + [] == Frames(left) {
      var body, more := left[0], Frames(left[1..]);
      Associative(BigEndian(|body|, 4), body, more);
      match r
      case InLength(got) =>
        FramesNonEmpty(left);
        assert false;
      case InBody(size, got) =>
        assert BigEndian(size, 4) + got == BigEndian(|body|, 4) + (body + more);
        CutEqual(BigEndian(size, 4), got, BigEndian(|body|, 4), body + more);
        Powers();
        BigEndianRoundTrip(size, 4);
        BigEndianRoundTrip(|body|, 4);
        assert false;
    }
  }

  // ---------------------------------------------------------------- messages over frames

  function EncodeAll(ms: seq<Msg>): (bodies: seq<Bytes>)
    requires forall i | 0 <= i < |ms| :: Sendable(ms[i])
    ensures |bodies| == |ms| && forall i | 0 <= i < |ms| :: bodies[i] == Encode(ms[i])
  {
    seq(|ms|, i requires 0 <= i < |ms| => Encode(ms[i]))
  }

  /** The channels of the session model are FIFO: what the stream gives decodes to the messages sent, in order. */
  lemma MessagesRecovered(ms: seq<Msg>, cap: nat, ts: seq<Transfer>, p: Pipe, i: nat)
    requires forall i | 0 <= i < |ms| :: Sendable(ms[i])
    requires 0 < cap && Moves(Fresh(EncodeAll(ms)), cap, ts) == Some(p) && i < |p.delivered|
    ensures i < |ms| && Decode(P.KindOf(ms[i]), p.delivered[i]) == Some(ms[i])
  {
    forall j | 0 <= j < |ms| ensures |EncodeAll(ms)[j]| < TWO32 { EncodedSize(ms[j]); }
    StreamRecovery(EncodeAll(ms), cap, ts, p);
    DecodeEncode(ms[i], []);
    assert Encode(ms[i]) + [] == Encode(ms[i]);
  }
}
