/** The loops of filerail/socket.h that move octets and framed messages through partial send and recv calls. */
module Socket {
  import opened Bytes
  import opened Cipher
  import opened Disk
  import P = Protocol
  import opened MsgPack
  import opened Codec
  import opened Serializer
  import opened Transport

  /** One direction of a connection: the octets accepted by send and not yet returned by recv. */
  class Stream {
    const reliable: bool // no call fails that can succeed
    var wire: Bytes

    constructor (reliable: bool)
      ensures this.reliable == reliable && wire == []
    {
      this.reliable := reliable;
      wire := [];
    }

    /** send(2): accepts any positive number of the offered octets, or fails. */
    method OsSend(buf: array<byte>, cur: nat, len: nat) returns (nbytes: int)
      requires 0 < len && cur + len <= buf.Length
      modifies this
      ensures nbytes <= len && (reliable ==> nbytes > 0)
      ensures nbytes > 0 ==> wire == old(wire) + buf[cur..cur + nbytes]
      ensures nbytes <= 0 ==> wire == old(wire)
    {
      var least := if reliable then 1 else -1;
      assert least <= len;
      var n: int :| least <= n <= len;
      nbytes := n;
      if nbytes > 0 {
        wire := wire + buf[cur..cur + nbytes];
      }
    }

    /** recv(2): returns any positive number of the octets that are there, or 0 or -1. */
    method OsRecv(buf: array<byte>, cur: nat, len: nat) returns (nbytes: int)
      requires 0 < len && cur + len <= buf.Length
      modifies this, buf
      ensures nbytes <= len && (reliable && old(wire) != [] ==> nbytes > 0)
      ensures nbytes > 0 ==> nbytes <= |old(wire)| && wire == old(wire)[nbytes..]
                             && buf[..] == old(buf[..cur]) + old(wire)[..nbytes] + old(buf[cur + nbytes..])
      ensures nbytes <= 0 ==> wire == old(wire) && buf[..] == old(buf[..])
    {
      var least := if reliable && wire != [] then 1 else -1;
      assert least <= len && least <= |wire|;
      var n: int :| least <= n <= len && n <= |wire|;
      nbytes := n;
      if nbytes > 0 {
        forall i | 0 <= i < nbytes { buf[cur + i] := wire[i]; }
        wire := wire[nbytes..];
      }
    }

    /** filerail_send: all of the octets, or a failure after some of them. */
    method Send(buf: array<byte>) returns (ok: bool)
      modifies this
      ensures reliable ==> ok
      ensures ok ==> wire == old(wire) + buf[..]
      ensures old(wire) <= wire <= old(wire) + buf[..]
    {
      var cur, len := 0, buf.Length;
      while len != 0
        invariant 0 <= cur && 0 <= len && cur + len == buf.Length
        invariant wire == old(wire) + buf[..cur]
      {
        var nbytes := OsSend(buf, cur, len);
        if nbytes <= 0 {
          assert buf[..] == buf[..cur] + buf[cur..];
          return false;
        }
        assert buf[..cur + nbytes] == buf[..cur] + buf[cur..cur + nbytes];
        len := len - nbytes;
        cur := cur + nbytes;
      }
      assert buf[..cur] == buf[..];
      return true;
    }

    /** filerail_recv: fills the buffer from the front of the stream, or fails after taking less than that. */
    method Recv(buf: array<byte>) returns (ok: bool)
      modifies this, buf
      ensures reliable && |old(wire)| >= buf.Length ==> ok
      ensures ok ==> |old(wire)| >= buf.Length && buf[..] == old(wire)[..buf.Length] && wire == old(wire)[buf.Length..]
      ensures |wire| <= |old(wire)| && wire == old(wire)[|old(wire)| - |wire|..]
    {
      var cur, len := 0, buf.Length;
      while len != 0
        invariant 0 <= cur && 0 <= len && cur + len == buf.Length
        invariant cur <= |old(wire)| && wire == old(wire)[cur..] && buf[..cur] == old(wire)[..cur]
      {
        var nbytes := OsRecv(buf, cur, len);
        if nbytes <= 0 {
          return false;
        }
        assert buf[..cur + nbytes] == old(wire)[..cur] + old(wire)[cur..][..nbytes];
        len := len - nbytes;
        cur := cur + nbytes;
      }
      assert buf[..cur] == buf[..];
      return true;
    }

    /** The common end of the filerail_send_* functions: the length in network order, then the body. */
    method SendFrame(body: array<byte>) returns (ok: bool)
      requires body.Length < TWO32
      modifies this
      ensures reliable ==> ok
      ensures ok ==> wire == old(wire) + Frame(body[..])
      ensures old(wire) <= wire <= old(wire) + Frame(body[..])
    {
      var order := BigEndian(body.Length, 4);
      var size := new byte[4](i requires 0 <= i < 4 => order[i]);
      assert size[..] == order;
      ok := Send(size);
      assert old(wire) + Frame(body[..]) == old(wire) + order + body[..];
      if ok {
        ok := Send(body);
      }
    }

    /** The common beginning of the filerail_recv_* functions. */
    method RecvFrame() returns (ok: bool, body: array<byte>)
      modifies this
      ensures fresh(body)
      ensures reliable && HoldsFrame(old(wire)) ==> ok
      ensures ok ==> HoldsFrame(old(wire)) && body[..] == FirstBody(old(wire))
      ensures ok ==> body.Length < TWO32 && old(wire) == Frame(body[..]) + wire
      ensures |wire| <= |old(wire)| && wire == old(wire)[|old(wire)| - |wire|..]
    {
      var size := new byte[4];
      ok := Recv(size);
      if !ok {
        body := new byte[0];
        return;
      }
      var n := FromBigEndian(size[..]);
      ghost var mid := wire;
      body := new byte[n];
      ok := Recv(body);
      if ok {
        assert mid == body[..] + wire;
        OneFrame(old(wire), size[..], body[..], wire);
      }
    }
  }

  lemma OneFrame(whole: Bytes, size: Bytes, body: Bytes, rest: Bytes)
    requires |size| == 4 <= |whole| && size == whole[..4] && whole[4..] == body + rest && |body| == FromBigEndian(size)
    ensures HoldsFrame(whole) && body == FirstBody(whole) && |body| < TWO32 && whole == Frame(body) + rest
  {
    FourOctets(size);
    assert whole[4..][..|body|] == whole[4..4 + |body|] == body;
    assert whole == size + (body + rest);
    Associative(size, body, rest);
  }

  /** A whole frame is there: four octets and as many more as they say. */
  predicate HoldsFrame(wire: Bytes) {
    4 <= |wire| && 4 + FromBigEndian(wire[..4]) <= |wire|
  }

  function FirstBody(wire: Bytes): Bytes
    requires HoldsFrame(wire)
  {
    wire[4..4 + FromBigEndian(wire[..4])]
  }

  /** A whole frame is there whose body unpacks. */
  predicate Unpacks(wire: Bytes) { HoldsFrame(wire) && Unpack(FirstBody(wire)).Some? }

  /** As is the case when a message of an honest peer has arrived. */
  lemma HonestUnpacks(wire: Bytes, m: Msg)
    requires Sendable(m) && Frame(Encode(m)) <= wire
    ensures Unpacks(wire) && FirstBody(wire) == Encode(m)
  {
    var e := Encode(m);
    EncodedSize(m);
    Powers();
    assert wire[..4] == Frame(e)[..4] == BigEndian(|e|, 4);
    BigEndianRoundTrip(|e|, 4);
    assert wire[..|Frame(e)|][4..] == Frame(e)[4..] == e;
    DecodeEncode(m, []);
    assert e + [] == e;
  }

  /** Any four octets are the network order of the number they denote. */
  lemma FourOctets(s: Bytes)
    requires |s| == 4
    ensures FromBigEndian(s) < TWO32 && BigEndian(FromBigEndian(s), 4) == s
  {
    Powers();
    OctetsBack(s);
  }

  lemma {:induction false} OctetsBack(s: Bytes)
    ensures FromBigEndian(s) < Pow256(|s|) && BigEndian(FromBigEndian(s), |s|) == s
  {
    if s != [] {
      var init := s[..|s| - 1];
      OctetsBack(init);
      assert FromBigEndian(s) / 256 == FromBigEndian(init) && FromBigEndian(s) % 256 == s[|s| - 1];
      assert s == init + [s[|s| - 1]];
    }
  }

  // ---------------------------------------------------------------- sending each message

  /** The frame of m went out, or only a beginning of it. */
  twostate predicate Sent(s: Stream, m: Msg, ok: bool)
    requires Sendable(m)
    reads s
  {
    && (ok ==> s.wire == old(s.wire) + Frame(Encode(m))) && (s.reliable ==> ok)
    && old(s.wire) <= s.wire <= old(s.wire) + Frame(Encode(m))
  }

  method SendResponseHeader(s: Stream, code: byte) returns (ok: bool)
    modifies s
    ensures Sent(s, P.Code(code), ok)
  {
    var response := new ResponseHeader();
    response.responseType := code;
    var buf := SerializeResponseHeader(response);
    EncodedSize(P.Code(code));
    ok := s.SendFrame(buf);
  }

  method SendCommandHeader(s: Stream, code: byte) returns (ok: bool)
    modifies s
    ensures Sent(s, P.Code(code), ok)
  {
    var command := new CommandHeader();
    command.commandType := code;
    var buf := SerializeCommandHeader(command);
    EncodedSize(P.Code(code));
    ok := s.SendFrame(buf);
  }

  method SendResourceHeader(s: Stream, name: CString, dir: CString, size: nat) returns (ok: bool)
    requires Sendable(P.Resource(size, name, dir))
    modifies s
    ensures Sent(s, P.Resource(size, name, dir), ok)
  {
    var resource := new ResourceHeader();
    Memcpy(resource.resourceName, Padded(name, MAX_RESOURCE_LENGTH));
    Memcpy(resource.resourceDir, Padded(dir, MAX_PATH_LENGTH));
    resource.resourceSize := size;
    var buf := SerializeResourceHeader(resource, name, dir);
    EncodedSize(P.Resource(size, name, dir));
    ok := s.SendFrame(buf);
  }

  method SendFileOffset(s: Stream, offset: nat) returns (ok: bool)
    requires offset < TWO64
    modifies s
    ensures Sent(s, P.Offset(offset), ok)
  {
    var fo := new FileOffset();
    fo.offset := offset;
    var buf := SerializeFileOffset(fo);
    EncodedSize(P.Offset(offset));
    ok := s.SendFrame(buf);
  }

  method SendResourceHash(s: Stream, hash: Hash) returns (ok: bool)
    modifies s
    ensures Sent(s, P.Digest(hash), ok)
  {
    var rh := new ResourceHash();
    Memcpy(rh.hash, hash);
    assert rh.hash[..] == hash;
    var buf := SerializeResourceHash(rh);
    EncodedSize(P.Digest(hash));
    ok := s.SendFrame(buf);
  }

  method SendDataPacket(s: Stream, out: array<byte>, nbytes: nat) returns (ok: bool)
    requires out.Length == BUFFER_SIZE && nbytes < TWO64
    modifies s
    ensures Sent(s, P.Packet(out[..], nbytes), ok)
  {
    var data := new DataPacket();
    data.dataSize := nbytes;
    Memcpy(data.dataPayload, out[..]);
    assert data.dataPayload[..] == out[..];
    var buf := SerializeDataPacket(data);
    EncodedSize(P.Packet(out[..], nbytes));
    ok := s.SendFrame(buf);
  }

  // ---------------------------------------------------------------- receiving each message

  /** The next message on the stream is m, complete or still on its way. */
  ghost predicate Arriving(wire: Bytes, m: Msg)
    requires Sendable(m)
  {
    Frame(Encode(m)) <= wire || wire <= Frame(Encode(m))
  }

  lemma ArrivedFrame(wire: Bytes, m: Msg, body: Bytes, rest: Bytes)
    requires Sendable(m) && Arriving(wire, m) && |body| < TWO32 && wire == Frame(body) + rest
    ensures body == Encode(m) && rest == wire[|Frame(Encode(m))|..]
  {
    var e := Encode(m);
    EncodedSize(m);
    Powers();
    assert wire[..4] == BigEndian(|body|, 4);
    assert Frame(e)[..4] == BigEndian(|e|, 4);
    if wire <= Frame(e) {
      assert Frame(e)[..4] == wire[..4];
    } else {
      assert wire[..4] == Frame(e)[..4];
    }
    BigEndianRoundTrip(|body|, 4);
    BigEndianRoundTrip(|e|, 4);
    assert |body| == |e|;
    if wire <= Frame(e) {
      assert |wire| >= |Frame(e)| && wire == Frame(e);
    }
    assert wire[..|Frame(e)|] == Frame(e) && wire[..|Frame(e)|] == Frame(body);
    assert body == Frame(body)[4..] && e == Frame(e)[4..];
  }

  /** When an honest message is next on the stream, the body of the next frame decodes to it. */
  lemma HonestFrame(wire: Bytes, m: Msg, body: Bytes, rest: Bytes)
    requires Sendable(m) && Arriving(wire, m) && |body| < TWO32 && wire == Frame(body) + rest
    ensures body == Encode(m) && Readable(P.KindOf(m), body) && Decode(P.KindOf(m), body) == Some(m)
    ensures rest == wire[|Frame(Encode(m))|..]
  {
    ArrivedFrame(wire, m, body, rest);
    DecodeEncode(m, []);
    assert Encode(m) + [] == Encode(m);
  }

  /** Exactly one frame was taken from the stream, and `m` is what its body decodes to, if it has the right shape. */
  twostate predicate Took(s: Stream, k: Kind, body: Bytes, m: Msg)
    reads s
  {
    && |body| < TWO32 && old(s.wire) == Frame(body) + s.wire && Unpack(body).Some?
    && (Readable(k, body) ==> Decode(k, body) == Some(m))
  }

  method RecvResponseHeader(s: Stream, ptr: ResponseHeader) returns (ok: bool, ghost body: Bytes)
    modifies s, ptr
    ensures s.reliable && Unpacks(old(s.wire)) ==> ok
    ensures ok ==> Took(s, P.ACode, body, P.Code(ptr.responseType))
  {
    var buf;
    ok, buf := s.RecvFrame();
    body := buf[..];
    if ok {
      ok := DeserializeResponseHeader(ptr, buf);
    }
  }

  method RecvCommandHeader(s: Stream, ptr: CommandHeader) returns (ok: bool, ghost body: Bytes)
    modifies s, ptr
    ensures s.reliable && Unpacks(old(s.wire)) ==> ok
    ensures ok ==> Took(s, P.ACode, body, P.Code(ptr.commandType))
  {
    var buf;
    ok, buf := s.RecvFrame();
    body := buf[..];
    if ok {
      ok := DeserializeCommandHeader(ptr, buf);
    }
  }

  method RecvResourceHeader(s: Stream, ptr: ResourceHeader) returns (ok: bool, ghost body: Bytes)
    requires ptr.Valid() && ptr.resourceName != ptr.resourceDir
    modifies s, ptr, ptr.resourceName, ptr.resourceDir
    ensures s.reliable && Unpacks(old(s.wire)) ==> ok
    ensures ok ==> Took(s, P.AResource, body,
                        P.Resource(ptr.resourceSize, CStr(ptr.resourceName[..]), CStr(ptr.resourceDir[..])))
  {
    var buf;
    ok, buf := s.RecvFrame();
    body := buf[..];
    if ok {
      ok := DeserializeResourceHeader(ptr, buf);
    }
  }

  method RecvFileOffset(s: Stream, ptr: FileOffset) returns (ok: bool, ghost body: Bytes)
    modifies s, ptr
    ensures s.reliable && Unpacks(old(s.wire)) ==> ok
    ensures ok ==> Took(s, P.AnOffset, body, P.Offset(ptr.offset))
  {
    var buf;
    ok, buf := s.RecvFrame();
    body := buf[..];
    if ok {
      ok := DeserializeFileOffset(ptr, buf);
    }
  }

  method RecvResourceHash(s: Stream, ptr: ResourceHash) returns (ok: bool, ghost body: Bytes)
    requires ptr.hash.Length == HASH_LENGTH
    modifies s, ptr.hash
    ensures s.reliable && Unpacks(old(s.wire)) ==> ok
    ensures ok ==> Took(s, P.ADigest, body, P.Digest(ptr.hash[..]))
  {
    var buf;
    ok, buf := s.RecvFrame();
    body := buf[..];
    if ok {
      ok := DeserializeResourceHash(ptr, buf);
    }
  }

  method RecvDataPacket(s: Stream, ptr: DataPacket) returns (ok: bool, ghost body: Bytes)
    requires ptr.dataPayload.Length == BUFFER_SIZE
    modifies s, ptr, ptr.dataPayload
    ensures s.reliable && Unpacks(old(s.wire)) ==> ok
    ensures ok ==> Took(s, P.APacket, body, P.Packet(ptr.dataPayload[..], ptr.dataSize))
  {
    var buf;
    ok, buf := s.RecvFrame();
    body := buf[..];
    if ok {
      ok := DeserializeDataPacket(ptr, buf);
    }
  }
}
