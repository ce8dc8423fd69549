/**
 filerail/serializer.h and filerail/deserializer.h as they run: encoders append to a msgpack buffer piece by piece
 and copy it out, decoders fill the fields of the caller's structure. Each is proved against the codec functions.
 */
module Serializer {
  import opened Bytes
  import opened Cipher
  import opened Disk
  import P = Protocol
  import opened MsgPack
  import opened Codec

  /** msgpack_sbuffer with its packer. */
  class Sbuffer {
    var data: Bytes

    constructor ()
      ensures data == []
    {
      data := [];
    }

    method PackUint(n: nat)
      requires n < TWO64
      modifies this
      ensures data == old(data) + UIntHead(n)
    {
      data := data + UIntHead(n);
    }

    method PackArray(n: nat)
      requires n < TWO32
      modifies this
      ensures data == old(data) + ArrHead(n)
    {
      data := data + ArrHead(n);
    }

    method PackStr(n: nat)
      requires n < TWO32
      modifies this
      ensures data == old(data) + StrHead(n)
    {
      data := data + StrHead(n);
    }

    method PackStrBody(body: array<byte>)
      modifies this
      ensures data == old(data) + body[..]
    {
      data := data + body[..];
    }

    /** The loops that pack an array of octets one by one. */
    method PackOctets(a: array<byte>)
      modifies this
      ensures data == old(data) + PackAll(Octets(a[..]))
    {
      var i := 0;
      assert data == data + PackAll(Octets(a[..0]));
      while i < a.Length
        invariant 0 <= i <= a.Length
        invariant data == old(data) + PackAll(Octets(a[..i]))
      {
        OctetWire(a[..i], a[i]);
        UIntFormats(a[i]);
        assert a[..i + 1] == a[..i] + [a[i]];
        PackUint(a[i]);
        i := i + 1;
      }
      assert a[..i] == a[..];
    }

    method CopyOut() returns (buf: array<byte>)
      ensures fresh(buf) && buf[..] == data
    {
      buf := new byte[|data|](i requires 0 <= i < |data| reads this => data[i]);
    }
  }

  // ---------------------------------------------------------------- the structures

  class ResponseHeader {
    var responseType: byte
    constructor () { responseType := 0; }
  }

  class CommandHeader {
    var commandType: byte
    constructor () { commandType := 0; }
  }

  class FileOffset {
    var offset: nat
    constructor () { offset := 0; }
  }

  class ResourceHeader {
    var resourceSize: nat
    const resourceName: array<byte>
    const resourceDir: array<byte>
    constructor ()
      ensures fresh(resourceName) && fresh(resourceDir) && Valid()
    {
      resourceSize := 0;
      resourceName := new byte[MAX_RESOURCE_LENGTH];
      resourceDir := new byte[MAX_PATH_LENGTH];
    }
    predicate Valid() {
      resourceName.Length == MAX_RESOURCE_LENGTH && resourceDir.Length == MAX_PATH_LENGTH
    }
  }

  class ResourceHash {
    const hash: array<byte>
    constructor ()
      ensures fresh(hash) && hash.Length == HASH_LENGTH
    {
      hash := new byte[HASH_LENGTH];
    }
  }

  class DataPacket {
    const dataPayload: array<byte>
    var dataSize: nat
    constructor ()
      ensures fresh(dataPayload) && dataPayload.Length == BUFFER_SIZE
    {
      dataPayload := new byte[BUFFER_SIZE];
      dataSize := 0;
    }
  }

  // ---------------------------------------------------------------- encoders

  method SerializeResponseHeader(ptr: ResponseHeader) returns (buf: array<byte>)
    ensures fresh(buf) && buf[..] == Encode(P.Code(ptr.responseType))
  {
    var sbuf := new Sbuffer();
    sbuf.PackUint(ptr.responseType);
    buf := sbuf.CopyOut();
  }

  method SerializeCommandHeader(ptr: CommandHeader) returns (buf: array<byte>)
    ensures fresh(buf) && buf[..] == Encode(P.Code(ptr.commandType))
  {
    var sbuf := new Sbuffer();
    sbuf.PackUint(ptr.commandType);
    buf := sbuf.CopyOut();
  }

  method SerializeFileOffset(ptr: FileOffset) returns (buf: array<byte>)
    requires ptr.offset < TWO64
    ensures fresh(buf) && buf[..] == Encode(P.Offset(ptr.offset))
  {
    var sbuf := new Sbuffer();
    sbuf.PackUint(ptr.offset);
    buf := sbuf.CopyOut();
  }

  /** The structure holds these strings: each array is zero after its string. */
  ghost predicate Holding(ptr: ResourceHeader, name: CString, dir: CString)
    reads ptr, ptr.resourceName, ptr.resourceDir
  {
    && |name| < MAX_RESOURCE_LENGTH && |dir| < MAX_PATH_LENGTH
    && ptr.resourceName[..] == Padded(name, MAX_RESOURCE_LENGTH)
    && ptr.resourceDir[..] == Padded(dir, MAX_PATH_LENGTH)
  }

  method SerializeResourceHeader(ptr: ResourceHeader, ghost name: CString, ghost dir: CString)
      returns (buf: array<byte>)
    requires ptr.Valid() && Holding(ptr, name, dir) && ptr.resourceSize < TWO64
    ensures fresh(buf) && buf[..] == Encode(P.Resource(ptr.resourceSize, name, dir))
  {
    var sbuf := new Sbuffer();
    sbuf.PackArray(3);
    sbuf.PackUint(ptr.resourceSize);
    sbuf.PackStr(MAX_RESOURCE_LENGTH);
    sbuf.PackStrBody(ptr.resourceName);
    sbuf.PackStr(MAX_PATH_LENGTH);
    sbuf.PackStrBody(ptr.resourceDir);
    ResourcePieces(ptr.resourceSize, name, dir);
    buf := sbuf.CopyOut();
  }

  lemma ResourcePieces(size: nat, name: CString, dir: CString)
    requires Sendable(P.Resource(size, name, dir))
    ensures Encode(P.Resource(size, name, dir))
            == [] + ArrHead(3) + UIntHead(size) + StrHead(MAX_RESOURCE_LENGTH) + Padded(name, MAX_RESOURCE_LENGTH)
               + StrHead(MAX_PATH_LENGTH) + Padded(dir, MAX_PATH_LENGTH)
  {
    var n, d := Padded(name, MAX_RESOURCE_LENGTH), Padded(dir, MAX_PATH_LENGTH);
    PackThree(UInt(size), Str(n), Str(d));
    Regroup(ArrHead(3), UIntHead(size), StrHead(MAX_RESOURCE_LENGTH), n, StrHead(MAX_PATH_LENGTH), d);
  }

  lemma Regroup(a: Bytes, b: Bytes, c: Bytes, d: Bytes, e: Bytes, f: Bytes)
    ensures a + (b + (c + d) + (e + f)) == [] + a + b + c + d + e + f
  {
  }

  method SerializeResourceHash(ptr: ResourceHash) returns (buf: array<byte>)
    requires ptr.hash.Length == HASH_LENGTH
    ensures fresh(buf) && buf[..] == Encode(P.Digest(ptr.hash[..]))
  {
    var sbuf := new Sbuffer();
    sbuf.PackArray(HASH_LENGTH);
    sbuf.PackOctets(ptr.hash);
    buf := sbuf.CopyOut();
  }

  method SerializeDataPacket(ptr: DataPacket) returns (buf: array<byte>)
    requires ptr.dataPayload.Length == BUFFER_SIZE && ptr.dataSize < TWO64
    ensures fresh(buf) && buf[..] == Encode(P.Packet(ptr.dataPayload[..], ptr.dataSize))
  {
    var sbuf := new Sbuffer();
    sbuf.PackArray(2);
    sbuf.PackArray(BUFFER_SIZE);
    sbuf.PackOctets(ptr.dataPayload);
    sbuf.PackUint(ptr.dataSize);
    PackTwo(Arr(Octets(ptr.dataPayload[..])), UInt(ptr.dataSize));
    buf := sbuf.CopyOut();
  }

  // ---------------------------------------------------------------- decoders

  /** The object has the shape the decoder takes for granted; another is read through the wrong member of a union. */
  ghost predicate Readable(k: Kind, b: Bytes) {
    Unpack(b).Some? ==> Shaped(k, Unpack(b).value.0)
  }

  /** What reading an object of another shape leaves in an array. */
  method Garble(a: array<byte>)
    modifies a
  {
    var i := 0;
    while i < a.Length
      invariant 0 <= i <= a.Length
    {
      a[i] := *;
      i := i + 1;
    }
  }

  method DeserializeResponseHeader(ptr: ResponseHeader, buf: array<byte>) returns (ok: bool)
    modifies ptr
    ensures ok == Unpack(buf[..]).Some?
    ensures ok && Readable(P.ACode, buf[..]) ==> Decode(P.ACode, buf[..]) == Some(P.Code(ptr.responseType))
    ensures !ok ==> ptr.responseType == old(ptr.responseType)
  {
    var msg := Unpack(buf[..]);
    ok := msg.Some?;
    if ok {
      ptr.responseType := *;
      if Shaped(P.ACode, msg.value.0) {
        ptr.responseType := msg.value.0.n % 256;
      }
    }
  }

  method DeserializeCommandHeader(ptr: CommandHeader, buf: array<byte>) returns (ok: bool)
    modifies ptr
    ensures ok == Unpack(buf[..]).Some?
    ensures ok && Readable(P.ACode, buf[..]) ==> Decode(P.ACode, buf[..]) == Some(P.Code(ptr.commandType))
    ensures !ok ==> ptr.commandType == old(ptr.commandType)
  {
    var msg := Unpack(buf[..]);
    ok := msg.Some?;
    if ok {
      ptr.commandType := *;
      if Shaped(P.ACode, msg.value.0) {
        ptr.commandType := msg.value.0.n % 256;
      }
    }
  }

  method DeserializeFileOffset(ptr: FileOffset, buf: array<byte>) returns (ok: bool)
    modifies ptr
    ensures ok == Unpack(buf[..]).Some?
    ensures ok && Readable(P.AnOffset, buf[..]) ==> Decode(P.AnOffset, buf[..]) == Some(P.Offset(ptr.offset))
    ensures !ok ==> ptr.offset == old(ptr.offset)
  {
    var msg := Unpack(buf[..]);
    ok := msg.Some?;
    if ok {
      ptr.offset := *;
      if Shaped(P.AnOffset, msg.value.0) {
        ptr.offset := msg.value.0.n;
      }
    }
  }

  method Memcpy(dst: array<byte>, src: Bytes)
    requires dst.Length <= |src|
    modifies dst
    ensures dst[..] == src[..dst.Length]
  {
    forall i | 0 <= i < dst.Length { dst[i] := src[i]; }
  }

  method DeserializeResourceHeader(ptr: ResourceHeader, buf: array<byte>) returns (ok: bool)
    requires ptr.Valid() && ptr.resourceName != ptr.resourceDir && buf != ptr.resourceName && buf != ptr.resourceDir
    modifies ptr, ptr.resourceName, ptr.resourceDir
    ensures ok == Unpack(buf[..]).Some?
    ensures ok && Readable(P.AResource, buf[..]) ==>
              Decode(P.AResource, buf[..])
              == Some(P.Resource(ptr.resourceSize, CStr(ptr.resourceName[..]), CStr(ptr.resourceDir[..])))
    ensures !ok ==> ptr.resourceSize == old(ptr.resourceSize)
                    && ptr.resourceName[..] == old(ptr.resourceName[..])
                    && ptr.resourceDir[..] == old(ptr.resourceDir[..])
  {
    var msg := Unpack(buf[..]);
    ok := msg.Some?;
    if ok && Shaped(P.AResource, msg.value.0) {
      var root := msg.value.0.items;
      ptr.resourceSize := root[0].n;
      Memcpy(ptr.resourceName, root[1].s);
      Memcpy(ptr.resourceDir, root[2].s);
    } else if ok {
      ptr.resourceSize := *;
      Garble(ptr.resourceName);
      Garble(ptr.resourceDir);
    }
  }

  /** The loops that read an array of numbers into octets. */
  method FillOctets(a: array<byte>, vs: seq<Value>)
    requires Numbers(vs, a.Length)
    modifies a
    ensures a[..] == Narrowed(vs, a.Length)
  {
    var i := 0;
    while i < a.Length
      invariant 0 <= i <= a.Length
      invariant forall j | 0 <= j < i :: a[j] == vs[j].n % 256
    {
      a[i] := vs[i].n % 256;
      i := i + 1;
    }
  }

  method DeserializeResourceHash(ptr: ResourceHash, buf: array<byte>) returns (ok: bool)
    requires ptr.hash.Length == HASH_LENGTH && buf != ptr.hash
    modifies ptr.hash
    ensures ok == Unpack(buf[..]).Some?
    ensures ok && Readable(P.ADigest, buf[..]) ==> Decode(P.ADigest, buf[..]) == Some(P.Digest(ptr.hash[..]))
    ensures !ok ==> ptr.hash[..] == old(ptr.hash[..])
  {
    var msg := Unpack(buf[..]);
    ok := msg.Some?;
    if ok && Shaped(P.ADigest, msg.value.0) {
      FillOctets(ptr.hash, msg.value.0.items);
    } else if ok {
      Garble(ptr.hash);
    }
  }

  method DeserializeDataPacket(ptr: DataPacket, buf: array<byte>) returns (ok: bool)
    requires ptr.dataPayload.Length == BUFFER_SIZE && buf != ptr.dataPayload
    modifies ptr, ptr.dataPayload
    ensures ok == Unpack(buf[..]).Some?
    ensures ok && Readable(P.APacket, buf[..]) ==>
              Decode(P.APacket, buf[..]) == Some(P.Packet(ptr.dataPayload[..], ptr.dataSize))
    ensures !ok ==> ptr.dataSize == old(ptr.dataSize) && ptr.dataPayload[..] == old(ptr.dataPayload[..])
  {
    var msg := Unpack(buf[..]);
    ok := msg.Some?;
    if ok && Shaped(P.APacket, msg.value.0) {
      var root := msg.value.0.items;
      FillOctets(ptr.dataPayload, root[0].items);
      ptr.dataSize := root[1].n;
    } else if ok {
      ptr.dataSize := *;
      Garble(ptr.dataPayload);
    }
  }
}
