/**
 The receiver's durable state: its regular files by their full names, the checkpoint files named after archive hashes
 (filerail/crypto.h:56-63, filerail/operations.h:242-246, filerail/socket.h:386-388) and the on-disk
 checkpoint record (filerail/protocol.h:59-62).
 */
module Disk {
  import opened Bytes

  type Fs = map<CString, Bytes>

  // ---------------------------------------------------------------- checkpoint names

  const SLASH: byte := 47
  const TMP_SUFFIX: CString := [46, 116, 109, 112] // ".tmp"

  /** The digits '0'..'9' and 'a'..'f'; anything else maps to '0'. */
  function HexChar(c: byte): (r: byte)
    ensures r != 0
  {
    if c < 10 then 48 + c else if c < 16 then 87 + c else 48
  }

  function Hex(h: Bytes): (s: CString)
    ensures |s| == 2 * |h|
  {
    if h == [] then [] else [HexChar(h[0] / 16), HexChar(h[0] % 16)] + Hex(h[1..])
  }

  function CkptName(dir: CString, h: Hash): CString { dir + [SLASH] + Hex(h) }

  function TmpName(dir: CString, h: Hash): CString { CkptName(dir, h) + TMP_SUFFIX }

  lemma HexCharInjective(a: byte, b: byte)
    requires a < 16 && b < 16 && HexChar(a) == HexChar(b)
    ensures a == b
  {
  }

  lemma {:induction false} HexInjective(g: Bytes, h: Bytes)
    requires |g| == |h| && Hex(g) == Hex(h)
    ensures g == h
  {
    if g != [] {
      var p, q := Hex(g), Hex(h);
      assert p[0] == HexChar(g[0] / 16) && p[1] == HexChar(g[0] % 16) && p[2..] == Hex(g[1..]);
      assert q[0] == HexChar(h[0] / 16) && q[1] == HexChar(h[0] % 16) && q[2..] == Hex(h[1..]);
      HexCharInjective(g[0] / 16, h[0] / 16);
      HexCharInjective(g[0] % 16, h[0] % 16);
      HexInjective(g[1..], h[1..]);
      assert g == [g[0]] + g[1..] && h == [h[0]] + h[1..];
    }
  }

  /** "0123456789abcdef" */
  const HEX_DIGITS: CString := [48, 49, 50, 51, 52, 53, 54, 55, 56, 57, 97, 98, 99, 100, 101, 102]

  /** Two digits for each octet, the high one first. */
  lemma {:induction false} HexDigits(h: Bytes, i: nat)
    requires i < |h|
    ensures Hex(h)[2 * i] == HEX_DIGITS[h[i] / 16] && Hex(h)[2 * i + 1] == HEX_DIGITS[h[i] % 16]
  {
    if 0 < i {
      HexDigits(h[1..], i - 1);
      assert Hex(h)[2..] == Hex(h[1..]);
    }
  }

  /** A checkpoint lies in its directory under the 32 digits of its hash; ".tmp" follows while it is written. */
  lemma CkptNameIs(dir: CString, h: Hash)
    ensures |CkptName(dir, h)| == |dir| + 33 && dir + [47] <= CkptName(dir, h)
    ensures forall i | 0 <= i < HASH_LENGTH ::
              && CkptName(dir, h)[|dir| + 1 + 2 * i] == HEX_DIGITS[h[i] / 16]
              && CkptName(dir, h)[|dir| + 2 + 2 * i] == HEX_DIGITS[h[i] % 16]
    ensures TmpName(dir, h) == CkptName(dir, h) + [46, 116, 109, 112]
  {
    forall i | 0 <= i < HASH_LENGTH
      ensures CkptName(dir, h)[|dir| + 1 + 2 * i] == HEX_DIGITS[h[i] / 16]
      ensures CkptName(dir, h)[|dir| + 2 + 2 * i] == HEX_DIGITS[h[i] % 16]
    {
      HexDigits(h, i);
    }
  }

  /** Checkpoints and temporary files of different hashes never share a name, nor does one kind with the other. */
  lemma NamesDistinct(dir: CString, g: Hash, h: Hash)
    ensures CkptName(dir, g) == CkptName(dir, h) <==> g == h
    ensures TmpName(dir, g) == TmpName(dir, h) <==> g == h
    ensures CkptName(dir, g) != TmpName(dir, h)
  {
    var p, q := CkptName(dir, g), CkptName(dir, h);
    assert |p| == |q|;
    assert p[|dir| + 1..] == Hex(g) && q[|dir| + 1..] == Hex(h);
    assert TmpName(dir, g)[..|p|] == p && TmpName(dir, h)[..|q|] == q;
    if p == q {
      HexInjective(g, h);
    }
    assert |CkptName(dir, g)| != |TmpName(dir, h)|;
  }

  /** The loop of filerail_hash_to_str, filling the caller's buffer. */
  method HashToStr(hash: Hash, hexStr: array<byte>)
    requires hexStr.Length == 2 * HASH_LENGTH
    modifies hexStr
    ensures hexStr[..] == Hex(hash)
  {
    var i := 0;
    while i < HASH_LENGTH
      invariant 0 <= i <= HASH_LENGTH
      invariant hexStr[..2 * i] == Hex(hash[..i])
    {
      HexSnoc(hash[..i], hash[i]);
      assert hash[..i] + [hash[i]] == hash[..i + 1];
      hexStr[2 * i] := HexChar(hash[i] / 16);
      hexStr[2 * i + 1] := HexChar(hash[i] % 16);
      i := i + 1;
      assert hexStr[..2 * i] == hexStr[..2 * i - 2] + [hexStr[2 * i - 2], hexStr[2 * i - 1]];
    }
    assert hexStr[..] == hexStr[..2 * HASH_LENGTH] && hash[..HASH_LENGTH] == hash;
  }

  lemma {:induction false} HexSnoc(h: Bytes, b: byte)
    ensures Hex(h + [b]) == Hex(h) + [HexChar(b / 16), HexChar(b % 16)]
  {
    if h == [] {
      assert [b][1..] == [] && Hex([b]) == [HexChar(b / 16), HexChar(b % 16)] + Hex([]);
      assert [] + [b] == [b];
    } else {
      HexSnoc(h[1..], b);
      assert (h + [b])[1..] == h[1..] + [b];
    }
  }

  // ---------------------------------------------------------------- checkpoint records

  const MAX_PATH_LENGTH := 4097
  /** sizeof(filerail_checkpoint): an offset, a path buffer and seven octets of padding. */
  const RECORD_SIZE := 4112

  datatype Checkpoint = Checkpoint(offset: nat, path: CString) {
    predicate Fits() { offset < TWO64 && |path| < MAX_PATH_LENGTH }
  }

  /** Whatever happens to be in memory, cut or extended to n octets. */
  function Filler(junk: Bytes, n: nat): (f: Bytes)
    ensures |f| == n
  {
    if |junk| >= n then junk[..n] else junk + seq(n - |junk|, _ => 0)
  }

  /** The record written by fwrite; what follows the path's terminator is uninitialised memory. */
  function Record(c: Checkpoint, junk: Bytes): (r: Bytes)
    requires c.Fits()
    ensures |r| == RECORD_SIZE
  {
    LittleEndian(c.offset, 8) + c.path + [0] + Filler(junk, RECORD_SIZE - 9 - |c.path|)
  }

  /** The octets up to the first NUL. */
  function CStr(s: Bytes): (r: CString)
    ensures r <= s && (|r| < |s| ==> s[|r|] == 0)
  {
    if s == [] || s[0] == 0 then [] else [s[0]] + CStr(s[1..])
  }

  function ParseRecord(r: Bytes): Checkpoint
    requires |r| == RECORD_SIZE
  {
    Checkpoint(FromLittleEndian(r[..8]), CStr(r[8..]))
  }

  lemma {:induction false} CStrStops(s: CString, rest: Bytes)
    ensures CStr(s + [0] + rest) == s
  {
    if s != [] {
      var t: CString := s[1..];
      CStrStops(t, rest);
      assert (s + [0] + rest)[1..] == t + [0] + rest;
    } else {
      assert (s + [0] + rest)[0] == 0;
    }
  }

  lemma OffsetRoundTrip(offset: nat)
    requires offset < TWO64
    ensures FromLittleEndian(LittleEndian(offset, 8)) == offset
  {
    Powers();
    LittleEndianRoundTrip(offset, 8);
  }

  /** The record is the C structure: the offset in host order, then the path with its terminator. */
  lemma RecordLayout(c: Checkpoint, junk: Bytes)
    requires c.Fits()
    ensures var r := Record(c, junk);
            && |r| == 4112
            && (forall i | 0 <= i < 8 :: r[i] == c.offset / Pow256(i) % 256)
            && r[8..8 + |c.path|] == c.path && r[8 + |c.path|] == 0
  {
    forall i | 0 <= i < 8 ensures Record(c, junk)[i] == c.offset / Pow256(i) % 256 {
      LittleEndianAt(c.offset, 8, i);
    }
  }

  lemma RecordRoundTrip(c: Checkpoint, junk: Bytes)
    requires c.Fits()
    ensures ParseRecord(Record(c, junk)) == c
  {
    var r, f := Record(c, junk), Filler(junk, RECORD_SIZE - 9 - |c.path|);
    OffsetRoundTrip(c.offset);
    CStrStops(c.path, f);
    assert r[..8] == LittleEndian(c.offset, 8);
    assert r[8..] == c.path + [0] + f;
  }

  /** A file reads as checkpoint c: fread finds a whole record and it parses to c. */
  predicate Holds(fs: Fs, name: CString, c: Checkpoint) {
    name in fs && |fs[name]| >= RECORD_SIZE && ParseRecord(fs[name][..RECORD_SIZE]) == c
  }

  /** The same, whatever the offset. */
  predicate Names(fs: Fs, name: CString, path: CString) {
    name in fs && |fs[name]| >= RECORD_SIZE && ParseRecord(fs[name][..RECORD_SIZE]).path == path
  }

  /** The same file, or none, on both disks. */
  predicate SameAt(fs: Fs, fs': Fs, name: CString) {
    (name in fs <==> name in fs') && (name in fs ==> fs[name] == fs'[name])
  }

  // ---------------------------------------------------------------- resources

  /** n is the resource r, or lies in it. */
  predicate Within(r: CString, n: CString) { n == r || r + [SLASH] <= n }

  /** A name that goes on after the resource's without a slash is not in it. */
  lemma WithinIs(r: CString, n: CString)
    ensures Within(r, n) <==> n == r || exists rest: CString :: n == r + [47] + rest
  {
    if r + [SLASH] <= n {
      var rest: CString := n[|r| + 1..];
      assert n == r + [47] + rest;
    }
  }

  /** What recursive removal of the resource r leaves. */
  function Removed(fs: Fs, r: CString): Fs {
    map n | n in fs && !Within(r, n) :: fs[n]
  }

  // ---------------------------------------------------------------- file operations

  /** fwrite at position pos of a file opened "r+b" (or just created): octets past the data stay. */
  function Overwrite(file: Bytes, pos: nat, data: Bytes): (r: Bytes)
    requires pos <= |file|
    ensures |r| == if pos + |data| > |file| then pos + |data| else |file|
    ensures r[..pos] == file[..pos] && r[pos..pos + |data|] == data
    ensures pos + |data| < |file| ==> r[pos + |data|..] == file[pos + |data|..]
  {
    file[..pos] + data + (if pos + |data| > |file| then [] else file[pos + |data|..])
  }

  /** Writing the rest of an archive over a file gives the archive exactly where the file agreed with it so far. */
  lemma OverlayExact(a: Bytes, f: Bytes, st: nat)
    requires st <= |f| && st <= |a|
    ensures Overwrite(f, st, a[st..]) == a <==> f[..st] == a[..st] && |f| <= |a|
  {
    var r := Overwrite(f, st, a[st..]);
    assert a == a[..st] + a[st..];
    if r == a {
      assert r[..st] == f[..st];
    }
    if f[..st] == a[..st] && |f| <= |a| {
      assert r == f[..st] + a[st..];
    }
  }

  /** Writing the right octets of an archive over a prefix of that archive leaves a prefix of it. */
  lemma OverwritePrefix(archive: Bytes, file: Bytes, pos: nat, n: nat)
    requires file <= archive && pos <= |file| && pos + n <= |archive|
    ensures Overwrite(file, pos, archive[pos..pos + n]) <= archive
    ensures pos == |file| ==> Overwrite(file, pos, archive[pos..pos + n]) == archive[..pos + n]
  {
  }
}
