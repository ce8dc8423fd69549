/**
 The packet pipeline of filerail/crypto.h: cipher block chaining (section 6.2 of NIST SP 800-38A) over an
 abstract 16-octet block permutation, with a fresh copy of the initialisation vector for every packet.
 */
module Cipher {
  import opened Bytes

  const BLOCK := 16
  const BUFFER_SIZE := 1024

  /** The key schedule is abstract: `enc` stands for the keyed forward permutation and `dec` for its inverse. */
  datatype Keys = Keys(enc: Bytes -> Bytes, dec: Bytes -> Bytes, iv: Bytes) {
    ghost predicate Valid() {
      && |iv| == BLOCK
      && (forall b: Bytes {:trigger enc(b)} :: |b| == BLOCK ==> |enc(b)| == BLOCK && dec(enc(b)) == b)
      && (forall b: Bytes {:trigger dec(b)} :: |b| == BLOCK ==> |dec(b)| == BLOCK)
    }
  }

  // ---------------------------------------------------------------- exclusive or

  function XorBits(a: nat, b: nat, k: nat): (r: nat)
    decreases k
  {
    if k == 0 then 0 else (a % 2 + b % 2) % 2 + 2 * XorBits(a / 2, b / 2, k - 1)
  }

  function Pow2(k: nat): (p: nat)
    ensures p >= 1
  {
    if k == 0 then 1 else 2 * Pow2(k - 1)
  }

  lemma {:induction false} XorBitsBound(a: nat, b: nat, k: nat)
    ensures XorBits(a, b, k) < Pow2(k)
  {
    if k > 0 {
      XorBitsBound(a / 2, b / 2, k - 1);
    }
  }

  lemma {:induction false} XorBitsInvolution(a: nat, b: nat, k: nat)
    requires a < Pow2(k)
    ensures XorBits(XorBits(a, b, k), b, k) == a
  {
    if k > 0 {
      XorBitsInvolution(a / 2, b / 2, k - 1);
      Digits((a % 2 + b % 2) % 2, XorBits(a / 2, b / 2, k - 1));
      BitInvolution(a % 2, b % 2);
    }
  }

  lemma Digits(low: nat, high: nat)
    requires low < 2
    ensures (low + 2 * high) % 2 == low && (low + 2 * high) / 2 == high
  {
  }

  /** Bit i of a number. */
  function Bit(a: nat, i: nat): nat
    ensures Bit(a, i) < 2
  {
    a / Pow2(i) % 2
  }

  lemma {:induction false} XorBitsAt(a: nat, b: nat, k: nat, i: nat)
    requires i < k
    ensures Bit(XorBits(a, b, k), i) == 1 <==> Bit(a, i) != Bit(b, i)
  {
    Digits((a % 2 + b % 2) % 2, XorBits(a / 2, b / 2, k - 1));
    if i == 0 {
      LowBit(a);
      LowBit(b);
      LowBit(XorBits(a, b, k));
    } else {
      XorBitsAt(a / 2, b / 2, k - 1, i - 1);
      BitHalved(a, i);
      BitHalved(b, i);
      BitHalved(XorBits(a, b, k), i);
    }
  }

  lemma LowBit(a: nat)
    ensures Bit(a, 0) == a % 2
  {
    assert Pow2(0) == 1;
  }

  lemma BitHalved(a: nat, i: nat)
    requires 0 < i
    ensures Bit(a, i) == Bit(a / 2, i - 1)
  {
    DivTwice(a, 2, Pow2(i - 1));
  }

  lemma BitInvolution(p: nat, q: nat)
    requires p < 2 && q < 2
    ensures ((p + q) % 2 + q) % 2 == p
  {
  }

  function XorByte(a: byte, b: byte): byte {
    XorBitsBound(a, b, 8);
    assert Pow2(8) == 2 * Pow2(7) && Pow2(7) == 2 * Pow2(6) && Pow2(6) == 2 * Pow2(5) && Pow2(5) == 2 * Pow2(4);
    assert Pow2(4) == 2 * Pow2(3) && Pow2(3) == 2 * Pow2(2);
    XorBits(a, b, 8)
  }

  /** Each bit of the result is set exactly where the two octets differ. */
  lemma XorByteIs(a: byte, b: byte)
    ensures forall i | 0 <= i < 8 :: Bit(XorByte(a, b), i) == 1 <==> Bit(a, i) != Bit(b, i)
  {
    forall i | 0 <= i < 8 ensures Bit(XorByte(a, b), i) == 1 <==> Bit(a, i) != Bit(b, i) {
      XorBitsAt(a, b, 8, i);
    }
  }

  function Xor(a: Bytes, b: Bytes): (r: Bytes)
    requires |a| == |b|
    ensures |r| == |a| && forall i | 0 <= i < |a| :: r[i] == XorByte(a[i], b[i])
  {
    seq(|a|, i requires 0 <= i < |a| => XorByte(a[i], b[i]))
  }

  lemma XorInvolution(a: Bytes, b: Bytes)
    requires |a| == |b|
    ensures Xor(Xor(a, b), b) == a
  {
    forall i | 0 <= i < |a| ensures Xor(Xor(a, b), b)[i] == a[i] {
      assert Pow2(8) == 256 by {
        assert Pow2(8) == 2 * Pow2(7) && Pow2(7) == 2 * Pow2(6) && Pow2(6) == 2 * Pow2(5) && Pow2(5) == 2 * Pow2(4);
        assert Pow2(4) == 2 * Pow2(3) && Pow2(3) == 2 * Pow2(2);
      }
      XorBitsInvolution(a[i], b[i], 8);
    }
  }

  // ---------------------------------------------------------------- chaining

  function CbcEncrypt(keys: Keys, iv: Bytes, plain: Bytes): (c: Bytes)
    requires keys.Valid() && |iv| == BLOCK && |plain| % BLOCK == 0
    ensures |c| == |plain|
    decreases |plain|
  {
    if plain == [] then [] else
      var c := keys.enc(Xor(plain[..BLOCK], iv));
      c + CbcEncrypt(keys, c, plain[BLOCK..])
  }

  function CbcDecrypt(keys: Keys, iv: Bytes, cipher: Bytes): (p: Bytes)
    requires keys.Valid() && |iv| == BLOCK && |cipher| % BLOCK == 0
    ensures |p| == |cipher|
    decreases |cipher|
  {
    if cipher == [] then [] else
      Xor(keys.dec(cipher[..BLOCK]), iv) + CbcDecrypt(keys, cipher[..BLOCK], cipher[BLOCK..])
  }

  lemma {:induction false} CbcInverse(keys: Keys, iv: Bytes, plain: Bytes)
    requires keys.Valid() && |iv| == BLOCK && |plain| % BLOCK == 0
    ensures CbcDecrypt(keys, iv, CbcEncrypt(keys, iv, plain)) == plain
    decreases |plain|
  {
    if plain != [] {
      var x := Xor(plain[..BLOCK], iv);
      var c := keys.enc(x);
      var whole := CbcEncrypt(keys, iv, plain);
      assert whole[..BLOCK] == c && whole[BLOCK..] == CbcEncrypt(keys, c, plain[BLOCK..]);
      CbcInverse(keys, c, plain[BLOCK..]);
      XorInvolution(plain[..BLOCK], iv);
      assert plain == plain[..BLOCK] + plain[BLOCK..];
    }
  }

  /** Block j of a message. */
  function Block(s: Bytes, j: nat): (b: Bytes)
    requires BLOCK * (j + 1) <= |s|
    ensures |b| == BLOCK
  {
    s[BLOCK * j..BLOCK * (j + 1)]
  }

  /** What block j is combined with: the vector, or the cipher block before it. */
  function Chained(iv: Bytes, cipher: Bytes, j: nat): Bytes
    requires BLOCK * j <= |cipher|
  {
    if j == 0 then iv else Block(cipher, j - 1)
  }

  /** The equation of CBC encryption, block by block. */
  lemma {:induction false} CbcEncryptBlock(keys: Keys, iv: Bytes, plain: Bytes, j: nat)
    requires keys.Valid() && |iv| == BLOCK && |plain| % BLOCK == 0 && BLOCK * (j + 1) <= |plain|
    ensures var c := CbcEncrypt(keys, iv, plain);
            Block(c, j) == keys.enc(Xor(Block(plain, j), Chained(iv, c, j)))
    decreases |plain|
  {
    var first, c := keys.enc(Xor(plain[..BLOCK], iv)), CbcEncrypt(keys, iv, plain);
    if 0 < j {
      var rest := CbcEncrypt(keys, first, plain[BLOCK..]);
      CbcEncryptBlock(keys, first, plain[BLOCK..], j - 1);
      assert c == first + rest;
      assert Block(c, j) == Block(rest, j - 1) && Block(plain, j) == Block(plain[BLOCK..], j - 1);
      assert Chained(iv, c, j) == Chained(first, rest, j - 1);
    } else {
      assert Block(c, 0) == first && Block(plain, 0) == plain[..BLOCK];
    }
  }

  /** And of decryption. */
  lemma {:induction false} CbcDecryptBlock(keys: Keys, iv: Bytes, cipher: Bytes, j: nat)
    requires keys.Valid() && |iv| == BLOCK && |cipher| % BLOCK == 0 && BLOCK * (j + 1) <= |cipher|
    ensures Block(CbcDecrypt(keys, iv, cipher), j) == Xor(keys.dec(Block(cipher, j)), Chained(iv, cipher, j))
    decreases |cipher|
  {
    var first, p := Xor(keys.dec(cipher[..BLOCK]), iv), CbcDecrypt(keys, iv, cipher);
    if 0 < j {
      var rest := CbcDecrypt(keys, cipher[..BLOCK], cipher[BLOCK..]);
      CbcDecryptBlock(keys, cipher[..BLOCK], cipher[BLOCK..], j - 1);
      assert p == first + rest;
      assert Block(p, j) == Block(rest, j - 1) && Block(cipher, j) == Block(cipher[BLOCK..], j - 1);
      assert Chained(iv, cipher, j) == Chained(cipher[..BLOCK], cipher[BLOCK..], j - 1);
    } else {
      assert Block(p, 0) == first && Block(cipher, 0) == cipher[..BLOCK];
    }
  }

  /** Section 6.2 of NIST SP 800-38A, by block index. */
  ghost predicate CbcEncrypted(keys: Keys, iv: Bytes, plain: Bytes, cipher: Bytes)
    requires |iv| == BLOCK
  {
    && |cipher| == |plain|
    && forall j: nat {:trigger Block(cipher, j)} | BLOCK * (j + 1) <= |plain| ::
         Block(cipher, j) == keys.enc(Xor(Block(plain, j), Chained(iv, cipher, j)))
  }

  ghost predicate CbcDecrypted(keys: Keys, iv: Bytes, cipher: Bytes, plain: Bytes)
    requires keys.Valid() && |iv| == BLOCK
  {
    && |plain| == |cipher|
    && forall j: nat {:trigger Block(plain, j)} | BLOCK * (j + 1) <= |cipher| ::
         Block(plain, j) == Xor(keys.dec(Block(cipher, j)), Chained(iv, cipher, j))
  }

  lemma CbcEncryptIs(keys: Keys, iv: Bytes, plain: Bytes)
    requires keys.Valid() && |iv| == BLOCK && |plain| % BLOCK == 0
    ensures CbcEncrypted(keys, iv, plain, CbcEncrypt(keys, iv, plain))
  {
    forall j: nat | BLOCK * (j + 1) <= |plain|
      ensures var c := CbcEncrypt(keys, iv, plain);
              Block(c, j) == keys.enc(Xor(Block(plain, j), Chained(iv, c, j)))
    {
      CbcEncryptBlock(keys, iv, plain, j);
    }
  }

  lemma CbcDecryptIs(keys: Keys, iv: Bytes, cipher: Bytes)
    requires keys.Valid() && |iv| == BLOCK && |cipher| % BLOCK == 0
    ensures CbcDecrypted(keys, iv, cipher, CbcDecrypt(keys, iv, cipher))
  {
    forall j: nat | BLOCK * (j + 1) <= |cipher|
      ensures Block(CbcDecrypt(keys, iv, cipher), j) == Xor(keys.dec(Block(cipher, j)), Chained(iv, cipher, j))
    {
      CbcDecryptBlock(keys, iv, cipher, j);
    }
  }

  // ---------------------------------------------------------------- packets

  function Pad(chunk: Bytes): (b: Bytes)
    requires |chunk| <= BUFFER_SIZE
    ensures |b| == BUFFER_SIZE && b[..|chunk|] == chunk
  {
    chunk + seq(BUFFER_SIZE - |chunk|, _ => 0)
  }

  /** What the sender puts in a packet: the zero-padded chunk, encrypted from the configured vector. */
  function Seal(keys: Keys, chunk: Bytes): (payload: Bytes)
    requires keys.Valid() && |chunk| <= BUFFER_SIZE
    ensures |payload| == BUFFER_SIZE
  {
    CbcEncrypt(keys, keys.iv, Pad(chunk))
  }

  /** What the receiver keeps of a packet: the first `size` octets of the decrypted payload. */
  function Open(keys: Keys, payload: Bytes, size: nat): (chunk: Bytes)
    requires keys.Valid() && |payload| == BUFFER_SIZE && size <= BUFFER_SIZE
    ensures |chunk| == size
  {
    CbcDecrypt(keys, keys.iv, payload)[..size]
  }

  lemma OpenSeal(keys: Keys, chunk: Bytes)
    requires keys.Valid() && |chunk| <= BUFFER_SIZE
    ensures Open(keys, Seal(keys, chunk), |chunk|) == chunk
  {
    CbcInverse(keys, keys.iv, Pad(chunk));
  }

  datatype Parcel = Parcel(payload: Bytes, size: nat)

  /** How many packets n octets take. */
  function PacketsFor(n: nat): nat { (n + BUFFER_SIZE - 1) / BUFFER_SIZE }

  /** The packets the sender cuts an archive into from a start offset, aligned or not. */
  ghost function Parcels(keys: Keys, archive: Bytes, from: nat): seq<Parcel>
    requires keys.Valid() && from <= |archive|
    decreases |archive| - from
  {
    if from == |archive| then [] else
      var n := Min(BUFFER_SIZE, |archive| - from);
      [Parcel(Seal(keys, archive[from..from + n]), n)] + Parcels(keys, archive, from + n)
  }

  ghost predicate WellSized(ps: seq<Parcel>) {
    forall p | p in ps :: |p.payload| == BUFFER_SIZE && p.size <= BUFFER_SIZE
  }

  /** Concatenation of the kept octets; each packet is opened on its own, from the configured vector. */
  ghost function Reassemble(keys: Keys, ps: seq<Parcel>): Bytes
    requires keys.Valid() && WellSized(ps)
  {
    if ps == [] then [] else Open(keys, ps[0].payload, ps[0].size) + Reassemble(keys, ps[1..])
  }

  lemma {:induction false} ParcelsWellSized(keys: Keys, archive: Bytes, from: nat)
    requires keys.Valid() && from <= |archive|
    ensures WellSized(Parcels(keys, archive, from))
    ensures |Parcels(keys, archive, from)| == PacketsFor(|archive| - from)
    decreases |archive| - from
  {
    if from < |archive| {
      ParcelsWellSized(keys, archive, from + Min(BUFFER_SIZE, |archive| - from));
    }
  }

  /** From any start offset, the packets carry exactly the rest of the archive. */
  lemma {:induction false} PipelineDelivers(keys: Keys, archive: Bytes, from: nat)
    requires keys.Valid() && from <= |archive|
    ensures WellSized(Parcels(keys, archive, from))
    ensures Reassemble(keys, Parcels(keys, archive, from)) == archive[from..]
    decreases |archive| - from
  {
    if from < |archive| {
      var next := from + Min(BUFFER_SIZE, |archive| - from);
      PipelineDelivers(keys, archive, next);
      OneParcel(keys, archive, from, next, Parcels(keys, archive, next));
    }
  }

  lemma OneParcel(keys: Keys, archive: Bytes, from: nat, next: nat, rest: seq<Parcel>)
    requires keys.Valid() && from <= next <= |archive| && next - from <= BUFFER_SIZE
    requires WellSized(rest) && Reassemble(keys, rest) == archive[next..]
    ensures var p := Parcel(Seal(keys, archive[from..next]), next - from);
            WellSized([p] + rest) && Reassemble(keys, [p] + rest) == archive[from..]
  {
    var p := Parcel(Seal(keys, archive[from..next]), next - from);
    OpenSeal(keys, archive[from..next]);
    ReassembleCons(keys, p, rest);
    assert archive[from..] == archive[from..next] + archive[next..];
  }

  lemma ReassembleCons(keys: Keys, p: Parcel, ps: seq<Parcel>)
    requires keys.Valid() && WellSized(ps) && |p.payload| == BUFFER_SIZE && p.size <= BUFFER_SIZE
    ensures WellSized([p] + ps)
    ensures Reassemble(keys, [p] + ps) == Open(keys, p.payload, p.size) + Reassemble(keys, ps)
  {
    assert ([p] + ps)[1..] == ps;
  }
}
