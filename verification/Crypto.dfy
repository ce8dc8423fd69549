/** The in-place code of filerail/crypto.h: chaining with a private copy of the vector, and the chunked digest. */
module Crypto {
  import opened Bytes
  import opened Cipher

  lemma BlockFits(i: nat, n: nat)
    requires i < n && i % BLOCK == 0 && n % BLOCK == 0
    ensures i + BLOCK <= n && (i + BLOCK) % BLOCK == 0
  {
  }

  /** AES_cbc_encrypt, encrypting: block by block, the vector following the cipher blocks. */
  method AesCbcEncrypt(keys: Keys, plain: Bytes, iv: array<byte>) returns (out: Bytes)
    requires keys.Valid() && iv.Length == BLOCK && |plain| % BLOCK == 0
    modifies iv
    ensures out == CbcEncrypt(keys, old(iv[..]), plain)
    ensures CbcEncrypted(keys, old(iv[..]), plain, out)
  {
    out := [];
    var i := 0;
    assert plain[0..] == plain;
    while i < |plain|
      invariant 0 <= i <= |plain| && i % BLOCK == 0 && |out| == i
      invariant CbcEncrypt(keys, old(iv[..]), plain) == out + CbcEncrypt(keys, iv[..], plain[i..])
    {
      BlockFits(i, |plain|);
      ghost var rest := plain[i..];
      var c := keys.enc(Xor(plain[i..i + BLOCK], iv[..]));
      assert rest[..BLOCK] == plain[i..i + BLOCK] && rest[BLOCK..] == plain[i + BLOCK..];
      assert out + (c + CbcEncrypt(keys, c, plain[i + BLOCK..])) == (out + c) + CbcEncrypt(keys, c, plain[i + BLOCK..]);
      forall j | 0 <= j < BLOCK { iv[j] := c[j]; }
      assert iv[..] == c;
      out := out + c;
      i := i + BLOCK;
    }
    CbcEncryptIs(keys, old(iv[..]), plain);
  }

  /** AES_cbc_encrypt, decrypting: the vector follows the cipher blocks. */
  method AesCbcDecrypt(keys: Keys, cipher: Bytes, iv: array<byte>) returns (out: Bytes)
    requires keys.Valid() && iv.Length == BLOCK && |cipher| % BLOCK == 0
    modifies iv
    ensures out == CbcDecrypt(keys, old(iv[..]), cipher)
    ensures CbcDecrypted(keys, old(iv[..]), cipher, out)
  {
    out := [];
    var i := 0;
    assert cipher[0..] == cipher;
    while i < |cipher|
      invariant 0 <= i <= |cipher| && i % BLOCK == 0 && |out| == i
      invariant CbcDecrypt(keys, old(iv[..]), cipher) == out + CbcDecrypt(keys, iv[..], cipher[i..])
    {
      BlockFits(i, |cipher|);
      ghost var rest := cipher[i..];
      var c := cipher[i..i + BLOCK];
      var p := Xor(keys.dec(c), iv[..]);
      assert rest[..BLOCK] == c && rest[BLOCK..] == cipher[i + BLOCK..];
      ghost var more := CbcDecrypt(keys, c, cipher[i + BLOCK..]);
      assert out + (p + more) == (out + p) + more;
      forall j | 0 <= j < BLOCK { iv[j] := c[j]; }
      assert iv[..] == c;
      out := out + p;
      i := i + BLOCK;
    }
    CbcDecryptIs(keys, old(iv[..]), cipher);
  }

  /** filerail_encrypt: works on a copy of the configured vector, so no packet depends on an earlier one. */
  method Encrypt(keys: Keys, kiv: array<byte>, plain: Bytes) returns (out: Bytes)
    requires keys.Valid() && kiv[..] == keys.iv && |plain| % BLOCK == 0
    ensures kiv[..] == old(kiv[..])
    ensures out == CbcEncrypt(keys, keys.iv, plain) && CbcEncrypted(keys, keys.iv, plain, out)
  {
    var iv := new byte[BLOCK](i requires 0 <= i < BLOCK reads kiv => kiv[i]);
    assert iv[..] == kiv[..];
    out := AesCbcEncrypt(keys, plain, iv);
  }

  /** filerail_decrypt, likewise. */
  method Decrypt(keys: Keys, kiv: array<byte>, cipher: Bytes) returns (out: Bytes)
    requires keys.Valid() && kiv[..] == keys.iv && |cipher| % BLOCK == 0
    ensures kiv[..] == old(kiv[..])
    ensures out == CbcDecrypt(keys, keys.iv, cipher) && CbcDecrypted(keys, keys.iv, cipher, out)
  {
    var iv := new byte[BLOCK](i requires 0 <= i < BLOCK reads kiv => kiv[i]);
    assert iv[..] == kiv[..];
    out := AesCbcDecrypt(keys, cipher, iv);
  }

  /** K.iv as it was read from the key file. */
  method ConfiguredVector(keys: Keys) returns (kiv: array<byte>)
    requires keys.Valid()
    ensures fresh(kiv) && kiv[..] == keys.iv
  {
    var iv := keys.iv;
    kiv := new byte[BLOCK](i requires 0 <= i < BLOCK => iv[i]);
  }

  /** What the sending loop does with one chunk: zero-padded buffer, encrypted from the configured vector. */
  method SealChunk(keys: Keys, chunk: Bytes) returns (payload: Bytes)
    requires keys.Valid() && |chunk| <= BUFFER_SIZE
    ensures payload == Seal(keys, chunk)
    ensures CbcEncrypted(keys, keys.iv, chunk + seq(BUFFER_SIZE - |chunk|, _ => 0), payload)
  {
    var kiv := ConfiguredVector(keys);
    payload := Encrypt(keys, kiv, Pad(chunk));
  }

  /** What the receiving loop does with one payload: decrypted from the configured vector, then cut. */
  method OpenPayload(keys: Keys, payload: Bytes, nbytes: nat) returns (out: Bytes)
    requires keys.Valid() && |payload| == BUFFER_SIZE && nbytes <= BUFFER_SIZE
    ensures out == Open(keys, payload, nbytes)
    ensures exists plain :: CbcDecrypted(keys, keys.iv, payload, plain) && out == plain[..nbytes]
  {
    var kiv := ConfiguredVector(keys);
    var plain := Decrypt(keys, kiv, payload);
    out := plain[..nbytes];
  }

  /** filerail_md5: feeding the file in chunks of at most 1024 octets digests exactly the file. */
  method Md5(digest: Bytes -> Hash, file: Bytes) returns (hash: Hash)
    ensures hash == digest(file)
  {
    var context: Bytes := [];
    var size, pos := |file|, 0;
    while size != 0
      invariant 0 <= pos && 0 <= size && pos + size == |file| && context == file[..pos]
    {
      var nbytes := Min(BUFFER_SIZE, size);
      var buffer := file[pos..pos + nbytes];
      context := context + buffer;
      pos := pos + nbytes;
      size := size - nbytes;
    }
    assert file[..pos] == file;
    hash := digest(context);
  }
}
