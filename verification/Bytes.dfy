/** Octets, C strings and the fixed-width integer layouts used on the wire and on disk. */
module Bytes {
  type byte = b: int | 0 <= b < 256
  type Bytes = seq<byte>

  /** A C string without its terminator: no octet of it is NUL. */
  type CString = s: Bytes | forall i | 0 <= i < |s| :: s[i] != 0

  /** An MD5 digest. */
  type Hash = h: Bytes | |h| == HASH_LENGTH witness seq(HASH_LENGTH, _ => 0)

  datatype Option<+T> = None | Some(value: T)

  const HASH_LENGTH := 16
  const TWO32 := 0x1_0000_0000
  const TWO64 := 0x1_0000_0000_0000_0000

  function Min(a: int, b: int): int { if a > b then b else a }

  /** Subtraction of two uint64_t values, with the wrap-around of C. */
  function Sub64(a: nat, b: nat): (r: nat)
    ensures r < TWO64
    ensures b <= a < TWO64 ==> r == a - b
    ensures a < b < TWO64 ==> r == a + TWO64 - b
  {
    (a - b) % TWO64
  }

  function Pow256(k: nat): (p: nat)
    ensures p >= 1
  {
    if k == 0 then 1 else 256 * Pow256(k - 1)
  }

  /** The low k octets of n, most significant first (network order). */
  function BigEndian(n: nat, k: nat): (s: Bytes)
    ensures |s| == k
  {
    if k == 0 then [] else BigEndian(n / 256, k - 1) + [n % 256]
  }

  function FromBigEndian(s: Bytes): nat {
    if s == [] then 0 else 256 * FromBigEndian(s[..|s| - 1]) + s[|s| - 1]
  }

  /** The low k octets of n, least significant first (the host order of the checkpoint record). */
  function LittleEndian(n: nat, k: nat): (s: Bytes)
    ensures |s| == k
  {
    if k == 0 then [] else [n % 256] + LittleEndian(n / 256, k - 1)
  }

  function FromLittleEndian(s: Bytes): nat {
    if s == [] then 0 else s[0] + 256 * FromLittleEndian(s[1..])
  }

  lemma {:induction false} BigEndianRoundTrip(n: nat, k: nat)
    requires n < Pow256(k)
    ensures FromBigEndian(BigEndian(n, k)) == n
  {
    if k > 0 {
      BigEndianRoundTrip(n / 256, k - 1);
      assert BigEndian(n, k)[..k - 1] == BigEndian(n / 256, k - 1);
    }
  }

  lemma {:induction false} LittleEndianRoundTrip(n: nat, k: nat)
    requires n < Pow256(k)
    ensures FromLittleEndian(LittleEndian(n, k)) == n
  {
    if k > 0 {
      LittleEndianRoundTrip(n / 256, k - 1);
      assert LittleEndian(n, k)[1..] == LittleEndian(n / 256, k - 1);
    }
  }

  // ---------------------------------------------------------------- which octet is where

  lemma Times(d: nat, k: int, more: int)
    ensures d * (k + more) == d * k + d * more
    ensures more >= 1 ==> d * more >= d
  {
  }

  lemma DivUnique(n: nat, d: nat, q: nat, x: nat)
    requires 0 < d && x == d * q && x <= n < x + d
    ensures n / d == q
  {
    var p := n / d;
    assert d * p <= n < d * p + d;
    if p < q {
      Times(d, p, q - p);
    } else if q < p {
      Times(d, q, p - q);
    }
  }

  /** Dividing twice is dividing by the product. */
  lemma DivTwice(n: nat, a: nat, b: nat)
    requires (a == 2 || a == 256) && 0 < b
    ensures n / a / b == n / (a * b)
  {
    var q := n / a / b;
    var x := b * q;
    assert x <= n / a < x + b;
    Reassociate(a, b, q);
    DivUnique(n, a * b, q, a * x);
  }

  lemma Reassociate(a: nat, b: nat, q: nat)
    ensures a * (b * q) == a * b * q
  {
  }

  /** Octet i of network order is the digit of weight 256^(k - 1 - i): the most significant comes first. */
  lemma {:induction false} BigEndianAt(n: nat, k: nat, i: nat)
    requires i < k
    ensures BigEndian(n, k)[i] == n / Pow256(k - 1 - i) % 256
    decreases k
  {
    if i < k - 1 {
      BigEndianAt(n / 256, k - 1, i);
      DivTwice(n, 256, Pow256(k - 2 - i));
    }
  }

  /** Octet i of host order is the digit of weight 256^i. */
  lemma {:induction false} LittleEndianAt(n: nat, k: nat, i: nat)
    requires i < k
    ensures LittleEndian(n, k)[i] == n / Pow256(i) % 256
    decreases k
  {
    if 0 < i {
      LittleEndianAt(n / 256, k - 1, i - 1);
      DivTwice(n, 256, Pow256(i - 1));
    }
  }

  /** A uint16_t and a uint32_t in network order. */
  lemma NetworkOrder(n: nat)
    ensures n < 0x1_0000 ==> BigEndian(n, 2) == [n / 0x100, n % 0x100]
    ensures n < TWO32 ==>
              BigEndian(n, 4) == [n / 0x100_0000, n / 0x1_0000 % 0x100, n / 0x100 % 0x100, n % 0x100]
  {
    Powers();
    assert Pow256(0) == 1 && Pow256(3) == 256 * Pow256(2);
    BigEndianAt(n, 2, 0);
    BigEndianAt(n, 2, 1);
    BigEndianAt(n, 4, 0);
    BigEndianAt(n, 4, 1);
    BigEndianAt(n, 4, 2);
    BigEndianAt(n, 4, 3);
  }

  lemma Powers()
    ensures Pow256(1) == 256 && Pow256(2) == 65536 && Pow256(4) == TWO32 && Pow256(8) == TWO64
  {
    assert Pow256(4) == 256 * Pow256(3) && Pow256(3) == 256 * Pow256(2);
    assert Pow256(8) == 256 * Pow256(7) && Pow256(7) == 256 * Pow256(6);
    assert Pow256(6) == 256 * Pow256(5) && Pow256(5) == 256 * Pow256(4);
  }

  /** Whoever can write k octets can read them back from the front of a longer buffer. */
  lemma ReadBack(n: nat, k: nat, rest: Bytes)
    requires n < Pow256(k)
    ensures |BigEndian(n, k) + rest| >= k
    ensures FromBigEndian((BigEndian(n, k) + rest)[..k]) == n
    ensures (BigEndian(n, k) + rest)[k..] == rest
  {
    BigEndianRoundTrip(n, k);
    assert (BigEndian(n, k) + rest)[..k] == BigEndian(n, k);
  }
}
