/** Bytes and the little-endian byte order every wire format here uses. */
module Bytes {
  type Byte = n: nat | n < 256

  function Pow256(w: nat): (p: nat)
    ensures p >= 1
  {
    if w == 0 then 1 else 256 * Pow256(w - 1)
  }

  /** The low w bytes of n, least significant first. */
  function LE(n: nat, w: nat): (bs: seq<Byte>)
    ensures |bs| == w
  {
    if w == 0 then [] else [(n % 256) as Byte] + LE(n / 256, w - 1)
  }

  function UnLE(bs: seq<Byte>): (n: nat)
    ensures n < Pow256(|bs|)
  {
    if bs == [] then 0 else bs[0] + 256 * UnLE(bs[1..])
  }

  /** Reading back w bytes keeps n up to truncation. */
  lemma {:induction false} UnLEofLE(n: nat, w: nat)
    ensures UnLE(LE(n, w)) == n % Pow256(w)
  {
    if w > 0 {
      UnLEofLE(n / 256, w - 1);
      assert LE(n, w)[1..] == LE(n / 256, w - 1);
      ModSplit(n, Pow256(w - 1));
    }
  }

  lemma ModSplit(n: nat, p: nat)
    requires p >= 1
    ensures n % (256 * p) == n % 256 + 256 * ((n / 256) % p)
  {
    var q := n / 256;
    var k, r := q / p, q % p;
    assert n == 256 * (k * p + r) + n % 256;
    assert n == (256 * p) * k + (256 * r + n % 256);
    assert 0 <= 256 * r + n % 256 < 256 * p by { assert r <= p - 1; }
    ModUnique(n, 256 * p, k, 256 * r + n % 256);
  }

  lemma ModUnique(n: nat, d: nat, k: nat, r: nat)
    requires d > 0 && r < d && n == d * k + r
    ensures n % d == r && n / d == k
  {
    var k', r' := n / d, n % d;
    assert n == d * k' + r';
    MulGap(d, k', k);
    MulGap(d, k, k');
  }

  lemma MulGap(d: nat, a: int, b: int)
    ensures a < b ==> d * a + d <= d * b
  {
    if a < b {
      var k: nat := b - a - 1;
      assert d * k >= 0;
      assert d * b == d * a + d + d * k;
    }
  }

  /** A number that fits its field survives. */
  lemma LERoundTrip(n: nat, w: nat)
    requires n < Pow256(w)
    ensures UnLE(LE(n, w)) == n
  {
    UnLEofLE(n, w);
    ModUnique(n, Pow256(w), 0, n);
  }

  lemma PowersOf256()
    ensures Pow256(1) == 0x100 && Pow256(2) == 0x1_0000 && Pow256(4) == 0x1_0000_0000
    ensures Pow256(8) == 0x1_0000_0000_0000_0000
  {
    assert Pow256(3) == 256 * Pow256(2);
    assert Pow256(5) == 256 * Pow256(4);
    assert Pow256(6) == 256 * Pow256(5);
    assert Pow256(7) == 256 * Pow256(6);
  }

  /** The bytes of a read are the bytes that were there: LE is onto. */
  lemma {:induction false} LEofUnLE(bs: seq<Byte>)
    ensures LE(UnLE(bs), |bs|) == bs
  {
    if bs != [] {
      LEofUnLE(bs[1..]);
      ModUnique(UnLE(bs), 256, UnLE(bs[1..]), bs[0]);
    }
  }

  /** Byte k of a little-endian number is its k-th digit to the base 256. */
  lemma {:induction false} LEAt(n: nat, w: nat, k: nat)
    requires k < w
    ensures LE(n, w)[k] == n / Pow256(k) % 256
    decreases k
  {
    if k > 0 {
      LEAt(n / 256, w - 1, k - 1);
      DivTwice(n, Pow256(k - 1));
    }
  }

  lemma DivTwice(n: nat, p: nat)
    requires p >= 1
    ensures n / 256 / p == n / (256 * p)
  {
    var q := n / 256;
    var k, r := q / p, q % p;
    assert n == 256 * (k * p + r) + n % 256;
    assert n == (256 * p) * k + (256 * r + n % 256);
    assert 0 <= 256 * r + n % 256 < 256 * p by { assert r <= p - 1; }
    ModUnique(n, 256 * p, k, 256 * r + n % 256);
  }
}
