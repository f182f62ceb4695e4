/** Bytes, 64-bit words and their big-endian encodings. */
module Bytes {

  type byte = x: int | 0 <= x < 256

  const U64_MAX := 0xFFFF_FFFF_FFFF_FFFF
  const TWO_64 := 0x1_0000_0000_0000_0000

  type u64 = x: int | 0 <= x < 0x1_0000_0000_0000_0000

  /** The value a 64-bit word keeps of an unchecked sum. */
  function Wrap64(x: nat): (w: u64)
    ensures x <= U64_MAX ==> w == x
  {
    x % 0x1_0000_0000_0000_0000
  }

  lemma WrapAdd(x: nat, y: nat)
    ensures Wrap64(Wrap64(x) + y) == Wrap64(x + y)
  {
  }

  lemma WrapPeriod(x: nat)
    ensures Wrap64(x + TWO_64) == Wrap64(x)
  {
  }

  /** Two sums from one start wrap to different words unless they are 2^64 or more apart. */
  lemma WrapDistinct(n: nat, p: nat, q: nat)
    requires p < q < p + TWO_64
    ensures Wrap64(n + p) != Wrap64(n + q)
  {
  }

  function Pow256(n: nat): (p: nat)
    ensures p > 0
  {
    if n == 0 then 1 else 256 * Pow256(n - 1)
  }

  /** Byte `k` of `x`, counted from the least significant. */
  function Digit(x: nat, k: nat): byte
    decreases k
  {
    if k == 0 then x % 256 else Digit(x / 256, k - 1)
  }

  /** The `width` low-order bytes of `x`, most significant first (`to_be_bytes`). */
  function BigEndian(x: nat, width: nat): (b: seq<byte>)
    ensures |b| == width
  {
    seq(width, i requires 0 <= i < width => Digit(x, width - 1 - i))
  }

  lemma BigEndianSplit(x: nat, width: nat)
    requires width > 0
    ensures BigEndian(x, width) == BigEndian(x / 256, width - 1) + [x % 256]
  {
    var a, b := BigEndian(x, width), BigEndian(x / 256, width - 1) + [x % 256];
    forall i | 0 <= i < width
      ensures a[i] == b[i]
    {
      assert a[i] == Digit(x, width - 1 - i);
      if i < width - 1 {
        assert b[i] == Digit(x / 256, width - 2 - i);
      }
    }
  }

  function FromBigEndian(b: seq<byte>): nat
  {
    if b == [] then 0 else 256 * FromBigEndian(b[..|b| - 1]) + b[|b| - 1]
  }

  lemma {:induction false} BigEndianRoundTrip(x: nat, width: nat)
    requires x < Pow256(width)
    ensures FromBigEndian(BigEndian(x, width)) == x
  {
    if width > 0 {
      BigEndianSplit(x, width);
      BigEndianRoundTrip(x / 256, width - 1);
      assert BigEndian(x, width)[..width - 1] == BigEndian(x / 256, width - 1);
    }
  }

  lemma BigEndianInjective(x: nat, y: nat, width: nat)
    requires x < Pow256(width) && y < Pow256(width)
    requires BigEndian(x, width) == BigEndian(y, width)
    ensures x == y
  {
    BigEndianRoundTrip(x, width);
    BigEndianRoundTrip(y, width);
  }

  /** The derived `Ord` on byte arrays of one length: the first differing byte decides. */
  ghost predicate LexLess(a: seq<byte>, b: seq<byte>)
    requires |a| == |b|
  {
    exists k :: 0 <= k < |a| && a[..k] == b[..k] && a[k] < b[k]
  }

  lemma LexLessAsymmetric(a: seq<byte>, b: seq<byte>)
    requires |a| == |b| && LexLess(a, b)
    ensures !LexLess(b, a) && a != b
  {
    var k :| 0 <= k < |a| && a[..k] == b[..k] && a[k] < b[k];
    forall j | 0 <= j < |a| && b[..j] == a[..j]
      ensures !(b[j] < a[j])
    {
      if j < k {
        assert a[..k][j] == b[..k][j];
      }
    }
  }

  lemma {:induction false} BigEndianLess(x: nat, y: nat, width: nat)
    requires x < y < Pow256(width)
    ensures LexLess(BigEndian(x, width), BigEndian(y, width))
  {
    var a, b := BigEndian(x, width), BigEndian(y, width);
    var p, q := BigEndian(x / 256, width - 1), BigEndian(y / 256, width - 1);
    BigEndianSplit(x, width);
    BigEndianSplit(y, width);
    if x / 256 < y / 256 {
      BigEndianLess(x / 256, y / 256, width - 1);
      var k :| 0 <= k < |p| && p[..k] == q[..k] && p[k] < q[k];
      assert a[..k] == p[..k] && b[..k] == q[..k];
      assert a[k] < b[k];
    } else {
      assert a[..width - 1] == p && b[..width - 1] == q;
      assert a[width - 1] < b[width - 1];
    }
  }

  /** Comparing encodings byte by byte is comparing the numbers. */
  lemma BigEndianOrder(x: nat, y: nat, width: nat)
    requires x < Pow256(width) && y < Pow256(width)
    ensures x < y <==> LexLess(BigEndian(x, width), BigEndian(y, width))
  {
    if x < y {
      BigEndianLess(x, y, width);
    } else if y < x {
      BigEndianLess(y, x, width);
      LexLessAsymmetric(BigEndian(y, width), BigEndian(x, width));
    }
  }

  lemma Pow256Values()
    ensures Pow256(8) == TWO_64
    ensures Pow256(20) == 0x1_0000000000_0000000000_0000000000_0000000000
  {
    assert Pow256(4) == 0x1_0000_0000;
    assert Pow256(8) == TWO_64;
    assert Pow256(12) == 0x1_0000_0000 * TWO_64;
    assert Pow256(16) == TWO_64 * TWO_64;
  }
}
