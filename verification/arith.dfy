/**
  Integer and real arithmetic facts the encoders rely on: powers of two,
  uniqueness of Euclidean division, and monotonicity of the scaling that
  turns a residue into an angle.
 */
module Arith {

  /** 2 to the power k, as Python's `2**k` for a non-negative exponent. */
  function Pow2(k: nat): (r: nat)
    ensures r >= 1
  {
    if k == 0 then 1 else 2 * Pow2(k - 1)
  }

  lemma {:induction false} Pow2Add(a: nat, b: nat)
    ensures Pow2(a + b) == Pow2(a) * Pow2(b)
  {
    if a > 0 {
      Pow2Add(a - 1, b);
      assert Pow2(a + b) == 2 * Pow2(a - 1 + b);
      assert Pow2(a + b) == 2 * (Pow2(a - 1) * Pow2(b));
    }
  }

  /** A quotient and remainder with the remainder in [0, d) are the ones
      Euclidean division computes. */
  lemma DivModUnique(x: int, d: int, q: int, r: int)
    requires d > 0 && 0 <= r < d && x == q * d + r
    ensures x / d == q && x % d == r
  {
    var q0, r0 := x / d, x % d;
    assert x == q0 * d + r0;
    assert (q - q0) * d == r0 - r;
    if q > q0 {
      MulAtLeast(q - q0, d);
      assert false;
    } else if q < q0 {
      MulAtLeast(q0 - q, d);
      assert false;
    }
  }

  lemma MulAtLeast(k: int, d: int)
    requires k >= 1 && d > 0
    ensures k * d >= d
  {
  }

  /** Splitting by A and then by B is splitting by A * B: the remainder modulo
      A * B is the low part plus A times the next part's remainder modulo B. */
  lemma ModOfProduct(t: int, a: int, b: int)
    requires a > 0 && b > 0
    ensures a * b > 0
    ensures t % (a * b) == t % a + a * ((t / a) % b)
  {
    var lo, hi := t % a, t / a;
    var r, q := hi % b, hi / b;
    PositiveProduct(a, b);
    EuclideanSplit(t, a);
    EuclideanSplit(hi, b);
    Regroup(t, lo, a, hi, q, b, r);
    LowPartBelow(lo, a, r, b);
    DivModUnique(t, a * b, q, lo + a * r);
  }

  lemma PositiveProduct(a: int, b: int)
    requires a > 0 && b > 0
    ensures a * b > 0
  {
    MulAtLeast(a, b);
  }

  /** Euclidean division recombines: x == (x / d) * d + x % d. */
  lemma EuclideanSplit(x: int, d: int)
    requires d > 0
    ensures x == (x / d) * d + x % d && 0 <= x % d < d
  {
  }

  lemma Regroup(t: int, lo: int, a: int, hi: int, q: int, b: int, r: int)
    requires t == hi * a + lo && hi == q * b + r
    ensures t == q * (a * b) + (lo + a * r)
  {
    assert hi * a == (q * b + r) * a;
    assert (q * b + r) * a == q * (a * b) + a * r;
  }

  lemma LowPartBelow(lo: int, a: int, r: int, b: int)
    requires 0 <= lo < a && 0 <= r < b
    ensures 0 <= lo + a * r < a * b
  {
    assert a * r <= a * (b - 1);
    assert a * (b - 1) == a * b - a;
  }

  /** Dividing by a positive denominator and scaling by a positive factor is
      strictly increasing. */
  lemma ScaleStrictlyIncreasing(x: real, y: real, den: real, k: real)
    requires den > 0.0 && k > 0.0 && x < y
    ensures (x / den) * k < (y / den) * k
  {
    assert x / den < y / den;
  }

  /** A scaled value is injective in the value scaled. */
  lemma ScaleInjective(x: real, y: real, den: real, k: real)
    requires den > 0.0 && k > 0.0
    ensures (x / den) * k == (y / den) * k <==> x == y
  {
    if x < y {
      ScaleStrictlyIncreasing(x, y, den, k);
    } else if y < x {
      ScaleStrictlyIncreasing(y, x, den, k);
    }
  }

  /** Scaling by a positive factor is strictly increasing. */
  lemma MulStrictlyIncreasing(x: real, y: real, k: real)
    requires x < y && k > 0.0
    ensures x * k < y * k
  {
    assert y * k - x * k == (y - x) * k;
  }

  /** Scaling by a positive factor is injective. */
  lemma MulInjective(x: real, y: real, k: real)
    requires k > 0.0
    ensures x * k == y * k <==> x == y
  {
    if x < y {
      MulStrictlyIncreasing(x, y, k);
    } else if y < x {
      MulStrictlyIncreasing(y, x, k);
    }
  }

  /** A fraction num / den with 0 <= num < den, scaled by k > 0, lies in [0, k). */
  lemma ScaledFractionBounds(num: real, den: real, k: real)
    requires 0.0 <= num < den && k > 0.0
    ensures 0.0 <= (num / den) * k < k
  {
    assert num / den < 1.0;
    assert (num / den) * k < 1.0 * k;
  }
}
