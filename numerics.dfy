/**
 * Numeric primitives the analytics rely on.
 *
 * `round(x, 1)` is modelled exactly over the reals: x is scaled by 10 and rounded to the
 * nearest integer, ties going to the even neighbour (Python's rule). `sqrt` and `exp` cannot
 * be computed over the reals, so they are supplied by the caller as a `MathLib` that carries
 * only the facts the properties need.
 */
module Numerics {

  /** The transcendental functions the source takes from numpy. */
  datatype MathLib = MathLib(sqrt: real -> real, exp: real -> real)
  {
    /** What the model assumes of numpy's `sqrt` and `exp`. */
    ghost predicate Sound()
    {
      && (forall x: real :: 0.0 <= x ==> 0.0 <= sqrt(x))
      && (forall x: real, y: real :: 0.0 <= x < y ==> sqrt(x) < sqrt(y))
      && (forall x: real :: 0.0 < exp(x))
      && (forall x: real, y: real :: x <= y ==> exp(x) <= exp(y))
    }
  }

  /** Nearest integer, ties to even. */
  function RoundHalfEven(y: real): (n: int)
    ensures y - 0.5 <= n as real <= y + 0.5
    ensures y - 0.5 == n as real ==> n % 2 == 0
    ensures y + 0.5 == n as real ==> n % 2 == 0
  {
    var f := y.Floor;
    var d := y - f as real;
    if d < 0.5 then f
    else if d > 0.5 then f + 1
    else if f % 2 == 0 then f
    else f + 1
  }

  /** Python's `round(x, 1)`: the multiple of 0.1 nearest to x, ties to an even last digit. */
  function Round1(x: real): (r: real)
    ensures x - 0.05 <= r <= x + 0.05
  {
    RoundHalfEven(x * 10.0) as real / 10.0
  }

  lemma RoundHalfEvenMonotone(a: real, b: real)
    requires a <= b
    ensures RoundHalfEven(a) <= RoundHalfEven(b)
  {
    var fa, fb := a.Floor, b.Floor;
    if fa < fb {
      assert RoundHalfEven(a) <= fa + 1 <= fb <= RoundHalfEven(b);
    } else {
      assert fa == fb;
      assert a - fa as real <= b - fb as real;
    }
  }

  lemma RoundHalfEvenOfInteger(n: int)
    ensures RoundHalfEven(n as real) == n
  {
    assert (n as real).Floor == n;
  }

  /** Rounding never reverses an order. */
  lemma Round1Monotone(a: real, b: real)
    requires a <= b
    ensures Round1(a) <= Round1(b)
  {
    RoundHalfEvenMonotone(a * 10.0, b * 10.0);
  }

  /** Values that already have one decimal are left unchanged. */
  lemma Round1OfTenths(k: int)
    ensures Round1(k as real / 10.0) == k as real / 10.0
  {
    assert (k as real / 10.0) * 10.0 == k as real;
    RoundHalfEvenOfInteger(k);
  }

  /** A value in [lo, hi], both with one decimal, stays in [lo, hi] after rounding. */
  lemma Round1Within(x: real, lo: int, hi: int)
    requires lo as real / 10.0 <= x <= hi as real / 10.0
    ensures lo as real / 10.0 <= Round1(x) <= hi as real / 10.0
  {
    Round1Monotone(lo as real / 10.0, x);
    Round1Monotone(x, hi as real / 10.0);
    Round1OfTenths(lo);
    Round1OfTenths(hi);
  }

  /** Rounding keeps a percentage in [0, 100]. */
  lemma Round1Percent(x: real)
    requires 0.0 <= x <= 100.0
    ensures 0.0 <= Round1(x) <= 100.0
  {
    Round1Within(x, 0, 1000);
  }

  /** A share in [0, 1] reported as a percentage with one decimal. */
  function Percent(p: real): (r: real)
    requires 0.0 <= p <= 1.0
    ensures 0.0 <= r <= 100.0
  {
    Round1Percent(p * 100.0);
    Round1(p * 100.0)
  }

  /** The square root of a positive number is positive, so it can be divided by. */
  lemma SqrtPositive(lib: MathLib, x: real)
    requires lib.Sound() && 0.0 < x
    ensures 0.0 < lib.sqrt(x)
  {
    assert 0.0 <= lib.sqrt(0.0) < lib.sqrt(x);
  }

  /** numpy's `clip`. */
  function Clip(x: real, lo: real, hi: real): (r: real)
    requires lo <= hi
    ensures lo <= r <= hi
    ensures lo <= x <= hi ==> r == x
  {
    if x < lo then lo else if x > hi then hi else x
  }

  function MinReal(a: real, b: real): (r: real)
    ensures r <= a && r <= b && (r == a || r == b)
  {
    if a <= b then a else b
  }

  function MaxReal(a: real, b: real): (r: real)
    ensures a <= r && b <= r && (r == a || r == b)
  {
    if a >= b then a else b
  }
}
