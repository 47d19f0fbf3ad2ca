/**
 * Reductions over a series of historical values: counting the values that pass a comparison,
 * filtering, sum, mean, minimum and maximum. These are the numpy expressions the analyzers use
 * (`np.sum(values > t)`, `values[values >= 0]`, `np.mean`, `np.min`, `np.max`).
 */
module Series {

  /** A comparison applied element-wise to a series. */
  datatype Test =
    | Above(t: real)              // v > t
    | Below(t: real)              // v < t
    | AtLeast(t: real)            // v >= t
    | Within(lo: real, hi: real)  // lo <= v <= hi
    | Band(lo: real, hi: real)    // lo <= v < hi

  predicate Holds(c: Test, v: real)
  {
    match c
    case Above(t) => v > t
    case Below(t) => v < t
    case AtLeast(t) => v >= t
    case Within(lo, hi) => lo <= v <= hi
    case Band(lo, hi) => lo <= v < hi
  }

  /** `np.sum(c(values))`: how many values pass the comparison. */
  function Count(s: seq<real>, c: Test): (n: nat)
    ensures n <= |s|
  {
    if s == [] then 0 else (if Holds(c, s[0]) then 1 else 0) + Count(s[1..], c)
  }

  /** `values[c(values)]`: the values that pass, in their original order. */
  function Filter(s: seq<real>, c: Test): (r: seq<real>)
    ensures |r| == Count(s, c)
    ensures forall i :: 0 <= i < |r| ==> Holds(c, r[i])
    ensures multiset(r) <= multiset(s)
  {
    if s == [] then []
    else
      assert s == [s[0]] + s[1..];
      if Holds(c, s[0]) then [s[0]] + Filter(s[1..], c)
      else Filter(s[1..], c)
  }

  /** `np.mean(c(values))`: the share of values that pass. */
  function Fraction(s: seq<real>, c: Test): (f: real)
    requires |s| > 0
    ensures 0.0 <= f <= 1.0
    ensures f == 0.0 <==> Count(s, c) == 0
    ensures f == 1.0 <==> Count(s, c) == |s|
  {
    Count(s, c) as real / |s| as real
  }

  lemma {:induction false} CountAll(s: seq<real>, c: Test)
    requires forall i :: 0 <= i < |s| ==> Holds(c, s[i])
    ensures Count(s, c) == |s|
  {
    if s != [] {
      CountAll(s[1..], c);
    }
  }

  lemma {:induction false} CountNone(s: seq<real>, c: Test)
    requires forall i :: 0 <= i < |s| ==> !Holds(c, s[i])
    ensures Count(s, c) == 0
  {
    if s != [] {
      CountNone(s[1..], c);
    }
  }

  /** Every value is either below `a` or at least `a`. */
  lemma {:induction false} CountBelowAtLeast(s: seq<real>, a: real)
    ensures Count(s, Below(a)) + Count(s, AtLeast(a)) == |s|
  {
    if s != [] {
      CountBelowAtLeast(s[1..], a);
    }
  }

  /** Below `b` splits into below `a` and the band [a, b). */
  lemma {:induction false} CountBelowSplit(s: seq<real>, a: real, b: real)
    requires a <= b
    ensures Count(s, Below(b)) == Count(s, Below(a)) + Count(s, Band(a, b))
  {
    if s != [] {
      CountBelowSplit(s[1..], a, b);
    }
  }

  /** At least `a` splits into the band [a, b) and at least `b`. */
  lemma {:induction false} CountAtLeastSplit(s: seq<real>, a: real, b: real)
    requires a <= b
    ensures Count(s, AtLeast(a)) == Count(s, Band(a, b)) + Count(s, AtLeast(b))
  {
    if s != [] {
      CountAtLeastSplit(s[1..], a, b);
    }
  }

  function Sum(s: seq<real>): real
  {
    if s == [] then 0.0 else s[0] + Sum(s[1..])
  }

  /** `np.min`. */
  function Min(s: seq<real>): (m: real)
    requires |s| > 0
    ensures forall i :: 0 <= i < |s| ==> m <= s[i]
  {
    if |s| == 1 then s[0]
    else
      var rest := Min(s[1..]);
      if s[0] <= rest then s[0] else rest
  }

  /** `np.max`. */
  function Max(s: seq<real>): (m: real)
    requires |s| > 0
    ensures forall i :: 0 <= i < |s| ==> s[i] <= m
  {
    if |s| == 1 then s[0]
    else
      var rest := Max(s[1..]);
      if s[0] >= rest then s[0] else rest
  }

  /** The minimum and the maximum are values of the series. */
  lemma {:induction false} MinMaxAreMembers(s: seq<real>)
    requires |s| > 0
    ensures Min(s) in s && Max(s) in s
  {
    if |s| > 1 {
      MinMaxAreMembers(s[1..]);
      assert s == [s[0]] + s[1..];
    }
  }

  lemma MinMaxOfMember(s: seq<real>, x: real)
    requires x in s
    ensures Min(s) <= x <= Max(s)
  {
    var i :| 0 <= i < |s| && s[i] == x;
  }

  lemma {:induction false} SumAtLeast(s: seq<real>, lo: real)
    requires forall i :: 0 <= i < |s| ==> lo <= s[i]
    ensures |s| as real * lo <= Sum(s)
  {
    if s != [] {
      SumAtLeast(s[1..], lo);
      var n := |s[1..]| as real;
      assert |s| as real * lo == lo + n * lo;
    }
  }

  lemma {:induction false} SumAtMost(s: seq<real>, hi: real)
    requires forall i :: 0 <= i < |s| ==> s[i] <= hi
    ensures Sum(s) <= |s| as real * hi
  {
    if s != [] {
      SumAtMost(s[1..], hi);
      var n := |s[1..]| as real;
      assert |s| as real * hi == hi + n * hi;
    }
  }

  function Mean(s: seq<real>): (m: real)
    requires |s| > 0
    ensures Min(s) <= m <= Max(s)
  {
    MeanAtLeast(s, Min(s));
    MeanAtMost(s, Max(s));
    Sum(s) / |s| as real
  }

  lemma MeanAtLeast(s: seq<real>, lo: real)
    requires |s| > 0 && forall i :: 0 <= i < |s| ==> lo <= s[i]
    ensures lo <= Sum(s) / |s| as real
  {
    var n := |s| as real;
    SumAtLeast(s, lo);
    assert Sum(s) / n - lo == (Sum(s) - n * lo) / n;
  }

  lemma MeanAtMost(s: seq<real>, hi: real)
    requires |s| > 0 && forall i :: 0 <= i < |s| ==> s[i] <= hi
    ensures Sum(s) / |s| as real <= hi
  {
    var n := |s| as real;
    SumAtMost(s, hi);
    assert Sum(s) / n - hi == (Sum(s) - n * hi) / n;
  }

  /** All values lie in [lo, hi]. */
  predicate AllWithin(s: seq<real>, lo: real, hi: real)
  {
    forall i :: 0 <= i < |s| ==> lo <= s[i] <= hi
  }

  /** The mean of values in [lo, hi] is in [lo, hi]. */
  lemma MeanWithin(s: seq<real>, lo: real, hi: real)
    requires |s| > 0 && AllWithin(s, lo, hi)
    ensures lo <= Mean(s) <= hi
  {
    MeanAtLeast(s, lo);
    MeanAtMost(s, hi);
  }

  /** The mean of a series that is constant `x` is `x`. */
  lemma MeanOfConstant(s: seq<real>, x: real)
    requires |s| > 0 && AllWithin(s, x, x)
    ensures Mean(s) == x
  {
    MeanWithin(s, x, x);
  }
}
