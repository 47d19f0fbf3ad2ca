/**
 * Order statistics numpy computes for the analyzers: `np.sort`, `np.percentile` with its
 * default linear interpolation, `np.median` and `np.std`.
 */
module Order {
  import opened Series
  import opened Numerics

  predicate SortedAsc(s: seq<real>)
  {
    forall i, j :: 0 <= i < j < |s| ==> s[i] <= s[j]
  }

  /** Inserts `x` into a sorted sequence, before the first element not below it. */
  function InsertAsc(x: real, t: seq<real>): (r: seq<real>)
    requires SortedAsc(t)
    ensures SortedAsc(r)
    ensures multiset(r) == multiset(t) + multiset{x}
    ensures |r| == |t| + 1
    ensures r[0] == x || (t != [] && r[0] == t[0])
  {
    if t == [] then [x]
    else if x <= t[0] then
      SortedCons(x, t);
      [x] + t
    else
      assert t == [t[0]] + t[1..];
      SortedTail(t);
      var rest := InsertAsc(x, t[1..]);
      SortedCons(t[0], rest);
      assert multiset([t[0]] + rest) == multiset{t[0]} + multiset(rest);
      [t[0]] + rest
  }

  lemma SortedTail(t: seq<real>)
    requires SortedAsc(t) && t != []
    ensures SortedAsc(t[1..])
  {
    var tail := t[1..];
    forall i, j | 0 <= i < j < |tail| ensures tail[i] <= tail[j] {
      assert tail[i] == t[i + 1] && tail[j] == t[j + 1];
    }
  }

  lemma SortedCons(a: real, r: seq<real>)
    requires SortedAsc(r) && (r != [] ==> a <= r[0])
    ensures SortedAsc([a] + r)
  {
    var q := [a] + r;
    forall i, j | 0 <= i < j < |q| ensures q[i] <= q[j] {
      if i > 0 {
        assert q[i] == r[i - 1] && q[j] == r[j - 1];
      } else {
        assert q[j] == r[j - 1] && r[0] <= r[j - 1];
      }
    }
  }

  /** `np.sort`: an ascending permutation of the series. */
  function SortAsc(s: seq<real>): (r: seq<real>)
    ensures SortedAsc(r)
    ensures multiset(r) == multiset(s)
  {
    if s == [] then []
    else
      assert s == [s[0]] + s[1..];
      InsertAsc(s[0], SortAsc(s[1..]))
  }

  lemma SortedMember(s: seq<real>, k: int)
    requires 0 <= k < |SortAsc(s)|
    ensures |SortAsc(s)| == |s| && Min(s) <= SortAsc(s)[k] <= Max(s)
  {
    var t := SortAsc(s);
    assert |t| == |multiset(t)| == |multiset(s)| == |s|;
    assert t[k] in multiset(s);
    MinMaxOfMember(s, t[k]);
  }

  /** Linear interpolation from `a` (at f = 0) to `b` (at f = 1). */
  function Interpolate(a: real, b: real, f: real): (r: real)
    requires a <= b && 0.0 <= f <= 1.0
    ensures a <= r <= b
  {
    var d := b - a;
    Lerp(a, b, f);
    a + f * d
  }

  lemma Lerp(a: real, b: real, f: real)
    requires a <= b && 0.0 <= f <= 1.0
    ensures a <= a + f * (b - a) <= b
  {
    MulNonneg(f, b - a);
    MulNonneg(1.0 - f, b - a);
    assert (1.0 - f) * (b - a) == (b - a) - f * (b - a);
  }

  lemma MulNonneg(x: real, y: real)
    requires 0.0 <= x && 0.0 <= y
    ensures 0.0 <= x * y
  {
  }

  /** numpy's virtual index (n - 1) * p / 100 into n sorted values. */
  function VirtualIndex(n: nat, p: real): (h: real)
    requires n > 0 && 0.0 <= p <= 100.0
    ensures 0.0 <= h <= (n - 1) as real
  {
    var m := (n - 1) as real;
    MulNonneg(m, p);
    MulNonneg(m, 100.0 - p);
    assert m * (100.0 - p) == m * 100.0 - m * p;
    m * p / 100.0
  }

  /** The integer part of a virtual index into n sorted values. */
  function FloorIndex(h: real, n: nat): (lo: nat)
    requires 0.0 <= h <= (n - 1) as real
    ensures lo < n && lo as real <= h < lo as real + 1.0
  {
    h.Floor
  }

  /**
   * The value at virtual index h of an ascending sequence: the element at h's integer part,
   * interpolated towards the next one by h's fractional part.
   */
  function AtVirtualIndex(t: seq<real>, h: real): (r: real)
    requires SortedAsc(t) && |t| > 0 && 0.0 <= h <= (|t| - 1) as real
    ensures t[0] <= r <= t[|t| - 1]
  {
    var lo := FloorIndex(h, |t|);
    var hi := if lo + 1 < |t| then lo + 1 else lo;
    Interpolate(t[lo], t[hi], h - lo as real)
  }

  /**
   * `np.percentile(values, p)` with numpy's default linear method: the virtual index
   * (n - 1) * p / 100 into the sorted values, interpolating between its two neighbours.
   */
  function Percentile(s: seq<real>, p: real): (r: real)
    requires |s| > 0 && 0.0 <= p <= 100.0
    ensures Min(s) <= r <= Max(s)
  {
    var t := SortAsc(s);
    SortedMember(s, 0);
    SortedMember(s, |s| - 1);
    AtVirtualIndex(t, VirtualIndex(|s|, p))
  }

  /** A higher percentile is never below a lower one: p50 <= p75 <= p90 <= p95. */
  lemma PercentileMonotone(s: seq<real>, p: real, q: real)
    requires |s| > 0 && 0.0 <= p <= q <= 100.0
    ensures Percentile(s, p) <= Percentile(s, q)
  {
    SortedMember(s, 0);
    VirtualIndexMonotone(|s|, p, q);
    AtVirtualIndexMonotone(SortAsc(s), VirtualIndex(|s|, p), VirtualIndex(|s|, q));
  }

  lemma VirtualIndexMonotone(n: nat, p: real, q: real)
    requires n > 0 && 0.0 <= p <= q <= 100.0
    ensures VirtualIndex(n, p) <= VirtualIndex(n, q)
  {
    var m := (n - 1) as real;
    MulNonneg(m, q - p);
    assert m * q - m * p == m * (q - p);
  }

  /** Further along an ascending sequence, the interpolated value never decreases. */
  lemma AtVirtualIndexMonotone(t: seq<real>, h: real, k: real)
    requires SortedAsc(t) && |t| > 0 && 0.0 <= h <= k <= (|t| - 1) as real
    ensures AtVirtualIndex(t, h) <= AtVirtualIndex(t, k)
  {
    var n := |t|;
    var lh, lk := FloorIndex(h, n), FloorIndex(k, n);
    var uh := if lh + 1 < n then lh + 1 else lh;
    if lh == lk {
      InterpolateMonotone(t[lh], t[uh], h - lh as real, k - lh as real);
    } else {
      assert uh <= lk;
      assert t[uh] <= t[lk];
    }
  }

  /** Interpolating further along the same segment never gives less. */
  lemma InterpolateMonotone(a: real, b: real, f: real, g: real)
    requires a <= b && 0.0 <= f <= g <= 1.0
    ensures Interpolate(a, b, f) <= Interpolate(a, b, g)
  {
    MulNonneg(g - f, b - a);
    assert (g - f) * (b - a) == g * (b - a) - f * (b - a);
  }

  /** `np.median`: the 50th percentile under linear interpolation. */
  function Median(s: seq<real>): (r: real)
    requires |s| > 0
    ensures Min(s) <= r <= Max(s)
  {
    Percentile(s, 50.0)
  }

  /** Mean, maximum and minimum of a series, with one decimal. */
  function RoundedSummary(s: seq<real>): (r: (real, real, real))
    requires |s| > 0
    ensures r.2 <= r.0 <= r.1
  {
    Round1Monotone(Min(s), Mean(s));
    Round1Monotone(Mean(s), Max(s));
    (Round1(Mean(s)), Round1(Max(s)), Round1(Min(s)))
  }

  /** The 25th, 75th and 90th percentiles with one decimal, in ascending order. */
  function RoundedQuartiles(s: seq<real>): (r: (real, real, real))
    requires |s| > 0
    ensures Round1(Min(s)) <= r.0 <= r.1 <= r.2 <= Round1(Max(s))
  {
    var p25, p75, p90 := Percentile(s, 25.0), Percentile(s, 75.0), Percentile(s, 90.0);
    PercentileMonotone(s, 25.0, 75.0);
    PercentileMonotone(s, 75.0, 90.0);
    Round1Monotone(Min(s), p25);
    Round1Monotone(p25, p75);
    Round1Monotone(p75, p90);
    Round1Monotone(p90, Max(s));
    (Round1(p25), Round1(p75), Round1(p90))
  }

  /** Squared deviations from the mean. */
  function Deviations(s: seq<real>): (d: seq<real>)
    requires |s| > 0
    ensures |d| == |s|
    ensures forall i :: 0 <= i < |d| ==> 0.0 <= d[i]
  {
    var m := Mean(s);
    seq(|s|, i requires 0 <= i < |s| => Square(s[i] - m))
  }

  function Square(x: real): (r: real)
    ensures 0.0 <= r
  {
    if x < 0.0 then MulNonneg(-x, -x); x * x else MulNonneg(x, x); x * x
  }

  /** The population variance numpy's `std` takes the root of (ddof = 0). */
  function Variance(s: seq<real>): (v: real)
    requires |s| > 0
    ensures 0.0 <= v
  {
    var d := Deviations(s);
    MeanAtLeast(d, 0.0);
    Mean(d)
  }

  /** `np.std`: never negative. */
  function Std(s: seq<real>, lib: MathLib): (r: real)
    requires |s| > 0 && lib.Sound()
    ensures 0.0 <= r
  {
    lib.sqrt(Variance(s))
  }
}
