/**
 * The probability primitive and the summary statistics both station stores offer.
 * The optimised store averages a boolean array (`np.mean(values > t)`); the older store divides a
 * count by the length. Both are modelled, and shown to agree.
 */
module Probability {
  import opened Wrappers
  import opened Numerics
  import opened Series
  import opened Order

  /** The boolean array `c(values)` as 0/1 numbers, which is what `np.mean` averages. */
  function Indicators(s: seq<real>, c: Test): (r: seq<real>)
    ensures |r| == |s|
    ensures AllWithin(r, 0.0, 1.0)
  {
    if s == [] then [] else [if Holds(c, s[0]) then 1.0 else 0.0] + Indicators(s[1..], c)
  }

  /** Summing the indicators counts the values that pass. */
  lemma {:induction false} SumOfIndicators(s: seq<real>, c: Test)
    ensures Sum(Indicators(s, c)) == Count(s, c) as real
  {
    if s != [] {
      SumOfIndicators(s[1..], c);
      assert Indicators(s, c)[1..] == Indicators(s[1..], c);
    }
  }

  /** The comparison a mode string selects: `"greater"` means strictly above, any other string strictly below. */
  function ModeTest(threshold: real, condition: string): Test
  {
    if condition == "greater" then Above(threshold) else Below(threshold)
  }

  /** Optimised store: the mean of the indicator array, and 0.0 for no values. */
  function CalculateProbability(values: Option<seq<real>>, threshold: real, condition: string): (p: real)
    ensures 0.0 <= p <= 1.0
    ensures values.None? || values.value == [] ==> p == 0.0
  {
    if values.None? || |values.value| == 0 then 0.0
    else
      var ind := Indicators(values.value, ModeTest(threshold, condition));
      MeanWithin(ind, 0.0, 1.0);
      Mean(ind)
  }

  /** Older store: the count of passing values over the length, and 0.0 for no values. */
  function CalculateProbabilityLegacy(values: Option<seq<real>>, threshold: real, condition: string): (p: real)
    ensures 0.0 <= p <= 1.0
    ensures values.None? || values.value == [] ==> p == 0.0
  {
    if values.None? || |values.value| == 0 then 0.0
    else Fraction(values.value, ModeTest(threshold, condition))
  }

  /**
   * For a non-empty series both stores return the share of values strictly above the threshold
   * in mode "greater" and strictly below it in any other mode.
   */
  lemma ProbabilityIsShare(values: seq<real>, threshold: real, condition: string)
    requires |values| > 0
    ensures CalculateProbability(Some(values), threshold, condition)
         == Fraction(values, if condition == "greater" then Above(threshold) else Below(threshold))
    ensures CalculateProbabilityLegacy(Some(values), threshold, condition)
         == CalculateProbability(Some(values), threshold, condition)
  {
    SumOfIndicators(values, ModeTest(threshold, condition));
  }

  /** Both comparisons are strict: a value equal to the threshold never counts. */
  lemma ThresholdNeverCounts(n: nat, threshold: real, condition: string)
    requires n > 0
    ensures CalculateProbability(Some(seq(n, _ => threshold)), threshold, condition) == 0.0
  {
    var s := seq(n, _ => threshold);
    ProbabilityIsShare(s, threshold, condition);
    CountNone(s, ModeTest(threshold, condition));
  }

  /** The summary both stores return. */
  datatype Statistics = Statistics(mean: real, median: real, std: real, min: real, max: real, count: nat)

  /** `None` for no values; otherwise the summary, whose mean and median lie between min and max. */
  function GetStatistics(values: Option<seq<real>>, lib: MathLib): (r: Option<Statistics>)
    requires lib.Sound()
    ensures r.None? <==> values.None? || |values.value| == 0
    ensures r.Some? ==>
      && r.value.min <= r.value.mean <= r.value.max
      && r.value.min <= r.value.median <= r.value.max
      && 0.0 <= r.value.std
      && r.value.count == |values.value|
  {
    if values.None? || |values.value| == 0 then None
    else
      var s := values.value;
      Some(Statistics(Mean(s), Median(s), Std(s, lib), Min(s), Max(s), |s|))
  }

  /** The reported minimum and maximum are values of the series. */
  lemma StatisticsExtremesOccur(values: seq<real>, lib: MathLib)
    requires lib.Sound() && |values| > 0
    ensures GetStatistics(Some(values), lib).value.min in values
    ensures GetStatistics(Some(values), lib).value.max in values
  {
    MinMaxAreMembers(values);
  }
}
