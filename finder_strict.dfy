/**
 * The strict destination finder. It scores every station like the enhanced finder but without
 * a seasonal bonus, marks a station whose series do not cover every constraint, and rejects an
 * unknown condition with an error. As written it reports `less`/`greater` shares as plain
 * fractions next to a minimum given in percent; `FindDestinationsAsWritten` keeps that scale,
 * while `FindDestinationsSpec` and the class use percent throughout.
 */
module FinderStrict {
  import opened Wrappers
  import opened Numerics
  import opened Series
  import opened Stations
  import opened Conditions
  import opened Ranking
  import opened Evaluation
  import StationStore

  /** One station's line in the ranking; `meetsConditions` is false when a constraint had no values. */
  datatype StrictResult = StrictResult(
    cityKey: string,
    cityName: string,
    probabilities: map<Variable, real>,
    averageValues: map<Variable, real>,
    overall: real,
    meetsConditions: bool)

  /** The ranking key. */
  function Overall(r: StrictResult): real
  {
    r.overall
  }

  /** A station's score under a condition scaled as `variant` reports shares: their rounded mean, 0 when none. */
  function CityScoreAs(store: StationStore.Store, st: Station, cond: ClimateCondition, month: int, variant: Variant)
    : (r: StrictResult)
    reads store
    ensures r.cityKey == st.key && r.cityName == st.name
    ensures 0.0 <= r.overall <= 100.0
    ensures r.meetsConditions <==> forall i :: 0 <= i < |cond.constraints| ==> Resolves(store, st, cond.constraints[i], month)
    ensures (forall i :: 0 <= i < |cond.constraints| ==> !Resolves(store, st, cond.constraints[i], month)) ==> r.overall == 0.0
    ensures r.overall == MeanShare(Shares(ResolveAll(store, st, cond.constraints, month, variant)))
    ensures r.probabilities == ProbabilityMap(ResolveAll(store, st, cond.constraints, month, variant))
    ensures r.averageValues == AverageMap(ResolveAll(store, st, cond.constraints, month, variant))
  {
    var rs := ResolveAll(store, st, cond.constraints, month, variant);
    StrictResult(st.key, st.name, ProbabilityMap(rs), AverageMap(rs), MeanShare(Shares(rs)),
                 forall i :: 0 <= i < |cond.constraints| ==> Resolves(store, st, cond.constraints[i], month))
  }

  /** A station's score with every share in percent, the scale in which the minimum is given. */
  function CityScore(store: StationStore.Store, st: Station, cond: ClimateCondition, month: int): StrictResult
    reads store
  {
    CityScoreAs(store, st, cond, month, PercentShares)
  }

  /** Every station's score, in station order. */
  function Scores(store: StationStore.Store, cond: ClimateCondition, month: int, variant: Variant)
    : (r: seq<StrictResult>)
    reads store
    ensures |r| == |MexicanStations|
    ensures forall i :: 0 <= i < |MexicanStations| ==> r[i] == CityScoreAs(store, MexicanStations[i], cond, month, variant)
  {
    seq(|MexicanStations|, i reads store requires 0 <= i < |MexicanStations| =>
      CityScoreAs(store, MexicanStations[i], cond, month, variant))
  }

  /** The error message for a condition the finder does not know. */
  function UnknownCondition(conditionKey: string): string
  {
    "Condición climática '" + conditionKey + "' no reconocida"
  }

  /** What `find_destinations` returns, for shares scaled as `variant` reports them. */
  function FindAs(store: StationStore.Store, month: int, conditionKey: string, minProbability: real, variant: Variant)
    : (r: Result<seq<StrictResult>, string>)
    reads store
    ensures r.Failure? <==> conditionKey !in StrictConditions
    ensures r.Failure? ==> r.error == UnknownCondition(conditionKey)
    ensures r.Success? ==> SortedDesc(r.value, Overall) && |r.value| <= |MexicanStations|
  {
    if conditionKey !in StrictConditions then Failure(UnknownCondition(conditionKey))
    else Success(SortDesc(KeepAtLeast(Scores(store, StrictConditions[conditionKey], month, variant), Overall, minProbability), Overall))
  }

  /** The finder as the source computes it, with `less`/`greater` shares as fractions. */
  function FindDestinationsAsWritten(store: StationStore.Store, month: int, conditionKey: string, minProbability: real)
    : (r: Result<seq<StrictResult>, string>)
    reads store
    ensures r.Failure? <==> conditionKey !in StrictConditions
    ensures r.Success? ==> SortedDesc(r.value, Overall) && |r.value| <= |MexicanStations|
  {
    FindAs(store, month, conditionKey, minProbability, FractionShares)
  }

  /** The finder with every share in percent, which the class below computes. */
  function FindDestinationsSpec(store: StationStore.Store, month: int, conditionKey: string, minProbability: real)
    : (r: Result<seq<StrictResult>, string>)
    reads store
    ensures r.Failure? <==> conditionKey !in StrictConditions
    ensures r.Success? ==> SortedDesc(r.value, Overall) && |r.value| <= |MexicanStations|
  {
    FindAs(store, month, conditionKey, minProbability, PercentShares)
  }

  /**
   * The result is exactly the qualifying stations: a station is listed if and only if its score
   * reaches the minimum. The listing is non-increasing and keeps station order on equal scores.
   */
  lemma FindExactly(store: StationStore.Store, month: int, conditionKey: string, minProbability: real,
                    variant: Variant, r: StrictResult, score: real)
    requires conditionKey in StrictConditions
    ensures
      var scores := Scores(store, StrictConditions[conditionKey], month, variant);
      var found := FindAs(store, month, conditionKey, minProbability, variant).value;
      && (r in found <==> r in scores && r.overall >= minProbability)
      && multiset(found) == multiset(KeepAtLeast(scores, Overall, minProbability))
      && KeyClass(found, Overall, score) == KeyClass(KeepAtLeast(scores, Overall, minProbability), Overall, score)
  {
    var scores := Scores(store, StrictConditions[conditionKey], month, variant);
    var kept := KeepAtLeast(scores, Overall, minProbability);
    KeepAtLeastMembers(scores, Overall, minProbability, r);
    assert r in SortDesc(kept, Overall) <==> r in multiset(SortDesc(kept, Overall));
    SortDescStable(kept, Overall, score);
  }

  /** In the source's scale a `less` or `greater` share is at most 1, so such a station's score is at most 1. */
  lemma {:induction false} FractionSharesAtMostOne(store: StationStore.Store, st: Station, cs: seq<Constraint>, n: nat,
                                                   month: int)
    requires n <= |cs|
    requires forall i :: 0 <= i < |cs| ==> !cs[i].op.Between?
    ensures forall k :: 0 <= k < |ResolveUpTo(store, st, cs, n, month, FractionShares)|
              ==> ResolveUpTo(store, st, cs, n, month, FractionShares)[k].probability <= 1.0
  {
    if n > 0 {
      FractionSharesAtMostOne(store, st, cs, n - 1, month);
    }
  }

  /**
   * As written, a condition made only of `less`/`greater` constraints scores every station at
   * most 1.0, so any minimum above 1 (the default is 10, meant as a percentage) lists nothing.
   */
  lemma FractionScaleListsNothing(store: StationStore.Store, month: int, conditionKey: string, minProbability: real)
    requires conditionKey in StrictConditions && minProbability > 1.0
    requires forall i :: 0 <= i < |StrictConditions[conditionKey].constraints|
               ==> !StrictConditions[conditionKey].constraints[i].op.Between?
    ensures FindDestinationsAsWritten(store, month, conditionKey, minProbability) == Success([])
  {
    var cond := StrictConditions[conditionKey];
    var scores := Scores(store, cond, month, FractionShares);
    forall i | 0 <= i < |scores| ensures scores[i].overall <= 1.0 {
      var st := MexicanStations[i];
      var rs := ResolveAll(store, st, cond.constraints, month, FractionShares);
      FractionSharesAtMostOne(store, st, cond.constraints, |cond.constraints|, month);
      var shares := Shares(rs);
      if shares != [] {
        MinMaxAreMembers(shares);
        Round1Monotone(Max(shares), 1.0);
        Round1OfTenths(10);
      }
    }
    var kept := KeepAtLeast(scores, Overall, minProbability);
    if kept != [] {
      KeepAtLeastMembers(scores, Overall, minProbability, kept[0]);
    }
  }

  /** The five strict conditions with no `between` constraint; only "templado_seco" has one. */
  lemma FractionOnlyConditions(conditionKey: string)
    requires conditionKey in {"frio_nevado", "calido_soleado", "playa_ideal", "lluvioso", "ventoso"}
    ensures conditionKey in StrictConditions
    ensures forall i :: 0 <= i < |StrictConditions[conditionKey].constraints|
              ==> !StrictConditions[conditionKey].constraints[i].op.Between?
  {
  }

  /** Every year of the constraint's bucket meets it. */
  predicate FullMatch(store: StationStore.Store, st: Station, c: Constraint, month: int)
    reads store
  {
    Resolves(store, st, c, month)
    && Count(ValuesFor(store, st, c, month).value, OpTest(c.op)) == |ValuesFor(store, st, c, month).value|
  }

  /** A fully met constraint contributes one entry whose share is the full scale. */
  lemma FullMatchEntry(store: StationStore.Store, st: Station, c: Constraint, month: int, variant: Variant)
    requires FullMatch(store, st, c, month)
    ensures |Entry(store, st, c, month, variant)| == 1
    ensures Entry(store, st, c, month, variant)[0].probability == Scale(variant, c.op)
  {
    var values := ValuesFor(store, st, c, month).value;
    assert Fraction(values, OpTest(c.op)) == 1.0;
  }

  /** When every constraint contributes one entry of share `full`, the shares are all `full`. */
  lemma {:induction false} FullMatchShares(store: StationStore.Store, st: Station, cs: seq<Constraint>, n: nat,
                                           month: int, variant: Variant, full: real)
    requires n <= |cs|
    requires forall i :: 0 <= i < |cs| ==> |Entry(store, st, cs[i], month, variant)| == 1
    requires forall i :: 0 <= i < |cs| ==> Entry(store, st, cs[i], month, variant)[0].probability == full
    ensures |ResolveUpTo(store, st, cs, n, month, variant)| == n
    ensures forall k :: 0 <= k < n ==> ResolveUpTo(store, st, cs, n, month, variant)[k].probability == full
  {
    if n > 0 {
      FullMatchShares(store, st, cs, n - 1, month, variant, full);
      ResolveUpToStep(store, st, cs, n, month, variant);
      AllFullAppend(ResolveUpTo(store, st, cs, n - 1, month, variant), Entry(store, st, cs[n - 1], month, variant), full);
    }
  }

  /** Appending one full entry to full entries keeps them full. */
  lemma AllFullAppend(prev: seq<Resolved>, e: seq<Resolved>, full: real)
    requires |e| == 1 && e[0].probability == full
    requires forall k :: 0 <= k < |prev| ==> prev[k].probability == full
    ensures |prev + e| == |prev| + 1
    ensures forall k :: 0 <= k < |prev + e| ==> (prev + e)[k].probability == full
  {
    forall k | 0 <= k < |prev + e| ensures (prev + e)[k].probability == full {
      if k < |prev| {
        assert (prev + e)[k] == prev[k];
      } else {
        assert (prev + e)[k] == e[0];
      }
    }
  }

  /**
   * A station where every year meets every constraint of a condition made only of `less` and
   * `greater` tests scores 1.0 as written and 100.0 with shares in percent.
   */
  lemma FullMatchScore(store: StationStore.Store, st: Station, cond: ClimateCondition, month: int)
    requires |cond.constraints| > 0
    requires forall i :: 0 <= i < |cond.constraints| ==> !cond.constraints[i].op.Between?
    requires forall i :: 0 <= i < |cond.constraints| ==> FullMatch(store, st, cond.constraints[i], month)
    ensures CityScoreAs(store, st, cond, month, FractionShares).overall == 1.0
    ensures CityScoreAs(store, st, cond, month, PercentShares).overall == 100.0
  {
    var cs := cond.constraints;
    forall i | 0 <= i < |cs|
      ensures |Entry(store, st, cs[i], month, FractionShares)| == 1
      ensures Entry(store, st, cs[i], month, FractionShares)[0].probability == 1.0
      ensures |Entry(store, st, cs[i], month, PercentShares)| == 1
      ensures Entry(store, st, cs[i], month, PercentShares)[0].probability == 100.0
    {
      FullMatchEntry(store, st, cs[i], month, FractionShares);
      FullMatchEntry(store, st, cs[i], month, PercentShares);
    }
    FullMatchShares(store, st, cs, |cs|, month, FractionShares, 1.0);
    FullMatchShares(store, st, cs, |cs|, month, PercentShares, 100.0);
    MeanOfConstant(Shares(ResolveAll(store, st, cs, month, FractionShares)), 1.0);
    MeanOfConstant(Shares(ResolveAll(store, st, cs, month, PercentShares)), 100.0);
    Round1OfTenths(10);
    Round1OfTenths(1000);
  }

  /**
   * The corrected scale lists a fully matching station at every minimum up to 100, where the
   * source's scale drops it at any minimum above 1.
   */
  lemma PercentScaleListsFullMatch(store: StationStore.Store, month: int, conditionKey: string,
                                   minProbability: real, i: nat)
    requires conditionKey in StrictConditions && i < |MexicanStations| && minProbability <= 100.0
    requires |StrictConditions[conditionKey].constraints| > 0
    requires forall k :: 0 <= k < |StrictConditions[conditionKey].constraints|
               ==> !StrictConditions[conditionKey].constraints[k].op.Between?
    requires forall k :: 0 <= k < |StrictConditions[conditionKey].constraints|
               ==> FullMatch(store, MexicanStations[i], StrictConditions[conditionKey].constraints[k], month)
    ensures CityScore(store, MexicanStations[i], StrictConditions[conditionKey], month)
            in FindDestinationsSpec(store, month, conditionKey, minProbability).value
  {
    var cond := StrictConditions[conditionKey];
    var r := CityScoreAs(store, MexicanStations[i], cond, month, PercentShares);
    FullMatchScore(store, MexicanStations[i], cond, month);
    var scores := Scores(store, cond, month, PercentShares);
    assert scores[i] == r;
    FindExactly(store, month, conditionKey, minProbability, PercentShares, r, 0.0);
  }

  /** The strict finder over a loaded store; it only reads the store. */
  class DestinationFinder {
    const processor: StationStore.Store

    constructor(processor: StationStore.Store)
      ensures this.processor == processor
    {
      this.processor := processor;
    }

    /** Scores one station: the constraint loop, then the rounded mean share. */
    method EvaluateCity(st: Station, cond: ClimateCondition, month: int, day: int) returns (r: StrictResult)
      ensures r == CityScore(processor, st, cond, month)
    {
      var shares, probabilities, averages, missing := EvaluateConstraints(processor, st, cond.constraints, month, day, PercentShares);
      r := StrictResult(st.key, st.name, probabilities, averages, MeanShare(shares), !missing);
    }

    /**
     * Fails on an unknown condition; otherwise scores every station, keeps those at or above
     * `minProbability`, and ranks them by a stable descending sort.
     */
    method FindDestinations(month: Month, day: int, conditionKey: string, minProbability: real)
      returns (results: Result<seq<StrictResult>, string>)
      ensures results == FindDestinationsSpec(processor, month, conditionKey, minProbability)
    {
      if conditionKey !in StrictConditions {
        return Failure(UnknownCondition(conditionKey));
      }
      var cond := StrictConditions[conditionKey];
      ghost var scores := Scores(processor, cond, month, PercentShares);
      var kept: seq<StrictResult> := [];
      for i := 0 to |MexicanStations|
        invariant kept == KeepAtLeast(scores[..i], Overall, minProbability)
      {
        KeepAtLeastStep(scores, Overall, i, minProbability);
        var r := EvaluateCity(MexicanStations[i], cond, month, day);
        assert r == scores[i];
        if r.overall >= minProbability {
          kept := kept + [r];
        }
      }
      assert scores[..|MexicanStations|] == scores;
      results := Success(SortDesc(kept, Overall));
    }
  }
}
