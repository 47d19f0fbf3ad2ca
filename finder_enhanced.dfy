/**
 * The enhanced destination finder. For one date and one climate condition it scores every
 * station by the mean share of years meeting the condition's constraints, lifts the score by
 * 15% (capped at 100) in the condition's favourable months, keeps the stations at or above a
 * minimum, and ranks them by a stable descending sort. It also details one station.
 */
module FinderEnhanced {
  import opened Wrappers
  import opened Numerics
  import opened Series
  import opened Bands
  import opened Stations
  import opened Conditions
  import opened Ranking
  import opened Evaluation
  import StationStore

  /** One station's line in the ranking; `seasonalBonus` is absent when no constraint could be scored. */
  datatype CityResult = CityResult(
    cityKey: string,
    cityName: string,
    probabilities: map<Variable, real>,
    averageValues: map<Variable, real>,
    overall: real,
    seasonalBonus: Option<bool>)

  /** The ranking key. */
  function Overall(r: CityResult): real
  {
    r.overall
  }

  /** The seasonal bonus: 15% more in a favourable month, never above 100, nothing otherwise. */
  function WithBonus(base: real, month: int, months: seq<int>): (r: real)
    requires 0.0 <= base <= 100.0
    ensures base <= r <= 100.0
    ensures month !in months ==> r == base
    ensures month in months && base * 1.15 <= 100.0 ==> r == base * 1.15
    ensures month in months && base * 1.15 > 100.0 ==> r == 100.0
  {
    if month in months then MinReal(100.0, base * 1.15) else base
  }

  /** A station's score under a condition: the mean share, then the bonus; 0.0 when nothing resolves. */
  function CityScore(store: StationStore.Store, st: Station, cond: ClimateCondition, month: int): (r: CityResult)
    reads store
    ensures r.cityKey == st.key && r.cityName == st.name
    ensures 0.0 <= r.overall <= 100.0
    ensures r.seasonalBonus.None? <==> forall i :: 0 <= i < |cond.constraints| ==> !Resolves(store, st, cond.constraints[i], month)
    ensures r.seasonalBonus.None? ==> r.overall == 0.0
    ensures r.seasonalBonus.Some? ==> r.seasonalBonus.value == (month in cond.months)
    ensures r.seasonalBonus.Some? ==> MeanShare(Shares(ResolveAll(store, st, cond.constraints, month, PercentShares))) <= r.overall
    ensures r.seasonalBonus.Some? ==>
      r.overall == WithBonus(MeanShare(Shares(ResolveAll(store, st, cond.constraints, month, PercentShares))), month, cond.months)
    ensures r.seasonalBonus == Some(false) ==> r.overall == MeanShare(Shares(ResolveAll(store, st, cond.constraints, month, PercentShares)))
    ensures r.probabilities == ProbabilityMap(ResolveAll(store, st, cond.constraints, month, PercentShares))
    ensures r.averageValues == AverageMap(ResolveAll(store, st, cond.constraints, month, PercentShares))
  {
    var rs := ResolveAll(store, st, cond.constraints, month, PercentShares);
    var probabilities, averages := ProbabilityMap(rs), AverageMap(rs);
    if rs == [] then CityResult(st.key, st.name, probabilities, averages, 0.0, None)
    else
      var base := MeanShare(Shares(rs));
      CityResult(st.key, st.name, probabilities, averages, WithBonus(base, month, cond.months), Some(month in cond.months))
  }

  /** The score read off the resolved entries: the shape the finder's loop builds. */
  lemma CityScoreOfEntries(store: StationStore.Store, st: Station, cond: ClimateCondition, month: int)
    ensures
      var rs := ResolveAll(store, st, cond.constraints, month, PercentShares);
      var probabilities, averages := ProbabilityMap(rs), AverageMap(rs);
      CityScore(store, st, cond, month)
      == if rs == [] then CityResult(st.key, st.name, probabilities, averages, 0.0, None)
         else if month in cond.months
         then CityResult(st.key, st.name, probabilities, averages, MinReal(100.0, MeanShare(Shares(rs)) * 1.15), Some(true))
         else CityResult(st.key, st.name, probabilities, averages, MeanShare(Shares(rs)), Some(false))
  {
  }

  /** Every station's score, in station order. */
  function Scores(store: StationStore.Store, stations: seq<Station>, cond: ClimateCondition, month: int)
    : (r: seq<CityResult>)
    reads store
    ensures |r| == |stations|
    ensures forall i :: 0 <= i < |stations| ==> r[i] == CityScore(store, stations[i], cond, month)
  {
    seq(|stations|, i reads store requires 0 <= i < |stations| => CityScore(store, stations[i], cond, month))
  }

  /** The scores of the stations at or above the minimum, in station order. */
  function Kept(store: StationStore.Store, stations: seq<Station>, cond: ClimateCondition, month: int,
                minProbability: real): (r: seq<CityResult>)
    reads store
    ensures |r| <= |stations|
    ensures forall k :: 0 <= k < |r| ==> r[k].overall >= minProbability
  {
    KeepAtLeast(Scores(store, stations, cond, month), Overall, minProbability)
  }

  /** What `find_destinations` returns: nothing for an unknown condition, else the kept stations ranked. */
  function FindDestinationsSpec(store: StationStore.Store, month: int, conditionKey: string,
                                minProbability: real): (r: seq<CityResult>)
    reads store
    ensures conditionKey !in EnhancedConditions ==> r == []
    ensures SortedDesc(r, Overall)
  {
    if conditionKey !in EnhancedConditions then []
    else SortDesc(Kept(store, MexicanStations, EnhancedConditions[conditionKey], month, minProbability), Overall)
  }

  /** A kept result is exactly the score of some station that reached the minimum. */
  lemma KeptMembers(store: StationStore.Store, stations: seq<Station>, cond: ClimateCondition,
                    month: int, minProbability: real, r: CityResult)
    ensures r in Kept(store, stations, cond, month, minProbability)
            <==> exists i :: 0 <= i < |stations| && r == CityScore(store, stations[i], cond, month)
                             && r.overall >= minProbability
  {
    var scores := Scores(store, stations, cond, month);
    KeepAtLeastMembers(scores, Overall, minProbability, r);
    if r in scores {
      var i :| 0 <= i < |scores| && scores[i] == r;
    }
  }

  /** Soundness: every returned station reached the minimum, scores within [0, 100] and is a station. */
  lemma FindDestinationsSound(store: StationStore.Store, month: int, conditionKey: string, minProbability: real,
                              r: CityResult)
    requires r in FindDestinationsSpec(store, month, conditionKey, minProbability)
    ensures conditionKey in EnhancedConditions
    ensures minProbability <= r.overall <= 100.0
    ensures exists i :: 0 <= i < |MexicanStations| && r == CityScore(store, MexicanStations[i], EnhancedConditions[conditionKey], month)
  {
    var cond := EnhancedConditions[conditionKey];
    var kept := Kept(store, MexicanStations, cond, month, minProbability);
    assert r in multiset(SortDesc(kept, Overall));
    KeptMembers(store, MexicanStations, cond, month, minProbability, r);
  }

  /** Completeness: every station that reaches the minimum is returned. */
  lemma FindDestinationsComplete(store: StationStore.Store, month: int, conditionKey: string, minProbability: real,
                                 i: nat)
    requires conditionKey in EnhancedConditions && i < |MexicanStations|
    requires CityScore(store, MexicanStations[i], EnhancedConditions[conditionKey], month).overall >= minProbability
    ensures CityScore(store, MexicanStations[i], EnhancedConditions[conditionKey], month)
            in FindDestinationsSpec(store, month, conditionKey, minProbability)
  {
    var cond := EnhancedConditions[conditionKey];
    var r := CityScore(store, MexicanStations[i], cond, month);
    KeptMembers(store, MexicanStations, cond, month, minProbability, r);
    var kept := Kept(store, MexicanStations, cond, month, minProbability);
    assert r in multiset(kept);
  }

  /**
   * The ranking is non-increasing, holds each kept station as often as it was kept, and lists
   * stations of equal score in station order.
   */
  lemma FindDestinationsRanked(store: StationStore.Store, month: int, conditionKey: string, minProbability: real,
                               score: real)
    requires conditionKey in EnhancedConditions
    ensures
      var kept := Kept(store, MexicanStations, EnhancedConditions[conditionKey], month, minProbability);
      var r := FindDestinationsSpec(store, month, conditionKey, minProbability);
      && SortedDesc(r, Overall)
      && multiset(r) == multiset(kept)
      && KeyClass(r, Overall, score) == KeyClass(kept, Overall, score)
  {
    var kept := Kept(store, MexicanStations, EnhancedConditions[conditionKey], month, minProbability);
    SortDescStable(kept, Overall, score);
  }

  /** A station without any usable series scores 0.0, so it is listed only when the minimum is at most 0. */
  lemma NoDataStation(store: StationStore.Store, month: int, conditionKey: string, minProbability: real, i: nat)
    requires conditionKey in EnhancedConditions && i < |MexicanStations|
    requires forall k :: 0 <= k < |EnhancedConditions[conditionKey].constraints|
               ==> !Resolves(store, MexicanStations[i], EnhancedConditions[conditionKey].constraints[k], month)
    ensures CityScore(store, MexicanStations[i], EnhancedConditions[conditionKey], month).seasonalBonus.None?
    ensures CityScore(store, MexicanStations[i], EnhancedConditions[conditionKey], month)
              in FindDestinationsSpec(store, month, conditionKey, minProbability)
            <==> minProbability <= 0.0
  {
    var r := CityScore(store, MexicanStations[i], EnhancedConditions[conditionKey], month);
    if minProbability <= 0.0 {
      FindDestinationsComplete(store, month, conditionKey, minProbability, i);
    } else if r in FindDestinationsSpec(store, month, conditionKey, minProbability) {
      FindDestinationsSound(store, month, conditionKey, minProbability, r);
    }
  }

  /** The recommendation bands of a detailed analysis, cut at 30, 50 and 70. */
  const RecommendationCuts: seq<real> := [30.0, 50.0, 70.0]
  const Recommendations: seq<string> :=
    ["❌ No recomendado", "⚠️ Opción moderada", "✅ Buena opción", "🌟 Excelente elección"]

  function Recommendation(score: real): (r: string)
    ensures r == Recommendations[BandIndex(score, RecommendationCuts)]
  {
    BandIndexExact(score, RecommendationCuts, BandIndex(score, RecommendationCuts));
    if score >= 70.0 then "🌟 Excelente elección"
    else if score >= 50.0 then "✅ Buena opción"
    else if score >= 30.0 then "⚠️ Opción moderada"
    else "❌ No recomendado"
  }

  /** A higher score never gets a worse recommendation. */
  lemma RecommendationMonotone(a: real, b: real)
    requires a <= b
    ensures Recommendation(b) in Recommendations[BandIndex(a, RecommendationCuts)..]
  {
    BandIndexMonotone(a, b, RecommendationCuts);
    var k, m := BandIndex(a, RecommendationCuts), BandIndex(b, RecommendationCuts);
    assert Recommendations[k..][m - k] == Recommendations[m];
  }

  /** The station listed under a key, if any. */
  function StationByKey(key: string): (r: Option<Station>)
    ensures r.Some? <==> exists i :: 0 <= i < |MexicanStations| && MexicanStations[i].key == key
    ensures r.Some? ==> r.value in MexicanStations && r.value.key == key
  {
    if MexicanStations[0].key == key then Some(MexicanStations[0])
    else if MexicanStations[1].key == key then Some(MexicanStations[1])
    else if MexicanStations[2].key == key then Some(MexicanStations[2])
    else if MexicanStations[3].key == key then Some(MexicanStations[3])
    else if MexicanStations[4].key == key then Some(MexicanStations[4])
    else None
  }

  /** One variable of a detailed analysis, with one decimal, and the constraint it was scored on. */
  datatype VariableDetail = VariableDetail(average: real, min: real, max: real, probability: real, condition: Op)

  function Detail(values: seq<real>, op: Op): (d: VariableDetail)
    requires |values| > 0
    ensures d.min <= d.average <= d.max
    ensures 0.0 <= d.probability <= 100.0
    ensures d.probability == Round1(VariableProbability(PercentShares, values, op)) && d.condition == op
  {
    Round1Monotone(Min(values), Mean(values));
    Round1Monotone(Mean(values), Max(values));
    Round1Percent(VariableProbability(PercentShares, values, op));
    VariableDetail(Round1(Mean(values)), Round1(Min(values)), Round1(Max(values)),
                   Round1(VariableProbability(PercentShares, values, op)), op)
  }

  /** The details of the first n constraints that resolve; a later one for the same variable wins. */
  function DetailsUpTo(store: StationStore.Store, st: Station, cs: seq<Constraint>, n: nat, month: int)
    : (m: map<Variable, VariableDetail>)
    requires n <= |cs|
    reads store
    ensures forall v :: v in m ==> m[v].min <= m[v].average <= m[v].max && 0.0 <= m[v].probability <= 100.0
  {
    if n == 0 then map[]
    else
      var prev := DetailsUpTo(store, st, cs, n - 1, month);
      var c := cs[n - 1];
      if Resolves(store, st, c, month) then prev[c.variable := Detail(ValuesFor(store, st, c, month).value, c.op)]
      else prev
  }

  /** Constraint i is the last of the first n to resolve on variable v. */
  ghost predicate LastResolving(store: StationStore.Store, st: Station, cs: seq<Constraint>, n: nat, month: int,
                                v: Variable, i: int)
    requires n <= |cs|
    reads store
  {
    && 0 <= i < n && cs[i].variable == v && Resolves(store, st, cs[i], month)
    && forall k :: i < k < n && cs[k].variable == v ==> !Resolves(store, st, cs[k], month)
  }

  /** The details report exactly the variables of the constraints whose bucket holds values. */
  lemma {:induction false} DetailsUpToKeys(store: StationStore.Store, st: Station, cs: seq<Constraint>, n: nat,
                                           month: int)
    requires n <= |cs|
    ensures forall v :: v in DetailsUpTo(store, st, cs, n, month)
                        <==> exists i :: 0 <= i < n && cs[i].variable == v && Resolves(store, st, cs[i], month)
  {
    if n > 0 {
      DetailsUpToKeys(store, st, cs, n - 1, month);
      var m, prev, c := DetailsUpTo(store, st, cs, n, month), DetailsUpTo(store, st, cs, n - 1, month), cs[n - 1];
      var added := Resolves(store, st, c, month);
      assert m.Keys == if added then prev.Keys + {c.variable} else prev.Keys;
      forall v
        ensures v in m <==> exists i :: 0 <= i < n && cs[i].variable == v && Resolves(store, st, cs[i], month)
      {
        if v in m && !(added && v == c.variable) {
          var i :| 0 <= i < n - 1 && cs[i].variable == v && Resolves(store, st, cs[i], month);
        }
        if exists i :: 0 <= i < n && cs[i].variable == v && Resolves(store, st, cs[i], month) {
          var i :| 0 <= i < n && cs[i].variable == v && Resolves(store, st, cs[i], month);
          if i < n - 1 {
            assert v in prev;
          }
        }
      }
    }
  }

  /** Each reported variable carries the detail of the last constraint on it whose bucket holds values. */
  lemma {:induction false} DetailsUpToLast(store: StationStore.Store, st: Station, cs: seq<Constraint>, n: nat,
                                           month: int)
    requires n <= |cs|
    ensures forall v, i :: LastResolving(store, st, cs, n, month, v, i) ==>
              && v in DetailsUpTo(store, st, cs, n, month)
              && DetailsUpTo(store, st, cs, n, month)[v] == Detail(ValuesFor(store, st, cs[i], month).value, cs[i].op)
  {
    if n > 0 {
      DetailsUpToLast(store, st, cs, n - 1, month);
      var m, prev, c := DetailsUpTo(store, st, cs, n, month), DetailsUpTo(store, st, cs, n - 1, month), cs[n - 1];
      var added := Resolves(store, st, c, month);
      assert m == if added then prev[c.variable := Detail(ValuesFor(store, st, c, month).value, c.op)] else prev;
      forall v, i | LastResolving(store, st, cs, n, month, v, i)
        ensures v in m && m[v] == Detail(ValuesFor(store, st, cs[i], month).value, cs[i].op)
      {
        if i < n - 1 {
          assert !(added && c.variable == v);
          assert LastResolving(store, st, cs, n - 1, month, v, i);
        }
      }
    }
  }

  /** One more constraint adds its detail exactly when its bucket holds values. */
  lemma DetailStep(store: StationStore.Store, st: Station, cs: seq<Constraint>, j: nat, month: int,
                   values: Option<seq<real>>)
    requires j < |cs| && values == ValuesFor(store, st, cs[j], month)
    ensures DetailsUpTo(store, st, cs, j + 1, month)
            == (if values.Some? && |values.value| > 0
                then DetailsUpTo(store, st, cs, j, month)[cs[j].variable := Detail(values.value, cs[j].op)]
                else DetailsUpTo(store, st, cs, j, month))
  {
  }

  datatype DestinationAnalysis = DestinationAnalysis(
    cityName: string,
    conditionName: string,
    variables: map<Variable, VariableDetail>,
    overallScore: real,
    recommendation: string)

  /**
   * The detailed analysis of one station: nothing for an unknown station or condition; else the
   * details of every constraint with values, their mean share, and the band it falls in (empty
   * when nothing could be scored).
   */
  function AnalyzeSpec(store: StationStore.Store, cityKey: string, month: int, conditionKey: string)
    : (r: Option<DestinationAnalysis>)
    reads store
    ensures r.None? <==> StationByKey(cityKey).None? || conditionKey !in EnhancedConditions
    ensures r.Some? ==>
      var st, cond := StationByKey(cityKey).value, EnhancedConditions[conditionKey];
      var rs := ResolveAll(store, st, cond.constraints, month, PercentShares);
      && r.value.cityName == st.name && r.value.conditionName == cond.name
      && r.value.variables == DetailsUpTo(store, st, cond.constraints, |cond.constraints|, month)
      && r.value.overallScore == MeanShare(Shares(rs))
      && 0.0 <= r.value.overallScore <= 100.0
      && (rs == [] ==> r.value.recommendation == "")
      && (rs != [] ==> r.value.recommendation == Recommendations[BandIndex(r.value.overallScore, RecommendationCuts)])
  {
    var st := StationByKey(cityKey);
    if st.None? || conditionKey !in EnhancedConditions then None
    else
      var cond := EnhancedConditions[conditionKey];
      var cs := cond.constraints;
      var rs := ResolveAll(store, st.value, cs, month, PercentShares);
      var score := MeanShare(Shares(rs));
      Some(DestinationAnalysis(st.value.name, cond.name, DetailsUpTo(store, st.value, cs, |cs|, month), score,
                               if rs == [] then "" else Recommendation(score)))
  }

  /** The detailed score is the finder's score before the bonus: equal outside the favourable months, never above it. */
  lemma AnalysisAgreesWithFinder(store: StationStore.Store, cityKey: string, month: int, conditionKey: string)
    requires StationByKey(cityKey).Some? && conditionKey in EnhancedConditions
    ensures
      var a := AnalyzeSpec(store, cityKey, month, conditionKey).value;
      var c := CityScore(store, StationByKey(cityKey).value, EnhancedConditions[conditionKey], month);
      && a.overallScore <= c.overall
      && (month !in EnhancedConditions[conditionKey].months ==> a.overallScore == c.overall)
  {
  }

  /**
   * One variable as the source handles it: no series is skipped, while an empty series makes
   * the statistics absent and reading their mean fails.
   */
  function VariableAsWritten(values: Option<seq<real>>, op: Op): (r: Result<Option<VariableDetail>, string>)
    ensures r.Failure? <==> values == Some([])
    ensures r.Success? ==> (r.value.Some? <==> values.Some?)
    ensures r.Success? && r.value.Some? ==> r.value.value == Detail(values.value, op)
  {
    if values.None? then Success(None)
    else if |values.value| == 0 then Failure("'NoneType' object is not subscriptable")
    else Success(Some(Detail(values.value, op)))
  }

  /** Whether one of the first n constraints finds an empty bucket. */
  predicate SomeEmptyBucket(store: StationStore.Store, st: Station, cs: seq<Constraint>, n: nat, month: int)
    requires n <= |cs|
    reads store
  {
    exists i :: 0 <= i < n && ValuesFor(store, st, cs[i], month) == Some([])
  }

  /**
   * `analyze_specific_destination` as written: like the analysis above, except that an empty
   * month bucket for any constrained variable makes it fail.
   */
  function AnalyzeSpecificDestinationAsWritten(store: StationStore.Store, cityKey: string, month: int,
                                               conditionKey: string): (r: Result<Option<DestinationAnalysis>, string>)
    reads store
    ensures r.Failure? <==>
      StationByKey(cityKey).Some? && conditionKey in EnhancedConditions
      && SomeEmptyBucket(store, StationByKey(cityKey).value, EnhancedConditions[conditionKey].constraints,
                         |EnhancedConditions[conditionKey].constraints|, month)
    ensures r.Success? ==> r.value == AnalyzeSpec(store, cityKey, month, conditionKey)
  {
    var st := StationByKey(cityKey);
    if st.None? || conditionKey !in EnhancedConditions then Success(None)
    else
      var cs := EnhancedConditions[conditionKey].constraints;
      if SomeEmptyBucket(store, st.value, cs, |cs|, month) then Failure("'NoneType' object is not subscriptable")
      else Success(AnalyzeSpec(store, cityKey, month, conditionKey))
  }

  /**
   * The failure is reachable: after loading a station whose temperature file has no rows, the
   * "nevado" analysis of that station fails, while the corrected analysis skips the variable.
   */
  lemma EmptyBucketFails(store: StationStore.Store, files: map<(string, Variable), seq<StationStore.Record>>)
    requires files == map[("veracruz", Temperatura) := []]
    requires store.cities == MexicanStations
    requires store.data == StationStore.Loaded(map[], MexicanStations, files)
    ensures AnalyzeSpecificDestinationAsWritten(store, "veracruz", 1, "nevado").Failure?
    ensures AnalyzeSpec(store, "veracruz", 1, "nevado").Some?
  {
    var st := MexicanStations[0];
    StationStore.QueryAtStation(store, files, 0, Temperatura, 1);
    assert StationStore.DropMissing(StationStore.Convert(Temperatura, [])) == [];
    assert ValuesFor(store, st, EnhancedConditions["nevado"].constraints[0], 1) == Some([]);
  }

  /**
   * The enhanced finder over a loaded store. `FindDestinations` and `AnalyzeSpecificDestination`
   * only read the store.
   */
  class DestinationFinderEnhanced {
    const processor: StationStore.Store

    constructor(processor: StationStore.Store)
      ensures this.processor == processor
    {
      this.processor := processor;
    }

    /** Scores one station: the constraint loop, then the mean share and the seasonal bonus. */
    method EvaluateCity(st: Station, cond: ClimateCondition, month: int, day: int) returns (r: CityResult)
      ensures r == CityScore(processor, st, cond, month)
    {
      var shares, probabilities, averages, _ := EvaluateConstraints(processor, st, cond.constraints, month, day, PercentShares);
      CityScoreOfEntries(processor, st, cond, month);
      r := CityResult(st.key, st.name, probabilities, averages, 0.0, None);
      if |shares| > 0 {
        var base := MeanShare(shares);
        if month in cond.months {
          r := r.(overall := MinReal(100.0, base * 1.15), seasonalBonus := Some(true));
        } else {
          r := r.(overall := base, seasonalBonus := Some(false));
        }
      }
    }

    /**
     * Scores every station, keeps those at or above `minProbability`, and ranks them; the
     * result is sorted, holds exactly the qualifying stations, and keeps station order on ties.
     */
    method FindDestinations(month: Month, day: int, conditionKey: string, minProbability: real)
      returns (results: seq<CityResult>)
      ensures results == FindDestinationsSpec(processor, month, conditionKey, minProbability)
    {
      if conditionKey !in EnhancedConditions {
        return [];
      }
      var cond := EnhancedConditions[conditionKey];
      ghost var scores := Scores(processor, MexicanStations, cond, month);
      var kept: seq<CityResult> := [];
      for i := 0 to |MexicanStations|
        invariant kept == KeepAtLeast(scores[..i], Overall, minProbability)
      {
        KeepAtLeastStep(scores, Overall, i, minProbability);
        var r := EvaluateCity(MexicanStations[i], cond, month, day);
        assert r == scores[i];
        if r.overall >= minProbability {
          kept := kept + [r];
        }
      }
      assert scores[..|MexicanStations|] == scores;
      results := SortDesc(kept, Overall);
    }

    /** One iteration of the detailed analysis: constraint j is detailed and scored when it has values. */
    method VisitDetail(st: Station, cs: seq<Constraint>, j: nat, month: int, day: int,
                       scores: seq<real>, variables: map<Variable, VariableDetail>)
      returns (scores': seq<real>, variables': map<Variable, VariableDetail>)
      requires j < |cs|
      requires scores == Shares(ResolveUpTo(processor, st, cs, j, month, PercentShares))
      requires variables == DetailsUpTo(processor, st, cs, j, month)
      ensures scores' == Shares(ResolveUpTo(processor, st, cs, j + 1, month, PercentShares))
      ensures variables' == DetailsUpTo(processor, st, cs, j + 1, month)
    {
      var c := cs[j];
      var values := Lookup(processor, st, c, month, day);
      ResolveStep(processor, st, cs, j, month, PercentShares, values);
      DetailStep(processor, st, cs, j, month, values);
      ghost var rs := ResolveUpTo(processor, st, cs, j, month, PercentShares);
      if values.None? || |values.value| == 0 {
        assert ResolveUpTo(processor, st, cs, j + 1, month, PercentShares) == rs;
        return scores, variables;
      }
      var probability := VariableProbability(PercentShares, values.value, c.op);
      ghost var e := Resolved(c.variable, Round1(Mean(values.value)), probability);
      assert ResolveUpTo(processor, st, cs, j + 1, month, PercentShares) == rs + [e];
      AppendStep(rs, e);
      scores' := scores + [probability];
      variables' := variables[c.variable := Detail(values.value, c.op)];
    }

    /**
     * The detailed analysis of one station for one condition: nothing for an unknown station or
     * condition; otherwise every constraint whose bucket holds values is detailed and scored.
     */
    method AnalyzeSpecificDestination(cityKey: string, month: int, day: int, conditionKey: string)
      returns (r: Option<DestinationAnalysis>)
      ensures r == AnalyzeSpec(processor, cityKey, month, conditionKey)
    {
      var st := StationByKey(cityKey);
      if st.None? || conditionKey !in EnhancedConditions {
        return None;
      }
      var cond := EnhancedConditions[conditionKey];
      var cs := cond.constraints;
      var scores: seq<real> := [];
      var variables: map<Variable, VariableDetail> := map[];
      for j := 0 to |cs|
        invariant scores == Shares(ResolveUpTo(processor, st.value, cs, j, month, PercentShares))
        invariant variables == DetailsUpTo(processor, st.value, cs, j, month)
      {
        scores, variables := VisitDetail(st.value, cs, j, month, day, scores, variables);
      }
      var score := MeanShare(scores);
      var recommendation := if |scores| == 0 then "" else Recommendation(score);
      r := Some(DestinationAnalysis(st.value.name, cond.name, variables, score, recommendation));
    }
  }
}
