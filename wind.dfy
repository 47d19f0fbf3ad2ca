/**
 * The wind analyzer. The stored series holds one monthly mean wind speed (km/h) per year; the
 * analyzer summarises it, splits the years into calm, light, moderate and strong classes, and
 * grades the speed and the outdoor risk.
 */
module Wind {
  import opened Wrappers
  import opened Numerics
  import opened Series
  import opened Order
  import opened Bands
  import opened Stations
  import StationStore

  /** Speed classes of an adapted Beaufort scale, cut at 10, 20, 40 and 60 km/h. */
  const WindCuts: seq<real> := [10.0, 20.0, 40.0, 60.0]
  const WindCategories: seq<string> :=
    ["Calmo", "Viento ligero", "Viento moderado", "Viento fuerte", "Viento muy fuerte"]

  /** The speed class of a wind speed. */
  function CategorizeWind(speed: real): (r: string)
    ensures r == WindCategories[BandIndex(speed, WindCuts)]
  {
    BandIndexExact(speed, WindCuts, BandIndex(speed, WindCuts));
    if speed < 10.0 then "Calmo"
    else if speed < 20.0 then "Viento ligero"
    else if speed < 40.0 then "Viento moderado"
    else if speed < 60.0 then "Viento fuerte"
    else "Viento muy fuerte"
  }

  /** A faster wind is never put in a calmer class. */
  lemma CategorizeWindMonotone(a: real, b: real)
    requires a <= b
    ensures CategorizeWind(b) in WindCategories[BandIndex(a, WindCuts)..]
  {
    BandIndexMonotone(a, b, WindCuts);
    var k, m := BandIndex(a, WindCuts), BandIndex(b, WindCuts);
    assert WindCategories[k..][m - k] == WindCategories[m];
  }

  const RiskCuts: seq<real> := [20.0, 40.0, 60.0]
  const RiskLevels: seq<(string, string)> :=
    [("Muy bajo", "#10B981"), ("Bajo", "#F59E0B"), ("Moderado", "#F97316"), ("Alto", "#EF4444")]

  /**
   * The outdoor risk and its colour. It is graded on the 90th percentile alone, cut at 20, 40
   * and 60 km/h; the average speed it is also given plays no part.
   */
  function GetRiskLevel(avgWind: real, p90Wind: real): (r: (string, string))
    ensures r == RiskLevels[BandIndex(p90Wind, RiskCuts)]
  {
    BandIndexExact(p90Wind, RiskCuts, BandIndex(p90Wind, RiskCuts));
    if p90Wind < 20.0 then ("Muy bajo", "#10B981")
    else if p90Wind < 40.0 then ("Bajo", "#F59E0B")
    else if p90Wind < 60.0 then ("Moderado", "#F97316")
    else ("Alto", "#EF4444")
  }

  /** The four speed classes of a year: strong from 40, moderate [20, 40), light [10, 20), calm below 10. */
  const Strong := AtLeast(40.0)
  const ModerateWind := Band(20.0, 40.0)
  const LightWind := Band(10.0, 20.0)
  const Calm := Below(10.0)

  /** Every year falls in exactly one of the four classes, so their counts add up to the years. */
  lemma WindClassesPartition(s: seq<real>)
    ensures Count(s, Strong) + Count(s, ModerateWind) + Count(s, LightWind) + Count(s, Calm) == |s|
  {
    CountBelowAtLeast(s, 20.0);
    CountAtLeastSplit(s, 20.0, 40.0);
    CountBelowSplit(s, 10.0, 20.0);
  }

  datatype WindAnalysis = WindAnalysis(
    avgWindSpeed: real,
    medianWindSpeed: real,
    maxWindSpeed: real,
    minWindSpeed: real,
    p75Wind: real,
    p90Wind: real,
    p95Wind: real,
    probStrongWind: real,
    probModerateWind: real,
    probLightWind: real,
    probCalm: real,
    windCategory: string,
    riskLevel: (string, string),
    historicalYears: nat,
    variability: real)

  /** The median and the 75th, 90th and 95th percentiles with one decimal, in ascending order. */
  function RoundedPercentiles(s: seq<real>): (r: (real, real, real, real))
    requires |s| > 0
    ensures Round1(Min(s)) <= r.0 <= r.1 <= r.2 <= r.3 <= Round1(Max(s))
  {
    var p50, p75, p90, p95 := Percentile(s, 50.0), Percentile(s, 75.0), Percentile(s, 90.0), Percentile(s, 95.0);
    PercentileMonotone(s, 50.0, 75.0);
    PercentileMonotone(s, 75.0, 90.0);
    PercentileMonotone(s, 90.0, 95.0);
    Round1Monotone(Min(s), p50);
    Round1Monotone(p50, p75);
    Round1Monotone(p75, p90);
    Round1Monotone(p90, p95);
    Round1Monotone(p95, Max(s));
    (Round1(p50), Round1(p75), Round1(p90), Round1(p95))
  }

  /** The spread of the series with one decimal. */
  function RoundedStd(s: seq<real>, lib: MathLib): (r: real)
    requires lib.Sound() && |s| > 0
    ensures 0.0 <= r
  {
    Round1Monotone(0.0, Std(s, lib));
    Round1OfTenths(0);
    Round1(Std(s, lib))
  }

  /** The report for a non-empty series of non-negative speeds. */
  function Summarize(valid: seq<real>, lib: MathLib): (a: WindAnalysis)
    requires lib.Sound() && |valid| > 0
    ensures a.historicalYears == |valid|
    ensures a.minWindSpeed <= a.avgWindSpeed <= a.maxWindSpeed
    ensures a.minWindSpeed <= a.medianWindSpeed <= a.p75Wind <= a.p90Wind <= a.p95Wind <= a.maxWindSpeed
    ensures 0.0 <= a.probStrongWind <= 100.0 && 0.0 <= a.probModerateWind <= 100.0
    ensures 0.0 <= a.probLightWind <= 100.0 && 0.0 <= a.probCalm <= 100.0
    ensures a.probStrongWind == Percent(Fraction(valid, Strong))
    ensures a.probModerateWind == Percent(Fraction(valid, ModerateWind))
    ensures a.probLightWind == Percent(Fraction(valid, LightWind))
    ensures a.probCalm == Percent(Fraction(valid, Calm))
    ensures a.windCategory == WindCategories[BandIndex(Mean(valid), WindCuts)]
    ensures a.riskLevel == RiskLevels[BandIndex(Percentile(valid, 90.0), RiskCuts)]
    ensures 0.0 <= a.variability
  {
    var summary := RoundedSummary(valid);
    var ps := RoundedPercentiles(valid);
    WindAnalysis(
      summary.0, ps.0, summary.1, summary.2, ps.1, ps.2, ps.3,
      Percent(Fraction(valid, Strong)),
      Percent(Fraction(valid, ModerateWind)),
      Percent(Fraction(valid, LightWind)),
      Percent(Fraction(valid, Calm)),
      CategorizeWind(Mean(valid)),
      GetRiskLevel(Mean(valid), Percentile(valid, 90.0)),
      |valid|,
      RoundedStd(valid, lib))
  }

  /**
   * Nothing for no values or when none is non-negative; otherwise the report on the
   * non-negative speeds.
   */
  function AnalyzeMonthlyData(values: Option<seq<real>>, cityKey: string, month: int, lib: MathLib)
    : (r: Option<WindAnalysis>)
    requires lib.Sound()
    ensures r.None? <==> values.None? || Count(values.value, AtLeast(0.0)) == 0
    ensures r.Some? ==> r.value.historicalYears == Count(values.value, AtLeast(0.0))
    ensures r.Some? ==> r.value == Summarize(Filter(values.value, AtLeast(0.0)), lib)
  {
    if values.None? || |values.value| == 0 then None
    else
      var valid := Filter(values.value, AtLeast(0.0));
      if |valid| == 0 then None
      else Some(Summarize(valid, lib))
  }

  /** Speeds all in [0, 10): every year is calm and none strong. */
  lemma CalmShares(values: seq<real>)
    requires |values| > 0
    requires forall i :: 0 <= i < |values| ==> 0.0 <= values[i] < 10.0
    ensures Percent(Fraction(values, Calm)) == 100.0 && Percent(Fraction(values, Strong)) == 0.0
  {
    CountAll(values, Calm);
    CountNone(values, Strong);
    Round1OfTenths(1000);
    Round1OfTenths(0);
  }

  /** Speeds all in [0, 10): the mean falls in the lowest speed class. */
  lemma CalmMean(values: seq<real>)
    requires |values| > 0
    requires forall i :: 0 <= i < |values| ==> 0.0 <= values[i] < 10.0
    ensures BandIndex(Mean(values), WindCuts) == 0
  {
    MinMaxAreMembers(values);
    var m := Mean(values);
    assert m <= Max(values) < 10.0;
    BandIndexExact(m, WindCuts, 0);
  }

  /** Speeds all in [0, 10): the 90th percentile falls in the lowest risk band. */
  lemma CalmP90(values: seq<real>)
    requires |values| > 0
    requires forall i :: 0 <= i < |values| ==> 0.0 <= values[i] < 10.0
    ensures BandIndex(Percentile(values, 90.0), RiskCuts) == 0
  {
    MinMaxAreMembers(values);
    var p := Percentile(values, 90.0);
    assert p <= Max(values) < 10.0;
    BandIndexExact(p, RiskCuts, 0);
  }

  /**
   * A month whose every year stayed below 10 km/h is calm through and through: calm in all
   * years, no strong wind, classed "Calmo" and at the lowest risk.
   */
  lemma CalmMonth(values: seq<real>, lib: MathLib)
    requires lib.Sound() && |values| > 0
    requires forall i :: 0 <= i < |values| ==> 0.0 <= values[i] < 10.0
    ensures
      var a := Summarize(values, lib);
      && a.probCalm == 100.0
      && a.probStrongWind == 0.0
      && a.windCategory == "Calmo"
      && a.riskLevel == ("Muy bajo", "#10B981")
  {
    CalmShares(values);
    CalmMean(values);
    CalmP90(values);
  }

  /** The forecast text's tier and the figures it quotes; the wording itself is not modelled. */
  datatype WindMessage =
    | NoData(text: string)
    | CalmConditions(avgWind: real, monthName: string)
    | LightBreeze(avgWind: real, monthName: string)
    | ModerateBreeze(avgWind: real, monthName: string, p90: real)
    | StrongWind(avgWind: real, monthName: string, category: string, probStrong: real)

  function Tier(m: WindMessage): nat
  {
    match m
    case NoData(_) => 0
    case CalmConditions(_, _) => 0
    case LightBreeze(_, _) => 1
    case ModerateBreeze(_, _, _) => 2
    case StrongWind(_, _, _, _) => 3
  }

  const MessageCuts: seq<real> := [10.0, 20.0, 40.0]

  /** The message for an analysis: tiers by the rounded average speed at 10, 20 and 40 km/h. */
  function GetWindForecastMessage(analysis: Option<WindAnalysis>, monthName: string): (m: WindMessage)
    ensures analysis.None? <==> m.NoData?
    ensures analysis.None? ==> m.text == "No hay datos suficientes para esta fecha"
    ensures analysis.Some? ==>
      && Tier(m) == BandIndex(analysis.value.avgWindSpeed, MessageCuts)
      && m.avgWind == analysis.value.avgWindSpeed
      && m.monthName == monthName
  {
    if analysis.None? then NoData("No hay datos suficientes para esta fecha")
    else
      var a := analysis.value;
      var avg := a.avgWindSpeed;
      BandIndexExact(avg, MessageCuts, BandIndex(avg, MessageCuts));
      if avg < 10.0 then CalmConditions(avg, monthName)
      else if avg < 20.0 then LightBreeze(avg, monthName)
      else if avg < 40.0 then ModerateBreeze(avg, monthName, a.p90Wind)
      else StrongWind(avg, monthName, a.windCategory, a.probStrongWind)
  }

  /** The analysis with its message and the station's name added. */
  datatype WindReport = WindReport(analysis: WindAnalysis, message: WindMessage, cityName: Option<string>)

  /**
   * Fetches the wind series of the station nearest to (lat, lon) and analyses it.
   * No values means no report; a day that does not exist in 2024 is an error once values exist.
   */
  function IntegrateWindWithProcessor(store: StationStore.Store, lat: real, lon: real, month: int, day: int,
                                      monthName: string, lib: MathLib): (r: Result<Option<WindReport>, string>)
    requires lib.Sound()
    reads store
    ensures store.HistoricalData(lat, lon, Viento, month).0.None? ==> r == Success(None)
    ensures store.HistoricalData(lat, lon, Viento, month).0.Some? && !ValidDate2024(month, day)
            ==> r.Failure?
    ensures r.Success? && r.value.Some? ==>
      var report := r.value.value;
      && ValidDate2024(month, day)
      && report.cityName == store.HistoricalData(lat, lon, Viento, month).1
      && report.message == GetWindForecastMessage(Some(report.analysis), monthName)
    ensures
      var values := store.HistoricalData(lat, lon, Viento, month).0;
      values.Some? && ValidDate2024(month, day) ==>
        && |store.cities| > 0
        && var analysis := AnalyzeMonthlyData(values, store.cities[NearestIndex(lat, lon, store.cities)].key,
                                              month, lib);
           && r.Success?
           && (r.value.Some? <==> analysis.Some?)
           && (r.value.Some? ==> r.value.value.analysis == analysis.value)
  {
    var (values, cityName) := store.HistoricalData(lat, lon, Viento, month);
    if values.None? || |store.cities| == 0 then Success(None)
    else if !ValidDate2024(month, day) then Failure("day is out of range for month")
    else
      var cityKey := store.cities[NearestIndex(lat, lon, store.cities)].key;
      var analysis := AnalyzeMonthlyData(values, cityKey, month, lib);
      if analysis.None? then Success(None)
      else
        Success(Some(WindReport(analysis.value, GetWindForecastMessage(analysis, monthName), cityName)))
  }
}
