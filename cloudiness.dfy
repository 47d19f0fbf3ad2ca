/**
 * The cloudiness analyzer. The stored series holds one monthly mean cloud cover per year, already
 * in percent; the analyzer summarises it, splits the years into clear, partly cloudy and
 * overcast, and grades the sky.
 */
module Cloudiness {
  import opened Wrappers
  import opened Numerics
  import opened Series
  import opened Order
  import opened Bands
  import opened Stations
  import StationStore

  /** Cloud-cover classes cut at 25, 50 and 75 %; the sky condition uses the same cut-offs. */
  const CloudCuts: seq<real> := [25.0, 50.0, 75.0]
  const CloudCategories: seq<string> :=
    ["Cielo despejado", "Parcialmente nublado", "Mayormente nublado", "Nublado"]
  const SkyConditions: seq<(string, string)> :=
    [("Excelente", "#10B981"), ("Bueno", "#F59E0B"), ("Regular", "#F97316"), ("Pobre", "#6B7280")]

  function CategorizeCloudiness(cloudPercent: real): (r: string)
    ensures r == CloudCategories[BandIndex(cloudPercent, CloudCuts)]
  {
    BandIndexExact(cloudPercent, CloudCuts, BandIndex(cloudPercent, CloudCuts));
    if cloudPercent < 25.0 then "Cielo despejado"
    else if cloudPercent < 50.0 then "Parcialmente nublado"
    else if cloudPercent < 75.0 then "Mayormente nublado"
    else "Nublado"
  }

  function GetSkyCondition(cloudPercent: real): (r: (string, string))
    ensures r == SkyConditions[BandIndex(cloudPercent, CloudCuts)]
  {
    BandIndexExact(cloudPercent, CloudCuts, BandIndex(cloudPercent, CloudCuts));
    if cloudPercent < 25.0 then ("Excelente", "#10B981")
    else if cloudPercent < 50.0 then ("Bueno", "#F59E0B")
    else if cloudPercent < 75.0 then ("Regular", "#F97316")
    else ("Pobre", "#6B7280")
  }

  /** More cloud never yields a better sky condition. */
  lemma SkyConditionMonotone(a: real, b: real)
    requires a <= b
    ensures GetSkyCondition(b) in SkyConditions[BandIndex(a, CloudCuts)..]
  {
    BandIndexMonotone(a, b, CloudCuts);
    var k, m := BandIndex(a, CloudCuts), BandIndex(b, CloudCuts);
    assert SkyConditions[k..][m - k] == SkyConditions[m];
  }

  /** The three sky classes of a year: clear below 25 %, partly cloudy [25, 75), overcast from 75 %. */
  const Clear := Below(25.0)
  const PartlyCloudy := Band(25.0, 75.0)
  const Overcast := AtLeast(75.0)

  /** Every year falls in exactly one of the three classes. */
  lemma SkyClassesPartition(s: seq<real>)
    ensures Count(s, Clear) + Count(s, PartlyCloudy) + Count(s, Overcast) == |s|
  {
    CountBelowAtLeast(s, 25.0);
    CountAtLeastSplit(s, 25.0, 75.0);
  }

  datatype CloudinessAnalysis = CloudinessAnalysis(
    avgCloudiness: real,
    minCloudiness: real,
    maxCloudiness: real,
    p25Cloudiness: real,
    p75Cloudiness: real,
    p90Cloudiness: real,
    probClearSky: real,
    probPartlyCloudy: real,
    probOvercast: real,
    cloudinessCategory: string,
    skyCondition: (string, string),
    historicalYears: nat)

  /** The report on a non-empty series. */
  function Summarize(s: seq<real>): (a: CloudinessAnalysis)
    requires |s| > 0
    ensures a.historicalYears == |s|
    ensures a.minCloudiness <= a.avgCloudiness <= a.maxCloudiness
    ensures a.minCloudiness <= a.p25Cloudiness <= a.p75Cloudiness <= a.p90Cloudiness <= a.maxCloudiness
    ensures 0.0 <= a.probClearSky <= 100.0 && 0.0 <= a.probPartlyCloudy <= 100.0
    ensures 0.0 <= a.probOvercast <= 100.0
    ensures a.probClearSky == Percent(Fraction(s, Clear))
    ensures a.probPartlyCloudy == Percent(Fraction(s, PartlyCloudy))
    ensures a.probOvercast == Percent(Fraction(s, Overcast))
    ensures a.cloudinessCategory == CloudCategories[BandIndex(Mean(s), CloudCuts)]
    ensures a.skyCondition == SkyConditions[BandIndex(Mean(s), CloudCuts)]
  {
    var summary := RoundedSummary(s);
    var qs := RoundedQuartiles(s);
    CloudinessAnalysis(
      summary.0, summary.2, summary.1, qs.0, qs.1, qs.2,
      Percent(Fraction(s, Clear)),
      Percent(Fraction(s, PartlyCloudy)),
      Percent(Fraction(s, Overcast)),
      CategorizeCloudiness(Mean(s)),
      GetSkyCondition(Mean(s)),
      |s|)
  }

  /** Nothing for no values or an empty series; otherwise the report on every value as stored. */
  function AnalyzeMonthlyData(values: Option<seq<real>>, cityKey: string, month: int): (r: Option<CloudinessAnalysis>)
    ensures r.None? <==> values.None? || |values.value| == 0
    ensures r.Some? ==> r.value == Summarize(values.value)
  {
    if values.None? || |values.value| == 0 then None
    else Some(Summarize(values.value))
  }

  /**
   * A month whose every year had under 25 % cloud: clear in all years, never overcast,
   * classed clear with an excellent sky.
   */
  lemma ClearMonth(s: seq<real>)
    requires |s| > 0
    requires forall i :: 0 <= i < |s| ==> s[i] < 25.0
    ensures
      var a := Summarize(s);
      && a.probClearSky == 100.0
      && a.probOvercast == 0.0
      && a.cloudinessCategory == "Cielo despejado"
      && a.skyCondition == ("Excelente", "#10B981")
  {
    CountAll(s, Clear);
    CountNone(s, Overcast);
    Round1OfTenths(1000);
    Round1OfTenths(0);
    MinMaxAreMembers(s);
    assert BandIndex(Mean(s), CloudCuts) == 0 by {
      BandIndexExact(Mean(s), CloudCuts, 0);
    }
  }

  /** The message's tier and the average it quotes; the wording itself is not modelled. */
  datatype CloudinessMessage =
    | NoData(text: string)
    | MostlyClear(avg: real)
    | Partly(avg: real)
    | MostlyCloudy(avg: real)
    | Cloudy(avg: real)

  function Tier(m: CloudinessMessage): nat
  {
    match m
    case NoData(_) => 0
    case MostlyClear(_) => 0
    case Partly(_) => 1
    case MostlyCloudy(_) => 2
    case Cloudy(_) => 3
  }

  /** The message for an analysis: tiers by the rounded average at 25, 50 and 75 %. */
  function GetCloudinessMessage(analysis: Option<CloudinessAnalysis>): (m: CloudinessMessage)
    ensures analysis.None? <==> m.NoData?
    ensures analysis.None? ==> m.text == "No hay datos suficientes"
    ensures analysis.Some? ==>
      && Tier(m) == BandIndex(analysis.value.avgCloudiness, CloudCuts)
      && m.avg == analysis.value.avgCloudiness
  {
    if analysis.None? then NoData("No hay datos suficientes")
    else
      var avg := analysis.value.avgCloudiness;
      BandIndexExact(avg, CloudCuts, BandIndex(avg, CloudCuts));
      if avg < 25.0 then MostlyClear(avg)
      else if avg < 50.0 then Partly(avg)
      else if avg < 75.0 then MostlyCloudy(avg)
      else Cloudy(avg)
  }

  /** The analysis with its message and the station's name added. */
  datatype CloudinessReport = CloudinessReport(analysis: CloudinessAnalysis, message: CloudinessMessage,
                                               cityName: Option<string>)

  /**
   * Fetches the cloud series of the station nearest to (lat, lon) and analyses it.
   * No values means no report; a day that does not exist in 2024 is an error once values exist.
   */
  function IntegrateCloudinessWithProcessor(store: StationStore.Store, lat: real, lon: real, month: int,
                                            day: int): (r: Result<Option<CloudinessReport>, string>)
    reads store
    ensures store.HistoricalData(lat, lon, Nubosidad, month).0.None? ==> r == Success(None)
    ensures store.HistoricalData(lat, lon, Nubosidad, month).0.Some? && !ValidDate2024(month, day)
            ==> r.Failure?
    ensures r.Success? && r.value.Some? ==>
      var report := r.value.value;
      && ValidDate2024(month, day)
      && report.cityName == store.HistoricalData(lat, lon, Nubosidad, month).1
      && report.message == GetCloudinessMessage(Some(report.analysis))
    ensures
      var values := store.HistoricalData(lat, lon, Nubosidad, month).0;
      values.Some? && ValidDate2024(month, day) ==>
        && |store.cities| > 0
        && var analysis := AnalyzeMonthlyData(values, store.cities[NearestIndex(lat, lon, store.cities)].key,
                                              month);
           && r.Success?
           && (r.value.Some? <==> analysis.Some?)
           && (r.value.Some? ==> r.value.value.analysis == analysis.value)
  {
    var (values, cityName) := store.HistoricalData(lat, lon, Nubosidad, month);
    if values.None? || |store.cities| == 0 then Success(None)
    else if !ValidDate2024(month, day) then Failure("day is out of range for month")
    else
      var cityKey := store.cities[NearestIndex(lat, lon, store.cities)].key;
      var analysis := AnalyzeMonthlyData(values, cityKey, month);
      if analysis.None? then Success(None)
      else Success(Some(CloudinessReport(analysis.value, GetCloudinessMessage(analysis), cityName)))
  }
}
