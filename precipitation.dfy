/**
 * The precipitation analyzer. The stored series holds one monthly rainfall total per year; the
 * analyzer turns it into the chance of rain on a single day of that month, using a table of how
 * many days it typically rains in each month at each station, and into a typical amount per rainy day.
 */
module Precipitation {
  import opened Wrappers
  import opened Numerics
  import opened Series
  import opened Order
  import opened Bands
  import opened Stations
  import StationStore

  /** Typical number of rainy days in each month (January first) at each station. */
  const RainyDaysPatterns: map<string, seq<nat>> := map[
    "veracruz" := [8, 6, 5, 4, 6, 12, 14, 14, 14, 10, 9, 8],
    "cdmx" := [3, 3, 4, 6, 10, 15, 18, 18, 16, 8, 4, 2],
    "cancun" := [6, 4, 3, 3, 6, 10, 10, 11, 14, 12, 8, 7],
    "monterrey" := [4, 3, 3, 4, 6, 7, 6, 7, 8, 6, 4, 4],
    "tijuana" := [6, 6, 6, 3, 2, 1, 1, 1, 2, 3, 4, 6]
  ]

  /** The typical number of rainy days, 10 for a station or month the table lacks. */
  function ExpectedRainyDays(cityKey: string, month: int): (n: nat)
    ensures 1 <= n <= 18
    ensures cityKey !in RainyDaysPatterns ==> n == 10
  {
    if cityKey in RainyDaysPatterns && 1 <= month <= 12 then RainyDaysPatterns[cityKey][month - 1]
    else 10
  }

  /** A monthly total above 5 mm counts as a month with significant rain. */
  const SignificantRain := Above(5.0)

  const IntensityCuts: seq<real> := [2.0, 5.0, 15.0, 30.0]
  const IntensityLabels: seq<string> :=
    ["Llovizna ligera", "Lluvia ligera", "Lluvia moderada", "Lluvia fuerte", "Lluvia muy fuerte"]

  /** Intensity of a daily amount in mm: drizzle below 2, then light, moderate, heavy, very heavy. */
  function CategorizeIntensity(mmPerDay: real): (r: string)
    ensures r == IntensityLabels[BandIndex(mmPerDay, IntensityCuts)]
  {
    BandIndexExact(mmPerDay, IntensityCuts, BandIndex(mmPerDay, IntensityCuts));
    if mmPerDay < 2.0 then "Llovizna ligera"
    else if mmPerDay < 5.0 then "Lluvia ligera"
    else if mmPerDay < 15.0 then "Lluvia moderada"
    else if mmPerDay < 30.0 then "Lluvia fuerte"
    else "Lluvia muy fuerte"
  }

  /** More rain per day never yields a lighter intensity. */
  lemma IntensityMonotone(a: real, b: real)
    requires a <= b
    ensures CategorizeIntensity(b) in IntensityLabels[BandIndex(a, IntensityCuts)..]
  {
    BandIndexMonotone(a, b, IntensityCuts);
    var k, m := BandIndex(a, IntensityCuts), BandIndex(b, IntensityCuts);
    assert IntensityLabels[k..][m - k] == IntensityLabels[m];
  }

  /**
   * The chance of rain on one day: the climatological share of rainy days scaled by the share of
   * years with significant rain in the month.
   */
  function DailyProbability(expected: nat, totalDays: nat, monthly: real): (p: real)
    requires 0 < totalDays && expected <= totalDays && 0.0 <= monthly <= 1.0
    ensures 0.0 <= p <= expected as real / totalDays as real <= 1.0
    ensures p <= monthly
  {
    var ratio := expected as real / totalDays as real;
    assert ratio <= 1.0 by {
      assert ratio * totalDays as real == expected as real;
    }
    MulNonneg(ratio, monthly);
    MulNonneg(ratio, 1.0 - monthly);
    MulNonneg(1.0 - ratio, monthly);
    ratio * monthly
  }

  lemma DivNonneg(a: real, b: real)
    requires 0.0 <= a && 0.0 < b
    ensures 0.0 <= a / b
  {
    assert a / b * b == a;
  }

  /** Typical amount on a rainy day and the range one standard deviation either side, the low end cut at 0. */
  datatype DailyAmount = DailyAmount(avg: real, low: real, high: real)

  /**
   * Each month with significant rain spreads its total evenly over the typical number of rainy days;
   * the spread of those totals shrinks by the square root of that number. All zero without such a month.
   */
  function DailyAmounts(rainy: seq<real>, expected: nat, lib: MathLib): (d: DailyAmount)
    requires lib.Sound() && 0 < expected
    requires forall i :: 0 <= i < |rainy| ==> 5.0 < rainy[i]
    ensures 0.0 <= d.low <= d.avg <= d.high
    ensures rainy == [] ==> d == DailyAmount(0.0, 0.0, 0.0)
    ensures rainy != [] ==> d.avg == Mean(rainy) / expected as real
  {
    if rainy == [] then DailyAmount(0.0, 0.0, 0.0)
    else
      MinMaxAreMembers(rainy);
      assert 0.0 <= Mean(rainy);
      var avg := Mean(rainy) / expected as real;
      DivNonneg(Mean(rainy), expected as real);
      SqrtPositive(lib, expected as real);
      var spread := Std(rainy, lib) / lib.sqrt(expected as real);
      DivNonneg(Std(rainy, lib), lib.sqrt(expected as real));
      DailyAmount(avg, MaxReal(0.0, avg - spread), avg + spread)
  }

  /** What the analyzer reports. Percentages and amounts are rounded to one decimal. */
  datatype PrecipitationAnalysis = PrecipitationAnalysis(
    probabilityRainDay: real,
    avgMmPerRainyDay: real,
    rangeMmPerDay: (real, real),
    intensityCategory: string,
    probabilityRainMonth: real,
    expectedRainyDaysPerMonth: nat,
    totalDaysInMonth: nat,
    historicalYearsAnalyzed: nat,
    yearsWithSignificantRain: nat,
    avgMonthlyPrecip: real,
    maxMonthlyPrecip: real,
    minMonthlyPrecip: real)

  /** The three daily amounts with one decimal; rounding keeps their order. */
  function RoundAmounts(d: DailyAmount): (r: DailyAmount)
    requires 0.0 <= d.low <= d.avg <= d.high
    ensures 0.0 <= r.low <= r.avg <= r.high
  {
    Round1Monotone(0.0, d.low);
    Round1OfTenths(0);
    Round1Monotone(d.low, d.avg);
    Round1Monotone(d.avg, d.high);
    DailyAmount(Round1(d.avg), Round1(d.low), Round1(d.high))
  }

  /** The report for a non-empty series of non-negative monthly totals. */
  function Summarize(valid: seq<real>, cityKey: string, month: Month, lib: MathLib): (a: PrecipitationAnalysis)
    requires lib.Sound() && |valid| > 0
    ensures a.historicalYearsAnalyzed == |valid|
    ensures a.yearsWithSignificantRain == Count(valid, SignificantRain) <= |valid|
    ensures a.probabilityRainMonth == Percent(a.yearsWithSignificantRain as real / |valid| as real)
    ensures 0.0 <= a.probabilityRainDay <= 100.0
    ensures a.probabilityRainDay
            == Percent(DailyProbability(ExpectedRainyDays(cityKey, month), DaysIn(month),
                                        Fraction(valid, SignificantRain)))
    ensures a.expectedRainyDaysPerMonth == ExpectedRainyDays(cityKey, month)
    ensures a.totalDaysInMonth == DaysIn(month)
    ensures 0.0 <= a.rangeMmPerDay.0 <= a.avgMmPerRainyDay <= a.rangeMmPerDay.1
    ensures
      var amounts := DailyAmounts(Filter(valid, SignificantRain), ExpectedRainyDays(cityKey, month), lib);
      && a.avgMmPerRainyDay == Round1(amounts.avg)
      && a.rangeMmPerDay == (Round1(amounts.low), Round1(amounts.high))
      && a.intensityCategory == CategorizeIntensity(amounts.avg)
    ensures a.minMonthlyPrecip <= a.avgMonthlyPrecip <= a.maxMonthlyPrecip
    ensures a.intensityCategory in IntensityLabels
  {
    var years := Count(valid, SignificantRain);
    var monthly := Fraction(valid, SignificantRain);
    var expected := ExpectedRainyDays(cityKey, month);
    var totalDays := DaysIn(month);
    var daily := DailyProbability(expected, totalDays, monthly);
    var amounts := DailyAmounts(Filter(valid, SignificantRain), expected, lib);
    var rounded := RoundAmounts(amounts);
    var summary := RoundedSummary(valid);
    PrecipitationAnalysis(
      Percent(daily),
      rounded.avg,
      (rounded.low, rounded.high),
      CategorizeIntensity(amounts.avg),
      Percent(monthly),
      expected,
      totalDays,
      |valid|,
      years,
      summary.0,
      summary.1,
      summary.2)
  }

  /**
   * Nothing for no values or when none is non-negative; otherwise the report on the
   * non-negative values.
   */
  function AnalyzeMonthlyData(values: Option<seq<real>>, cityKey: string, month: Month, lib: MathLib)
    : (r: Option<PrecipitationAnalysis>)
    requires lib.Sound()
    ensures r.None? <==> values.None? || Count(values.value, AtLeast(0.0)) == 0
    ensures r.Some? ==> r.value.historicalYearsAnalyzed == Count(values.value, AtLeast(0.0))
    ensures r.Some? ==> r.value == Summarize(Filter(values.value, AtLeast(0.0)), cityKey, month, lib)
  {
    if values.None? || |values.value| == 0 then None
    else
      var valid := Filter(values.value, AtLeast(0.0));
      if |valid| == 0 then None
      else Some(Summarize(valid, cityKey, month, lib))
  }

  /** The daily chance never exceeds the climatological share of rainy days in the month. */
  lemma DailyWithinClimatology(values: Option<seq<real>>, cityKey: string, month: Month, lib: MathLib)
    requires lib.Sound()
    requires AnalyzeMonthlyData(values, cityKey, month, lib).Some?
    ensures
      var a := AnalyzeMonthlyData(values, cityKey, month, lib).value;
      a.probabilityRainDay
      <= Round1(100.0 * (ExpectedRainyDays(cityKey, month) as real / DaysIn(month) as real))
  {
    var valid := Filter(values.value, AtLeast(0.0));
    var expected, totalDays := ExpectedRainyDays(cityKey, month), DaysIn(month);
    var daily := DailyProbability(expected, totalDays, Fraction(valid, SignificantRain));
    Round1Monotone(daily * 100.0, 100.0 * (expected as real / totalDays as real));
  }

  /**
   * Without a month above 5 mm there is no rainy-day amount: average and range are 0 and the
   * intensity is the lightest.
   */
  lemma NoSignificantRain(values: seq<real>, cityKey: string, month: Month, lib: MathLib)
    requires lib.Sound() && |values| > 0
    requires forall i :: 0 <= i < |values| ==> 0.0 <= values[i] <= 5.0
    ensures
      var a := AnalyzeMonthlyData(Some(values), cityKey, month, lib).value;
      && a.avgMmPerRainyDay == 0.0
      && a.rangeMmPerDay == (0.0, 0.0)
      && a.intensityCategory == "Llovizna ligera"
      && a.yearsWithSignificantRain == 0
  {
    CountAll(values, AtLeast(0.0));
    var valid := Filter(values, AtLeast(0.0));
    assert multiset(valid) <= multiset(values);
    forall i | 0 <= i < |valid|
      ensures !Holds(SignificantRain, valid[i])
    {
      assert valid[i] in multiset(values);
    }
    CountNone(valid, SignificantRain);
    Round1OfTenths(0);
  }

  /**
   * Cancún in October: 12 rainy days in 31. Two Octobers with 100 mm and 140 mm both count as
   * rainy, average 120 mm, which spread over 12 days is 10 mm per rainy day.
   */
  lemma CancunOctober(lib: MathLib)
    requires lib.Sound()
    ensures
      var a := AnalyzeMonthlyData(Some([100.0, 140.0]), "cancun", 10, lib).value;
      && a.avgMmPerRainyDay == 10.0
      && a.intensityCategory == "Lluvia moderada"
  {
    CancunOctoberFilters(lib);
    CancunOctoberAmount(lib);
  }

  lemma CancunOctoberFilters(lib: MathLib)
    requires lib.Sound()
    ensures AnalyzeMonthlyData(Some([100.0, 140.0]), "cancun", 10, lib)
            == Some(Summarize([100.0, 140.0], "cancun", 10, lib))
  {
    assert Filter([100.0, 140.0], AtLeast(0.0)) == [100.0, 140.0];
  }

  lemma CancunOctoberAmount(lib: MathLib)
    requires lib.Sound()
    ensures
      var a := Summarize([100.0, 140.0], "cancun", 10, lib);
      && a.avgMmPerRainyDay == 10.0
      && a.intensityCategory == "Lluvia moderada"
  {
    var s := [100.0, 140.0];
    assert Filter(s, SignificantRain) == s;
    assert ExpectedRainyDays("cancun", 10) == 12;
    RainyDayAmountExample(lib);
    Round1OfTenths(100);
    assert CategorizeIntensity(10.0) == "Lluvia moderada" by {
      BandIndexExact(10.0, IntensityCuts, 2);
    }
  }

  lemma RainyDayAmountExample(lib: MathLib)
    requires lib.Sound()
    ensures DailyAmounts([100.0, 140.0], 12, lib).avg == 10.0
  {
    assert Sum([100.0, 140.0]) == 240.0;
  }

  /** In the same example both years count as rainy, so the month's chance of significant rain is 100 %. */
  lemma CancunOctoberCounts(lib: MathLib)
    requires lib.Sound()
    ensures
      var a := AnalyzeMonthlyData(Some([100.0, 140.0]), "cancun", 10, lib).value;
      && a.yearsWithSignificantRain == 2
      && a.historicalYearsAnalyzed == 2
      && a.probabilityRainMonth == 100.0
      && a.expectedRainyDaysPerMonth == 12
      && a.totalDaysInMonth == 31
  {
    var s := [100.0, 140.0];
    assert Filter(s, AtLeast(0.0)) == s;
    assert Count(s, SignificantRain) == 2;
    assert ExpectedRainyDays("cancun", 10) == 12;
    Round1OfTenths(1000);
    assert Round1(100.0) == 100.0;
  }

  /** The forecast text's tier and the figures it quotes; the wording itself is not modelled. */
  datatype RainMessage =
    | NoData(text: string)
    | VeryLow(probability: real, monthName: string)
    | Low(probability: real, monthName: string, avgMm: real, intensity: string)
    | Moderate(probability: real, monthName: string, avgMm: real, intensity: string, range: (real, real))
    | High(probability: real, monthName: string, avgMm: real, intensity: string, range: (real, real),
           expectedRainyDays: nat)

  function Tier(m: RainMessage): nat
  {
    match m
    case NoData(_) => 0
    case VeryLow(_, _) => 0
    case Low(_, _, _, _) => 1
    case Moderate(_, _, _, _, _) => 2
    case High(_, _, _, _, _, _) => 3
  }

  const MessageCuts: seq<real> := [10.0, 30.0, 60.0]

  /** The message for an analysis: tiers by the rounded daily percentage at 10, 30 and 60. */
  function RainForecastMessage(analysis: Option<PrecipitationAnalysis>, monthName: string): (m: RainMessage)
    ensures analysis.None? <==> m.NoData?
    ensures analysis.None? ==> m.text == "No hay datos suficientes para esta fecha"
    ensures analysis.Some? ==>
      && Tier(m) == BandIndex(analysis.value.probabilityRainDay, MessageCuts)
      && m.probability == analysis.value.probabilityRainDay
      && m.monthName == monthName
  {
    if analysis.None? then NoData("No hay datos suficientes para esta fecha")
    else
      var a := analysis.value;
      var prob := a.probabilityRainDay;
      BandIndexExact(prob, MessageCuts, BandIndex(prob, MessageCuts));
      if prob < 10.0 then VeryLow(prob, monthName)
      else if prob < 30.0 then Low(prob, monthName, a.avgMmPerRainyDay, a.intensityCategory)
      else if prob < 60.0 then Moderate(prob, monthName, a.avgMmPerRainyDay, a.intensityCategory, a.rangeMmPerDay)
      else High(prob, monthName, a.avgMmPerRainyDay, a.intensityCategory, a.rangeMmPerDay, a.expectedRainyDaysPerMonth)
  }

  /** The analysis with its message and the station's name added. */
  datatype RainReport = RainReport(analysis: PrecipitationAnalysis, message: RainMessage, cityName: Option<string>)

  /**
   * Fetches the precipitation series of the station nearest to (lat, lon) and analyses it.
   * No values means no report; a day that does not exist in 2024 is an error once values exist.
   */
  function IntegrateWithProcessor(store: StationStore.Store, lat: real, lon: real, month: int, day: int,
                                  monthName: string, lib: MathLib): (r: Result<Option<RainReport>, string>)
    requires lib.Sound()
    reads store
    ensures store.HistoricalData(lat, lon, Precipitacion, month).0.None? ==> r == Success(None)
    ensures store.HistoricalData(lat, lon, Precipitacion, month).0.Some? && !ValidDate2024(month, day)
            ==> r.Failure?
    ensures r.Success? && r.value.Some? ==>
      var report := r.value.value;
      && ValidDate2024(month, day)
      && report.cityName == store.HistoricalData(lat, lon, Precipitacion, month).1
      && report.message == RainForecastMessage(Some(report.analysis), monthName)
    ensures
      var values := store.HistoricalData(lat, lon, Precipitacion, month).0;
      values.Some? && ValidDate2024(month, day) ==>
        && |store.cities| > 0
        && var analysis := AnalyzeMonthlyData(values, store.cities[NearestIndex(lat, lon, store.cities)].key,
                                              month, lib);
           && r.Success?
           && (r.value.Some? <==> analysis.Some?)
           && (r.value.Some? ==> r.value.value.analysis == analysis.value)
  {
    var (values, cityName) := store.HistoricalData(lat, lon, Precipitacion, month);
    if values.None? || |store.cities| == 0 then Success(None)
    else if !ValidDate2024(month, day) then Failure("day is out of range for month")
    else
      var cityKey := store.cities[NearestIndex(lat, lon, store.cities)].key;
      var analysis := AnalyzeMonthlyData(values, cityKey, month, lib);
      if analysis.None? then Success(None)
      else
        Success(Some(RainReport(analysis.value, RainForecastMessage(analysis, monthName), cityName)))
  }
}
