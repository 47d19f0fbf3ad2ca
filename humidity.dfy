/**
 * The humidity analyzer. The stored humidity series is specific humidity (kg of water per kg
 * of air); the analyzer converts each year's value to relative humidity with that year's mean
 * temperature, then summarises and grades the result.
 */
module Humidity {
  import opened Wrappers
  import opened Numerics
  import opened Series
  import opened Order
  import opened Bands
  import opened Stations
  import StationStore

  /** Sea-level pressure in Pa, the conversion's default and the only pressure it is given. */
  const StandardPressure: real := 101325.0

  /** The two denominators of the conversion are non-zero. */
  predicate Regular(q: real, t: real)
  {
    0.622 + q != 0.0 && t + 237.3 != 0.0
  }

  /** Every pair of a humidity and a temperature series is `Regular`. */
  predicate RegularSeries(qs: seq<real>, ts: seq<real>)
  {
    forall i :: 0 <= i < |qs| && i < |ts| ==> Regular(qs[i], ts[i])
  }

  /** Actual vapour pressure in Pa of air with specific humidity q: q P / (0.622 + q). */
  function VapourPressure(q: real): real
    requires 0.622 + q != 0.0
  {
    q * StandardPressure / (0.622 + q)
  }

  /** Saturation vapour pressure in Pa at t degrees Celsius, by the Magnus formula. */
  function SaturationPressure(t: real, lib: MathLib): (es: real)
    requires lib.Sound() && t + 237.3 != 0.0
    ensures 0.0 < es
  {
    611.0 * lib.exp(17.27 * t / (t + 237.3))
  }

  /** Relative humidity in percent, e / es * 100 clipped to [0, 100]. */
  function RelativeHumidity(q: real, t: real, lib: MathLib): (rh: real)
    requires lib.Sound() && Regular(q, t)
    ensures 0.0 <= rh <= 100.0
  {
    Clip(VapourPressure(q) / SaturationPressure(t, lib) * 100.0, 0.0, 100.0)
  }

  /** Perfectly dry air has no relative humidity, at any temperature. */
  lemma DryAir(t: real, lib: MathLib)
    requires lib.Sound() && t + 237.3 != 0.0
    ensures RelativeHumidity(0.0, t, lib) == 0.0
  {
    assert VapourPressure(0.0) == 0.0;
  }

  /** At a fixed temperature, moister air is never less humid. */
  lemma MoreMoistureMoreHumid(q1: real, q2: real, t: real, lib: MathLib)
    requires lib.Sound() && t + 237.3 != 0.0 && 0.0 <= q1 <= q2
    ensures RelativeHumidity(q1, t, lib) <= RelativeHumidity(q2, t, lib)
  {
    VapourPressureMonotone(q1, q2);
    var es := SaturationPressure(t, lib);
    DivideMonotone(VapourPressure(q1), VapourPressure(q2), es);
  }

  lemma VapourPressureMonotone(q1: real, q2: real)
    requires 0.0 <= q1 <= q2
    ensures VapourPressure(q1) <= VapourPressure(q2)
  {
    var d1, d2 := 0.622 + q1, 0.622 + q2;
    // q1 / d1 <= q2 / d2 because q1 * d2 - q2 * d1 = 0.622 * (q1 - q2) <= 0
    assert q1 * d2 - q2 * d1 == 0.622 * (q1 - q2);
    assert q1 * d2 <= q2 * d1;
    assert q1 / d1 <= q2 / d2 by {
      CrossDivide(q1, d1, q2, d2);
    }
    assert VapourPressure(q1) == q1 / d1 * StandardPressure;
    assert VapourPressure(q2) == q2 / d2 * StandardPressure;
  }

  /** a / b <= c / d for positive denominators when a * d <= c * b. */
  lemma CrossDivide(a: real, b: real, c: real, d: real)
    requires 0.0 < b && 0.0 < d && a * d <= c * b
    ensures a / b <= c / d
  {
    var x, y := a / b, c / d;
    assert a == x * b && c == y * d;
    assert x * b * d <= y * d * b;
    if y < x {
      MulStrict(y, x, b * d);
    }
  }

  lemma MulStrict(y: real, x: real, k: real)
    requires y < x && 0.0 < k
    ensures y * k < x * k
  {
  }

  lemma DivideMonotone(a: real, b: real, es: real)
    requires a <= b && 0.0 < es
    ensures Clip(a / es * 100.0, 0.0, 100.0) <= Clip(b / es * 100.0, 0.0, 100.0)
  {
    assert a / es <= b / es by {
      CrossDivide(a, es, b, es);
    }
  }

  /** Warmer air with the same moisture is never more humid. */
  lemma WarmerAirLessHumid(q: real, t1: real, t2: real, lib: MathLib)
    requires lib.Sound() && 0.0 <= q && -237.3 < t1 <= t2
    ensures RelativeHumidity(q, t2, lib) <= RelativeHumidity(q, t1, lib)
  {
    var c1, c2 := t1 + 237.3, t2 + 237.3;
    assert t1 * c2 - t2 * c1 == 237.3 * (t1 - t2);
    CrossDivide(t1, c1, t2, c2);
    assert 17.27 * t1 / c1 <= 17.27 * t2 / c2;
    var es1, es2 := SaturationPressure(t1, lib), SaturationPressure(t2, lib);
    assert es1 <= es2;
    var e := VapourPressure(q);
    assert 0.0 <= e;
    assert e / es2 <= e / es1 by {
      CrossDivide(e, es2, e, es1);
    }
  }

  /** The relative humidity of each year of two series of equal length. */
  function RelativeHumidities(qs: seq<real>, ts: seq<real>, lib: MathLib): (rh: seq<real>)
    requires lib.Sound() && |qs| == |ts| && RegularSeries(qs, ts)
    ensures |rh| == |qs|
    ensures forall i :: 0 <= i < |rh| ==> 0.0 <= rh[i] <= 100.0
  {
    seq(|qs|, i requires 0 <= i < |qs| => RelativeHumidity(qs[i], ts[i], lib))
  }

  /**
   * Converts year by year into an array of relative humidities; series of different lengths
   * give nothing.
   */
  method SpecificToRelativeHumidity(qs: seq<real>, ts: seq<real>, lib: MathLib) returns (r: Option<seq<real>>)
    requires lib.Sound() && RegularSeries(qs, ts)
    ensures r.None? <==> |qs| != |ts|
    ensures r.Some? ==> r.value == RelativeHumidities(qs, ts, lib)
  {
    if |qs| != |ts| {
      return None;
    }
    var rh := new real[|qs|](_ => 0.0);
    for i := 0 to |qs|
      invariant forall j :: 0 <= j < i ==> rh[j] == RelativeHumidity(qs[j], ts[j], lib)
    {
      rh[i] := RelativeHumidity(qs[i], ts[i], lib);
    }
    return Some(rh[..]);
  }

  const HumidityCuts: seq<real> := [30.0, 50.0, 70.0, 85.0]
  const HumidityCategories: seq<string> := ["Muy seco", "Seco", "Confortable", "Húmedo", "Muy húmedo"]

  /** The humidity class: very dry below 30 %, then dry, comfortable, humid, very humid from 85 %. */
  function CategorizeHumidity(rh: real): (r: string)
    ensures r == HumidityCategories[BandIndex(rh, HumidityCuts)]
  {
    BandIndexExact(rh, HumidityCuts, BandIndex(rh, HumidityCuts));
    if rh < 30.0 then "Muy seco"
    else if rh < 50.0 then "Seco"
    else if rh < 70.0 then "Confortable"
    else if rh < 85.0 then "Húmedo"
    else "Muy húmedo"
  }

  /** Ideal between 40 % and 60 %, comfortable between 30 % and 70 %, uncomfortable elsewhere (bounds inclusive). */
  function GetComfortLevel(rh: real): (r: (string, string))
    ensures r.0 == "Ideal" <==> 40.0 <= rh <= 60.0
    ensures r.0 == "Confortable" <==> (30.0 <= rh < 40.0 || 60.0 < rh <= 70.0)
    ensures r.0 == "Incómodo" <==> (rh < 30.0 || 70.0 < rh)
    ensures r in [("Ideal", "#10B981"), ("Confortable", "#F59E0B"), ("Incómodo", "#EF4444")]
  {
    if 40.0 <= rh <= 60.0 then ("Ideal", "#10B981")
    else if 30.0 <= rh <= 70.0 then ("Confortable", "#F59E0B")
    else ("Incómodo", "#EF4444")
  }

  /** An ideal humidity is always classed dry or comfortable, never at either extreme. */
  lemma IdealIsDryOrComfortable(rh: real)
    requires GetComfortLevel(rh).0 == "Ideal"
    ensures CategorizeHumidity(rh) in ["Seco", "Confortable"]
  {
    BandIndexExact(rh, HumidityCuts, BandIndex(rh, HumidityCuts));
  }

  datatype HumidityAnalysis = HumidityAnalysis(
    avgHumidity: real,
    minHumidity: real,
    maxHumidity: real,
    p25Humidity: real,
    p75Humidity: real,
    p90Humidity: real,
    humidityCategory: string,
    comfortLevel: (string, string),
    historicalYears: nat)

  /** The report on a non-empty series of relative humidities. */
  function Summarize(rh: seq<real>): (a: HumidityAnalysis)
    requires |rh| > 0 && forall i :: 0 <= i < |rh| ==> 0.0 <= rh[i] <= 100.0
    ensures a.historicalYears == |rh|
    ensures 0.0 <= a.minHumidity <= a.avgHumidity <= a.maxHumidity <= 100.0
    ensures a.minHumidity <= a.p25Humidity <= a.p75Humidity <= a.p90Humidity <= a.maxHumidity
    ensures a.humidityCategory == HumidityCategories[BandIndex(Mean(rh), HumidityCuts)]
    ensures a.comfortLevel == GetComfortLevel(Mean(rh))
  {
    var summary := RoundedSummary(rh);
    var qs := RoundedQuartiles(rh);
    MinMaxAreMembers(rh);
    Round1Percent(Min(rh));
    Round1Percent(Max(rh));
    HumidityAnalysis(
      summary.0, summary.2, summary.1, qs.0, qs.1, qs.2,
      CategorizeHumidity(Mean(rh)),
      GetComfortLevel(Mean(rh)),
      |rh|)
  }

  /**
   * Nothing when either series is missing or empty or their lengths differ; otherwise the
   * report on the converted series, one year per pair.
   */
  function AnalyzeMonthlyData(humidity: Option<seq<real>>, temperature: Option<seq<real>>,
                              cityKey: string, month: int, lib: MathLib): (r: Option<HumidityAnalysis>)
    requires lib.Sound()
    requires humidity.Some? && temperature.Some? ==> RegularSeries(humidity.value, temperature.value)
    ensures r.None? <==>
      || humidity.None? || |humidity.value| == 0
      || temperature.None? || |temperature.value| == 0
      || |humidity.value| != |temperature.value|
    ensures r.Some? ==> r.value.historicalYears == |humidity.value|
    ensures r.Some? ==>
      r.value == Summarize(RelativeHumidities(humidity.value, temperature.value, lib))
  {
    if humidity.None? || |humidity.value| == 0 then None
    else if temperature.None? || |temperature.value| == 0 then None
    else if |humidity.value| != |temperature.value| then None
    else Some(Summarize(RelativeHumidities(humidity.value, temperature.value, lib)))
  }

  /** The message's tier and the average it quotes; the wording itself is not modelled. */
  datatype HumidityMessage =
    | NoData(text: string)
    | VeryDry(avg: real)
    | Dry(avg: real)
    | Comfortable(avg: real)
    | Humid(avg: real)
    | VeryHumid(avg: real)

  function Tier(m: HumidityMessage): nat
  {
    match m
    case NoData(_) => 0
    case VeryDry(_) => 0
    case Dry(_) => 1
    case Comfortable(_) => 2
    case Humid(_) => 3
    case VeryHumid(_) => 4
  }

  /** The message for an analysis: tiers by the rounded average at the category cut-offs. */
  function GetHumidityMessage(analysis: Option<HumidityAnalysis>): (m: HumidityMessage)
    ensures analysis.None? <==> m.NoData?
    ensures analysis.None? ==> m.text == "No hay datos suficientes"
    ensures analysis.Some? ==>
      && Tier(m) == BandIndex(analysis.value.avgHumidity, HumidityCuts)
      && m.avg == analysis.value.avgHumidity
  {
    if analysis.None? then NoData("No hay datos suficientes")
    else
      var avg := analysis.value.avgHumidity;
      BandIndexExact(avg, HumidityCuts, BandIndex(avg, HumidityCuts));
      if avg < 30.0 then VeryDry(avg)
      else if avg < 50.0 then Dry(avg)
      else if avg < 70.0 then Comfortable(avg)
      else if avg < 85.0 then Humid(avg)
      else VeryHumid(avg)
  }

  /** The analysis with its message and the station's name added. */
  datatype HumidityReport = HumidityReport(analysis: HumidityAnalysis, message: HumidityMessage,
                                           cityName: Option<string>)

  /**
   * Fetches the humidity and temperature series of the station nearest to (lat, lon) and
   * analyses them. Either series missing means no report; a day that does not exist in 2024
   * is an error once both exist. A pair at a pole of the conversion is an error too.
   */
  function IntegrateHumidityWithProcessor(store: StationStore.Store, lat: real, lon: real, month: int,
                                          day: int, lib: MathLib): (r: Result<Option<HumidityReport>, string>)
    requires lib.Sound()
    reads store
    ensures store.HistoricalData(lat, lon, Humedad, month).0.None? ==> r == Success(None)
    ensures store.HistoricalData(lat, lon, Temperatura, month).0.None? ==> r == Success(None)
    ensures (&& store.HistoricalData(lat, lon, Humedad, month).0.Some?
             && store.HistoricalData(lat, lon, Temperatura, month).0.Some?
             && !ValidDate2024(month, day)) ==> r.Failure?
    ensures r.Success? && r.value.Some? ==>
      var report := r.value.value;
      && ValidDate2024(month, day)
      && report.cityName == store.HistoricalData(lat, lon, Humedad, month).1
      && report.message == GetHumidityMessage(Some(report.analysis))
    ensures
      var humidity := store.HistoricalData(lat, lon, Humedad, month).0;
      var temperature := store.HistoricalData(lat, lon, Temperatura, month).0;
      humidity.Some? && temperature.Some? && ValidDate2024(month, day) ==>
        && (!RegularSeries(humidity.value, temperature.value) ==> r.Failure?)
        && (RegularSeries(humidity.value, temperature.value) ==>
              && |store.cities| > 0
              && var analysis := AnalyzeMonthlyData(humidity, temperature,
                                                    store.cities[NearestIndex(lat, lon, store.cities)].key,
                                                    month, lib);
                 && r.Success?
                 && (r.value.Some? <==> analysis.Some?)
                 && (r.value.Some? ==> r.value.value.analysis == analysis.value))
  {
    var (humidity, cityName) := store.HistoricalData(lat, lon, Humedad, month);
    var (temperature, _) := store.HistoricalData(lat, lon, Temperatura, month);
    if humidity.None? || temperature.None? || |store.cities| == 0 then Success(None)
    else if !ValidDate2024(month, day) then Failure("day is out of range for month")
    else if !RegularSeries(humidity.value, temperature.value) then Failure("humidity conversion divides by zero")
    else
      var cityKey := store.cities[NearestIndex(lat, lon, store.cities)].key;
      var analysis := AnalyzeMonthlyData(humidity, temperature, cityKey, month, lib);
      if analysis.None? then Success(None)
      else Success(Some(HumidityReport(analysis.value, GetHumidityMessage(analysis), cityName)))
  }
}
