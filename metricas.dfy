/**
 * The display classifiers of the metrics panel: temperature and monthly precipitation
 * categories, the risk level of an extreme-event probability, and the colour of a probability.
 * Each returns what the panel shows: a label and, where the panel colours it, a colour.
 */
module Metricas {
  import opened Bands

  const TemperatureCuts: seq<real> := [10.0, 18.0, 25.0, 30.0]
  const TemperatureCategories: seq<(string, string)> :=
    [("Frío", "#60A5FA"), ("Fresco", "#A5B4FC"), ("Templado", "#34D399"),
     ("Cálido", "#FBBF24"), ("Caluroso", "#F87171")]

  /** Temperature in °C: five bands, each strictly below its upper cut-off. */
  function TemperatureCategory(temp: real): (r: (string, string))
    ensures r == TemperatureCategories[BandIndex(temp, TemperatureCuts)]
  {
    BandIndexExact(temp, TemperatureCuts, BandIndex(temp, TemperatureCuts));
    if temp < 10.0 then ("Frío", "#60A5FA")
    else if temp < 18.0 then ("Fresco", "#A5B4FC")
    else if temp < 25.0 then ("Templado", "#34D399")
    else if temp < 30.0 then ("Cálido", "#FBBF24")
    else ("Caluroso", "#F87171")
  }

  const PrecipitationCuts: seq<real> := [10.0, 50.0, 100.0, 200.0]
  const PrecipitationCategories: seq<(string, string)> :=
    [("Muy seco", "#FBBF24"), ("Seco", "#34D399"), ("Moderado", "#60A5FA"),
     ("Lluvioso", "#A5B4FC"), ("Muy lluvioso", "#8B5CF6")]

  /** Monthly precipitation in mm: five bands. */
  function PrecipitationCategory(precip: real): (r: (string, string))
    ensures r == PrecipitationCategories[BandIndex(precip, PrecipitationCuts)]
  {
    BandIndexExact(precip, PrecipitationCuts, BandIndex(precip, PrecipitationCuts));
    if precip < 10.0 then ("Muy seco", "#FBBF24")
    else if precip < 50.0 then ("Seco", "#34D399")
    else if precip < 100.0 then ("Moderado", "#60A5FA")
    else if precip < 200.0 then ("Lluvioso", "#A5B4FC")
    else ("Muy lluvioso", "#8B5CF6")
  }

  const RiskCuts: seq<real> := [0.1, 0.3, 0.6]
  /** Risk levels from the lowest to the highest. */
  const RiskLevels: seq<(string, string)> :=
    [("Muy bajo", "#34D399"), ("Bajo", "#FBBF24"), ("Moderado", "#F59E0B"), ("Alto", "#EF4444")]

  /** The risk of a probability given as a fraction in [0, 1]. */
  function RiskLevel(probability: real): (r: (string, string))
    ensures r == RiskLevels[BandIndex(probability, RiskCuts)]
  {
    BandIndexExact(probability, RiskCuts, BandIndex(probability, RiskCuts));
    if probability < 0.1 then ("Muy bajo", "#34D399")
    else if probability < 0.3 then ("Bajo", "#FBBF24")
    else if probability < 0.6 then ("Moderado", "#F59E0B")
    else ("Alto", "#EF4444")
  }

  /** A higher probability never yields a lower risk level. */
  lemma RiskLevelMonotone(p: real, q: real)
    requires p <= q
    ensures RiskLevel(q) in RiskLevels[BandIndex(p, RiskCuts)..]
  {
    BandIndexMonotone(p, q, RiskCuts);
    var k, m := BandIndex(p, RiskCuts), BandIndex(q, RiskCuts);
    assert RiskLevels[k..][m - k] == RiskLevels[m];
  }

  const ColourCuts: seq<real> := [0.4, 0.7]
  /** Green, yellow, red. */
  const ProbabilityColours: seq<string> := ["#28a745", "#ffc107", "#dc3545"]

  /** Red from 0.7 up, yellow from 0.4 up, green below. */
  function ProbabilityColor(probability: real): (r: string)
    ensures r == ProbabilityColours[BandIndex(probability, ColourCuts)]
  {
    BandIndexExact(probability, ColourCuts, BandIndex(probability, ColourCuts));
    if probability >= 0.7 then "#dc3545"
    else if probability >= 0.4 then "#ffc107"
    else "#28a745"
  }
}
