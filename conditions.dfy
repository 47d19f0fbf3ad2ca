/**
 * The climate conditions a traveller can search for: each constrains some variables with a
 * "less than", "greater than" or "between" test, and the enhanced finder also lists the months
 * in which the condition is most likely.
 */
module Conditions {
  import opened Wrappers
  import opened Stations
  import opened Series

  /** `less` reads the condition's `max`, `greater` its `min`, `between` both (inclusive). */
  datatype Op = Less(max: real) | Greater(min: real) | Between(min: real, max: real)

  datatype Constraint = Constraint(variable: Variable, op: Op)

  /** A condition's display name, its constraints in table order, and its favourable months. */
  datatype ClimateCondition = ClimateCondition(name: string, constraints: seq<Constraint>, months: seq<int>)

  /** The comparison a year's value must pass: strict for `less` and `greater`, inclusive for `between`. */
  function OpTest(op: Op): (t: Test)
    ensures forall v :: Holds(t, v) <==>
      match op
      case Less(max) => v < max
      case Greater(min) => v > min
      case Between(lo, hi) => lo <= v <= hi
  {
    match op
    case Less(max) => Below(max)
    case Greater(min) => Above(min)
    case Between(lo, hi) => Within(lo, hi)
  }

  /** The eight conditions of the enhanced finder. */
  const EnhancedConditions: map<string, ClimateCondition> := map[
    "nevado" := ClimateCondition("❄️ Clima Nevado/Frío Extremo",
      [Constraint(Temperatura, Less(8.0)), Constraint(Precipitacion, Greater(20.0)),
       Constraint(Nubosidad, Greater(60.0))],
      [11, 12, 1, 2, 3]),
    "frio_seco" := ClimateCondition("🌨️ Clima Frío y Seco",
      [Constraint(Temperatura, Less(12.0)), Constraint(Precipitacion, Less(10.0)),
       Constraint(Nubosidad, Less(40.0))],
      [11, 12, 1, 2]),
    "templado_perfecto" := ClimateCondition("🌤️ Clima Templado Ideal",
      [Constraint(Temperatura, Between(15.0, 25.0)), Constraint(Precipitacion, Less(15.0)),
       Constraint(Nubosidad, Less(50.0)), Constraint(Humedad, Less(70.0))],
      [3, 4, 5, 9, 10, 11]),
    "calido_soleado" := ClimateCondition("☀️ Clima Cálido y Soleado",
      [Constraint(Temperatura, Greater(28.0)), Constraint(Nubosidad, Less(40.0)),
       Constraint(Precipitacion, Less(20.0))],
      [4, 5, 6, 7, 8]),
    "playa_tropical" := ClimateCondition("🏖️ Clima Tropical de Playa",
      [Constraint(Temperatura, Between(26.0, 32.0)), Constraint(Humedad, Between(60.0, 85.0)),
       Constraint(Nubosidad, Less(60.0)), Constraint(Viento, Less(30.0))],
      [3, 4, 5, 6, 11, 12]),
    "lluvioso_tropical" := ClimateCondition("🌧️ Clima Lluvioso Tropical",
      [Constraint(Precipitacion, Greater(40.0)), Constraint(Humedad, Greater(75.0)),
       Constraint(Nubosidad, Greater(70.0))],
      [6, 7, 8, 9, 10]),
    "ventoso_extremo" := ClimateCondition("💨 Clima Ventoso",
      [Constraint(Viento, Greater(35.0))],
      [11, 12, 1, 2, 3]),
    "desertico_extremo" := ClimateCondition("🌵 Clima Desértico Extremo",
      [Constraint(Temperatura, Greater(35.0)), Constraint(Precipitacion, Less(5.0)),
       Constraint(Humedad, Less(30.0)), Constraint(Nubosidad, Less(20.0))],
      [5, 6, 7, 8])
  ]

  /** The six conditions of the strict finder, which lists no months. */
  const StrictConditions: map<string, ClimateCondition> := map[
    "frio_nevado" := ClimateCondition("❄️ Clima Frío/Nevado",
      [Constraint(Temperatura, Less(10.0)), Constraint(Precipitacion, Greater(15.0))], []),
    "templado_seco" := ClimateCondition("🌤️ Clima Templado Seco",
      [Constraint(Temperatura, Between(15.0, 25.0)), Constraint(Precipitacion, Less(20.0)),
       Constraint(Nubosidad, Less(50.0))], []),
    "calido_soleado" := ClimateCondition("☀️ Clima Cálido y Soleado",
      [Constraint(Temperatura, Greater(28.0)), Constraint(Nubosidad, Less(40.0))], []),
    "playa_ideal" := ClimateCondition("🏖️ Clima de Playa Ideal",
      [Constraint(Temperatura, Greater(26.0)), Constraint(Humedad, Greater(60.0)),
       Constraint(Nubosidad, Less(50.0))], []),
    "lluvioso" := ClimateCondition("🌧️ Clima Lluvioso",
      [Constraint(Precipitacion, Greater(30.0))], []),
    "ventoso" := ClimateCondition("💨 Clima Ventoso",
      [Constraint(Viento, Greater(25.0))], [])
  ]

  /** `get_condition_info`: the condition under that name, if there is one. */
  function GetConditionInfo(table: map<string, ClimateCondition>, key: string): (r: Option<ClimateCondition>)
    ensures r.Some? <==> key in table
    ensures r.Some? ==> r.value == table[key]
  {
    if key in table then Some(table[key]) else None
  }

  /** `get_recommended_months`: the favourable months of a known enhanced condition, else none. */
  function GetRecommendedMonths(key: string): (months: seq<int>)
    ensures key !in EnhancedConditions ==> months == []
    ensures key in EnhancedConditions ==> months == EnhancedConditions[key].months
    ensures forall m :: m in months ==> 1 <= m <= 12
  {
    if key in EnhancedConditions then EnhancedConditions[key].months else []
  }
}
