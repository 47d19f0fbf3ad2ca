/**
 * The weather stations, the climate variables they carry, and the nearest-station rule:
 * a left-to-right scan over the stations that keeps the current best and replaces it only
 * on a strictly smaller distance.
 */
module Stations {
  /** The five variables a station can carry, named by the keys the data files use. */
  datatype Variable = Temperatura | Precipitacion | Viento | Humedad | Nubosidad

  /** The variables in the order the loader visits them. */
  const AllVariables: seq<Variable> := [Temperatura, Precipitacion, Viento, Humedad, Nubosidad]

  /** A calendar month, as a timestamp's month field gives it. */
  type Month = m: int | 1 <= m <= 12 witness 1

  /** Days in each month of a non-leap year. */
  const DaysInMonth: seq<nat> := [31, 28, 31, 30, 31, 30, 31, 31, 30, 31, 30, 31]

  /** The number of days in a month of a non-leap year. */
  function DaysIn(month: Month): (n: nat)
    ensures 28 <= n <= 31
  {
    DaysInMonth[month - 1]
  }

  /** Whether `datetime(2024, month, day)` exists; 2024 is a leap year. */
  predicate ValidDate2024(month: int, day: int)
  {
    1 <= month <= 12 && 1 <= day && day <= (if month == 2 then 29 else DaysInMonth[month - 1])
  }

  datatype Station = Station(key: string, name: string, lat: real, lon: real)

  /** The five stations with historical series, in iteration order. */
  const MexicanStations: seq<Station> :=
    [ Station("veracruz", "Veracruz", 19.20, -96.15),
      Station("cdmx", "Ciudad de México", 19.43, -99.13),
      Station("cancun", "Cancún", 21.16, -86.85),
      Station("monterrey", "Monterrey", 25.68, -100.31),
      Station("tijuana", "Tijuana", 32.52, -117.04) ]

  /** Station keys are dictionary keys: no two stations share one. */
  predicate DistinctKeys(cities: seq<Station>)
  {
    forall i, j :: 0 <= i < j < |cities| ==> cities[i].key != cities[j].key
  }

  /** A distance that starts out as positive infinity. */
  datatype Extended = Infinity | Finite(value: real)

  /** Planar squared distance in degrees. */
  function SqDist(lat: real, lon: real, s: Station): (d: real)
    ensures 0.0 <= d
  {
    var dy, dx := lat - s.lat, lon - s.lon;
    SquareNonneg(dy);
    SquareNonneg(dx);
    dy * dy + dx * dx
  }

  lemma SquareNonneg(x: real)
    ensures 0.0 <= x * x
  {
    if x < 0.0 {
      assert x * x == (-x) * (-x);
    }
  }

  /** The squared distance from the query point to each station, in station order. */
  function SqDistances(lat: real, lon: real, cities: seq<Station>): (d: seq<real>)
    ensures |d| == |cities|
    ensures forall i :: 0 <= i < |d| ==> d[i] == SqDist(lat, lon, cities[i])
  {
    if cities == [] then []
    else SqDistances(lat, lon, cities[..|cities| - 1]) + [SqDist(lat, lon, cities[|cities| - 1])]
  }

  /**
   * The index a running-minimum scan settles on: the first element is always taken
   * (it is below infinity), and a later one replaces the best only when strictly smaller.
   */
  function ScanMin(d: seq<real>): (k: nat)
    requires |d| > 0
    ensures k < |d|
  {
    if |d| == 1 then 0
    else
      var k := ScanMin(d[..|d| - 1]);
      if d[|d| - 1] < d[k] then |d| - 1 else k
  }

  /** k holds a minimal value, and every earlier index holds a strictly larger one. */
  predicate IsFirstMin(d: seq<real>, k: nat)
  {
    && k < |d|
    && (forall i :: 0 <= i < |d| ==> d[k] <= d[i])
    && (forall i :: 0 <= i < k ==> d[k] < d[i])
  }

  /** The scan finds the minimum, and on ties the earliest index wins. */
  lemma {:induction false} ScanMinIsFirstMin(d: seq<real>)
    requires |d| > 0
    ensures IsFirstMin(d, ScanMin(d))
  {
    if |d| > 1 {
      var p := d[..|d| - 1];
      ScanMinIsFirstMin(p);
      var k := ScanMin(p);
      assert forall i :: 0 <= i < |p| ==> p[i] == d[i];
    }
  }

  /** There is only one first minimum. */
  lemma FirstMinUnique(d: seq<real>, k: nat, j: nat)
    requires IsFirstMin(d, k) && IsFirstMin(d, j)
    ensures k == j
  {
    assert d[k] == d[j];
  }

  /** Any order-preserving image of the distances selects the same station. */
  lemma SameOrderSameScan(d: seq<real>, e: seq<real>)
    requires |d| == |e| > 0
    requires forall i, j :: 0 <= i < |d| && 0 <= j < |d| ==> (d[i] < d[j] <==> e[i] < e[j])
    ensures ScanMin(d) == ScanMin(e)
  {
    ScanMinIsFirstMin(d);
    ScanMinIsFirstMin(e);
    var k := ScanMin(d);
    assert IsFirstMin(e, k) by {
      forall i | 0 <= i < |e| ensures e[k] <= e[i] {
      }
    }
    FirstMinUnique(e, k, ScanMin(e));
  }

  /** The station a query at (lat, lon) resolves to. */
  function NearestIndex(lat: real, lon: real, cities: seq<Station>): (k: nat)
    requires |cities| > 0
    ensures k < |cities|
  {
    ScanMin(SqDistances(lat, lon, cities))
  }

  /** A query at a station's own coordinates resolves to that station. */
  lemma StationResolvesToItself(i: nat)
    requires i < |MexicanStations|
    ensures NearestIndex(MexicanStations[i].lat, MexicanStations[i].lon, MexicanStations) == i
  {
    var s := MexicanStations[i];
    var d := SqDistances(s.lat, s.lon, MexicanStations);
    forall j | 0 <= j < |d| && j != i
      ensures 0.0 < d[j]
    {
      assert MexicanStations[j].lat != s.lat;
    }
    assert IsFirstMin(d, i);
    ScanMinIsFirstMin(d);
    FirstMinUnique(d, i, ScanMin(d));
  }
}
