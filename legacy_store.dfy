/**
 * The older station store. It keeps each file's rows as they were parsed, measures Euclidean
 * rather than squared distance, and filters by month and removes missing values at query time.
 * Only temperature and precipitation are ever served.
 */
module LegacyStore {
  import opened Wrappers
  import opened Numerics
  import opened Stations
  import opened StationStore

  /** The Euclidean distance to each station, in station order. */
  function Distances(lat: real, lon: real, cities: seq<Station>, lib: MathLib): (d: seq<real>)
    ensures |d| == |cities|
  {
    seq(|cities|, i requires 0 <= i < |cities| => lib.sqrt(SqDist(lat, lon, cities[i])))
  }

  /** Taking the square root does not change which station the scan picks, ties included. */
  lemma EuclideanPicksSameStation(lat: real, lon: real, cities: seq<Station>, lib: MathLib)
    requires lib.Sound() && |cities| > 0
    ensures ScanMin(Distances(lat, lon, cities, lib)) == NearestIndex(lat, lon, cities)
  {
    var d, e := SqDistances(lat, lon, cities), Distances(lat, lon, cities, lib);
    forall i, j | 0 <= i < |d| && 0 <= j < |d|
      ensures d[i] < d[j] <==> e[i] < e[j]
    {
      assert e[i] == lib.sqrt(d[i]) && e[j] == lib.sqrt(d[j]);
      if d[j] < d[i] {
        assert e[j] < e[i];
      }
    }
    SameOrderSameScan(d, e);
  }

  /** The rows whose timestamp falls in month m, in order, missing values included. */
  function MonthRows(rows: seq<Record>, m: int): (r: seq<Record>)
    ensures |r| <= |rows|
  {
    if rows == [] then []
    else (if rows[0].month == m then [rows[0]] else []) + MonthRows(rows[1..], m)
  }

  /** Filtering by month and then removing missing values gives what the optimised loader buckets. */
  lemma {:induction false} FilterThenDrop(rows: seq<Record>, m: int)
    ensures Values(DropMissing(MonthRows(rows, m))) == MonthValues(DropMissing(rows), m)
  {
    if rows != [] {
      var r, tail := rows[0], rows[1..];
      FilterThenDrop(tail, m);
      var head := if r.month == m then [r] else [];
      assert MonthRows(rows, m) == head + MonthRows(tail, m);
      DropMissingAppend(head, MonthRows(tail, m));
      var kept := if r.value.Some? then [Reading(r.month, r.value.value)] else [];
      assert DropMissing(rows) == kept + DropMissing(tail);
      MonthValuesAppend(kept, DropMissing(tail), m);
      ValuesAppend(DropMissing(head), DropMissing(MonthRows(tail, m)));
    }
  }

  lemma DropMissingCons(r: Record, rest: seq<Record>)
    ensures DropMissing([r] + rest) == DropMissing([r]) + DropMissing(rest)
  {
    assert ([r] + rest)[0] == r && ([r] + rest)[1..] == rest;
    assert [r][1..] == [];
  }

  lemma {:induction false} DropMissingAppend(a: seq<Record>, b: seq<Record>)
    ensures DropMissing(a + b) == DropMissing(a) + DropMissing(b)
  {
    if a == [] {
      assert a + b == b;
    } else {
      var h := DropMissing([a[0]]);
      assert (a + b)[0] == a[0] && (a + b)[1..] == a[1..] + b;
      DropMissingAppend(a[1..], b);
      calc {
        DropMissing(a + b);
        DropMissing([a[0]] + (a[1..] + b));
        { DropMissingCons(a[0], a[1..] + b); }
        h + DropMissing(a[1..] + b);
        h + (DropMissing(a[1..]) + DropMissing(b));
        (h + DropMissing(a[1..])) + DropMissing(b);
        { DropMissingCons(a[0], a[1..]); assert [a[0]] + a[1..] == a; }
        DropMissing(a) + DropMissing(b);
      }
    }
  }

  lemma {:induction false} MonthValuesAppend(a: seq<Reading>, b: seq<Reading>, m: int)
    ensures MonthValues(a + b, m) == MonthValues(a, m) + MonthValues(b, m)
  {
    if a == [] {
      assert a + b == b;
    } else {
      var h := MonthValues([a[0]], m);
      assert (a + b)[0] == a[0] && (a + b)[1..] == a[1..] + b;
      MonthValuesAppend(a[1..], b, m);
      calc {
        MonthValues(a + b, m);
        MonthValues([a[0]] + (a[1..] + b), m);
        { MonthValuesCons(a[0], a[1..] + b, m); }
        h + MonthValues(a[1..] + b, m);
        h + (MonthValues(a[1..], m) + MonthValues(b, m));
        (h + MonthValues(a[1..], m)) + MonthValues(b, m);
        { MonthValuesCons(a[0], a[1..], m); assert [a[0]] + a[1..] == a; }
        MonthValues(a, m) + MonthValues(b, m);
      }
    }
  }

  class Store {
    const cities: seq<Station>
    /** numpy's `sqrt`, supplied by the caller. */
    const lib: MathLib
    /** station key -> variable -> the rows of its file as parsed. */
    var data: map<string, map<Variable, seq<Record>>>

    /** A store over the given parsed files (loading them is not part of this model). */
    constructor (lib: MathLib, tables: map<string, map<Variable, seq<Record>>>)
      ensures cities == MexicanStations && this.lib == lib && data == tables
    {
      cities := MexicanStations;
      this.lib := lib;
      data := tables;
    }

    /** The nearest station by Euclidean distance, and that distance; the first of equally near stations wins. */
    method FindNearestCity(lat: real, lon: real) returns (nearest: Option<string>, minDistance: Extended)
      ensures |cities| == 0 ==> nearest == None && minDistance == Infinity
      ensures |cities| > 0 ==>
        var k := ScanMin(Distances(lat, lon, cities, lib));
        nearest == Some(cities[k].key) && minDistance == Finite(lib.sqrt(SqDist(lat, lon, cities[k])))
    {
      ghost var d := Distances(lat, lon, cities, lib);
      nearest, minDistance := None, Infinity;
      var best := 0;
      for i := 0 to |cities|
        invariant i == 0 ==> nearest == None && minDistance == Infinity
        invariant 0 < i ==> best == ScanMin(d[..i])
        invariant 0 < i ==> nearest == Some(cities[best].key) && minDistance == Finite(d[best])
      {
        var distance := lib.sqrt(SqDist(lat, lon, cities[i]));
        assert d[..i + 1][..i] == d[..i];
        if minDistance.Infinity? || distance < minDistance.value {
          nearest, minDistance, best := Some(cities[i].key), Finite(distance), i;
        }
      }
      if 0 < |cities| {
        assert d[..|cities|] == d;
      }
    }

    /**
     * The specification of a query: nearest station, variable, rows of the month (none means no
     * values), only temperature and precipitation served, missing values removed last.
     */
    function HistoricalData(lat: real, lon: real, variable: Variable, month: int)
      : (Option<seq<real>>, Option<string>)
      reads this
    {
      if |cities| == 0 then (None, None)
      else
        var key := cities[ScanMin(Distances(lat, lon, cities, lib))].key;
        if key !in data then (None, None)
        else if variable !in data[key] then (None, NameOf(cities, key))
        else
          var rows := MonthRows(data[key][variable], month);
          if |rows| == 0 then (None, NameOf(cities, key))
          else if variable != Temperatura && variable != Precipitacion then (None, NameOf(cities, key))
          else (Some(Values(DropMissing(rows))), NameOf(cities, key))
    }

    method GetHistoricalData(lat: real, lon: real, variable: Variable, month: int, day: int)
      returns (values: Option<seq<real>>, cityName: Option<string>)
      ensures (values, cityName) == HistoricalData(lat, lon, variable, month)
    {
      var key, _ := FindNearestCity(lat, lon);
      if key.None? || key.value !in data {
        return None, None;
      }
      var name := NameOf(cities, key.value);
      if variable !in data[key.value] {
        return None, name;
      }
      var rows := MonthRows(data[key.value][variable], month);
      if |rows| == 0 {
        return None, name;
      }
      if variable == Temperatura {
        values := Some(Values(DropMissing(rows)));
      } else if variable == Precipitacion {
        values := Some(Values(DropMissing(rows)));
      } else {
        return None, name;
      }
      cityName := name;
    }
  }

  /**
   * For temperature and precipitation, whenever the month has rows the older store serves exactly
   * the bucket the optimised loader builds from the same file.
   */
  lemma LegacyAgreesWithBuckets(rows: seq<Record>, v: Variable, m: int)
    requires v == Temperatura || v == Precipitacion
    requires 1 <= m <= 12
    ensures Values(DropMissing(MonthRows(rows, m))) == Buckets(v, rows)[m]
  {
    ConvertIdentity(v, rows);
    FilterThenDrop(rows, m);
  }
}
