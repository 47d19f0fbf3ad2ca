/**
 * The optimised station store. Loading turns each (station, variable) file, already parsed into
 * (month, value) rows, into twelve month buckets after unit conversion and removal of missing
 * values; queries resolve a coordinate to the nearest station and return one bucket.
 */
module StationStore {
  import opened Wrappers
  import opened Stations

  /** A parsed row of a data file: its timestamp's month and its value, `None` where the value did not parse. */
  datatype Record = Record(month: Month, value: Option<real>)

  /** A row that survived the removal of missing values. */
  datatype Reading = Reading(month: Month, value: real)

  /** Wind arrives in m/s and is stored in km/h; cloud cover arrives as a fraction and is stored in percent. */
  function UnitFactor(v: Variable): real
  {
    match v
    case Viento => 3.6
    case Nubosidad => 100.0
    case _ => 1.0
  }

  function ScaleRecord(v: Variable, r: Record): Record
  {
    if r.value.Some? then Record(r.month, Some(UnitFactor(v) * r.value.value)) else r
  }

  /** The column-wise unit conversion; a missing value stays missing. */
  function Convert(v: Variable, rows: seq<Record>): (r: seq<Record>)
    ensures |r| == |rows|
  {
    if rows == [] then [] else [ScaleRecord(v, rows[0])] + Convert(v, rows[1..])
  }

  /** The rows whose value is present, in order. */
  function DropMissing(rows: seq<Record>): (r: seq<Reading>)
    ensures |r| <= |rows|
  {
    if rows == [] then []
    else
      (if rows[0].value.Some? then [Reading(rows[0].month, rows[0].value.value)] else [])
      + DropMissing(rows[1..])
  }

  function Values(rs: seq<Reading>): (r: seq<real>)
    ensures |r| == |rs|
  {
    if rs == [] then [] else [rs[0].value] + Values(rs[1..])
  }

  /** The values of the readings taken in month m, in their original order. */
  function MonthValues(rs: seq<Reading>, m: int): (r: seq<real>)
    ensures |r| <= |rs|
  {
    if rs == [] then []
    else (if rs[0].month == m then [rs[0].value] else []) + MonthValues(rs[1..], m)
  }

  /** One bucket per calendar month. */
  function ByMonth(rs: seq<Reading>): map<int, seq<real>>
  {
    map m | 1 <= m <= 12 :: MonthValues(rs, m)
  }

  /** What loading leaves for one variable's rows. */
  function Buckets(v: Variable, rows: seq<Record>): map<int, seq<real>>
  {
    ByMonth(DropMissing(Convert(v, rows)))
  }

  /** The tables of one station after visiting the variables `vars`; a missing file adds nothing. */
  function StationTables(key: string, files: map<(string, Variable), seq<Record>>, vars: seq<Variable>)
    : (t: map<Variable, map<int, seq<real>>>)
    ensures forall v :: v in t <==> v in vars && (key, v) in files
  {
    if vars == [] then map[]
    else
      var t := StationTables(key, files, vars[..|vars| - 1]);
      var v := vars[|vars| - 1];
      if (key, v) in files then t[v := Buckets(v, files[(key, v)])] else t
  }

  /** Visiting one more variable adds its table when its file is present. */
  lemma StationTablesSnoc(key: string, files: map<(string, Variable), seq<Record>>, vars: seq<Variable>, v: Variable)
    ensures StationTables(key, files, vars + [v])
            == if (key, v) in files then StationTables(key, files, vars)[v := Buckets(v, files[(key, v)])]
               else StationTables(key, files, vars)
  {
    assert (vars + [v])[..|vars|] == vars;
  }

  /** The store after loading the stations `cities` over `prior`. */
  function Loaded(prior: map<string, map<Variable, map<int, seq<real>>>>, cities: seq<Station>,
                  files: map<(string, Variable), seq<Record>>): map<string, map<Variable, map<int, seq<real>>>>
  {
    if cities == [] then prior
    else
      var c := cities[|cities| - 1];
      Loaded(prior, cities[..|cities| - 1], files)[c.key := StationTables(c.key, files, AllVariables)]
  }

  /** The name of the first station with the given key. */
  function NameOf(cities: seq<Station>, key: string): Option<string>
  {
    if cities == [] then None
    else if cities[0].key == key then Some(cities[0].name)
    else NameOf(cities[1..], key)
  }

  class Store {
    /** The stations, in iteration order. */
    const cities: seq<Station>
    /** station key -> variable -> month -> values */
    var data: map<string, map<Variable, map<int, seq<real>>>>

    constructor ()
      ensures cities == MexicanStations && data == map[]
    {
      cities := MexicanStations;
      data := map[];
    }

    /**
     * Loads every (station, variable) file present in `files`; a missing file skips only that
     * pair. Reports whether the store holds any station.
     */
    method LoadAll(files: map<(string, Variable), seq<Record>>) returns (ok: bool)
      modifies this
      ensures data == Loaded(old(data), cities, files)
      ensures ok <==> |data| > 0
    {
      var i := 0;
      while i < |cities|
        invariant 0 <= i <= |cities|
        invariant data == Loaded(old(data), cities[..i], files)
      {
        LoadStation(cities[i].key, files);
        assert cities[..i + 1][..i] == cities[..i];
        i := i + 1;
      }
      assert cities[..i] == cities;
      ok := |data| > 0;
    }

    /** Starts the station afresh and loads each of its variables whose file is present. */
    method LoadStation(key: string, files: map<(string, Variable), seq<Record>>)
      modifies this
      ensures data == old(data)[key := StationTables(key, files, AllVariables)]
    {
      data := data[key := map[]];
      var tables := data[key];
      var j := 0;
      while j < |AllVariables|
        invariant 0 <= j <= |AllVariables|
        invariant tables == StationTables(key, files, AllVariables[..j])
        invariant data == old(data)[key := map[]]
      {
        var v := AllVariables[j];
        assert AllVariables[..j + 1] == AllVariables[..j] + [v];
        StationTablesSnoc(key, files, AllVariables[..j], v);
        if (key, v) in files {
          var byMonth := BucketByMonth(DropMissing(Convert(v, files[(key, v)])));
          tables := tables[v := byMonth];
        }
        j := j + 1;
      }
      assert AllVariables[..j] == AllVariables;
      assert data[key := tables] == old(data)[key := tables];
      data := data[key := tables];
    }

    /** Splits the readings into the twelve month buckets, one month at a time. */
    static method BucketByMonth(rs: seq<Reading>) returns (byMonth: map<int, seq<real>>)
      ensures byMonth == ByMonth(rs)
    {
      byMonth := map[];
      var m := 1;
      while m <= 12
        invariant 1 <= m <= 13
        invariant byMonth == map k | 1 <= k < m :: MonthValues(rs, k)
      {
        byMonth := byMonth[m := MonthValues(rs, m)];
        m := m + 1;
      }
    }

    /**
     * The nearest station by squared planar distance, and that distance. The scan starts from
     * infinity and takes a station only when it is strictly closer than the best so far.
     */
    method FindNearestCity(lat: real, lon: real) returns (nearest: Option<string>, minDist: Extended)
      ensures |cities| == 0 ==> nearest == None && minDist == Infinity
      ensures |cities| > 0 ==>
        var k := NearestIndex(lat, lon, cities);
        nearest == Some(cities[k].key) && minDist == Finite(SqDist(lat, lon, cities[k]))
    {
      ghost var d := SqDistances(lat, lon, cities);
      nearest, minDist := None, Infinity;
      var best := 0;
      for i := 0 to |cities|
        invariant i == 0 ==> nearest == None && minDist == Infinity
        invariant 0 < i ==> best == ScanMin(d[..i])
        invariant 0 < i ==> nearest == Some(cities[best].key) && minDist == Finite(d[best])
      {
        var dist := SqDist(lat, lon, cities[i]);
        assert d[..i + 1][..i] == d[..i];
        if minDist.Infinity? || dist < minDist.value {
          nearest, minDist, best := Some(cities[i].key), Finite(dist), i;
        }
      }
      if 0 < |cities| {
        assert d[..|cities|] == d;
      }
    }

    /** The specification of a query: nearest station, then variable, then month bucket. */
    function HistoricalData(lat: real, lon: real, variable: Variable, month: int)
      : (Option<seq<real>>, Option<string>)
      reads this
    {
      if |cities| == 0 then (None, None)
      else
        var key := cities[NearestIndex(lat, lon, cities)].key;
        if key !in data then (None, None)
        else if variable !in data[key] then (None, NameOf(cities, key))
        else
          var byMonth := data[key][variable];
          (if month in byMonth then Some(byMonth[month]) else None, NameOf(cities, key))
    }

    /** The month bucket of the nearest station's variable, and the station's name; `day` is not used. */
    method GetHistoricalData(lat: real, lon: real, variable: Variable, month: int, day: int)
      returns (values: Option<seq<real>>, cityName: Option<string>)
      ensures (values, cityName) == HistoricalData(lat, lon, variable, month)
    {
      var nearest, _ := FindNearestCity(lat, lon);
      if nearest.None? || nearest.value !in data {
        return None, None;
      }
      var key := nearest.value;
      if variable !in data[key] {
        return None, NameOf(cities, key);
      }
      var byMonth := data[key][variable];
      values := if month in byMonth then Some(byMonth[month]) else None;
      cityName := NameOf(cities, key);
    }
  }

  /** After loading, every listed station holds the tables built from its own files. */
  lemma {:induction false} LoadedStation(prior: map<string, map<Variable, map<int, seq<real>>>>,
                                         cities: seq<Station>, files: map<(string, Variable), seq<Record>>, i: nat)
    requires i < |cities|
    ensures cities[i].key in Loaded(prior, cities, files)
    ensures Loaded(prior, cities, files)[cities[i].key] == StationTables(cities[i].key, files, AllVariables)
  {
    if i < |cities| - 1 && cities[i].key != cities[|cities| - 1].key {
      LoadedStation(prior, cities[..|cities| - 1], files, i);
    }
  }

  /** Loading leaves the entries of stations it does not visit as they were. */
  lemma {:induction false} LoadedOthers(prior: map<string, map<Variable, map<int, seq<real>>>>,
                                        cities: seq<Station>, files: map<(string, Variable), seq<Record>>, key: string)
    requires forall c :: c in cities ==> c.key != key
    ensures key in Loaded(prior, cities, files) <==> key in prior
    ensures key in prior ==> Loaded(prior, cities, files)[key] == prior[key]
  {
    if cities != [] {
      var init := cities[..|cities| - 1];
      assert forall c :: c in init ==> c in cities;
      LoadedOthers(prior, init, files, key);
    }
  }

  /** Loading at least one station always reports success. */
  lemma LoadReportsSuccess(prior: map<string, map<Variable, map<int, seq<real>>>>,
                           cities: seq<Station>, files: map<(string, Variable), seq<Record>>)
    requires |cities| > 0
    ensures |Loaded(prior, cities, files)| > 0
  {
    LoadedStation(prior, cities, files, 0);
  }

  /** A variable is loaded for a station exactly when its file is present, and then holds that file's buckets. */
  lemma {:induction false} TablesOfVariable(key: string, files: map<(string, Variable), seq<Record>>,
                                            vars: seq<Variable>, v: Variable)
    requires v in vars && (key, v) in files
    ensures StationTables(key, files, vars)[v] == Buckets(v, files[(key, v)])
  {
    var last := vars[|vars| - 1];
    if last != v {
      var init := vars[..|vars| - 1];
      assert v in init by {
        var k :| 0 <= k < |vars| && vars[k] == v;
        assert init[k] == v;
      }
      TablesOfVariable(key, files, init, v);
    }
  }

  /** Only wind and cloud cover are rescaled; the other variables load unchanged. */
  lemma {:induction false} ConvertIdentity(v: Variable, rows: seq<Record>)
    requires v != Viento && v != Nubosidad
    ensures Convert(v, rows) == rows
  {
    if rows != [] {
      ConvertIdentity(v, rows[1..]);
      assert rows == [rows[0]] + rows[1..];
    }
  }

  function ScaleAll(k: real, s: seq<real>): (r: seq<real>)
    ensures |r| == |s|
  {
    if s == [] then [] else [k * s[0]] + ScaleAll(k, s[1..])
  }

  /** Every stored value is the raw value times the variable's unit factor, and missing values drop out either way. */
  lemma {:induction false} ConvertThenDrop(v: Variable, rows: seq<Record>)
    ensures Values(DropMissing(Convert(v, rows))) == ScaleAll(UnitFactor(v), Values(DropMissing(rows)))
  {
    if rows != [] {
      var r, tail := rows[0], rows[1..];
      var c := Convert(v, rows);
      assert c[0] == ScaleRecord(v, r) && c[1..] == Convert(v, tail);
      ConvertThenDrop(v, tail);
      var rest := Values(DropMissing(tail));
      if r.value.Some? {
        var x := r.value.value;
        assert DropMissing(c) == [Reading(r.month, UnitFactor(v) * x)] + DropMissing(c[1..]);
        assert DropMissing(rows) == [Reading(r.month, x)] + DropMissing(tail);
        ValuesAppend([Reading(r.month, UnitFactor(v) * x)], DropMissing(c[1..]));
        ValuesAppend([Reading(r.month, x)], DropMissing(tail));
        assert Values(DropMissing(rows)) == [x] + rest;
        assert ([x] + rest)[0] == x && ([x] + rest)[1..] == rest;
        assert ScaleAll(UnitFactor(v), [x] + rest) == [UnitFactor(v) * x] + ScaleAll(UnitFactor(v), rest);
        assert Values(DropMissing(c)) == [UnitFactor(v) * x] + ScaleAll(UnitFactor(v), rest);
      } else {
        assert DropMissing(c) == DropMissing(c[1..]);
        assert DropMissing(rows) == DropMissing(tail);
      }
    }
  }

  lemma {:induction false} ValuesAppend(a: seq<Reading>, b: seq<Reading>)
    ensures Values(a + b) == Values(a) + Values(b)
  {
    if a == [] {
      assert a + b == b;
    } else {
      assert (a + b)[1..] == a[1..] + b;
      ValuesAppend(a[1..], b);
    }
  }

  /** The multiset union of the buckets of months 1..m. */
  function MonthsUnion(rs: seq<Reading>, m: nat): multiset<real>
  {
    if m == 0 then multiset{} else MonthsUnion(rs, m - 1) + multiset(MonthValues(rs, m))
  }

  lemma MonthValuesCons(r: Reading, rest: seq<Reading>, m: int)
    ensures MonthValues([r] + rest, m) == MonthValues([r], m) + MonthValues(rest, m)
    ensures MonthValues([r], m) == if r.month == m then [r.value] else []
  {
    assert ([r] + rest)[0] == r && ([r] + rest)[1..] == rest;
    assert [r][1..] == [];
  }

  lemma {:induction false} MonthsUnionCons(r: Reading, rest: seq<Reading>, m: nat)
    ensures MonthsUnion([r] + rest, m)
         == MonthsUnion(rest, m) + (if r.month <= m then multiset{r.value} else multiset{})
  {
    if m > 0 {
      MonthsUnionCons(r, rest, m - 1);
      MonthsUnionConsStep(r, rest, m);
    }
  }

  /** The step of the lemma above: month m adds r's value exactly when r falls in month m. */
  lemma MonthsUnionConsStep(r: Reading, rest: seq<Reading>, m: nat)
    requires m > 0
    requires MonthsUnion([r] + rest, m - 1)
             == MonthsUnion(rest, m - 1) + (if r.month <= m - 1 then multiset{r.value} else multiset{})
    ensures MonthsUnion([r] + rest, m)
         == MonthsUnion(rest, m) + (if r.month <= m then multiset{r.value} else multiset{})
  {
    var u, v := MonthsUnion(rest, m - 1), multiset(MonthValues(rest, m));
    var below := if r.month <= m - 1 then multiset{r.value} else multiset{};
    var here := if r.month == m then multiset{r.value} else multiset{};
    calc {
      MonthsUnion([r] + rest, m);
      MonthsUnion([r] + rest, m - 1) + multiset(MonthValues([r] + rest, m));
      { MonthValuesCons(r, rest, m); }
      (u + below) + (here + v);
      { Regroup(u, below, here, v); }
      (u + v) + (below + here);
      { SplitAtMonth(r, m); }
      MonthsUnion(rest, m) + (if r.month <= m then multiset{r.value} else multiset{});
    }
  }

  lemma SplitAtMonth(r: Reading, m: int)
    ensures (if r.month <= m then multiset{r.value} else multiset{})
            == (if r.month <= m - 1 then multiset{r.value} else multiset{})
               + (if r.month == m then multiset{r.value} else multiset{})
  {
  }

  lemma Regroup(a: multiset<real>, b: multiset<real>, c: multiset<real>, d: multiset<real>)
    ensures (a + b) + (c + d) == (a + d) + (b + c)
  {
  }

  /**
   * The twelve month buckets partition the readings: together they hold every value exactly
   * as often as the readings do.
   */
  lemma {:induction false} MonthBucketsPartition(rs: seq<Reading>)
    ensures MonthsUnion(rs, 12) == multiset(Values(rs))
    ensures forall m :: 1 <= m <= 12 ==> ByMonth(rs)[m] == MonthValues(rs, m)
  {
    if rs == [] {
      MonthsUnionEmpty(12);
    } else {
      MonthBucketsPartition(rs[1..]);
      assert [rs[0]] + rs[1..] == rs;
      MonthsUnionCons(rs[0], rs[1..], 12);
    }
  }

  lemma {:induction false} MonthsUnionEmpty(m: nat)
    ensures MonthsUnion([], m) == multiset{}
  {
    if m > 0 {
      MonthsUnionEmpty(m - 1);
    }
  }

  /** With distinct keys, a station's key names that station. */
  lemma {:induction false} NameOfStation(cities: seq<Station>, i: nat)
    requires DistinctKeys(cities) && i < |cities|
    ensures NameOf(cities, cities[i].key) == Some(cities[i].name)
  {
    if i > 0 {
      assert cities[0].key != cities[i].key;
      assert cities[1..][i - 1] == cities[i];
      NameOfStation(cities[1..], i - 1);
    }
  }

  /**
   * After the fixture stations were loaded, a query at a station's own coordinates returns that
   * station's bucket for the month unchanged (an empty bucket is an empty sequence, not `None`)
   * when its file was present, nothing when it was not, and the station's name either way.
   */
  lemma QueryAtStation(store: Store, files: map<(string, Variable), seq<Record>>, i: nat, v: Variable, month: int)
    requires store.cities == MexicanStations && i < |MexicanStations|
    requires store.data == Loaded(map[], MexicanStations, files)
    ensures
      var st := MexicanStations[i];
      store.HistoricalData(st.lat, st.lon, v, month)
      == if (st.key, v) !in files then (None, Some(st.name))
         else if 1 <= month <= 12 then (Some(MonthValues(DropMissing(Convert(v, files[(st.key, v)])), month)), Some(st.name))
         else (None, Some(st.name))
  {
    var st := MexicanStations[i];
    StationResolvesToItself(i);
    LoadedStation(map[], MexicanStations, files, i);
    NameOfStation(MexicanStations, i);
    if (st.key, v) in files {
      TablesOfVariable(st.key, files, AllVariables, v);
    }
  }
}
