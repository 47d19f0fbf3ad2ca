/**
 * How both destination finders score one station against one climate condition: each
 * constrained variable whose month bucket holds values gets the share of years meeting its
 * constraint, and the station's overall score is the mean of those shares.
 */
module Evaluation {
  import opened Wrappers
  import opened Numerics
  import opened Series
  import opened Stations
  import opened Conditions
  import opened Probability
  import StationStore

  /**
   * The enhanced finder reports every share in percent. The strict finder reports `less` and
   * `greater` shares as plain fractions and only `between` in percent.
   */
  datatype Variant = PercentShares | FractionShares

  function Scale(variant: Variant, op: Op): real
  {
    if variant.FractionShares? && !op.Between? then 1.0 else 100.0
  }

  /**
   * The share of years meeting a constraint, scaled as the variant reports it. `less` and
   * `greater` go through the store's probability primitive; `between` counts inclusively.
   */
  function VariableProbability(variant: Variant, values: seq<real>, op: Op): (p: real)
    requires |values| > 0
    ensures p == Scale(variant, op) * Fraction(values, OpTest(op))
    ensures 0.0 <= p <= Scale(variant, op) <= 100.0
  {
    match op
    case Less(max) =>
      ProbabilityIsShare(values, max, "less");
      var share := CalculateProbability(Some(values), max, "less");
      if variant.PercentShares? then share * 100.0 else share
    case Greater(min) =>
      ProbabilityIsShare(values, min, "greater");
      var share := CalculateProbability(Some(values), min, "greater");
      if variant.PercentShares? then share * 100.0 else share
    case Between(lo, hi) =>
      Count(values, Within(lo, hi)) as real / |values| as real * 100.0
  }

  /** A constraint the station could be scored on. */
  datatype Resolved = Resolved(variable: Variable, average: real, probability: real)

  /** The values a constraint is scored on: the month bucket found at the station's own coordinates. */
  function ValuesFor(store: StationStore.Store, st: Station, c: Constraint, month: int): Option<seq<real>>
    reads store
  {
    store.HistoricalData(st.lat, st.lon, c.variable, month).0
  }

  /** A constraint resolves when its bucket exists and is not empty. */
  predicate Resolves(store: StationStore.Store, st: Station, c: Constraint, month: int)
    reads store
  {
    ValuesFor(store, st, c, month).Some? && |ValuesFor(store, st, c, month).value| > 0
  }

  /** The entry a resolving constraint contributes: its variable, rounded average and share. */
  function Entry(store: StationStore.Store, st: Station, c: Constraint, month: int, variant: Variant)
    : (r: seq<Resolved>)
    reads store
    ensures |r| <= 1 && (r != [] <==> Resolves(store, st, c, month))
    ensures r != [] ==> 0.0 <= r[0].probability <= 100.0 && r[0].variable == c.variable
  {
    if !Resolves(store, st, c, month) then []
    else
      var values := ValuesFor(store, st, c, month).value;
      [Resolved(c.variable, Round1(Mean(values)), VariableProbability(variant, values, c.op))]
  }

  /** The entries of the first n constraints, in order. */
  function ResolveUpTo(store: StationStore.Store, st: Station, cs: seq<Constraint>, n: nat, month: int,
                       variant: Variant): (r: seq<Resolved>)
    requires n <= |cs|
    reads store
    ensures |r| <= n
    ensures forall i :: 0 <= i < |r| ==> 0.0 <= r[i].probability <= 100.0
    ensures r == [] <==> forall i :: 0 <= i < n ==> !Resolves(store, st, cs[i], month)
  {
    if n == 0 then []
    else ResolveUpTo(store, st, cs, n - 1, month, variant) + Entry(store, st, cs[n - 1], month, variant)
  }

  /** The entries of n constraints are those of the first n - 1 and then the last one's. */
  lemma ResolveUpToStep(store: StationStore.Store, st: Station, cs: seq<Constraint>, n: nat, month: int,
                        variant: Variant)
    requires 0 < n <= |cs|
    ensures ResolveUpTo(store, st, cs, n, month, variant)
            == ResolveUpTo(store, st, cs, n - 1, month, variant) + Entry(store, st, cs[n - 1], month, variant)
  {
  }

  /** The constraints that resolve, in order, with the rounded average and the share of each. */
  function ResolveAll(store: StationStore.Store, st: Station, cs: seq<Constraint>, month: int,
                      variant: Variant): (r: seq<Resolved>)
    reads store
    ensures |r| <= |cs|
    ensures forall i :: 0 <= i < |r| ==> 0.0 <= r[i].probability <= 100.0
    ensures r == [] <==> forall i :: 0 <= i < |cs| ==> !Resolves(store, st, cs[i], month)
  {
    ResolveUpTo(store, st, cs, |cs|, month, variant)
  }

  /** The unrounded shares, in order. */
  function Shares(rs: seq<Resolved>): (p: seq<real>)
    ensures |p| == |rs|
    ensures forall i :: 0 <= i < |rs| ==> p[i] == rs[i].probability
  {
    seq(|rs|, i requires 0 <= i < |rs| => rs[i].probability)
  }

  /** The variables of the entries. */
  function VariablesOf(rs: seq<Resolved>): (vs: set<Variable>)
    ensures forall i :: 0 <= i < |rs| ==> rs[i].variable in vs
    ensures forall v :: v in vs ==> exists i :: 0 <= i < |rs| && rs[i].variable == v
  {
    if rs == [] then {}
    else
      var init := rs[..|rs| - 1];
      assert forall i :: 0 <= i < |init| ==> init[i] == rs[i];
      VariablesOf(init) + {rs[|rs| - 1].variable}
  }

  /** Variable -> share with one decimal; a later entry for the same variable wins. */
  function ProbabilityMap(rs: seq<Resolved>): (m: map<Variable, real>)
    requires forall i :: 0 <= i < |rs| ==> 0.0 <= rs[i].probability <= 100.0
    ensures m.Keys == VariablesOf(rs)
    ensures forall v :: v in m ==> 0.0 <= m[v] <= 100.0
  {
    if rs == [] then map[]
    else
      var last := rs[|rs| - 1];
      var prev := ProbabilityMap(rs[..|rs| - 1]);
      assert forall i :: 0 <= i < |rs| - 1 ==> rs[..|rs| - 1][i] == rs[i];
      Round1Percent(last.probability);
      prev[last.variable := Round1(last.probability)]
  }

  /** Variable -> rounded average of its values. */
  function AverageMap(rs: seq<Resolved>): (m: map<Variable, real>)
    ensures m.Keys == VariablesOf(rs)
  {
    if rs == [] then map[]
    else
      var last := rs[|rs| - 1];
      assert forall i :: 0 <= i < |rs| - 1 ==> rs[..|rs| - 1][i] == rs[i];
      AverageMap(rs[..|rs| - 1])[last.variable := last.average]
  }

  /** The mean share with one decimal, and 0.0 when nothing resolved. */
  function MeanShare(shares: seq<real>): (r: real)
    requires forall i :: 0 <= i < |shares| ==> 0.0 <= shares[i] <= 100.0
    ensures 0.0 <= r <= 100.0
    ensures shares == [] ==> r == 0.0
    ensures shares != [] ==> Round1(Min(shares)) <= r <= Round1(Max(shares))
  {
    if shares == [] then 0.0
    else
      MeanWithin(shares, 0.0, 100.0);
      Round1Percent(Mean(shares));
      Round1Monotone(Min(shares), Mean(shares));
      Round1Monotone(Mean(shares), Max(shares));
      Round1(Mean(shares))
  }

  /** One more constraint, whose bucket was looked up as `values`, adds its entry at the end. */
  lemma ResolveStep(store: StationStore.Store, st: Station, cs: seq<Constraint>, j: nat, month: int,
                    variant: Variant, values: Option<seq<real>>)
    requires j < |cs| && values == ValuesFor(store, st, cs[j], month)
    ensures Resolves(store, st, cs[j], month) <==> values.Some? && |values.value| > 0
    ensures ResolveUpTo(store, st, cs, j + 1, month, variant)
            == ResolveUpTo(store, st, cs, j, month, variant)
               + (if values.Some? && |values.value| > 0
                  then [Resolved(cs[j].variable, Round1(Mean(values.value)), VariableProbability(variant, values.value, cs[j].op))]
                  else [])
    ensures (exists i :: 0 <= i < j + 1 && !Resolves(store, st, cs[i], month))
            <==> (exists i :: 0 <= i < j && !Resolves(store, st, cs[i], month)) || values.None? || |values.value| == 0
  {
  }

  /** Appending an entry extends the shares and overrides the two maps at its variable. */
  lemma AppendStep(rs: seq<Resolved>, x: Resolved)
    requires forall i :: 0 <= i < |rs| ==> 0.0 <= rs[i].probability <= 100.0
    requires 0.0 <= x.probability <= 100.0
    ensures Shares(rs + [x]) == Shares(rs) + [x.probability]
    ensures ProbabilityMap(rs + [x]) == ProbabilityMap(rs)[x.variable := Round1(x.probability)]
    ensures AverageMap(rs + [x]) == AverageMap(rs)[x.variable := x.average]
  {
    var t := rs + [x];
    assert t[..|t| - 1] == rs && t[|t| - 1] == x;
    SharesAppend(rs, x);
  }

  lemma SharesAppend(rs: seq<Resolved>, x: Resolved)
    ensures Shares(rs + [x]) == Shares(rs) + [x.probability]
  {
    var a, b := Shares(rs + [x]), Shares(rs) + [x.probability];
    assert |a| == |b|;
    forall i | 0 <= i < |a| ensures a[i] == b[i] {
      if i < |rs| {
        assert (rs + [x])[i] == rs[i];
      }
    }
  }

  /** The store lookup of one constraint's bucket. */
  method Lookup(store: StationStore.Store, st: Station, c: Constraint, month: int, day: int)
    returns (values: Option<seq<real>>)
    ensures values == ValuesFor(store, st, c, month)
  {
    var cityName;
    values, cityName := store.GetHistoricalData(st.lat, st.lon, c.variable, month, day);
  }

  /** The state the loop keeps after the first j constraints. */
  ghost predicate LoopState(store: StationStore.Store, st: Station, cs: seq<Constraint>, j: nat, month: int,
                            variant: Variant, shares: seq<real>, probabilities: map<Variable, real>,
                            averages: map<Variable, real>, missing: bool)
    requires j <= |cs|
    reads store
  {
    && shares == Shares(ResolveUpTo(store, st, cs, j, month, variant))
    && probabilities == ProbabilityMap(ResolveUpTo(store, st, cs, j, month, variant))
    && averages == AverageMap(ResolveUpTo(store, st, cs, j, month, variant))
    && (missing <==> exists i :: 0 <= i < j && !Resolves(store, st, cs[i], month))
  }

  /** One iteration of the loop: looks up constraint j and records it when it resolves. */
  method Visit(store: StationStore.Store, st: Station, cs: seq<Constraint>, j: nat, month: int, day: int,
               variant: Variant, shares: seq<real>, probabilities: map<Variable, real>,
               averages: map<Variable, real>, missing: bool)
    returns (shares': seq<real>, probabilities': map<Variable, real>, averages': map<Variable, real>, missing': bool)
    requires j < |cs|
    requires LoopState(store, st, cs, j, month, variant, shares, probabilities, averages, missing)
    ensures LoopState(store, st, cs, j + 1, month, variant, shares', probabilities', averages', missing')
  {
    var c := cs[j];
    var values := Lookup(store, st, c, month, day);
    ResolveStep(store, st, cs, j, month, variant, values);
    ghost var rs := ResolveUpTo(store, st, cs, j, month, variant);
    if values.None? || |values.value| == 0 {
      assert ResolveUpTo(store, st, cs, j + 1, month, variant) == rs;
      return shares, probabilities, averages, true;
    }
    var average := Round1(Mean(values.value));
    var probability := VariableProbability(variant, values.value, c.op);
    ghost var e := Resolved(c.variable, average, probability);
    assert ResolveUpTo(store, st, cs, j + 1, month, variant) == rs + [e];
    AppendStep(rs, e);
    shares' := shares + [probability];
    probabilities' := probabilities[c.variable := Round1(probability)];
    averages' := averages[c.variable := average];
    missing' := missing;
  }

  /**
   * The inner loop of both finders: visits the condition's constraints in order, looks up each
   * bucket, skips the ones without values, and records the share, the rounded share and the
   * rounded average of the rest. `missing` tells whether any constraint was skipped.
   */
  method EvaluateConstraints(store: StationStore.Store, st: Station, cs: seq<Constraint>, month: int, day: int,
                             variant: Variant)
    returns (shares: seq<real>, probabilities: map<Variable, real>, averages: map<Variable, real>, missing: bool)
    ensures shares == Shares(ResolveAll(store, st, cs, month, variant))
    ensures probabilities == ProbabilityMap(ResolveAll(store, st, cs, month, variant))
    ensures averages == AverageMap(ResolveAll(store, st, cs, month, variant))
    ensures missing <==> exists i :: 0 <= i < |cs| && !Resolves(store, st, cs[i], month)
  {
    shares, probabilities, averages, missing := [], map[], map[], false;
    for j := 0 to |cs|
      invariant LoopState(store, st, cs, j, month, variant, shares, probabilities, averages, missing)
    {
      shares, probabilities, averages, missing :=
        Visit(store, st, cs, j, month, day, variant, shares, probabilities, averages, missing);
    }
  }
}
