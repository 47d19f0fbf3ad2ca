/**
 * Fixed-threshold classification. Every classifier in the system is an if/elif chain
 * `if x < c0: A elif x < c1: B ... else Z` over ascending cut-offs (or, equivalently, a chain of
 * `x >= c` tests from the top). `BandIndex` is that chain as a number: the label chosen is the
 * one at position `BandIndex(x, cuts)` of the label list.
 */
module Bands {

  /** The position of `x` among the cut-offs: how many leading cut-offs are at most `x`. */
  function BandIndex(x: real, cuts: seq<real>): (k: nat)
    ensures k <= |cuts|
  {
    if cuts == [] || x < cuts[0] then 0 else 1 + BandIndex(x, cuts[1..])
  }

  predicate Ascending(cuts: seq<real>)
  {
    forall i, j :: 0 <= i < j < |cuts| ==> cuts[i] < cuts[j]
  }

  /** A larger value never falls in an earlier band. */
  lemma {:induction false} BandIndexMonotone(x: real, y: real, cuts: seq<real>)
    requires x <= y
    ensures BandIndex(x, cuts) <= BandIndex(y, cuts)
  {
    if cuts != [] && cuts[0] <= x {
      BandIndexMonotone(x, y, cuts[1..]);
    }
  }

  /** With ascending cut-offs, band k holds exactly the values in [cuts[k-1], cuts[k]). */
  lemma {:induction false} BandIndexExact(x: real, cuts: seq<real>, k: nat)
    requires Ascending(cuts) && k <= |cuts|
    ensures BandIndex(x, cuts) == k <==>
              (k == 0 || cuts[k - 1] <= x) && (k == |cuts| || x < cuts[k])
  {
    if cuts != [] && k > 0 {
      BandIndexExact(x, cuts[1..], k - 1);
      if cuts[0] > x {
        assert cuts[0] <= cuts[k - 1];
      }
    } else if cuts != [] && k == 0 {
      if x < cuts[0] {
      } else {
        assert BandIndex(x, cuts) >= 1;
      }
    }
  }
}
