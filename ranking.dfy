/**
 * Python's `list.sort(key=..., reverse=True)`: a stable sort into non-increasing key order.
 * Stability is stated per key: the elements sharing a key keep their input order.
 */
module Ranking {

  predicate SortedDesc<T>(s: seq<T>, key: T -> real)
  {
    forall i, j :: 0 <= i < j < |s| ==> key(s[i]) >= key(s[j])
  }

  /** The elements whose key is k, in their order in s. */
  function KeyClass<T>(s: seq<T>, key: T -> real, k: real): (r: seq<T>)
    ensures |r| <= |s|
  {
    if s == [] then []
    else (if key(s[0]) == k then [s[0]] else []) + KeyClass(s[1..], key, k)
  }

  /** Places x after every element whose key is at least x's, before the first smaller one. */
  function InsertDesc<T>(x: T, t: seq<T>, key: T -> real): (r: seq<T>)
    requires SortedDesc(t, key)
    ensures SortedDesc(r, key)
    ensures multiset(r) == multiset(t) + multiset{x}
    ensures |r| == |t| + 1
    ensures r[0] == x || (t != [] && r[0] == t[0])
  {
    if t == [] then [x]
    else if key(t[0]) < key(x) then
      SortedDescCons(x, t, key);
      [x] + t
    else
      assert t == [t[0]] + t[1..];
      SortedDescTail(t, key);
      var rest := InsertDesc(x, t[1..], key);
      SortedDescCons(t[0], rest, key);
      assert multiset([t[0]] + rest) == multiset{t[0]} + multiset(rest);
      [t[0]] + rest
  }

  lemma SortedDescCons<T>(a: T, r: seq<T>, key: T -> real)
    requires SortedDesc(r, key) && (r != [] ==> key(a) >= key(r[0]))
    ensures SortedDesc([a] + r, key)
  {
    var q := [a] + r;
    forall i, j | 0 <= i < j < |q| ensures key(q[i]) >= key(q[j]) {
      if i > 0 {
        assert q[i] == r[i - 1] && q[j] == r[j - 1];
      } else {
        assert q[j] == r[j - 1] && key(r[0]) >= key(r[j - 1]);
      }
    }
  }

  /** The stable descending sort: each element is inserted after the equal ones before it. */
  function SortDesc<T>(s: seq<T>, key: T -> real): (r: seq<T>)
    ensures SortedDesc(r, key)
    ensures multiset(r) == multiset(s)
    ensures |r| == |s|
  {
    if s == [] then []
    else
      var init := s[..|s| - 1];
      assert s == init + [s[|s| - 1]];
      InsertDesc(s[|s| - 1], SortDesc(init, key), key)
  }

  lemma SortedDescTail<T>(t: seq<T>, key: T -> real)
    requires SortedDesc(t, key) && t != []
    ensures SortedDesc(t[1..], key)
  {
    var tail := t[1..];
    forall i, j | 0 <= i < j < |tail| ensures key(tail[i]) >= key(tail[j]) {
      assert tail[i] == t[i + 1] && tail[j] == t[j + 1];
    }
  }

  lemma KeyClassCons<T>(a: T, u: seq<T>, key: T -> real, k: real)
    ensures KeyClass([a] + u, key, k) == (if key(a) == k then [a] else []) + KeyClass(u, key, k)
  {
    assert ([a] + u)[0] == a && ([a] + u)[1..] == u;
  }

  /** In a non-increasing sequence that starts below k, nothing has key k. */
  lemma {:induction false} NoClassBelowHead<T>(t: seq<T>, key: T -> real, k: real)
    requires SortedDesc(t, key) && t != [] && key(t[0]) < k
    ensures KeyClass(t, key, k) == []
  {
    if |t| > 1 {
      assert key(t[1]) <= key(t[0]);
      SortedDescTail(t, key);
      NoClassBelowHead(t[1..], key, k);
    }
  }

  /** Inserting x adds it at the end of its own key class and leaves the other classes alone. */
  lemma {:induction false} InsertDescClass<T>(x: T, t: seq<T>, key: T -> real, k: real)
    requires SortedDesc(t, key)
    ensures KeyClass(InsertDesc(x, t, key), key, k)
            == KeyClass(t, key, k) + (if key(x) == k then [x] else [])
  {
    if t == [] {
      KeyClassCons(x, [], key, k);
      assert [x] + [] == [x];
    } else if key(t[0]) < key(x) {
      InsertInFront(x, t, key, k);
    } else {
      SortedDescTail(t, key);
      InsertDescClass(x, t[1..], key, k);
      InsertBehindHead(x, t, key, k);
    }
  }

  lemma InsertInFront<T>(x: T, t: seq<T>, key: T -> real, k: real)
    requires SortedDesc(t, key) && t != [] && key(t[0]) < key(x)
    ensures KeyClass(InsertDesc(x, t, key), key, k)
            == KeyClass(t, key, k) + (if key(x) == k then [x] else [])
  {
    assert InsertDesc(x, t, key) == [x] + t;
    KeyClassCons(x, t, key, k);
    if key(x) == k {
      NoClassBelowHead(t, key, k);
    }
  }

  lemma InsertBehindHead<T>(x: T, t: seq<T>, key: T -> real, k: real)
    requires SortedDesc(t, key) && t != [] && key(t[0]) >= key(x)
    requires SortedDesc(t[1..], key)
    requires KeyClass(InsertDesc(x, t[1..], key), key, k)
             == KeyClass(t[1..], key, k) + (if key(x) == k then [x] else [])
    ensures KeyClass(InsertDesc(x, t, key), key, k)
            == KeyClass(t, key, k) + (if key(x) == k then [x] else [])
  {
    var tail := t[1..];
    var rest := InsertDesc(x, tail, key);
    var r := InsertDesc(x, t, key);
    var h: seq<T> := if key(t[0]) == k then [t[0]] else [];
    var o: seq<T> := if key(x) == k then [x] else [];
    assert r == [t[0]] + rest;
    assert r[0] == t[0] && r[1..] == rest;
    assert KeyClass(r, key, k) == h + KeyClass(rest, key, k);
    assert KeyClass(t, key, k) == h + KeyClass(tail, key, k);
    ConcatAssoc(h, KeyClass(tail, key, k), o);
  }

  lemma ConcatAssoc<T>(a: seq<T>, b: seq<T>, c: seq<T>)
    ensures a + (b + c) == (a + b) + c
  {
  }

  lemma {:induction false} KeyClassAppend<T>(a: seq<T>, x: T, key: T -> real, k: real)
    ensures KeyClass(a + [x], key, k) == KeyClass(a, key, k) + (if key(x) == k then [x] else [])
  {
    if a == [] {
      KeyClassCons(x, [], key, k);
      assert [x] + [] == [x];
    } else {
      var h: seq<T> := if key(a[0]) == k then [a[0]] else [];
      var o: seq<T> := if key(x) == k then [x] else [];
      assert a + [x] == [a[0]] + (a[1..] + [x]);
      assert [a[0]] + a[1..] == a;
      KeyClassAppend(a[1..], x, key, k);
      KeyClassCons(a[0], a[1..] + [x], key, k);
      KeyClassCons(a[0], a[1..], key, k);
      ConcatAssoc(h, KeyClass(a[1..], key, k), o);
    }
  }

  /** Stability: sorting keeps the order of the elements within every key class. */
  lemma {:induction false} SortDescStable<T>(s: seq<T>, key: T -> real, k: real)
    ensures KeyClass(SortDesc(s, key), key, k) == KeyClass(s, key, k)
  {
    if s != [] {
      var init, x := s[..|s| - 1], s[|s| - 1];
      assert s == init + [x];
      SortDescStable(init, key, k);
      InsertDescClass(x, SortDesc(init, key), key, k);
      KeyClassAppend(init, x, key, k);
    }
  }

  /** The `>= min_probability` filter applied before the sort: the elements reaching the minimum, in order. */
  function KeepAtLeast<T>(rs: seq<T>, key: T -> real, minimum: real): (r: seq<T>)
    ensures |r| <= |rs|
    ensures forall k :: 0 <= k < |r| ==> key(r[k]) >= minimum
  {
    if rs == [] then []
    else
      var prev := KeepAtLeast(rs[..|rs| - 1], key, minimum);
      if key(rs[|rs| - 1]) >= minimum then prev + [rs[|rs| - 1]] else prev
  }

  /** The filter keeps exactly the elements that reach the minimum. */
  lemma {:induction false} KeepAtLeastMembers<T>(rs: seq<T>, key: T -> real, minimum: real, x: T)
    ensures x in KeepAtLeast(rs, key, minimum) <==> x in rs && key(x) >= minimum
  {
    if rs != [] {
      var init := rs[..|rs| - 1];
      KeepAtLeastMembers(init, key, minimum, x);
      assert rs == init + [rs[|rs| - 1]];
    }
  }

  /** One more element is appended when it reaches the minimum. */
  lemma KeepAtLeastStep<T>(rs: seq<T>, key: T -> real, i: nat, minimum: real)
    requires i < |rs|
    ensures KeepAtLeast(rs[..i + 1], key, minimum)
            == KeepAtLeast(rs[..i], key, minimum) + (if key(rs[i]) >= minimum then [rs[i]] else [])
  {
    assert rs[..i + 1][..i] == rs[..i];
  }
}
