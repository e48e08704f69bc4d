/**
 * A stable sort by a real-valued key, the behaviour of Python's `list.sort(key=...)`
 * used for nearest-zone, nearby-level and trade-history ordering.
 */
module Sorting {

  predicate SortedBy<T>(key: T -> real, s: seq<T>)
  {
    forall i, j :: 0 <= i < j < |s| ==> key(s[i]) <= key(s[j])
  }

  /** Insert `x` after every element whose key is at most its own (so equal keys keep arrival order). */
  function Insert<T>(key: T -> real, xs: seq<T>, x: T): (r: seq<T>)
    ensures |r| == |xs| + 1
    ensures multiset(r) == multiset(xs) + multiset{x}
    decreases |xs|
  {
    if xs == [] || key(xs[|xs| - 1]) <= key(x) then xs + [x]
    else
      assert xs == xs[..|xs| - 1] + [xs[|xs| - 1]];
      Insert(key, xs[..|xs| - 1], x) + [xs[|xs| - 1]]
  }

  /** Stable insertion sort, inserting the elements in input order. */
  function SortByKey<T>(key: T -> real, s: seq<T>): (r: seq<T>)
    ensures |r| == |s|
    ensures multiset(r) == multiset(s)
    decreases |s|
  {
    if s == [] then []
    else
      assert s == s[..|s| - 1] + [s[|s| - 1]];
      Insert(key, SortByKey(key, s[..|s| - 1]), s[|s| - 1])
  }

  lemma {:induction false} InsertSorted<T>(key: T -> real, xs: seq<T>, x: T)
    requires SortedBy(key, xs)
    ensures SortedBy(key, Insert(key, xs, x))
    decreases |xs|
  {
    if xs != [] && key(xs[|xs| - 1]) > key(x) {
      var init, last := xs[..|xs| - 1], xs[|xs| - 1];
      InsertSorted(key, init, x);
      var r' := Insert(key, init, x);
      forall i | 0 <= i < |r'| ensures key(r'[i]) <= key(last) {
        assert r'[i] in multiset(r');
        assert r'[i] in multiset(init) || r'[i] == x;
        if r'[i] != x {
          assert r'[i] in init;
          var k :| 0 <= k < |init| && init[k] == r'[i];
          assert xs[k] == init[k];
        }
      }
      var r := r' + [last];
      forall i, j | 0 <= i < j < |r| ensures key(r[i]) <= key(r[j]) {
        if j == |r'| { assert r[i] == r'[i]; } else { assert r[i] == r'[i] && r[j] == r'[j]; }
      }
    } else if xs != [] {
      var r := xs + [x];
      forall i, j | 0 <= i < j < |r| ensures key(r[i]) <= key(r[j]) {
        if j == |xs| { assert r[i] == xs[i]; } else { assert r[i] == xs[i] && r[j] == xs[j]; }
      }
    }
  }

  /** The stable sort orders its output by key. */
  lemma {:induction false} SortByKeySorted<T>(key: T -> real, s: seq<T>)
    ensures SortedBy(key, SortByKey(key, s))
    decreases |s|
  {
    if s != [] {
      SortByKeySorted(key, s[..|s| - 1]);
      InsertSorted(key, SortByKey(key, s[..|s| - 1]), s[|s| - 1]);
    }
  }

  /** The head after inserting into a sorted list: `x` only if it is strictly smaller than the old head. */
  lemma {:induction false} InsertHead<T>(key: T -> real, xs: seq<T>, x: T)
    requires SortedBy(key, xs)
    ensures Insert(key, xs, x)[0] == if xs == [] || key(x) < key(xs[0]) then x else xs[0]
    decreases |xs|
  {
    if xs != [] && key(xs[|xs| - 1]) > key(x) {
      var init := xs[..|xs| - 1];
      if init != [] {
        InsertHead(key, init, x);
        assert init[0] == xs[0];
      }
    }
  }
}
