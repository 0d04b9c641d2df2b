/** Sorting a sequence of records by one key, ascending or descending, the way
    the store's `simplesort` and the array sort with a `firstBy` comparator
    order their input: the result is ordered by the key, holds exactly the
    input's elements, and keeps records with equal keys in their input order. */
module Sorting {
  import opened Values
  import opened Order

  /** Every element precedes every later one by key in the given direction. */
  ghost predicate SortedBy<T>(s: seq<T>, key: T -> Option<Scalar>, descending: bool) {
    forall i, j :: 0 <= i < j < |s| ==> Precedes(key(s[i]), key(s[j]), descending)
  }

  /** `[x]` if the key of `x` is `k`, else the empty sequence. */
  function KeyedUnit<T>(x: T, key: T -> Option<Scalar>, k: Option<Scalar>): seq<T> {
    if key(x) == k then [x] else []
  }

  /** The elements of `s` whose key is `k`, in their order in `s`. */
  function WithKey<T>(s: seq<T>, key: T -> Option<Scalar>, k: Option<Scalar>): seq<T>
  {
    if s == [] then []
    else KeyedUnit(s[0], key, k) + WithKey(s[1..], key, k)
  }

  lemma {:induction false} SortedByTail<T>(s: seq<T>, key: T -> Option<Scalar>, descending: bool)
    requires SortedBy(s, key, descending) && s != []
    ensures SortedBy(s[1..], key, descending)
  {
  }

  /** `x` placed into a sequence before the first element it may precede. */
  function Insert<T>(x: T, s: seq<T>, key: T -> Option<Scalar>, descending: bool): (r: seq<T>)
    ensures multiset(r) == multiset(s) + multiset{x}
    decreases |s|
  {
    if s == [] then [x]
    else if Precedes(key(x), key(s[0]), descending) then [x] + s
    else
      assert s == [s[0]] + s[1..];
      [s[0]] + Insert(x, s[1..], key, descending)
  }

  lemma {:induction false} InsertSorted<T>(x: T, s: seq<T>, key: T -> Option<Scalar>, descending: bool)
    requires SortedBy(s, key, descending)
    ensures SortedBy(Insert(x, s, key, descending), key, descending)
    decreases |s|
  {
    if s == [] {
    } else if Precedes(key(x), key(s[0]), descending) {
      forall j | 1 <= j < |s| ensures Precedes(key(x), key(s[j]), descending) {
        PrecedesTransitive(key(x), key(s[0]), key(s[j]), descending);
      }
    } else {
      PrecedesTotal(key(x), key(s[0]), descending);
      SortedByTail(s, key, descending);
      InsertSorted(x, s[1..], key, descending);
      InsertPastSorted(x, s, Insert(x, s[1..], key, descending), key, descending);
    }
  }

  /** The step of InsertSorted where `x` goes past the head of `s`. */
  lemma InsertPastSorted<T>(x: T, s: seq<T>, rest: seq<T>, key: T -> Option<Scalar>, descending: bool)
    requires s != [] && SortedBy(s, key, descending) && Precedes(key(s[0]), key(x), descending)
    requires SortedBy(rest, key, descending) && multiset(rest) == multiset(s[1..]) + multiset{x}
    ensures SortedBy([s[0]] + rest, key, descending)
  {
    var r := [s[0]] + rest;
    forall j | 1 <= j < |r| ensures Precedes(key(r[0]), key(r[j]), descending) {
      assert r[j] == rest[j - 1];
      assert r[j] in multiset(rest);
      if r[j] != x {
        assert r[j] in multiset(s[1..]);
        var m :| 0 <= m < |s[1..]| && s[1..][m] == r[j];
        assert s[m + 1] == r[j];
      }
    }
  }

  lemma WithKeyCons<T>(a: T, t: seq<T>, key: T -> Option<Scalar>, k: Option<Scalar>)
    ensures WithKey([a] + t, key, k) == KeyedUnit(a, key, k) + WithKey(t, key, k)
  {
    assert ([a] + t)[1..] == t;
  }

  lemma {:induction false} InsertWithKey<T>(x: T, s: seq<T>, key: T -> Option<Scalar>, descending: bool, k: Option<Scalar>)
    ensures WithKey(Insert(x, s, key, descending), key, k) == KeyedUnit(x, key, k) + WithKey(s, key, k)
    decreases |s|
  {
    if s == [] {
      WithKeyCons(x, [], key, k);
    } else if Precedes(key(x), key(s[0]), descending) {
      WithKeyCons(x, s, key, k);
    } else {
      InsertWithKey(x, s[1..], key, descending, k);
      PrecedesReflexive(key(x), descending);
      InsertPastHead(x, s, Insert(x, s[1..], key, descending), key, k);
    }
  }

  /** The step of InsertWithKey where `x` goes past the head of `s`, whose
      key differs from that of `x`. */
  lemma InsertPastHead<T>(x: T, s: seq<T>, rest: seq<T>, key: T -> Option<Scalar>, k: Option<Scalar>)
    requires s != [] && key(x) != key(s[0])
    requires WithKey(rest, key, k) == KeyedUnit(x, key, k) + WithKey(s[1..], key, k)
    ensures WithKey([s[0]] + rest, key, k) == KeyedUnit(x, key, k) + WithKey(s, key, k)
  {
    var ux, uh, tail := KeyedUnit(x, key, k), KeyedUnit(s[0], key, k), WithKey(s[1..], key, k);
    WithKeyCons(s[0], rest, key, k);
    assert WithKey(s, key, k) == uh + tail;
    if key(x) == k {
      assert uh == [] && uh + (ux + tail) == ux + tail;
      assert uh + tail == tail;
    } else {
      assert ux == [] && ux + (uh + tail) == uh + tail;
      assert ux + tail == tail;
    }
  }

  /** The sort: insertion sort, which is stable. */
  function Sort<T>(s: seq<T>, key: T -> Option<Scalar>, descending: bool): (r: seq<T>)
    ensures SortedBy(r, key, descending)
    ensures multiset(r) == multiset(s)
    ensures forall k :: WithKey(r, key, k) == WithKey(s, key, k)
    decreases |s|
  {
    if s == [] then []
    else
      assert s == [s[0]] + s[1..];
      var rest := Sort(s[1..], key, descending);
      InsertSorted(s[0], rest, key, descending);
      assert forall k :: WithKey(Insert(s[0], rest, key, descending), key, k) == WithKey(s, key, k) by {
        forall k ensures WithKey(Insert(s[0], rest, key, descending), key, k) == WithKey(s, key, k) {
          InsertWithKey(s[0], rest, key, descending, k);
        }
      }
      Insert(s[0], rest, key, descending)
  }
}
