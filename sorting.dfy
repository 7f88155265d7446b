/** A stable sort by a real-valued key, the behaviour `Array.prototype.sort`
    guarantees when its comparator is `(a, b) => key(a) - key(b)`. It is
    defined as insertion sort: each element goes before the first element
    whose key is not smaller than its own. */
module Sorting {

  predicate SortedBy<T>(s: seq<T>, key: T -> real) {
    forall i, j :: 0 <= i < j < |s| ==> key(s[i]) <= key(s[j])
  }

  /** The elements of `s` whose key is `k`, in their order in `s`. */
  function WithKey<T>(s: seq<T>, key: T -> real, k: real): seq<T>
  {
    if s == [] then []
    else (if key(s[0]) == k then [s[0]] else []) + WithKey(s[1..], key, k)
  }

  function Insert<T>(x: T, t: seq<T>, key: T -> real): (r: seq<T>)
    ensures multiset(r) == multiset(t) + multiset{x}
    ensures |r| == |t| + 1
  {
    if t == [] || key(x) <= key(t[0]) then [x] + t
    else
      assert t == [t[0]] + t[1..];
      [t[0]] + Insert(x, t[1..], key)
  }

  function SortByKey<T>(s: seq<T>, key: T -> real): (r: seq<T>)
    ensures multiset(r) == multiset(s)
    ensures |r| == |s|
  {
    if s == [] then []
    else
      assert s == [s[0]] + s[1..];
      Insert(s[0], SortByKey(s[1..], key), key)
  }

  /** Every key in `s` is at least `b`. */
  predicate AtLeast<T>(s: seq<T>, key: T -> real, b: real) {
    forall i :: 0 <= i < |s| ==> b <= key(s[i])
  }

  /** Inserting an element whose key is at least `b` keeps every key at
      least `b`. */
  lemma {:induction false} InsertAtLeast<T>(x: T, t: seq<T>, key: T -> real, b: real)
    requires AtLeast(t, key, b) && b <= key(x)
    ensures AtLeast(Insert(x, t, key), key, b)
  {
    if t != [] && key(x) > key(t[0]) {
      InsertAtLeast(x, t[1..], key, b);
      var r := Insert(x, t, key);
      forall i | 0 <= i < |r| ensures b <= key(r[i]) {
        if i > 0 {
          assert r[i] == Insert(x, t[1..], key)[i - 1];
        }
      }
    }
  }

  lemma {:induction false} InsertSorted<T>(x: T, t: seq<T>, key: T -> real)
    requires SortedBy(t, key)
    ensures SortedBy(Insert(x, t, key), key)
  {
    if t != [] && key(x) > key(t[0]) {
      var rest := Insert(x, t[1..], key);
      InsertSorted(x, t[1..], key);
      assert AtLeast(t[1..], key, key(t[0])) by {
        forall i | 0 <= i < |t[1..]| ensures key(t[0]) <= key(t[1..][i]) {
          assert t[1..][i] == t[i + 1];
        }
      }
      InsertAtLeast(x, t[1..], key, key(t[0]));
      var r := [t[0]] + rest;
      forall i, j | 0 <= i < j < |r| ensures key(r[i]) <= key(r[j]) {
        if i == 0 {
          assert r[j] == rest[j - 1];
        } else {
          assert r[i] == rest[i - 1] && r[j] == rest[j - 1];
        }
      }
    }
  }

  /** The result is ordered by key. */
  lemma {:induction false} SortByKeySorted<T>(s: seq<T>, key: T -> real)
    ensures SortedBy(SortByKey(s, key), key)
  {
    if s != [] {
      SortByKeySorted(s[1..], key);
      InsertSorted(s[0], SortByKey(s[1..], key), key);
    }
  }

  lemma {:induction false} InsertWithKey<T>(x: T, t: seq<T>, key: T -> real, k: real)
    ensures WithKey(Insert(x, t, key), key, k) == (if key(x) == k then [x] else []) + WithKey(t, key, k)
  {
    var head: seq<T> := if key(x) == k then [x] else [];
    if t == [] || key(x) <= key(t[0]) {
      var r := [x] + t;
      assert r[1..] == t;
      assert WithKey(r, key, k) == head + WithKey(r[1..], key, k);
    } else {
      var rest := Insert(x, t[1..], key);
      InsertWithKey(x, t[1..], key, k);
      var r := [t[0]] + rest;
      assert r[1..] == rest;
      var first: seq<T> := if key(t[0]) == k then [t[0]] else [];
      assert WithKey(r, key, k) == first + WithKey(rest, key, k);
      assert WithKey(t, key, k) == first + WithKey(t[1..], key, k);
      if key(x) == k {
        assert first == [];
      }
    }
  }

  /** The sort is stable: elements with equal keys keep their relative order. */
  lemma {:induction false} SortByKeyStable<T>(s: seq<T>, key: T -> real, k: real)
    ensures WithKey(SortByKey(s, key), key, k) == WithKey(s, key, k)
  {
    if s != [] {
      SortByKeyStable(s[1..], key, k);
      InsertWithKey(s[0], SortByKey(s[1..], key), key, k);
    }
  }

  /** A list already in key order is left as it is. */
  lemma {:induction false} SortByKeyOfSorted<T>(s: seq<T>, key: T -> real)
    requires SortedBy(s, key)
    ensures SortByKey(s, key) == s
  {
    if s != [] {
      var tail := s[1..];
      assert SortedBy(tail, key) by {
        forall i, j | 0 <= i < j < |tail| ensures key(tail[i]) <= key(tail[j]) {
          assert tail[i] == s[i + 1] && tail[j] == s[j + 1];
        }
      }
      SortByKeyOfSorted(tail, key);
      assert SortByKey(s, key) == Insert(s[0], tail, key);
      if tail != [] {
        assert tail[0] == s[1];
        assert key(s[0]) <= key(tail[0]);
      }
      assert Insert(s[0], tail, key) == [s[0]] + tail;
      assert s == [s[0]] + tail;
    }
  }
}
