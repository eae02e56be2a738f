/**
 * `List.sort` with a comparator that orders by a key, largest first.
 * Modelled as a stable insertion sort: the result is a permutation of the
 * input, ordered by non-increasing key, and elements with equal keys keep
 * their input order.
 */
module Sorting {

  predicate SortedDesc<T>(s: seq<T>, key: T -> real) {
    forall i, j :: 0 <= i < j < |s| ==> key(s[i]) >= key(s[j])
  }

  /** Inserts `x` before the first element whose key is not larger than its own. */
  function Insert<T>(x: T, s: seq<T>, key: T -> real): (r: seq<T>)
    ensures multiset(r) == multiset{x} + multiset(s)
    ensures |r| == |s| + 1
  {
    if s == [] || key(s[0]) <= key(x) then
      [x] + s
    else
      assert s == [s[0]] + s[1..];
      [s[0]] + Insert(x, s[1..], key)
  }

  /** Every key of `r` is at most `b` when `r` holds `x` and the elements of `t`, all with keys at most `b`. */
  lemma BoundedByParts<T>(r: seq<T>, x: T, t: seq<T>, key: T -> real, b: real)
    requires multiset(r) == multiset{x} + multiset(t)
    requires key(x) <= b
    requires forall j | 0 <= j < |t| :: key(t[j]) <= b
    ensures forall k | 0 <= k < |r| :: key(r[k]) <= b
  {
    forall k | 0 <= k < |r|
      ensures key(r[k]) <= b
    {
      assert r[k] in multiset(r);
      if r[k] != x {
        assert r[k] in multiset(t);
        var j :| 0 <= j < |t| && t[j] == r[k];
      }
    }
  }

  lemma {:induction false} InsertSorted<T>(x: T, s: seq<T>, key: T -> real)
    requires SortedDesc(s, key)
    ensures SortedDesc(Insert(x, s, key), key)
  {
    if s == [] || key(s[0]) <= key(x) {
    } else {
      var tail := s[1..];
      var rest := Insert(x, tail, key);
      assert SortedDesc(tail, key) by {
        forall i, j | 0 <= i < j < |tail|
          ensures key(tail[i]) >= key(tail[j])
        {
          assert tail[i] == s[i + 1] && tail[j] == s[j + 1];
        }
      }
      InsertSorted(x, tail, key);
      assert forall j | 0 <= j < |tail| :: key(tail[j]) <= key(s[0]) by {
        forall j | 0 <= j < |tail|
          ensures key(tail[j]) <= key(s[0])
        {
          assert tail[j] == s[j + 1];
        }
      }
      BoundedByParts(rest, x, tail, key, key(s[0]));
      var r := Insert(x, s, key);
      assert r == [s[0]] + rest;
      forall i, j | 0 <= i < j < |r|
        ensures key(r[i]) >= key(r[j])
      {
        if i == 0 {
          assert r[j] == rest[j - 1];
        } else {
          assert r[i] == rest[i - 1] && r[j] == rest[j - 1];
        }
      }
    }
  }

  /** The list sorted by `key`, non-increasing. */
  function SortDesc<T>(s: seq<T>, key: T -> real): (r: seq<T>)
    ensures multiset(r) == multiset(s)
    ensures |r| == |s|
    ensures SortedDesc(r, key)
  {
    if s == [] then []
    else
      assert s == [s[0]] + s[1..];
      InsertSorted(s[0], SortDesc(s[1..], key), key);
      Insert(s[0], SortDesc(s[1..], key), key)
  }

  /** The elements of `s` whose key is `v`, in order. */
  function WithKey<T>(s: seq<T>, key: T -> real, v: real): seq<T> {
    if s == [] then [] else (if key(s[0]) == v then [s[0]] else []) + WithKey(s[1..], key, v)
  }

  /** Inserting `x` puts it ahead of every element with the same key. */
  lemma {:induction false} InsertWithKey<T>(x: T, r: seq<T>, key: T -> real, v: real)
    ensures WithKey(Insert(x, r, key), key, v) == (if key(x) == v then [x] else []) + WithKey(r, key, v)
  {
    if r == [] || key(r[0]) <= key(x) {
      assert ([x] + r)[1..] == r;
    } else {
      InsertWithKey(x, r[1..], key, v);
      assert ([r[0]] + Insert(x, r[1..], key))[1..] == Insert(x, r[1..], key);
    }
  }

  /** The sort is stable: the elements of each key appear in their input order. */
  lemma {:induction false} SortDescStable<T>(s: seq<T>, key: T -> real, v: real)
    ensures WithKey(SortDesc(s, key), key, v) == WithKey(s, key, v)
  {
    if s != [] {
      SortDescStable(s[1..], key, v);
      InsertWithKey(s[0], SortDesc(s[1..], key), key, v);
    }
  }
}
