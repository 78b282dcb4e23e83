/**
 * JavaScript's `Array.prototype.sort` is stable. Every sort in the front end
 * compares by one integer field (`a.position - b.position`, `b.count - a.count`),
 * so it is modelled once: a stable insertion sort ascending by an integer key.
 * A descending sort uses the negated field as its key.
 */
module StableSort {

  /** Non-decreasing by `key`. */
  predicate SortedBy<T>(s: seq<T>, key: T -> int) {
    forall i, j :: 0 <= i < j < |s| ==> key(s[i]) <= key(s[j])
  }

  /** The elements whose key is `k`, in their order in `s`. */
  function WithKey<T>(s: seq<T>, key: T -> int, k: int): seq<T> {
    if s == [] then [] else (if key(s[0]) == k then [s[0]] else []) + WithKey(s[1..], key, k)
  }

  /** Puts `x` in front of the first element whose key is at least its own. */
  function Insert<T>(x: T, s: seq<T>, key: T -> int): seq<T> {
    if s == [] then [x]
    else if key(x) <= key(s[0]) then [x] + s
    else [s[0]] + Insert(x, s[1..], key)
  }

  function SortBy<T>(s: seq<T>, key: T -> int): seq<T> {
    if s == [] then [] else Insert(s[0], SortBy(s[1..], key), key)
  }

  function Map<T, U>(f: T -> U, s: seq<T>): (r: seq<U>)
    ensures |r| == |s| && forall i :: 0 <= i < |s| ==> r[i] == f(s[i])
  {
    if s == [] then [] else [f(s[0])] + Map(f, s[1..])
  }

  lemma {:induction false} InsertPermutes<T>(x: T, s: seq<T>, key: T -> int)
    ensures multiset(Insert(x, s, key)) == multiset(s) + multiset{x}
  {
    if s != [] && key(x) > key(s[0]) {
      InsertPermutes(x, s[1..], key);
      assert s == [s[0]] + s[1..];
    }
  }

  lemma {:induction false} InsertSorted<T>(x: T, s: seq<T>, key: T -> int)
    requires SortedBy(s, key)
    ensures SortedBy(Insert(x, s, key), key)
  {
    if s != [] && key(x) > key(s[0]) {
      var r := Insert(x, s[1..], key);
      InsertSorted(x, s[1..], key);
      InsertPermutes(x, s[1..], key);
      forall j | 0 <= j < |r|
        ensures key(s[0]) <= key(r[j])
      {
        assert r[j] in multiset(s[1..]) + multiset{x};
        if r[j] != x {
          var i :| 0 <= i < |s[1..]| && s[1..][i] == r[j];
          assert s[i + 1] == r[j];
        }
      }
    }
  }

  /** The sort rearranges its input: it is a permutation. */
  lemma {:induction false} SortByPermutes<T>(s: seq<T>, key: T -> int)
    ensures multiset(SortBy(s, key)) == multiset(s)
  {
    if s != [] {
      SortByPermutes(s[1..], key);
      InsertPermutes(s[0], SortBy(s[1..], key), key);
      assert s == [s[0]] + s[1..];
    }
  }

  lemma {:induction false} SortBySorted<T>(s: seq<T>, key: T -> int)
    ensures SortedBy(SortBy(s, key), key)
  {
    if s != [] {
      SortBySorted(s[1..], key);
      InsertSorted(s[0], SortBy(s[1..], key), key);
    }
  }

  lemma WithKeyCons<T>(x: T, s: seq<T>, key: T -> int, k: int)
    ensures WithKey([x] + s, key, k) == (if key(x) == k then [x] else []) + WithKey(s, key, k)
  {
    assert ([x] + s)[1..] == s;
  }

  lemma {:induction false} InsertStable<T>(x: T, s: seq<T>, key: T -> int, k: int)
    ensures WithKey(Insert(x, s, key), key, k) == (if key(x) == k then [x] else []) + WithKey(s, key, k)
  {
    if s == [] {
      WithKeyCons(x, [], key, k);
    } else if key(x) <= key(s[0]) {
      WithKeyCons(x, s, key, k);
    } else {
      var y, rest := s[0], s[1..];
      var here := if key(x) == k then [x] else [];
      var mid := if key(y) == k then [y] else [];
      calc {
        WithKey(Insert(x, s, key), key, k);
        { assert Insert(x, s, key) == [y] + Insert(x, rest, key); }
        WithKey([y] + Insert(x, rest, key), key, k);
        { WithKeyCons(y, Insert(x, rest, key), key, k); }
        mid + WithKey(Insert(x, rest, key), key, k);
        { InsertStable(x, rest, key, k); }
        mid + (here + WithKey(rest, key, k));
        { assert key(x) == k ==> key(y) != k; }
        here + (mid + WithKey(rest, key, k));
        { WithKeyCons(y, rest, key, k); assert [y] + rest == s; }
        here + WithKey(s, key, k);
      }
    }
  }

  /** Stability: elements with equal keys keep their relative order. */
  lemma {:induction false} SortByStable<T>(s: seq<T>, key: T -> int, k: int)
    ensures WithKey(SortBy(s, key), key, k) == WithKey(s, key, k)
  {
    if s != [] {
      SortByStable(s[1..], key, k);
      InsertStable(s[0], SortBy(s[1..], key), key, k);
    }
  }

  /** Sorting an already sorted sequence changes nothing; hence sorting is idempotent. */
  lemma {:induction false} SortBySortedIsIdentity<T>(s: seq<T>, key: T -> int)
    requires SortedBy(s, key)
    ensures SortBy(s, key) == s
  {
    if s != [] {
      assert SortedBy(s[1..], key) by {
        forall i, j | 0 <= i < j < |s[1..]| ensures key(s[1..][i]) <= key(s[1..][j]) {
          assert s[1..][i] == s[i + 1] && s[1..][j] == s[j + 1];
        }
      }
      SortBySortedIsIdentity(s[1..], key);
      if |s| > 1 {
        assert key(s[0]) <= key(s[1]);
      }
      assert [s[0]] + s[1..] == s;
    }
  }

  /** `SortBy(SortBy(s))` is `SortBy(s)`. */
  lemma SortByIdempotent<T>(s: seq<T>, key: T -> int)
    ensures SortBy(SortBy(s, key), key) == SortBy(s, key)
  {
    SortBySorted(s, key);
    SortBySortedIsIdentity(SortBy(s, key), key);
  }

  lemma {:induction false} InsertMap<T, U>(f: T -> U, x: T, s: seq<T>, key: T -> int, key': U -> int)
    requires forall y :: key'(f(y)) == key(y)
    ensures Insert(f(x), Map(f, s), key') == Map(f, Insert(x, s, key))
  {
    if s != [] {
      assert Map(f, s)[0] == f(s[0]);
      assert Map(f, s)[1..] == Map(f, s[1..]);
      if key(x) > key(s[0]) {
        InsertMap(f, x, s[1..], key, key');
        assert Map(f, [s[0]] + Insert(x, s[1..], key)) == [f(s[0])] + Map(f, Insert(x, s[1..], key));
      } else {
        assert Map(f, [x] + s) == [f(x)] + Map(f, s);
      }
    }
  }

  /**
   * A map that keeps every key commutes with the sort: transforming the
   * elements before or after sorting gives the same sequence.
   */
  lemma {:induction false} SortByMap<T, U>(f: T -> U, s: seq<T>, key: T -> int, key': U -> int)
    requires forall y :: key'(f(y)) == key(y)
    ensures SortBy(Map(f, s), key') == Map(f, SortBy(s, key))
  {
    if s != [] {
      assert Map(f, s)[0] == f(s[0]);
      assert Map(f, s)[1..] == Map(f, s[1..]);
      SortByMap(f, s[1..], key, key');
      InsertMap(f, s[0], SortBy(s[1..], key), key, key');
    }
  }
}
