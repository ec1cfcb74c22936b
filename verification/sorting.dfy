/** A stable sort by an integer key, the behaviour of JavaScript's
    `Array.prototype.sort` (stable since ES2019) with a numeric comparator.
    Sorting descending by `key` models `(a, b) => key(b) - key(a)`; sorting
    descending by the negated key models `(a, b) => key(a) - key(b)`. */
module Sorting {

  /** Non-increasing by `key`. */
  predicate SortedDesc<T>(s: seq<T>, key: T -> int)
  {
    forall i, j :: 0 <= i < j < |s| ==> key(s[i]) >= key(s[j])
  }

  /** The elements of `s` whose key is `k`, in order. */
  function WithKey<T>(s: seq<T>, key: T -> int, k: int): seq<T>
  {
    if s == [] then []
    else (if key(s[0]) == k then [s[0]] else []) + WithKey(s[1..], key, k)
  }

  /** Inserts `x` in front of the first element whose key is not larger, so
      `x` goes before every element with an equal key. */
  function InsertDesc<T>(x: T, s: seq<T>, key: T -> int): (r: seq<T>)
    ensures |r| == |s| + 1
  {
    if s == [] || key(x) >= key(s[0]) then [x] + s
    else [s[0]] + InsertDesc(x, s[1..], key)
  }

  /** Insertion sort processing the front element last: it is inserted before
      its equals, which all come later in the input, so the sort is stable. */
  function SortDesc<T>(s: seq<T>, key: T -> int): (r: seq<T>)
    ensures |r| == |s|
  {
    if s == [] then [] else InsertDesc(s[0], SortDesc(s[1..], key), key)
  }

  lemma {:induction false} InsertDescSorted<T>(x: T, s: seq<T>, key: T -> int)
    requires SortedDesc(s, key)
    ensures SortedDesc(InsertDesc(x, s, key), key)
    ensures multiset(InsertDesc(x, s, key)) == multiset(s) + multiset{x}
  {
    if s == [] || key(x) >= key(s[0]) {
      ConsSorted(x, s, key);
    } else {
      InsertDescSorted(x, s[1..], key);
      var t := InsertDesc(x, s[1..], key);
      assert InsertDesc(x, s, key) == [s[0]] + t;
      assert s == [s[0]] + s[1..];
      BoundedByMultiset(s[1..], x, t, key, key(s[0]));
      ConsSorted(s[0], t, key);
      calc {
        multiset([s[0]] + t);
        multiset{s[0]} + multiset(t);
        multiset{s[0]} + multiset(s[1..]) + multiset{x};
        multiset(s) + multiset{x};
      }
    }
  }

  /** A head at least as large as every element of a sorted tail keeps it sorted. */
  lemma ConsSorted<T>(h: T, t: seq<T>, key: T -> int)
    requires SortedDesc(t, key) && forall j :: 0 <= j < |t| ==> key(t[j]) <= key(h)
    ensures SortedDesc([h] + t, key)
  {
    var r := [h] + t;
    forall i, j | 0 <= i < j < |r| ensures key(r[i]) >= key(r[j]) {
      assert r[j] == t[j - 1];
      if i > 0 {
        assert r[i] == t[i - 1];
      }
    }
  }

  /** Elements drawn from `s` and `x` keep any upper bound those have. */
  lemma BoundedByMultiset<T>(s: seq<T>, x: T, t: seq<T>, key: T -> int, b: int)
    requires forall i :: 0 <= i < |s| ==> key(s[i]) <= b
    requires key(x) <= b && multiset(t) == multiset(s) + multiset{x}
    ensures forall j :: 0 <= j < |t| ==> key(t[j]) <= b
  {
    forall j | 0 <= j < |t| ensures key(t[j]) <= b {
      assert t[j] in multiset(t);
      if t[j] in multiset(s) {
        var k :| 0 <= k < |s| && s[k] == t[j];
      }
    }
  }

  /** The sort's output is ordered by non-increasing key. */
  lemma {:induction false} SortDescSorted<T>(s: seq<T>, key: T -> int)
    ensures SortedDesc(SortDesc(s, key), key)
    ensures multiset(SortDesc(s, key)) == multiset(s)
  {
    if s != [] {
      SortDescSorted(s[1..], key);
      InsertDescSorted(s[0], SortDesc(s[1..], key), key);
      assert s == [s[0]] + s[1..];
    }
  }

  lemma {:induction false} InsertDescWithKey<T>(x: T, s: seq<T>, key: T -> int, k: int)
    ensures WithKey(InsertDesc(x, s, key), key, k)
         == (if key(x) == k then [x] else []) + WithKey(s, key, k)
  {
    if s == [] || key(x) >= key(s[0]) {
      WithKeyCons(x, s, key, k);
    } else {
      var t := InsertDesc(x, s[1..], key);
      InsertDescWithKey(x, s[1..], key, k);
      WithKeyCons(s[0], t, key, k);
      WithKeyCons(s[0], s[1..], key, k);
      assert [s[0]] + s[1..] == s;
      // x and s[0] have different keys, so at most one of them is kept
      assert key(x) != key(s[0]);
    }
  }

  /** `WithKey` of a sequence with a known head. */
  lemma WithKeyCons<T>(h: T, t: seq<T>, key: T -> int, k: int)
    ensures WithKey([h] + t, key, k) == (if key(h) == k then [h] else []) + WithKey(t, key, k)
  {
    assert ([h] + t)[1..] == t;
  }

  /** Stability: for every key value, the elements carrying it appear in the
      output in the same relative order as in the input. */
  lemma {:induction false} SortDescStable<T>(s: seq<T>, key: T -> int, k: int)
    ensures WithKey(SortDesc(s, key), key, k) == WithKey(s, key, k)
  {
    if s != [] {
      SortDescStable(s[1..], key, k);
      InsertDescWithKey(s[0], SortDesc(s[1..], key), key, k);
    }
  }
}
