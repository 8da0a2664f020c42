/**
 * Python's `sorted(xs, key=k)` on integer keys: a stable sort, modelled as insertion
 * sort. Both tools that sort (the tree formatter by path depth, the discussion
 * formatter by upvotes, reversed) rely on the stability of Python's sort.
 */
module StableSort {

  /** Keys never decrease along `xs`. */
  predicate SortedBy<T>(xs: seq<T>, key: T -> int)
  {
    forall i, j :: 0 <= i < j < |xs| ==> key(xs[i]) <= key(xs[j])
  }

  /** The elements of `xs` whose key is `k`, in their order in `xs`. */
  function WithKey<T>(xs: seq<T>, key: T -> int, k: int): seq<T>
  {
    if xs == [] then []
    else (if key(xs[0]) == k then [xs[0]] else []) + WithKey(xs[1..], key, k)
  }

  /** Puts `x` in front of the first element whose key is not smaller than its own. */
  function Insert<T>(x: T, s: seq<T>, key: T -> int): seq<T>
  {
    if s == [] then [x]
    else if key(x) <= key(s[0]) then [x] + s
    else [s[0]] + Insert(x, s[1..], key)
  }

  /** `sorted(xs, key=key)`. */
  function SortBy<T>(xs: seq<T>, key: T -> int): seq<T>
  {
    if xs == [] then [] else Insert(xs[0], SortBy(xs[1..], key), key)
  }

  lemma {:induction false} InsertMultiset<T>(x: T, s: seq<T>, key: T -> int)
    ensures multiset(Insert(x, s, key)) == multiset(s) + multiset{x}
    ensures |Insert(x, s, key)| == |s| + 1
  {
    if s != [] && key(x) > key(s[0]) {
      InsertMultiset(x, s[1..], key);
      assert s == [s[0]] + s[1..];
    }
  }

  lemma {:induction false} InsertSorted<T>(x: T, s: seq<T>, key: T -> int)
    requires SortedBy(s, key)
    ensures SortedBy(Insert(x, s, key), key)
  {
    if s == [] {
    } else if key(x) <= key(s[0]) {
      assert forall j :: 0 <= j < |s| ==> key(s[0]) <= key(s[j]);
      ConsSorted(x, s, key);
    } else {
      var tail := s[1..];
      TailSorted(s, key);
      InsertSorted(x, tail, key);
      assert forall j :: 0 <= j < |tail| ==> key(s[0]) <= key(tail[j]) by {
        forall j | 0 <= j < |tail| ensures key(s[0]) <= key(tail[j]) {
          assert tail[j] == s[j + 1];
        }
      }
      InsertBound(x, tail, key, key(s[0]));
      ConsSorted(s[0], Insert(x, tail, key), key);
    }
  }

  lemma TailSorted<T>(s: seq<T>, key: T -> int)
    requires s != [] && SortedBy(s, key)
    ensures SortedBy(s[1..], key)
  {
    var tail := s[1..];
    forall i, j | 0 <= i < j < |tail| ensures key(tail[i]) <= key(tail[j]) {
      assert tail[i] == s[i + 1] && tail[j] == s[j + 1];
    }
  }

  /** A bound below `x` and every element of `s` is a bound below every element of the insertion. */
  lemma {:induction false} InsertBound<T>(x: T, s: seq<T>, key: T -> int, b: int)
    requires b <= key(x) && forall j :: 0 <= j < |s| ==> b <= key(s[j])
    ensures forall j :: 0 <= j < |Insert(x, s, key)| ==> b <= key(Insert(x, s, key)[j])
  {
    if s != [] && key(x) > key(s[0]) {
      var tail := s[1..];
      assert forall j :: 0 <= j < |tail| ==> tail[j] == s[j + 1];
      InsertBound(x, tail, key, b);
      var r := Insert(x, tail, key);
      assert forall j :: 1 <= j < |r| + 1 ==> ([s[0]] + r)[j] == r[j - 1];
    }
  }

  /** In a list ordered by key, the first `n` elements have keys no greater than those of the rest. */
  lemma SortedPrefixLeast<T>(s: seq<T>, key: T -> int, n: nat)
    requires SortedBy(s, key) && n <= |s|
    ensures forall x, y :: x in s[..n] && y in s[n..] ==> key(x) <= key(y)
  {
    forall x, y | x in s[..n] && y in s[n..] ensures key(x) <= key(y) {
      var i :| 0 <= i < n && s[..n][i] == x;
      var j :| 0 <= j < |s| - n && s[n..][j] == y;
      assert s[i] == x && s[n + j] == y;
    }
  }

  /** Taking a prefix's elements out of a list leaves those of the rest. */
  lemma MultisetRest<T>(s: seq<T>, n: nat)
    requires n <= |s|
    ensures multiset(s) - multiset(s[..n]) == multiset(s[n..])
  {
    assert s == s[..n] + s[n..];
  }

  /** A sorted list behind an element no greater than any of its own is sorted. */
  lemma ConsSorted<T>(h: T, r: seq<T>, key: T -> int)
    requires SortedBy(r, key) && forall j :: 0 <= j < |r| ==> key(h) <= key(r[j])
    ensures SortedBy([h] + r, key)
  {
    var out := [h] + r;
    forall i, j | 0 <= i < j < |out| ensures key(out[i]) <= key(out[j]) {
      assert out[j] == r[j - 1];
      if i > 0 {
        assert out[i] == r[i - 1];
      }
    }
  }

  /** Inserting `x` into a list changes its key-`k` elements only by putting `x` first. */
  lemma {:induction false} InsertWithKey<T>(x: T, s: seq<T>, key: T -> int, k: int)
    ensures WithKey(Insert(x, s, key), key, k)
         == (if key(x) == k then [x] else []) + WithKey(s, key, k)
  {
    var xk := if key(x) == k then [x] else [];
    if s == [] {
      assert WithKey([x], key, k) == xk + WithKey([], key, k);
    } else if key(x) <= key(s[0]) {
      var out := [x] + s;
      assert out[0] == x && out[1..] == s;
      assert WithKey(out, key, k) == xk + WithKey(s, key, k);
    } else {
      var r := Insert(x, s[1..], key);
      InsertWithKey(x, s[1..], key, k);
      var sk := if key(s[0]) == k then [s[0]] else [];
      var out := [s[0]] + r;
      assert out[0] == s[0] && out[1..] == r;
      assert WithKey(out, key, k) == sk + WithKey(r, key, k);
      assert WithKey(s, key, k) == sk + WithKey(s[1..], key, k);
      assert sk == [] || xk == [];
      assert sk + (xk + WithKey(s[1..], key, k)) == xk + (sk + WithKey(s[1..], key, k));
    }
  }

  /** The result is ordered by key and is a permutation of the input. */
  lemma {:induction false} SortByOrdered<T>(xs: seq<T>, key: T -> int)
    ensures SortedBy(SortBy(xs, key), key)
    ensures multiset(SortBy(xs, key)) == multiset(xs)
    ensures |SortBy(xs, key)| == |xs|
  {
    SortBySorted(xs, key);
    SortByPermutes(xs, key);
  }

  lemma {:induction false} SortBySorted<T>(xs: seq<T>, key: T -> int)
    ensures SortedBy(SortBy(xs, key), key)
  {
    if xs != [] {
      SortBySorted(xs[1..], key);
      InsertSorted(xs[0], SortBy(xs[1..], key), key);
    }
  }

  lemma {:induction false} SortByPermutes<T>(xs: seq<T>, key: T -> int)
    ensures multiset(SortBy(xs, key)) == multiset(xs)
    ensures |SortBy(xs, key)| == |xs|
  {
    if xs != [] {
      SortByPermutes(xs[1..], key);
      InsertMultiset(xs[0], SortBy(xs[1..], key), key);
      assert xs == [xs[0]] + xs[1..];
    }
  }

  /** Stability: for every key, the elements with that key keep their input order. */
  lemma {:induction false} SortByStable<T>(xs: seq<T>, key: T -> int, k: int)
    ensures WithKey(SortBy(xs, key), key, k) == WithKey(xs, key, k)
  {
    if xs != [] {
      SortByStable(xs[1..], key, k);
      InsertWithKey(xs[0], SortBy(xs[1..], key), key, k);
    }
  }
}
