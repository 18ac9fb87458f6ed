/** A stable sort by a numeric key, the behaviour of Python's `list.sort` (also with
    `reverse=True`, which keeps equal elements in their original order) and, for rows
    with distinct dates, of pandas' `sort_index`. */
module StableSort {

  /** Keys are non-decreasing along `s`. */
  predicate SortedBy<T>(s: seq<T>, key: T -> real) {
    forall i, j :: 0 <= i < j < |s| ==> key(s[i]) <= key(s[j])
  }

  /** The elements of `s` whose key is `k`, in their order in `s`. */
  function WithKey<T>(s: seq<T>, key: T -> real, k: real): seq<T> {
    if s == [] then []
    else WithKey(s[..|s| - 1], key, k) + (if key(s[|s| - 1]) == k then [s[|s| - 1]] else [])
  }

  /** `x` placed after every element of the sorted `s` whose key is not greater than its own. */
  function Insert<T>(s: seq<T>, x: T, key: T -> real): (r: seq<T>)
    ensures multiset(r) == multiset(s) + multiset{x}
  {
    if s == [] || key(s[|s| - 1]) <= key(x) then s + [x]
    else
      var last := s[|s| - 1];
      assert s == s[..|s| - 1] + [last];
      Insert(s[..|s| - 1], x, key) + [last]
  }

  /** Insertion sort, taking the elements of `s` from left to right. */
  function SortBy<T>(s: seq<T>, key: T -> real): seq<T> {
    if s == [] then [] else Insert(SortBy(s[..|s| - 1], key), s[|s| - 1], key)
  }

  /** Every element of `Insert(s, x, key)` is `x` or an element of `s`. */
  lemma InsertElements<T>(s: seq<T>, x: T, key: T -> real, y: T)
    requires y in Insert(s, x, key)
    ensures y == x || y in s
  {
    assert y in multiset(Insert(s, x, key));
  }

  lemma {:induction false} InsertSorted<T>(s: seq<T>, x: T, key: T -> real)
    requires SortedBy(s, key)
    ensures SortedBy(Insert(s, x, key), key)
  {
    if s == [] || key(s[|s| - 1]) <= key(x) {
      assert forall i :: 0 <= i < |s| ==> key(s[i]) <= key(x) by {
        forall i | 0 <= i < |s| ensures key(s[i]) <= key(x) {
          assert key(s[i]) <= key(s[|s| - 1]);
        }
      }
    } else {
      var init := s[..|s| - 1];
      var last := s[|s| - 1];
      assert SortedBy(init, key);
      InsertSorted(init, x, key);
      var r := Insert(init, x, key);
      forall i | 0 <= i < |r| ensures key(r[i]) <= key(last) {
        InsertElements(init, x, key, r[i]);
        if r[i] != x {
          var j :| 0 <= j < |init| && init[j] == r[i];
          assert key(s[j]) <= key(last);
        }
      }
      assert Insert(s, x, key) == r + [last];
    }
  }

  /** `WithKey` of a sequence extended by one element. */
  lemma WithKeySnoc<T>(s: seq<T>, e: T, key: T -> real, k: real)
    ensures WithKey(s + [e], key, k) == WithKey(s, key, k) + (if key(e) == k then [e] else [])
  {
    assert (s + [e])[..|s|] == s;
  }

  /** Two appended pieces commute when one of them is empty. */
  lemma AppendCommutes<T>(w: seq<T>, a: seq<T>, b: seq<T>)
    requires a == [] || b == []
    ensures w + a + b == w + b + a
  {
  }

  lemma {:induction false} InsertWithKey<T>(s: seq<T>, x: T, key: T -> real, k: real)
    requires SortedBy(s, key)
    ensures WithKey(Insert(s, x, key), key, k) == WithKey(s, key, k) + (if key(x) == k then [x] else [])
  {
    if s == [] || key(s[|s| - 1]) <= key(x) {
      WithKeySnoc(s, x, key, k);
    } else {
      var init := s[..|s| - 1];
      var last := s[|s| - 1];
      assert SortedBy(init, key);
      InsertWithKey(init, x, key, k);
      var r := Insert(init, x, key);
      assert Insert(s, x, key) == r + [last];
      assert s == init + [last];
      WithKeySnoc(r, last, key, k);
      WithKeySnoc(init, last, key, k);
      var xs: seq<T> := if key(x) == k then [x] else [];
      var ls: seq<T> := if key(last) == k then [last] else [];
      AppendCommutes(WithKey(init, key, k), xs, ls);
    }
  }

  /** `SortBy` sorts, keeps every element exactly once, and keeps the elements that
      share a key in their original order. */
  lemma {:induction false} SortBySpec<T>(s: seq<T>, key: T -> real)
    ensures |SortBy(s, key)| == |s|
    ensures multiset(SortBy(s, key)) == multiset(s)
    ensures SortedBy(SortBy(s, key), key)
    ensures forall k :: WithKey(SortBy(s, key), key, k) == WithKey(s, key, k)
  {
    if s != [] {
      var init := s[..|s| - 1];
      var last := s[|s| - 1];
      SortBySpec(init, key);
      assert s == init + [last];
      InsertSorted(SortBy(init, key), last, key);
      forall k ensures WithKey(SortBy(s, key), key, k) == WithKey(s, key, k) {
        InsertWithKey(SortBy(init, key), last, key, k);
      }
      assert |SortBy(s, key)| == |multiset(SortBy(s, key))|;
    }
  }
}
