/**
 * The two LINQ selections the colour mapper relies on, written out:
 * `OrderBy` (a stable sort by a key), `Take` and `MinBy` (the first element
 * with the least key, scanning left to right).
 */
module Ranking {

  /** Keys never decrease along `s`. */
  predicate SortedBy<T>(s: seq<T>, key: T -> int) {
    forall i, j :: 0 <= i < j < |s| ==> key(s[i]) <= key(s[j])
  }

  /** Inserts `x` before the first element whose key is not smaller, so `x` stays ahead of its equals. */
  function InsertBy<T>(x: T, s: seq<T>, key: T -> int): (r: seq<T>)
    ensures |r| == |s| + 1
    ensures multiset(r) == multiset(s) + multiset{x}
  {
    if s == [] then [x]
    else if key(x) <= key(s[0]) then [x] + s
    else
      assert s == [s[0]] + s[1..];
      [s[0]] + InsertBy(x, s[1..], key)
  }

  /** `s.OrderBy(key)`: a stable sort (elements with equal keys keep their order). */
  function SortBy<T>(s: seq<T>, key: T -> int): (r: seq<T>)
    ensures |r| == |s|
    ensures multiset(r) == multiset(s)
  {
    if s == [] then []
    else
      assert s == [s[0]] + s[1..];
      InsertBy(s[0], SortBy(s[1..], key), key)
  }

  /** `s.Take(n)`: the first `n` elements, all of them when there are fewer, none when `n <= 0`. */
  function Take<T>(s: seq<T>, n: int): (r: seq<T>)
    ensures |r| == if n <= 0 then 0 else if n < |s| then n else |s|
    ensures r == s[..|r|]
  {
    if n <= 0 then [] else if n < |s| then s[..n] else s
  }

  /** `i` is the position `MinBy` settles on: a least key, and no earlier element has that key. */
  predicate IsFirstMin<T>(s: seq<T>, key: T -> int, i: int) {
    0 <= i < |s|
    && (forall j :: 0 <= j < |s| ==> key(s[i]) <= key(s[j]))
    && (forall j :: 0 <= j < i ==> key(s[i]) < key(s[j]))
  }

  /** `s.MinBy(key)` as an index: scans left to right and moves only on a strictly smaller key. */
  function FirstMinIndex<T>(s: seq<T>, key: T -> int): (i: nat)
    requires |s| > 0
    ensures IsFirstMin(s, key, i)
  {
    if |s| == 1 then 0
    else
      var j := FirstMinIndex(s[..|s| - 1], key);
      if key(s[|s| - 1]) < key(s[j]) then |s| - 1 else j
  }

  lemma FirstMinUnique<T>(s: seq<T>, key: T -> int, i: int, k: int)
    requires IsFirstMin(s, key, i) && IsFirstMin(s, key, k)
    ensures i == k
  {
    // both are minima, so their keys agree; a strict gap before either one rules out the other
    assert key(s[i]) == key(s[k]);
  }

  /** A key bound that holds for every element of `s` holds for every member of `multiset(s)`. */
  lemma MemberKeyBound<T>(s: seq<T>, key: T -> int, lo: int, y: T)
    requires forall j :: 0 <= j < |s| ==> lo <= key(s[j])
    requires y in multiset(s)
    ensures lo <= key(y)
  {
    assert y in s;
    var j :| 0 <= j < |s| && s[j] == y;
  }

  lemma SortedCons<T>(h: T, rest: seq<T>, key: T -> int)
    requires SortedBy(rest, key)
    requires forall k :: 0 <= k < |rest| ==> key(h) <= key(rest[k])
    ensures SortedBy([h] + rest, key)
  {
    var s := [h] + rest;
    forall i, j | 0 <= i < j < |s|
      ensures key(s[i]) <= key(s[j])
    {
      if i > 0 {
        assert s[i] == rest[i - 1] && s[j] == rest[j - 1];
      } else {
        assert s[j] == rest[j - 1];
      }
    }
  }

  lemma {:induction false} InsertByKeepsSorted<T>(x: T, s: seq<T>, key: T -> int)
    requires SortedBy(s, key)
    ensures SortedBy(InsertBy(x, s, key), key)
  {
    if s == [] {
    } else if key(x) <= key(s[0]) {
      forall k | 0 <= k < |s|
        ensures key(x) <= key(s[k])
      {
        assert key(s[0]) <= key(s[k]);
      }
      SortedCons(x, s, key);
    } else {
      var tail := s[1..];
      var rest := InsertBy(x, tail, key);
      assert SortedBy(tail, key) by {
        forall i, j | 0 <= i < j < |tail|
          ensures key(tail[i]) <= key(tail[j])
        {
          assert tail[i] == s[i + 1] && tail[j] == s[j + 1];
        }
      }
      InsertByKeepsSorted(x, tail, key);
      forall j | 0 <= j < |tail|
        ensures key(s[0]) <= key(tail[j])
      {
        assert tail[j] == s[j + 1];
      }
      forall k | 0 <= k < |rest|
        ensures key(s[0]) <= key(rest[k])
      {
        assert rest[k] in multiset(rest);
        if rest[k] != x {
          assert rest[k] in multiset(tail);
          MemberKeyBound(tail, key, key(s[0]), rest[k]);
        }
      }
      SortedCons(s[0], rest, key);
    }
  }

  /** `OrderBy` yields keys in non-decreasing order. */
  lemma {:induction false} SortByIsSorted<T>(s: seq<T>, key: T -> int)
    ensures SortedBy(SortBy(s, key), key)
  {
    if s != [] {
      SortByIsSorted(s[1..], key);
      InsertByKeepsSorted(s[0], SortBy(s[1..], key), key);
    }
  }

  /**
   * The first element of `OrderBy` is the element `MinBy` picks: both
   * resolve ties in favour of the earliest element.
   */
  lemma {:induction false} SortByHeadIsFirstMin<T>(s: seq<T>, key: T -> int, i: int)
    requires IsFirstMin(s, key, i)
    ensures |SortBy(s, key)| == |s| && SortBy(s, key)[0] == s[i]
  {
    var rest := SortBy(s[1..], key);
    if |s| == 1 {
      assert rest == [];
    } else if i == 0 {
      assert rest[0] in multiset(s[1..]);
      var j :| 0 <= j < |s[1..]| && s[1..][j] == rest[0];
      assert key(s[0]) <= key(s[j + 1]);
    } else {
      assert IsFirstMin(s[1..], key, i - 1) by {
        forall j | 0 <= j < |s[1..]|
          ensures key(s[1..][i - 1]) <= key(s[1..][j])
        {
          assert s[1..][j] == s[j + 1];
        }
      }
      SortByHeadIsFirstMin(s[1..], key, i - 1);
      assert key(s[0]) > key(s[i]);
    }
  }

  /** The first `Take(OrderBy(s), n)` is the first minimum of `s`. */
  lemma TakeSortedHead<T>(s: seq<T>, key: T -> int, n: int)
    requires |s| > 0 && n >= 1
    ensures var r := Take(SortBy(s, key), n); |r| >= 1 && r[0] == s[FirstMinIndex(s, key)]
  {
    SortByHeadIsFirstMin(s, key, FirstMinIndex(s, key));
  }

  /**
   * `Take(OrderBy(s), n)` keeps the elements with the smallest keys: each
   * element left out has a key no smaller than every element kept.
   */
  lemma TakeSortedIsSmallest<T>(s: seq<T>, key: T -> int, n: int)
    ensures var r := Take(SortBy(s, key), n);
      multiset(r) <= multiset(s)
      && forall i, x :: 0 <= i < |r| && x in multiset(s) - multiset(r) ==> key(r[i]) <= key(x)
  {
    var sorted := SortBy(s, key);
    var r := Take(sorted, n);
    var rest := sorted[|r|..];
    assert sorted == r + rest;
    assert multiset(sorted) == multiset(r) + multiset(rest);
    SortByIsSorted(s, key);
    forall i, x | 0 <= i < |r| && x in multiset(s) - multiset(r)
      ensures key(r[i]) <= key(x)
    {
      assert x in multiset(rest);
      var j :| 0 <= j < |rest| && rest[j] == x;
      assert sorted[|r| + j] == x;
    }
  }
}
