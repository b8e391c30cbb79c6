/**
 * Python's `sorted(xs, key=k)` and `sorted(xs, key=k, reverse=True)`: both are
 * stable, so elements with equal keys keep their relative order.  They are
 * modelled as insertion sorts that place a new element before every element
 * with an equal key.
 */
module Sorting {

  ghost predicate SortedAsc<T>(s: seq<T>, key: T -> real)
  {
    forall i, j :: 0 <= i < j < |s| ==> key(s[i]) <= key(s[j])
  }

  ghost predicate SortedDesc<T>(s: seq<T>, key: T -> real)
  {
    forall i, j :: 0 <= i < j < |s| ==> key(s[i]) >= key(s[j])
  }

  /** x comes no later than y when ordered by `major` descending, then `minor` ascending. */
  ghost predicate LexBefore<T>(x: T, y: T, major: T -> real, minor: T -> real)
  {
    major(x) > major(y) || (major(x) == major(y) && minor(x) <= minor(y))
  }

  ghost predicate SortedLex<T>(s: seq<T>, major: T -> real, minor: T -> real)
  {
    forall i, j :: 0 <= i < j < |s| ==> LexBefore(s[i], s[j], major, minor)
  }

  /** Every element of a list is an element of any list with the same multiset. */
  lemma SameElements<T>(a: seq<T>, b: seq<T>, k: nat)
    requires multiset(a) == multiset(b) && k < |a|
    ensures a[k] in b
  {
    assert a[k] in multiset(a);
  }

  /** An element at two positions of a list occurs at least twice in its multiset. */
  lemma Twice<T>(s: seq<T>, i: nat, j: nat)
    requires i < j < |s| && s[i] == s[j]
    ensures multiset(s)[s[i]] >= 2
  {
    assert s == s[..i] + [s[i]] + s[i + 1..j] + [s[j]] + s[j + 1..];
  }

  ghost predicate Distinct<T>(s: seq<T>)
  {
    forall i, j :: 0 <= i < j < |s| ==> s[i] != s[j]
  }

  /** A list without repetitions holds every element at most once. */
  lemma {:induction false} DistinctOnce<T>(s: seq<T>)
    requires Distinct(s)
    ensures forall x :: multiset(s)[x] <= 1
  {
    if s != [] {
      var init := s[..|s| - 1];
      DistinctOnce(init);
      assert s == init + [s[|s| - 1]];
      assert s[|s| - 1] !in init;
    }
  }

  /** Reordering a list without repetitions gives a list without repetitions. */
  lemma PermutationKeepsDistinct<T>(a: seq<T>, b: seq<T>)
    requires Distinct(a) && multiset(a) == multiset(b)
    ensures Distinct(b)
  {
    DistinctOnce(a);
    forall i, j | 0 <= i < j < |b|
      ensures b[i] != b[j]
    {
      if b[i] == b[j] {
        Twice(b, i, j);
        assert false;
      }
    }
  }

  /**
   * A list stays ascending when an element no larger than all of it is put in
   * front; in an ascending list the first element bounds all the others.
   */
  lemma ConsAsc<T>(x: T, s: seq<T>, key: T -> real)
    ensures SortedAsc(s, key) && (forall k :: 0 <= k < |s| ==> key(x) <= key(s[k])) ==> SortedAsc([x] + s, key)
    ensures SortedAsc(s, key) && s != [] ==> forall k :: 0 <= k < |s| ==> key(s[0]) <= key(s[k])
  {
  }

  /** The same for descending lists. */
  lemma ConsDesc<T>(x: T, s: seq<T>, key: T -> real)
    ensures SortedDesc(s, key) && (forall k :: 0 <= k < |s| ==> key(x) >= key(s[k])) ==> SortedDesc([x] + s, key)
    ensures SortedDesc(s, key) && s != [] ==> forall k :: 0 <= k < |s| ==> key(s[0]) >= key(s[k])
  {
  }

  /** A lower bound of x and of every element of s bounds every element of a permutation of s + [x]. */
  lemma LowerBoundKept<T>(b: real, rest: seq<T>, s: seq<T>, x: T, key: T -> real)
    requires multiset(rest) == multiset(s) + multiset{x}
    ensures b <= key(x) && (forall k :: 0 <= k < |s| ==> b <= key(s[k])) ==>
      forall k :: 0 <= k < |rest| ==> b <= key(rest[k])
  {
    forall k | 0 <= k < |rest| {
      SameElements(rest, s + [x], k);
    }
  }

  /** An upper bound of x and of every element of s bounds every element of a permutation of s + [x]. */
  lemma UpperBoundKept<T>(b: real, rest: seq<T>, s: seq<T>, x: T, key: T -> real)
    requires multiset(rest) == multiset(s) + multiset{x}
    ensures b >= key(x) && (forall k :: 0 <= k < |s| ==> b >= key(s[k])) ==>
      forall k :: 0 <= k < |rest| ==> b >= key(rest[k])
  {
    forall k | 0 <= k < |rest| {
      SameElements(rest, s + [x], k);
    }
  }

  function InsertAsc<T>(x: T, s: seq<T>, key: T -> real): (r: seq<T>)
    ensures multiset(r) == multiset(s) + multiset{x}
    ensures SortedAsc(s, key) ==> SortedAsc(r, key)
  {
    if s == [] || key(x) <= key(s[0]) then
      ConsAsc(x, s, key);
      [x] + s
    else
      var rest := InsertAsc(x, s[1..], key);
      assert s == [s[0]] + s[1..];
      ConsAsc(s[0], s[1..], key);
      LowerBoundKept(key(s[0]), rest, s[1..], x, key);
      ConsAsc(s[0], rest, key);
      [s[0]] + rest
  }

  /** sorted(s, key=key): a stable ascending sort. */
  function SortAsc<T>(s: seq<T>, key: T -> real): (r: seq<T>)
    ensures multiset(r) == multiset(s)
    ensures SortedAsc(r, key)
  {
    if s == [] then []
    else
      assert s == [s[0]] + s[1..];
      InsertAsc(s[0], SortAsc(s[1..], key), key)
  }

  function InsertDesc<T>(x: T, s: seq<T>, key: T -> real): (r: seq<T>)
    ensures multiset(r) == multiset(s) + multiset{x}
    ensures SortedDesc(s, key) ==> SortedDesc(r, key)
  {
    if s == [] || key(x) >= key(s[0]) then
      ConsDesc(x, s, key);
      [x] + s
    else
      var rest := InsertDesc(x, s[1..], key);
      assert s == [s[0]] + s[1..];
      ConsDesc(s[0], s[1..], key);
      UpperBoundKept(key(s[0]), rest, s[1..], x, key);
      ConsDesc(s[0], rest, key);
      [s[0]] + rest
  }

  /** sorted(s, key=key, reverse=True): a stable descending sort. */
  function SortDesc<T>(s: seq<T>, key: T -> real): (r: seq<T>)
    ensures multiset(r) == multiset(s)
    ensures SortedDesc(r, key)
  {
    if s == [] then []
    else
      assert s == [s[0]] + s[1..];
      InsertDesc(s[0], SortDesc(s[1..], key), key)
  }

  /**
   * Inserting x into a lexicographically sorted list, when no element of the
   * list has a smaller minor key than x, keeps the list lexicographically sorted.
   */
  lemma {:induction false} InsertDescKeepsLex<T>(x: T, s: seq<T>, major: T -> real, minor: T -> real)
    requires SortedLex(s, major, minor)
    requires forall k :: 0 <= k < |s| ==> minor(x) <= minor(s[k])
    ensures SortedLex(InsertDesc(x, s, major), major, minor)
  {
    var r := InsertDesc(x, s, major);
    if s == [] || major(x) >= major(s[0]) {
      assert r == [x] + s;
      if s != [] {
        assert LexBefore(x, s[0], major, minor);
        forall j | 0 < j < |s|
          ensures LexBefore(x, s[j], major, minor)
        {
          assert LexBefore(s[0], s[j], major, minor);
        }
      }
    } else {
      var rest := InsertDesc(x, s[1..], major);
      assert r == [s[0]] + rest;
      InsertDescKeepsLex(x, s[1..], major, minor);
      forall j | 0 <= j < |rest|
        ensures LexBefore(s[0], rest[j], major, minor)
      {
        assert rest[j] in multiset(s[1..]) + multiset{x};
        if rest[j] != x {
          assert rest[j] in s[1..];
          var k :| 0 <= k < |s[1..]| && s[1..][k] == rest[j];
          assert LexBefore(s[0], s[k + 1], major, minor);
        }
      }
    }
  }

  /**
   * The two-pass idiom: first sort ascending by `minor`, then stably sort
   * descending by `major`.  The result is ordered by `major` descending with
   * ties broken by `minor` ascending.
   */
  lemma {:induction false} DescAfterAscIsLex<T>(s: seq<T>, major: T -> real, minor: T -> real)
    requires SortedAsc(s, minor)
    ensures SortedLex(SortDesc(s, major), major, minor)
  {
    if s != [] {
      var rest := SortDesc(s[1..], major);
      DescAfterAscIsLex(s[1..], major, minor);
      forall k | 0 <= k < |rest|
        ensures minor(s[0]) <= minor(rest[k])
      {
        assert rest[k] in multiset(s[1..]);
        assert rest[k] in s[1..];
      }
      InsertDescKeepsLex(s[0], rest, major, minor);
    }
  }

  /** The final order of the two-pass idiom, for any input. */
  lemma TwoPassSortIsLex<T>(s: seq<T>, major: T -> real, minor: T -> real)
    ensures SortedLex(SortDesc(SortAsc(s, minor), major), major, minor)
    ensures multiset(SortDesc(SortAsc(s, minor), major)) == multiset(s)
  {
    DescAfterAscIsLex(SortAsc(s, minor), major, minor);
  }
}
