// The row-selection machinery the graph queries share: WHERE as an order-preserving
// filter, ORDER BY ... DESC as a stable sort on a three-part key, and LIMIT as a
// prefix. Ties keep the order in which the candidates were enumerated (node
// creation order), which makes every query a function of the graph.

module Ranking {

  /** A sort key `(major, middle, minor)`, compared lexicographically. */
  datatype Rank = Rank(major: int, middle: int, minor: int)

  /** `x` sorts at or before `y` under ORDER BY ... DESC on every component. */
  predicate AtLeast(x: Rank, y: Rank)
  {
    x.major > y.major
    || (x.major == y.major && (x.middle > y.middle || (x.middle == y.middle && x.minor >= y.minor)))
  }

  /**
   * A nullable integer property as a DESC sort key. Neo4j orders null above
   * every value, so under DESC the nodes without the property come first.
   */
  function NullsFirst(present: bool, value: int): (r: (int, int))
    ensures !present ==> r.0 > 0
    ensures present ==> r == (0, value)
  {
    if present then (0, value) else (1, 0)
  }

  predicate Distinct<T(==)>(s: seq<T>)
  {
    forall i, j :: 0 <= i < j < |s| ==> s[i] != s[j]
  }

  predicate SortedBy<T>(s: seq<T>, key: T -> Rank)
  {
    forall i, j :: 0 <= i < j < |s| ==> AtLeast(key(s[i]), key(s[j]))
  }

  /** `x` ranks at or below every element of `s`. */
  predicate Dominated<T>(x: T, s: seq<T>, key: T -> Rank)
  {
    forall i :: 0 <= i < |s| ==> AtLeast(key(s[i]), key(x))
  }

  /** WHERE: the elements of `s` satisfying `keep`, in their original order. */
  function Filter<T(==,!new)>(s: seq<T>, keep: T -> bool): (r: seq<T>)
    ensures forall x :: x in r <==> x in s && keep(x)
    ensures |r| <= |s|
    ensures Distinct(s) ==> Distinct(r)
  {
    if s == [] then []
    else
      var rest := Filter(s[1..], keep);
      assert forall x :: x in s[1..] ==> x in s;
      if keep(s[0]) then
        assert Distinct(s) ==> s[0] !in s[1..];
        [s[0]] + rest
      else rest
  }

  /** Filtering leaves nothing exactly when no element is kept. */
  lemma FilterEmpty<T(!new)>(s: seq<T>, keep: T -> bool)
    ensures Filter(s, keep) == [] <==> forall x :: x in s ==> !keep(x)
  {
    var r := Filter(s, keep);
    if r != [] {
      assert r[0] in r;
    }
  }

  /** Places `x` before the first element it ranks at or above. */
  function Insert<T(==,!new)>(x: T, s: seq<T>, key: T -> Rank): (r: seq<T>)
    requires SortedBy(s, key)
    ensures multiset(r) == multiset(s) + multiset{x}
    ensures |r| == |s| + 1
    ensures SortedBy(r, key)
    ensures Distinct(s) && x !in s ==> Distinct(r)
  {
    if s == [] then [x]
    else if AtLeast(key(x), key(s[0])) then
      assert forall j :: 0 <= j < |s| ==> AtLeast(key(x), key(s[j]));
      [x] + s
    else
      var rest := Insert(x, s[1..], key);
      InsertBehind(x, s, rest, key);
      [s[0]] + rest
  }

  /** The step of Insert that keeps the head of `s` in front. */
  lemma InsertBehind<T(!new)>(x: T, s: seq<T>, rest: seq<T>, key: T -> Rank)
    requires s != [] && SortedBy(s, key) && !AtLeast(key(x), key(s[0]))
    requires multiset(rest) == multiset(s[1..]) + multiset{x} && SortedBy(rest, key)
    requires Distinct(s[1..]) && x !in s[1..] ==> Distinct(rest)
    ensures multiset([s[0]] + rest) == multiset(s) + multiset{x}
    ensures SortedBy([s[0]] + rest, key)
    ensures Distinct(s) && x !in s ==> Distinct([s[0]] + rest)
  {
    assert s == [s[0]] + s[1..];
    assert forall y :: y in rest ==> y == x || y in s[1..] by {
      forall y | y in rest ensures y == x || y in s[1..] {
        assert y in multiset(rest);
      }
    }
    forall j | 0 <= j < |rest|
      ensures AtLeast(key(s[0]), key(rest[j]))
    {
      assert rest[j] in rest;
      if rest[j] != x {
        var k :| 0 < k < |s| && s[k] == rest[j];
      }
    }
    var r := [s[0]] + rest;
    forall i, j | 0 <= i < j < |r| ensures AtLeast(key(r[i]), key(r[j])) {
      if i > 0 { assert r[i] == rest[i-1] && r[j] == rest[j-1]; }
    }
    if Distinct(s) && x !in s {
      assert s[0] !in rest;
      forall i, j | 0 <= i < j < |r| ensures r[i] != r[j] {
        if i > 0 { assert r[i] == rest[i-1] && r[j] == rest[j-1]; }
        else { assert r[j] in rest; }
      }
    }
  }

  /** ORDER BY key DESC as a stable insertion sort. */
  function SortDesc<T(==,!new)>(s: seq<T>, key: T -> Rank): (r: seq<T>)
    ensures multiset(r) == multiset(s)
    ensures |r| == |s|
    ensures SortedBy(r, key)
    ensures Distinct(s) ==> Distinct(r)
  {
    if s == [] then []
    else
      var rest := SortDesc(s[1..], key);
      SortStep(s, rest);
      Insert(s[0], rest, key)
  }

  /** The step of SortDesc: the head goes into the sorted tail, where a distinct head is not yet present. */
  lemma SortStep<T>(s: seq<T>, rest: seq<T>)
    requires s != [] && multiset(rest) == multiset(s[1..])
    ensures multiset(rest) + multiset{s[0]} == multiset(s)
    ensures Distinct(s) ==> s[0] !in rest
  {
    assert s == [s[0]] + s[1..];
    if Distinct(s) {
      forall k | 0 <= k < |s| - 1
        ensures s[1..][k] != s[0]
      {
        assert s[1..][k] == s[k + 1];
      }
      assert s[0] !in multiset(rest);
    }
  }

  /** Every element past position `n` of a sorted sequence ranks at or below the first `n`. */
  lemma SortedSplit<T>(sorted: seq<T>, n: nat, key: T -> Rank)
    requires SortedBy(sorted, key) && n <= |sorted|
    ensures forall k :: n <= k < |sorted| ==> Dominated(sorted[k], sorted[..n], key)
  {
  }

  /**
   * ORDER BY key DESC LIMIT limit over the candidate rows `s`: at most `limit`
   * rows, drawn from `s`, sorted, and no candidate left out ranks above one kept.
   */
  function Top<T(==,!new)>(s: seq<T>, key: T -> Rank, limit: nat): (r: seq<T>)
    ensures |r| == if limit < |s| then limit else |s|
    ensures multiset(r) <= multiset(s)
    ensures forall x :: x in r ==> x in s
    ensures SortedBy(r, key)
    ensures forall x :: x in s && x !in r ==> Dominated(x, r, key)
    ensures Distinct(s) ==> Distinct(r)
    ensures limit >= |s| ==> multiset(r) == multiset(s)
  {
    var sorted := SortDesc(s, key);
    var n := if limit < |s| then limit else |s|;
    TopFacts(s, sorted, n, key);
    sorted[..n]
  }

  lemma TopFacts<T(!new)>(s: seq<T>, sorted: seq<T>, n: nat, key: T -> Rank)
    requires multiset(sorted) == multiset(s) && SortedBy(sorted, key) && n <= |sorted|
    ensures multiset(sorted[..n]) <= multiset(s)
    ensures forall x :: x in sorted[..n] ==> x in s
    ensures forall x :: x in s && x !in sorted[..n] ==> Dominated(x, sorted[..n], key)
    ensures n == |s| ==> multiset(sorted[..n]) == multiset(s)
  {
    var r := sorted[..n];
    assert sorted == r + sorted[n..];
    assert multiset(sorted) == multiset(r) + multiset(sorted[n..]);
    assert forall x :: x in r ==> x in multiset(s);
    SortedSplit(sorted, n, key);
    forall x | x in s && x !in r
      ensures Dominated(x, r, key)
    {
      assert x in multiset(sorted);
      var k :| 0 <= k < |sorted| && sorted[k] == x;
      assert k >= n;
    }
  }

  /** WHERE keep ORDER BY key DESC LIMIT limit, in the terms the queries state their results in. */
  lemma SelectFacts<T(!new)>(s: seq<T>, keep: T -> bool, key: T -> Rank, limit: nat)
    ensures var r := Top(Filter(s, keep), key, limit);
      && |r| <= limit
      && (forall x :: x in r ==> x in s && keep(x))
      && (Distinct(s) ==> Distinct(r))
      && SortedBy(r, key)
      && (forall x :: x in s && keep(x) && x !in r ==> Dominated(x, r, key))
      && (|r| < limit ==> forall x :: x in s && keep(x) ==> x in r)
  {
    var f := Filter(s, keep);
    var r := Top(f, key, limit);
    if |r| < limit {
      assert multiset(r) == multiset(f);
      forall x | x in s && keep(x) ensures x in r {
        assert x in multiset(f);
      }
    }
  }
}
