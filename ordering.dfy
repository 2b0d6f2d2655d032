/** Sequence operations behind the queries' `.filter`, `.sort` and `.limit`: an order
    given by a "may come before" relation, an insertion sort proved to produce a sorted
    permutation, an order-preserving filter and a prefix of bounded length. */
module Ordering {

  /** `before(a, b)`: `a` may be listed ahead of `b`. */
  ghost predicate Total<T(!new)>(before: (T, T) -> bool) {
    forall a, b :: before(a, b) || before(b, a)
  }

  ghost predicate Transitive<T(!new)>(before: (T, T) -> bool) {
    forall a, b, c :: before(a, b) && before(b, c) ==> before(a, c)
  }

  ghost predicate SortedBy<T>(s: seq<T>, before: (T, T) -> bool) {
    forall i, j :: 0 <= i < j < |s| ==> before(s[i], s[j])
  }

  /** Inserts `x` ahead of the first element it may precede. */
  function Insert<T(!new)>(x: T, s: seq<T>, before: (T, T) -> bool): (r: seq<T>)
    requires Total(before) && Transitive(before)
    ensures multiset(r) == multiset(s) + multiset{x}
    ensures |r| == |s| + 1
    ensures forall k :: 0 <= k < |r| ==> r[k] == x || r[k] in s
    ensures SortedBy(s, before) ==> SortedBy(r, before)
  {
    if s == [] then [x]
    else if before(x, s[0]) then
      InsertFront(x, s, before);
      [x] + s
    else
      var t := Insert(x, s[1..], before);
      InsertBehind(x, s, t, before);
      [s[0]] + t
  }

  /** `x` goes first when it may precede the head. */
  lemma InsertFront<T(!new)>(x: T, s: seq<T>, before: (T, T) -> bool)
    requires Transitive(before) && s != [] && before(x, s[0])
    ensures multiset([x] + s) == multiset(s) + multiset{x}
    ensures forall k :: 0 <= k < |[x] + s| ==> ([x] + s)[k] == x || ([x] + s)[k] in s
    ensures SortedBy(s, before) ==> SortedBy([x] + s, before)
  {
    if SortedBy(s, before) {
      assert forall k :: 0 <= k < |s| ==> before(x, s[k]);
    }
  }

  /** Otherwise the head stays first and `x` goes into the tail. */
  lemma InsertBehind<T(!new)>(x: T, s: seq<T>, t: seq<T>, before: (T, T) -> bool)
    requires Total(before) && s != [] && !before(x, s[0])
    requires multiset(t) == multiset(s[1..]) + multiset{x}
    requires forall k :: 0 <= k < |t| ==> t[k] == x || t[k] in s[1..]
    requires SortedBy(s[1..], before) ==> SortedBy(t, before)
    ensures multiset([s[0]] + t) == multiset(s) + multiset{x}
    ensures forall k :: 0 <= k < |[s[0]] + t| ==> ([s[0]] + t)[k] == x || ([s[0]] + t)[k] in s
    ensures SortedBy(s, before) ==> SortedBy([s[0]] + t, before)
  {
    assert s == [s[0]] + s[1..];
    if SortedBy(s, before) {
      assert forall k :: 0 <= k < |t| ==> before(s[0], t[k]);
    }
  }

  /** Insertion sort: a permutation of `s` in which every element may come before
      every later one. */
  function Sort<T(!new)>(s: seq<T>, before: (T, T) -> bool): (r: seq<T>)
    requires Total(before) && Transitive(before)
    ensures multiset(r) == multiset(s)
    ensures |r| == |s|
    ensures SortedBy(r, before)
  {
    if s == [] then []
    else
      assert s == [s[0]] + s[1..];
      Insert(s[0], Sort(s[1..], before), before)
  }

  /** The elements of `s` satisfying `p`, in their original order. */
  function Filter<T>(s: seq<T>, p: T -> bool): (r: seq<T>)
    ensures |r| <= |s|
    ensures forall k :: 0 <= k < |r| ==> p(r[k]) && r[k] in s
    ensures forall x :: x in s && p(x) ==> x in r
    ensures multiset(r) <= multiset(s)
  {
    if s == [] then []
    else
      var rest := Filter(s[1..], p);
      FilterStep(s, p, rest);
      if p(s[0]) then [s[0]] + rest else rest
  }

  /** The head is kept in front of the filtered tail exactly when it satisfies `p`. */
  lemma FilterStep<T>(s: seq<T>, p: T -> bool, rest: seq<T>)
    requires s != []
    requires |rest| <= |s[1..]|
    requires forall k :: 0 <= k < |rest| ==> p(rest[k]) && rest[k] in s[1..]
    requires forall x :: x in s[1..] && p(x) ==> x in rest
    requires multiset(rest) <= multiset(s[1..])
    ensures var r := if p(s[0]) then [s[0]] + rest else rest;
      && |r| <= |s|
      && (forall k :: 0 <= k < |r| ==> p(r[k]) && r[k] in s)
      && (forall x :: x in s && p(x) ==> x in r)
      && multiset(r) <= multiset(s)
  {
    assert s == [s[0]] + s[1..];
  }

  /** Filtering keeps exactly the satisfying occurrences. */
  lemma {:induction false} FilterCount<T>(s: seq<T>, p: T -> bool, x: T)
    ensures multiset(Filter(s, p))[x] == if p(x) then multiset(s)[x] else 0
  {
    if s != [] {
      assert s == [s[0]] + s[1..];
      FilterCount(s[1..], p, x);
    }
  }

  /** `.limit(n)`: the first `n` elements, or all of them when there are fewer. */
  function Take<T>(s: seq<T>, n: nat): (r: seq<T>)
    ensures |r| == if |s| < n then |s| else n
    ensures r == s[..|r|]
  {
    if |s| <= n then s else s[..n]
  }

  /** A prefix of a sorted sequence is sorted. */
  lemma TakeSorted<T>(s: seq<T>, n: nat, before: (T, T) -> bool)
    requires SortedBy(s, before)
    ensures SortedBy(Take(s, n), before)
  {
  }

  /** `.sort(...).limit(n)` leaves nothing better out: the result is a sub-multiset of
      `s`, all of `s` when it is shorter than `n`, and otherwise every element that
      may not follow the last one listed is listed. */
  lemma TopBest<T(!new)>(s: seq<T>, before: (T, T) -> bool, n: nat)
    requires Total(before) && Transitive(before)
    ensures var r := Take(Sort(s, before), n);
      && multiset(r) <= multiset(s)
      && (|r| < n ==> multiset(r) == multiset(s))
      && (|r| == n > 0 ==> forall x :: x in s && !before(r[n - 1], x) ==> x in r)
  {
    var sorted := Sort(s, before);
    var r := Take(sorted, n);
    TakeSubMultiset(sorted, n);
    if |r| == n > 0 {
      forall x | x in s && !before(r[n - 1], x)
        ensures x in r
      {
        assert x in multiset(sorted);
        SortedPrefixHolds(sorted, n, before, x);
      }
    }
  }

  /** A prefix holds part of the sequence, and all of it when it is shorter than asked. */
  lemma TakeSubMultiset<T>(s: seq<T>, n: nat)
    ensures multiset(Take(s, n)) <= multiset(s)
    ensures |Take(s, n)| < n ==> multiset(Take(s, n)) == multiset(s)
  {
    var r := Take(s, n);
    assert s == r + s[|r|..];
    assert multiset(s) == multiset(r) + multiset(s[|r|..]);
  }

  /** In a sorted sequence, an element that may not follow the `n`-th one is among
      the first `n`. */
  lemma SortedPrefixHolds<T>(s: seq<T>, n: nat, before: (T, T) -> bool, x: T)
    requires SortedBy(s, before) && 0 < n <= |s| && x in s && !before(s[n - 1], x)
    ensures x in s[..n]
  {
    var i :| 0 <= i < |s| && s[i] == x;
    assert i < n;
    assert s[..n][i] == x;
  }

  /** `.sort(...).limit(n)`: at most `n` elements, each of `s`, in order. */
  lemma SortTakeFacts<T(!new)>(s: seq<T>, before: (T, T) -> bool, n: nat)
    requires Total(before) && Transitive(before)
    ensures var r := Take(Sort(s, before), n);
      && |r| <= n
      && (forall k :: 0 <= k < |r| ==> r[k] in s)
      && SortedBy(r, before)
  {
    var sorted := Sort(s, before);
    forall k | 0 <= k < |sorted|
      ensures sorted[k] in s
    {
      assert sorted[k] in multiset(s);
    }
    TakeSorted(sorted, n, before);
  }

  /** `.filter(p).sort(...).limit(n)`: at most `n` elements, each of `s` and
      satisfying `p`, in order. */
  lemma SelectFacts<T(!new)>(s: seq<T>, p: T -> bool, before: (T, T) -> bool, n: nat)
    requires Total(before) && Transitive(before)
    ensures var r := Take(Sort(Filter(s, p), before), n);
      && |r| <= n
      && (forall k :: 0 <= k < |r| ==> p(r[k]) && r[k] in s)
      && SortedBy(r, before)
  {
    SortTakeFacts(Filter(s, p), before, n);
  }

  /** A permutation has the same length and the same elements. */
  lemma PermutationMembers<T>(a: seq<T>, b: seq<T>)
    requires multiset(a) == multiset(b)
    ensures |a| == |b| && forall k :: 0 <= k < |a| ==> a[k] in b
  {
    assert |multiset(a)| == |multiset(b)|;
    forall k | 0 <= k < |a|
      ensures a[k] in b
    {
      assert a[k] in multiset(b);
    }
  }
}
