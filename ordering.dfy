/** Time ordering of events: the in-place `sort.Slice` by `CreatedAt` the
    client runs before showing a list, and the "keep the newest n" slice that
    follows it in the timeline commands. */
module Ordering {
  import opened Nostr

  /** Non-decreasing by creation time. */
  predicate SortedByTime(s: seq<Event>) {
    forall i, j :: 0 <= i < j < |s| ==> s[i].createdAt <= s[j].createdAt
  }

  /** No element occurs twice. */
  predicate Distinct<T(==)>(s: seq<T>) {
    forall i, j :: 0 <= i < j < |s| ==> s[i] != s[j]
  }

  lemma {:induction false} DistinctOnce<T>(s: seq<T>, x: T)
    requires Distinct(s)
    ensures multiset(s)[x] <= 1
  {
    if s != [] {
      var last := s[|s| - 1];
      assert s == s[..|s| - 1] + [last];
      DistinctOnce(s[..|s| - 1], x);
      if x == last {
        assert x !in s[..|s| - 1];
      }
    }
  }

  /** A permutation of a list without repeats has none either. */
  lemma PermutationKeepsDistinct<T>(a: seq<T>, b: seq<T>)
    requires multiset(a) == multiset(b) && Distinct(b)
    ensures Distinct(a)
  {
    forall i, j | 0 <= i < j < |a|
      ensures a[i] != a[j]
    {
      if a[i] == a[j] {
        assert a == a[..i] + [a[i]] + a[i + 1..j] + [a[j]] + a[j + 1..];
        assert multiset(a)[a[i]] >= 2;
        DistinctOnce(b, a[i]);
      }
    }
  }

  /** The first `n` elements of `a` are in time order. */
  ghost predicate SortedUpTo(a: array<Event>, n: int)
    reads a
  {
    forall p, q :: 0 <= p < q < n && q < a.Length ==> a[p].createdAt <= a[q].createdAt
  }

  /** Exchanges two neighbours. */
  method SwapDown(a: array<Event>, j: int)
    requires 0 < j < a.Length
    modifies a
    ensures a[j - 1] == old(a[j]) && a[j] == old(a[j - 1])
    ensures forall k :: 0 <= k < a.Length && k != j - 1 && k != j ==> a[k] == old(a[k])
    ensures multiset(a[..]) == old(multiset(a[..]))
  {
    ghost var s := a[..];
    a[j - 1], a[j] := a[j], a[j - 1];
    assert a[..] == s[j - 1 := s[j]][j := s[j - 1]];
  }

  /** One insertion-sort step: moves `a[i]` down into the sorted prefix. */
  method InsertAt(a: array<Event>, i: int)
    requires 0 < i < a.Length && SortedUpTo(a, i)
    modifies a
    ensures SortedUpTo(a, i + 1)
    ensures multiset(a[..]) == old(multiset(a[..]))
  {
    var j := i;
    while j > 0 && a[j - 1].createdAt > a[j].createdAt
      invariant 0 <= j <= i
      invariant forall p, q :: 0 <= p < q <= i && p != j && q != j ==> a[p].createdAt <= a[q].createdAt
      invariant forall q :: j < q <= i ==> a[j].createdAt <= a[q].createdAt
      invariant multiset(a[..]) == old(multiset(a[..]))
    {
      SwapDown(a, j);
      j := j - 1;
    }
  }

  /** `sort.Slice(evs, less)` with `less(i, j)` = "evs[i] is older than
      evs[j]": sorts in place, ascending by creation time. `sort.Slice` is not
      stable, so nothing is promised about the order of events created in the
      same second beyond their being a permutation of the input. */
  method SortByTime(a: array<Event>)
    modifies a
    ensures SortedByTime(a[..])
    ensures multiset(a[..]) == old(multiset(a[..]))
  {
    var i := 1;
    while i < a.Length
      invariant a.Length == 0 || 1 <= i <= a.Length
      invariant SortedUpTo(a, i)
      invariant multiset(a[..]) == old(multiset(a[..]))
    {
      InsertAt(a, i);
      i := i + 1;
    }
  }

  /** In a time-ordered list, whatever precedes a suffix is no newer than
      anything in it. */
  lemma SuffixIsNewest(t: seq<Event>, k: nat)
    requires k <= |t| && SortedByTime(t)
    ensures forall e, x :: e in multiset(t) - multiset(t[k..]) && x in t[k..] ==> e.createdAt <= x.createdAt
  {
    assert t == t[..k] + t[k..];
    assert multiset(t) - multiset(t[k..]) == multiset(t[..k]);
    forall e, x | e in multiset(t[..k]) && x in t[k..]
      ensures e.createdAt <= x.createdAt
    {
      var p :| 0 <= p < k && t[..k][p] == e;
      var q :| 0 <= q < |t| - k && t[k..][q] == x;
      assert t[p] == e && t[k + q] == x;
    }
  }

  /** `sort` ascending, then `if len(evs) > n { evs = evs[len(evs)-n:] }`:
      the newest `n` events, oldest first. */
  method NewestN(evs: seq<Event>, n: nat) returns (r: seq<Event>)
    ensures |r| == if |evs| > n then n else |evs|
    ensures SortedByTime(r)
    ensures multiset(r) <= multiset(evs)
    ensures forall e, x :: e in multiset(evs) - multiset(r) && x in r ==> e.createdAt <= x.createdAt
  {
    var a := new Event[|evs|](i requires 0 <= i < |evs| => evs[i]);
    assert a[..] == evs;
    SortByTime(a);
    ghost var t := a[..];
    var k := if a.Length > n then a.Length - n else 0;
    r := a[k..];
    assert r == t[k..];
    assert t == t[..k] + r;
    assert multiset(t) == multiset(t[..k]) + multiset(r);
    SuffixIsNewest(t, k);
  }
}
