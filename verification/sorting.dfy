/**
 * The sort of a batch by first-seen rank before it is written
 * (Track_EDGAR.py, WriteToFile, line 61: `lst.sort(key=lambda x: x[1])`).
 */
module Sorting {
  import opened Sessions

  /** Ranks ascend along the sequence. */
  predicate SortedByRank(cs: seq<Closed>) {
    forall i, j :: 0 <= i < j < |cs| ==> cs[i].s.obs <= cs[j].s.obs
  }

  /** Exchanges the entries at j - 1 and j. */
  method SwapDown(a: array<Closed>, j: int)
    requires 0 < j < a.Length
    modifies a
    ensures a[j - 1] == old(a[j]) && a[j] == old(a[j - 1])
    ensures forall k :: 0 <= k < a.Length && k != j - 1 && k != j ==> a[k] == old(a[k])
    ensures multiset(a[..]) == old(multiset(a[..]))
  {
    a[j - 1], a[j] := a[j], a[j - 1];
  }

  /**
   * Ranks ascend along the sequence except at the entry j being moved down,
   * and its two neighbours are in order with each other.
   */
  predicate SortedBut(cs: seq<Closed>, j: int) {
    && (forall p, q :: 0 <= p < q < |cs| && q != j ==> cs[p].s.obs <= cs[q].s.obs)
    && (0 < j < |cs| - 1 ==> cs[j - 1].s.obs <= cs[j + 1].s.obs)
  }

  /** Swapping the moving entry with a larger left neighbour moves the hole one place down. */
  lemma SwapKeepsSortedBut(s: seq<Closed>, t: seq<Closed>, j: int)
    requires 0 < j < |s| && SortedBut(s, j) && s[j - 1].s.obs > s[j].s.obs
    requires |t| == |s| && t[j - 1] == s[j] && t[j] == s[j - 1]
    requires forall k :: 0 <= k < |s| && k != j - 1 && k != j ==> t[k] == s[k]
    ensures SortedBut(t, j - 1)
  {
  }

  /** Once the moving entry has stopped, the whole sequence is sorted. */
  lemma SortedButStopped(cs: seq<Closed>, j: int)
    requires 0 <= j < |cs| && SortedBut(cs, j)
    requires j == 0 || cs[j - 1].s.obs <= cs[j].s.obs
    ensures SortedByRank(cs)
  {
  }

  /** Moves a[i] down into the sorted prefix a[..i]. */
  method Insert(a: array<Closed>, i: int)
    requires 0 <= i < a.Length && SortedByRank(a[..i])
    modifies a
    ensures SortedByRank(a[..i + 1])
    ensures forall k :: i < k < a.Length ==> a[k] == old(a[k])
    ensures multiset(a[..]) == old(multiset(a[..]))
  {
    var j := i;
    assert SortedBut(a[..i + 1], j);
    while j > 0 && a[j - 1].s.obs > a[j].s.obs
      invariant 0 <= j <= i
      invariant SortedBut(a[..i + 1], j)
      invariant forall k :: i < k < a.Length ==> a[k] == old(a[k])
      invariant multiset(a[..]) == old(multiset(a[..]))
    {
      ghost var s := a[..i + 1];
      SwapDown(a, j);
      SwapKeepsSortedBut(s, a[..i + 1], j);
      j := j - 1;
    }
    SortedButStopped(a[..i + 1], j);
  }

  /** Sorts the array in place by rank (insertion sort by adjacent swaps). */
  method SortByRank(a: array<Closed>)
    modifies a
    ensures SortedByRank(a[..])
    ensures multiset(a[..]) == old(multiset(a[..]))
  {
    var i := 0;
    while i < a.Length
      invariant 0 <= i <= a.Length
      invariant SortedByRank(a[..i])
      invariant multiset(a[..]) == old(multiset(a[..]))
    {
      Insert(a, i);
      i := i + 1;
    }
    assert a[..] == a[..a.Length];
  }

  /** No two sessions of the set share a rank. */
  ghost predicate DistinctRanks(s: set<Closed>) {
    forall x, y :: x in s && y in s && x != y ==> x.s.obs != y.s.obs
  }

  /** A session of least rank in a non-empty set. */
  ghost function Least(s: set<Closed>): (x: Closed)
    requires s != {}
    ensures x in s && forall y :: y in s ==> x.s.obs <= y.s.obs
    decreases |s|
  {
    var z :| z in s;
    if s - {z} == {} then
      assert forall y :: y in s ==> y == z || y in s - {z};
      z
    else
      var x := Least(s - {z});
      if z.s.obs < x.s.obs then z else x
  }

  /**
   * The sessions of a set written out in ascending rank: a session of least
   * rank first, then the rest. When ranks are distinct this is the only
   * rank-sorted order (SortedBatchUnique), so it is the batch the program writes.
   */
  ghost function SortedBatch(s: set<Closed>): (b: seq<Closed>)
    ensures SortedByRank(b) && multiset(b) == multiset(s)
    decreases |s|
  {
    if s == {} then []
    else
      var x := Least(s);
      var rest := SortedBatch(s - {x});
      LeastFirst(x, rest, s);
      [x] + rest
  }

  /** A session of least rank put before a sorted arrangement of the others arranges the whole set. */
  lemma LeastFirst(x: Closed, rest: seq<Closed>, s: set<Closed>)
    requires x in s && forall y :: y in s ==> x.s.obs <= y.s.obs
    requires SortedByRank(rest) && multiset(rest) == multiset(s - {x})
    ensures SortedByRank([x] + rest) && multiset([x] + rest) == multiset(s)
  {
    assert multiset(s) == multiset{x} + multiset(s - {x});
    forall k | 0 <= k < |rest| ensures x.s.obs <= rest[k].s.obs {
      assert rest[k] in multiset(rest);
    }
  }

  /** The head of a rank-sorted arrangement of a non-empty set is a session of least rank. */
  lemma SortedHeadLeast(b: seq<Closed>, s: set<Closed>)
    requires SortedByRank(b) && multiset(b) == multiset(s) && s != {}
    ensures |b| > 0 && b[0] in s
    ensures forall y :: y in s ==> b[0].s.obs <= y.s.obs
  {
    var z :| z in s;
    assert z in multiset(b);
    assert b[0] in multiset(b);
    forall y | y in s ensures b[0].s.obs <= y.s.obs {
      assert y in multiset(b);
      var k :| 0 <= k < |b| && b[k] == y;
    }
  }

  /** Taking the head off an arrangement of a set takes it out of the set. */
  lemma TailBag(b: seq<Closed>, s: set<Closed>)
    requires multiset(b) == multiset(s) && |b| > 0
    ensures multiset(b[1..]) == multiset(s - {b[0]})
  {
    assert b == [b[0]] + b[1..];
    assert b[0] in multiset(s);
    assert multiset(s - {b[0]}) == multiset(s) - multiset{b[0]};
  }

  /** SortedBatch of a non-empty set, unfolded once. */
  lemma SortedBatchCons(s: set<Closed>)
    requires s != {}
    ensures SortedBatch(s) == [Least(s)] + SortedBatch(s - {Least(s)})
  {
  }

  /** With distinct ranks, a rank-sorted arrangement of a set is SortedBatch of it. */
  lemma {:induction false} SortedBatchUnique(b: seq<Closed>, s: set<Closed>)
    requires DistinctRanks(s) && SortedByRank(b) && multiset(b) == multiset(s)
    ensures b == SortedBatch(s)
    decreases |s|
  {
    if s == {} {
      assert |b| == |multiset(b)| == 0;
    } else {
      var x := Least(s);
      assert b[0] == x by {
        SortedHeadLeast(b, s);
      }
      TailBag(b, s);
      assert DistinctRanks(s - {x});
      SortedBatchUnique(b[1..], s - {x});
      SortedBatchCons(s);
      assert b == [x] + b[1..];
    }
  }
}
