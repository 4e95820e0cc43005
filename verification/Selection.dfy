/**
 Percentiles by selection instead of sorting.

 `SelectRanks` puts several order statistics in place at once by partitioning
 around a middle rank and recursing on either side. The reference is `Sort`:
 whatever path `LatencySummary` takes, it reports what a full sort would.
 */
module Selection {
  import opened Wrappers

  // ---- The reference: a full sort ----

  ghost predicate Sorted(s: seq<nat>) {
    forall i, j :: 0 <= i < j < |s| ==> s[i] <= s[j]
  }

  ghost function Insert(s: seq<nat>, v: nat): seq<nat> {
    if s == [] || s[|s| - 1] <= v then s + [v] else Insert(s[..|s| - 1], v) + [s[|s| - 1]]
  }

  ghost function Sort(s: seq<nat>): seq<nat> {
    if s == [] then [] else Insert(Sort(s[..|s| - 1]), s[|s| - 1])
  }

  /** A sorted sequence is a sorted one followed by its largest element. */
  lemma SortedSnoc(s: seq<nat>, v: nat)
    ensures Sorted(s + [v]) <==> Sorted(s) && forall x :: x in s ==> x <= v
  {
    var t := s + [v];
    if Sorted(t) {
      forall x | x in s ensures x <= v {
        var i :| 0 <= i < |s| && s[i] == x;
        assert t[i] == x && t[|s|] == v;
      }
      forall i, j | 0 <= i < j < |s| ensures s[i] <= s[j] {
        assert t[i] == s[i] && t[j] == s[j];
      }
    }
    if Sorted(s) && forall x :: x in s ==> x <= v {
      forall i, j | 0 <= i < j < |t| ensures t[i] <= t[j] {
        assert t[i] == s[i] && s[i] in s;
      }
    }
  }

  lemma SplitLast(s: seq<nat>)
    requires s != []
    ensures s == s[..|s| - 1] + [s[|s| - 1]]
    ensures multiset(s) == multiset(s[..|s| - 1]) + multiset{s[|s| - 1]}
    ensures forall x :: x in s <==> x in multiset(s)
  {
    assert s == s[..|s| - 1] + [s[|s| - 1]];
  }

  lemma {:induction false} InsertIs(s: seq<nat>, v: nat)
    requires Sorted(s)
    ensures Sorted(Insert(s, v)) && multiset(Insert(s, v)) == multiset(s) + multiset{v}
  {
    hide Sorted;
    if s == [] {
      SortedSnoc([], v);
      assert [] + [v] == [v] && Sorted([v]) by {
        SortedNil();
        SortedSnoc([], v);
      }
    } else {
      var init, last := s[..|s| - 1], s[|s| - 1];
      SplitLast(s);
      SortedSnoc(init, last);
      if last <= v {
        SortedSnoc(s, v);
      } else {
        InsertIs(init, v);
        SortedSnoc(Insert(init, v), last);
        forall x | x in Insert(init, v) ensures x <= last {
          assert x in multiset(Insert(init, v));
        }
      }
    }
  }

  lemma SortedNil()
    ensures Sorted([])
  {
  }

  lemma {:induction false} SortIs(s: seq<nat>)
    ensures Sorted(Sort(s)) && multiset(Sort(s)) == multiset(s) && |Sort(s)| == |s|
  {
    hide Sorted;
    if s == [] {
      SortedNil();
    } else {
      SplitLast(s);
      SortIs(s[..|s| - 1]);
      InsertIs(Sort(s[..|s| - 1]), s[|s| - 1]);
    }
    assert |multiset(Sort(s))| == |Sort(s)| && |multiset(s)| == |s|;
  }

  /** Two orders of the same samples that are both sorted are the same. */
  lemma {:induction false} SortedOnce(a: seq<nat>, b: seq<nat>)
    requires Sorted(a) && Sorted(b) && multiset(a) == multiset(b)
    ensures a == b
  {
    hide Sorted;
    assert |a| == |multiset(a)| == |multiset(b)| == |b|;
    if a != [] {
      var n := |a| - 1;
      SplitLast(a);
      SplitLast(b);
      SortedSnoc(a[..n], a[n]);
      SortedSnoc(b[..n], b[n]);
      assert a[n] in multiset(b) && b[n] in multiset(a);
      assert a[n] <= b[n] && b[n] <= a[n];
      assert multiset(a[..n]) == multiset(a) - multiset{a[n]};
      assert multiset(b[..n]) == multiset(b) - multiset{b[n]};
      SortedOnce(a[..n], b[..n]);
    }
  }

  // ---- Order statistics ----

  /** Nothing before `r` is larger than what is at it, nothing after smaller. */
  ghost predicate Placed(s: seq<nat>, r: nat) {
    && r < |s|
    && (forall i :: 0 <= i < r ==> s[i] <= s[r])
    && (forall i :: r < i < |s| ==> s[r] <= s[i])
  }

  /** A placed value is the one a full sort would put there. */
  lemma PlacedIsSorted(s: seq<nat>, r: nat)
    requires Placed(s, r)
    ensures r < |Sort(s)| && s[r] == Sort(s)[r]
  {
    hide Sorted, Sort;
    var low, high := s[..r], s[r + 1..];
    SortIs(s);
    SortIs(low);
    SortIs(high);
    SortedBounds(low, s[r]);
    SortedBounds(high, s[r]);
    var t := Sort(low) + [s[r]] + Sort(high);
    Glued(Sort(low), s[r], Sort(high));
    assert multiset(t) == multiset(s) by {
      assert s == low + [s[r]] + high;
    }
    SortedOnce(t, Sort(s));
  }

  lemma Glued(low: seq<nat>, v: nat, high: seq<nat>)
    requires Sorted(low) && Sorted(high)
    requires forall i :: 0 <= i < |low| ==> low[i] <= v
    requires forall i :: 0 <= i < |high| ==> v <= high[i]
    ensures Sorted(low + [v] + high)
  {
  }

  lemma SortedBounds(s: seq<nat>, v: nat)
    ensures (forall i :: 0 <= i < |s| ==> s[i] <= v) ==> forall i :: 0 <= i < |Sort(s)| ==> Sort(s)[i] <= v
    ensures (forall i :: 0 <= i < |s| ==> v <= s[i]) ==> forall i :: 0 <= i < |Sort(s)| ==> v <= Sort(s)[i]
  {
    SortIs(s);
    forall i | 0 <= i < |Sort(s)| ensures Sort(s)[i] in s {
      assert Sort(s)[i] in multiset(Sort(s));
    }
  }

  // ---- In place ----

  /** `to` is `from` with its samples between `lo` and `hi` rearranged. */
  ghost predicate Shuffled(from: seq<nat>, to: seq<nat>, lo: nat, hi: nat) {
    && lo <= hi <= |from| == |to|
    && from[..lo] == to[..lo] && from[hi..] == to[hi..]
    && multiset(from[lo..hi]) == multiset(to[lo..hi])
  }

  lemma ShuffledTrans(a: seq<nat>, b: seq<nat>, c: seq<nat>, lo: nat, hi: nat)
    requires Shuffled(a, b, lo, hi) && Shuffled(b, c, lo, hi)
    ensures Shuffled(a, c, lo, hi)
  {
  }

  /** A rearrangement of part of a range is one of the range. */
  lemma ShuffledWiden(a: seq<nat>, b: seq<nat>, lo: nat, mid: nat, end: nat, hi: nat)
    requires lo <= mid <= end <= hi <= |a| && Shuffled(a, b, mid, end)
    ensures Shuffled(a, b, lo, hi)
  {
    assert a[lo..hi] == a[lo..mid] + a[mid..end] + a[end..hi];
    assert b[lo..hi] == b[lo..mid] + b[mid..end] + b[end..hi];
    assert a[lo..mid] == a[..mid][lo..] && b[lo..mid] == b[..mid][lo..];
    assert a[end..hi] == a[end..][..hi - end] && b[end..hi] == b[end..][..hi - end];
    assert a[..lo] == a[..mid][..lo] && b[..lo] == b[..mid][..lo];
    assert a[hi..] == a[end..][hi - end..] && b[hi..] == b[end..][hi - end..];
  }

  lemma SwapShuffles(s: seq<nat>, i: nat, j: nat, lo: nat, hi: nat)
    requires lo <= i < hi <= |s| && lo <= j < hi
    ensures Shuffled(s, s[i := s[j]][j := s[i]], lo, hi)
  {
    var t := s[i := s[j]][j := s[i]];
    assert t[lo..hi] == s[lo..hi][i - lo := s[j]][j - lo := s[i]];
    assert t[..lo] == s[..lo] && t[hi..] == s[hi..];
  }

  /** Bounds on a range survive its being rearranged. */
  lemma ShuffledBounds(a: seq<nat>, b: seq<nat>, lo: nat, hi: nat, v: nat)
    requires Shuffled(a, b, lo, hi)
    ensures (forall i :: lo <= i < hi ==> a[i] <= v) ==> forall i :: lo <= i < hi ==> b[i] <= v
    ensures (forall i :: lo <= i < hi ==> v <= a[i]) ==> forall i :: lo <= i < hi ==> v <= b[i]
  {
    forall i | lo <= i < hi ensures exists j :: lo <= j < hi && a[j] == b[i] {
      assert b[i] == b[lo..hi][i - lo];
      assert b[i] in multiset(b[lo..hi]) && b[i] in multiset(a[lo..hi]);
      assert b[i] in a[lo..hi];
      var k :| 0 <= k < hi - lo && a[lo..hi][k] == b[i];
      assert a[lo + k] == b[i];
    }
  }

  ghost predicate SortedRange(s: seq<nat>, lo: nat, hi: nat)
    requires lo <= hi <= |s|
  {
    forall i, j :: lo <= i < j < hi ==> s[i] <= s[j]
  }

  method IndexOfMin(a: array<nat>, lo: nat, hi: nat) returns (m: nat)
    requires lo < hi <= a.Length
    ensures lo <= m < hi && forall i :: lo <= i < hi ==> a[m] <= a[i]
  {
    m := lo;
    for i := lo + 1 to hi
      invariant lo <= m < hi && forall k :: lo <= k < i ==> a[m] <= a[k]
    {
      if a[i] < a[m] {
        m := i;
      }
    }
  }

  /** Bring the least of a range to its front. */
  method PlaceMin(a: array<nat>, n: nat, hi: nat)
    requires n < hi <= a.Length
    modifies a
    ensures Shuffled(old(a[..]), a[..], n, hi)
    ensures forall i :: n <= i < hi ==> a[n] <= a[i]
  {
    hide Shuffled;
    var m := IndexOfMin(a, n, hi);
    SwapShuffles(a[..], n, m, n, hi);
    a[n], a[m] := a[m], a[n];
    assert a[..] == old(a[..])[n := old(a[m])][m := old(a[n])];
  }

  /** Everything in the first `n` is in order and below everything after. */
  ghost predicate SortedUpTo(s: seq<nat>, lo: nat, n: nat, hi: nat) {
    && lo <= n <= hi <= |s|
    && SortedRange(s, lo, n)
    && forall i, j :: lo <= i < n <= j < hi ==> s[i] <= s[j]
  }

  lemma SortedOneMore(was: seq<nat>, now: seq<nat>, lo: nat, n: nat, hi: nat)
    requires SortedUpTo(was, lo, n, hi) && n < hi && Shuffled(was, now, n, hi)
    requires forall i :: n <= i < hi ==> now[n] <= now[i]
    ensures SortedUpTo(now, lo, n + 1, hi)
  {
    forall i | lo <= i < n ensures now[i] == was[i] && forall j :: n <= j < hi ==> now[i] <= now[j] {
      assert now[i] == now[..n][i] == was[..n][i] == was[i];
      ShuffledBounds(was, now, n, hi, was[i]);
    }
  }

  /** `sort_unstable` on part of the array. */
  method SortRange(a: array<nat>, lo: nat, hi: nat)
    requires lo <= hi <= a.Length
    modifies a
    ensures Shuffled(old(a[..]), a[..], lo, hi)
    ensures SortedRange(a[..], lo, hi)
  {
    for n := lo to hi
      invariant Shuffled(old(a[..]), a[..], lo, hi)
      invariant SortedUpTo(a[..], lo, n, hi)
    {
      hide Shuffled, SortedUpTo;
      ghost var before := a[..];
      PlaceMin(a, n, hi);
      SortedOneMore(before, a[..], lo, n, hi);
      ShuffledWiden(before, a[..], lo, n, hi, hi);
      ShuffledTrans(old(a[..]), before, a[..], lo, hi);
    }
  }

  /** `select_nth_unstable`: the library promises no more than this. */
  method SelectNth(a: array<nat>, lo: nat, hi: nat, r: nat)
    requires lo <= r < hi <= a.Length
    modifies a
    ensures Shuffled(old(a[..]), a[..], lo, hi)
    ensures PlacedIn(a[..], lo, hi, r)
  {
    SortRange(a, lo, hi);
  }

  /** Placed, with respect to the samples from `lo` to `hi`. */
  ghost predicate PlacedIn(s: seq<nat>, lo: nat, hi: nat, r: nat) {
    && lo <= r < hi <= |s|
    && (forall i :: lo <= i < r ==> s[i] <= s[r])
    && (forall i :: r < i < hi ==> s[r] <= s[i])
  }

  predicate Nondecreasing(ranks: seq<nat>) {
    forall i, j :: 0 <= i < j < |ranks| ==> ranks[i] <= ranks[j]
  }

  /** `partition_point`: how many leading ranks are below `bound`. */
  function PartitionPoint(ranks: seq<nat>, bound: nat): (n: nat)
    requires Nondecreasing(ranks)
    ensures n <= |ranks|
    ensures forall i :: 0 <= i < n ==> ranks[i] < bound
    ensures forall i :: n <= i < |ranks| ==> bound <= ranks[i]
  {
    if ranks == [] then 0
    else
      var last := |ranks| - 1;
      if ranks[last] < bound then |ranks| else PartitionPoint(ranks[..last], bound)
  }

  /** Rearranging one side of a placed value leaves it placed. */
  lemma StaysPlaced(was: seq<nat>, now: seq<nat>, lo: nat, hi: nat, r: nat, from: nat, to: nat)
    requires PlacedIn(was, lo, hi, r) && Shuffled(was, now, from, to)
    requires lo <= from <= to <= r || r < from <= to <= hi
    ensures PlacedIn(now, lo, hi, r)
  {
    ShuffledBounds(was, now, from, to, was[r]);
    Untouched(was, now, from, to);
  }

  lemma Untouched(was: seq<nat>, now: seq<nat>, from: nat, to: nat)
    requires Shuffled(was, now, from, to)
    ensures forall i :: 0 <= i < from ==> now[i] == was[i]
    ensures forall i :: to <= i < |was| ==> now[i] == was[i]
  {
    forall i | 0 <= i < from ensures now[i] == was[i] {
      assert now[..from][i] == was[..from][i];
    }
    forall i | to <= i < |was| ensures now[i] == was[i] {
      assert now[to..][i - to] == was[to..][i - to];
    }
  }

  /** What is placed within one side of a placed value is placed in the whole. */
  lemma PlacedWiden(s: seq<nat>, lo: nat, hi: nat, pivot: nat, from: nat, to: nat, r: nat)
    requires PlacedIn(s, lo, hi, pivot) && PlacedIn(s, from, to, r)
    requires (from == lo && to == pivot) || (from == pivot + 1 && to == hi)
    ensures PlacedIn(s, lo, hi, r)
  {
  }

  /** The rank nearest the middle, from below if there is none beyond it. */
  function Pivot(ranks: seq<nat>, middle: nat): (rank: nat)
    requires ranks != [] && Nondecreasing(ranks)
    ensures rank in ranks
  {
    var point := PartitionPoint(ranks, middle);
    ranks[if point < |ranks| - 1 then point else |ranks| - 1]
  }

  /** Rearrange a range so that each of some ranks holds what a full sort would
      put there. Ranks may repeat. */
  method SelectRanks(a: array<nat>, ranks: seq<nat>, lo: nat, hi: nat)
    requires lo <= hi <= a.Length && Nondecreasing(ranks)
    requires forall r :: r in ranks ==> lo <= r < hi
    modifies a
    ensures Shuffled(old(a[..]), a[..], lo, hi)
    ensures forall r :: r in ranks ==> PlacedIn(a[..], lo, hi, r)
    decreases |ranks|
  {
    if ranks == [] {
      return;
    }
    hide Shuffled, PlacedIn, Nondecreasing;
    var rank := Pivot(ranks, lo + (hi - lo) / 2);
    SelectNth(a, lo, hi, rank);
    ghost var s1 := a[..];
    var lowerEnd := PartitionPoint(ranks, rank);
    var upperStart := PartitionPoint(ranks, rank + 1);
    SplitRanks(ranks, rank, lo, hi);
    SelectRanks(a, ranks[..lowerEnd], lo, rank);
    ghost var s2 := a[..];
    SelectRanks(a, ranks[upperStart..], rank + 1, hi);
    ghost var s3 := a[..];
    AllPlaced(old(a[..]), s1, s2, s3, lo, hi, rank, ranks);
  }

  lemma AllPlaced(s0: seq<nat>, s1: seq<nat>, s2: seq<nat>, s3: seq<nat>, lo: nat, hi: nat, rank: nat, ranks: seq<nat>)
    requires Shuffled(s0, s1, lo, hi) && PlacedIn(s1, lo, hi, rank)
    requires Shuffled(s1, s2, lo, rank) && Shuffled(s2, s3, rank + 1, hi)
    requires forall r :: r in ranks && r < rank ==> PlacedIn(s2, lo, rank, r)
    requires forall r :: r in ranks && rank < r ==> PlacedIn(s3, rank + 1, hi, r)
    ensures Shuffled(s0, s3, lo, hi)
    ensures forall r :: r in ranks ==> PlacedIn(s3, lo, hi, r)
  {
    hide Shuffled, PlacedIn;
    BothSides(s0, s1, s2, s3, lo, hi, rank);
    forall r | r in ranks ensures PlacedIn(s3, lo, hi, r) {
      if r < rank {
        KeptBelow(s2, s3, lo, hi, rank, r);
      } else if r > rank {
        PlacedWiden(s3, lo, hi, rank, rank + 1, hi, r);
      }
    }
  }

  /** The ranks on either side of one of them. */
  lemma SplitRanks(ranks: seq<nat>, rank: nat, lo: nat, hi: nat)
    requires Nondecreasing(ranks) && rank in ranks
    requires forall r :: r in ranks ==> lo <= r < hi
    ensures var low, high := ranks[..PartitionPoint(ranks, rank)], ranks[PartitionPoint(ranks, rank + 1)..];
            && |low| < |ranks| && |high| < |ranks|
            && Nondecreasing(low) && Nondecreasing(high)
            && (forall r :: r in low <==> r in ranks && r < rank)
            && (forall r :: r in high <==> r in ranks && rank < r)
  {
    var n, m := PartitionPoint(ranks, rank), PartitionPoint(ranks, rank + 1);
    forall r | r in ranks ensures r < rank <==> r in ranks[..n] {
      var k :| 0 <= k < |ranks| && ranks[k] == r;
      if k < n {
        assert ranks[..n][k] == r;
      }
    }
    forall r | r in ranks ensures rank < r <==> r in ranks[m..] {
      var k :| 0 <= k < |ranks| && ranks[k] == r;
      if m <= k {
        assert ranks[m..][k - m] == r;
      }
    }
    var k :| 0 <= k < |ranks| && ranks[k] == rank;
    assert n <= k < m;
  }

  lemma BothSides(s0: seq<nat>, s1: seq<nat>, s2: seq<nat>, s3: seq<nat>, lo: nat, hi: nat, rank: nat)
    requires Shuffled(s0, s1, lo, hi) && PlacedIn(s1, lo, hi, rank)
    requires Shuffled(s1, s2, lo, rank) && Shuffled(s2, s3, rank + 1, hi)
    ensures Shuffled(s0, s3, lo, hi) && PlacedIn(s2, lo, hi, rank) && PlacedIn(s3, lo, hi, rank)
  {
    ShuffledWiden(s1, s2, lo, lo, rank, hi);
    ShuffledWiden(s2, s3, lo, rank + 1, hi, hi);
    ShuffledTrans(s0, s1, s2, lo, hi);
    ShuffledTrans(s0, s2, s3, lo, hi);
    StaysPlaced(s1, s2, lo, hi, rank, lo, rank);
    StaysPlaced(s2, s3, lo, hi, rank, rank + 1, hi);
  }

  lemma KeptBelow(s2: seq<nat>, s3: seq<nat>, lo: nat, hi: nat, rank: nat, r: nat)
    requires PlacedIn(s2, lo, rank, r) && PlacedIn(s2, lo, hi, rank) && PlacedIn(s3, lo, hi, rank)
    requires Shuffled(s2, s3, rank + 1, hi)
    ensures PlacedIn(s3, lo, hi, r)
  {
    Untouched(s2, s3, rank + 1, hi);
    PlacedWiden(s3, lo, hi, rank, lo, rank, r);
  }

  // ---- The summary ----

  datatype Summary = Summary(min: nat, max: nat, percentiles: seq<nat>)

  /** What a full sort would report. */
  ghost function Reference(s: seq<nat>, ranks: seq<nat>): Summary
    requires s != [] && forall r :: r in ranks ==> r < |s|
  {
    SortIs(s);
    var t := Sort(s);
    Summary(t[0], t[|t| - 1], Pick(t, ranks))
  }

  function Pick(s: seq<nat>, ranks: seq<nat>): seq<nat>
    requires forall r :: r in ranks ==> r < |s|
  {
    seq(|ranks|, i requires 0 <= i < |ranks| => assert ranks[i] in ranks; s[ranks[i]])
  }

  /** A sample no smaller, or no larger, than any other is an end of the sort. */
  lemma EndsOfSort(s: seq<nat>, v: nat)
    requires s != [] && v in s
    ensures |Sort(s)| == |s|
    ensures (forall i :: 0 <= i < |s| ==> v <= s[i]) ==> v == Sort(s)[0]
    ensures (forall i :: 0 <= i < |s| ==> s[i] <= v) ==> v == Sort(s)[|s| - 1]
  {
    SortIs(s);
    SortedBounds(s, v);
    var t := Sort(s);
    assert v in multiset(t);
    assert forall x :: x in t ==> x in multiset(t);
    var k :| 0 <= k < |t| && t[k] == v;
  }

  method IsSorted(a: array<nat>) returns (yes: bool)
    ensures yes <==> Sorted(a[..])
  {
    if a.Length == 0 {
      return true;
    }
    for i := 1 to a.Length
      invariant forall j, k :: 0 <= j < k < i ==> a[j] <= a[k]
    {
      if a[i - 1] > a[i] {
        return false;
      }
    }
    yes := true;
  }

  method IsDescending(a: array<nat>) returns (yes: bool)
    ensures yes <==> forall j, k :: 0 <= j < k < a.Length ==> a[j] >= a[k]
  {
    if a.Length == 0 {
      return true;
    }
    for i := 1 to a.Length
      invariant forall j, k :: 0 <= j < k < i ==> a[j] >= a[k]
    {
      if a[i - 1] < a[i] {
        return false;
      }
    }
    yes := true;
  }

  ghost function Reversed(s: seq<nat>): seq<nat> {
    seq(|s|, i requires 0 <= i < |s| => s[|s| - 1 - i])
  }

  lemma {:induction false} ReversedSame(s: seq<nat>)
    ensures multiset(Reversed(s)) == multiset(s)
  {
    if s != [] {
      var init, last := s[..|s| - 1], s[|s| - 1];
      SplitLast(s);
      ReversedSame(init);
      assert Reversed(s) == [last] + Reversed(init);
    }
  }

  /** The samples sorted downwards are the sort, read backwards. */
  lemma DescendingIsSorted(s: seq<nat>)
    requires forall j, k :: 0 <= j < k < |s| ==> s[j] >= s[k]
    ensures Reversed(s) == Sort(s)
  {
    ReversedSame(s);
    SortIs(s);
    SortedOnce(Reversed(s), Sort(s));
  }

  method Least(a: array<nat>, n: nat) returns (v: nat)
    requires 0 < n <= a.Length
    ensures v in a[..] && forall i :: 0 <= i < n ==> v <= a[i]
  {
    var m := IndexOfMin(a, 0, n);
    v := a[m];
    assert a[..][m] == v;
  }

  method Greatest(a: array<nat>, from: nat) returns (v: nat)
    requires from < a.Length
    ensures v in a[..] && forall i :: from <= i < a.Length ==> a[i] <= v
  {
    var m := from;
    for i := from + 1 to a.Length
      invariant from <= m < a.Length && forall k :: from <= k < i ==> a[k] <= a[m]
    {
      if a[i] > a[m] {
        m := i;
      }
    }
    v := a[m];
    assert a[..][m] == v;
  }

  /** Read a summary off samples that are in order. */
  method ReadOff(a: array<nat>, ranks: seq<nat>, ghost s: seq<nat>) returns (r: Summary)
    requires a.Length == |s| > 0 && (forall r :: r in ranks ==> r < |s|)
    requires Sorted(a[..]) && multiset(a[..]) == multiset(s)
    ensures r == Reference(s, ranks)
  {
    SortIs(s);
    SortedOnce(a[..], Sort(s));
    r := Summary(a[0], a[a.Length - 1], Pick(a[..], ranks));
  }

  /** Read a summary off samples sorted downwards, without moving them. */
  method ReadBackwards(a: array<nat>, ranks: seq<nat>) returns (r: Summary)
    requires a.Length > 0 && (forall r :: r in ranks ==> r < a.Length)
    requires forall j, k :: 0 <= j < k < a.Length ==> a[j] >= a[k]
    ensures r == Reference(a[..], ranks)
  {
    DescendingIsSorted(a[..]);
    var last := a.Length - 1;
    var s := a[..];
    var percentiles := seq(|ranks|, i requires 0 <= i < |ranks| => assert ranks[i] in ranks; s[last - ranks[i]]);
    forall i | 0 <= i < |ranks| ensures percentiles[i] == Pick(Reversed(s), ranks)[i] {
      assert ranks[i] in ranks;
      assert Pick(Reversed(s), ranks)[i] == Reversed(s)[ranks[i]];
    }
    assert percentiles == Pick(Reversed(s), ranks);
    r := Summary(a[last], a[0], percentiles);
  }

  /** Read a summary off selected samples: the least is not beyond the first
      rank, and the greatest not before the last. */
  method ReadSelected(a: array<nat>, ranks: seq<nat>, ghost s: seq<nat>) returns (r: Summary)
    requires ranks != [] && a.Length == |s| > 0 && (forall r :: r in ranks ==> r < |s|)
    requires multiset(a[..]) == multiset(s)
    requires forall r :: r in ranks ==> Placed(a[..], r)
    ensures r == Reference(s, ranks)
  {
    hide Placed;
    assert ranks[0] in ranks && ranks[|ranks| - 1] in ranks;
    var min := Least(a, ranks[0] + 1);
    var max := Greatest(a, ranks[|ranks| - 1]);
    r := Summary(min, max, Pick(a[..], ranks));
    BoundaryEnds(a[..], ranks[0], ranks[|ranks| - 1], min, max);
    PickedIs(a[..], ranks);
    SameReference(a[..], s, ranks);
  }

  lemma PickedIs(t: seq<nat>, ranks: seq<nat>)
    requires forall r :: r in ranks ==> Placed(t, r) && r < |t|
    ensures |Sort(t)| == |t| && Pick(t, ranks) == Pick(Sort(t), ranks)
  {
    SortIs(t);
    hide Placed, Sort, Sorted;
    forall i | 0 <= i < |ranks| ensures ranks[i] in ranks && t[ranks[i]] == Sort(t)[ranks[i]] {
      assert ranks[i] in ranks;
      PlacedIsSorted(t, ranks[i]);
    }
  }

  /** The reference looks at the samples, not at their order. */
  lemma SameReference(t: seq<nat>, s: seq<nat>, ranks: seq<nat>)
    requires t != [] && |s| == |t| && multiset(s) == multiset(t) && forall r :: r in ranks ==> r < |s|
    ensures Reference(t, ranks) == Reference(s, ranks)
  {
    SortIs(s);
    SortIs(t);
    SortedOnce(Sort(s), Sort(t));
  }

  lemma BoundaryEnds(s: seq<nat>, first: nat, last: nat, min: nat, max: nat)
    requires Placed(s, first) && Placed(s, last) && min in s && max in s
    requires forall i :: 0 <= i <= first ==> min <= s[i]
    requires forall i :: last <= i < |s| ==> s[i] <= max
    ensures |Sort(s)| == |s| && min == Sort(s)[0] && max == Sort(s)[|s| - 1]
  {
    EndsOfSort(s, min);
    EndsOfSort(s, max);
    assert forall i :: 0 <= i < |s| ==> min <= s[i];
    assert forall i :: 0 <= i < |s| ==> s[i] <= max;
  }

  /** The integer part of the latency summary: every path reports what a full
      sort would, and keeps every sample. */
  method LatencySummary(a: array<nat>, ranks: seq<nat>) returns (r: Option<Summary>)
    requires ranks != [] && Nondecreasing(ranks)
    requires a.Length > 0 ==> forall r :: r in ranks ==> r < a.Length
    modifies a
    ensures multiset(a[..]) == old(multiset(a[..]))
    ensures r.None? <==> a.Length == 0
    ensures r.Some? ==> r.value == Reference(old(a[..]), ranks)
  {
    hide Placed, Nondecreasing;
    if a.Length == 0 {
      return None;
    }
    ghost var s := a[..];
    if a.Length <= 1024 {
      SortRange(a, 0, a.Length);
      WholeRange(s, a[..]);
    }
    var ascending := IsSorted(a);
    if ascending {
      var summary := ReadOff(a, ranks, s);
      return Some(summary);
    }
    var descending := IsDescending(a);
    if descending {
      var summary := ReadBackwards(a, ranks);
      return Some(summary);
    }
    SelectRanks(a, ranks, 0, a.Length);
    WholeRange(s, a[..]);
    forall r | r in ranks ensures Placed(a[..], r) {
      WholePlaced(a[..], r);
    }
    var summary := ReadSelected(a, ranks, s);
    r := Some(summary);
  }

  lemma WholeRange(was: seq<nat>, now: seq<nat>)
    requires Shuffled(was, now, 0, |was|)
    ensures multiset(now) == multiset(was) && |now| == |was|
  {
    assert was[0..|was|] == was && now[0..|was|] == now;
  }

  lemma WholePlaced(s: seq<nat>, r: nat)
    requires PlacedIn(s, 0, |s|, r)
    ensures Placed(s, r)
  {
  }
}
