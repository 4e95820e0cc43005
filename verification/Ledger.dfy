/** What the multiplexed workers count, whatever the protocol. */
module Ledgers {
  import opened Budgets
  import opened Statistics

  /** A worker's counters: requests started (less those refunded), and what
      became of them. `begun` (streams ever opened) and `refunded` (requests
      ever returned to the budget) are history. */
  datatype Ledger = Ledger(started: int, begun: nat, refunded: nat, tally: Tally) {
    ghost function Fail(n: nat): Ledger {
      this.(tally := tally.Failures(n))
    }

    ghost function Refund(n: nat): Ledger {
      this.(started := started - n, refunded := refunded + n)
    }

    ghost function Open(): Ledger {
      this.(started := started + 1, begun := begun + 1)
    }
  }

  /** A failed connection attempt consumes an unassigned request, if there is one. */
  ghost function FailConnect(l: Ledger, b: Budget): Ledger {
    if b.MayStart(l.started)
    then l.(started := l.started + 1, tally := l.tally.ConnectFailure())
    else l
  }

  function Elapsed(now: nat, start: nat): nat {
    if now >= start then now - start else 0
  }

  /** The limit has passed since `since`. No limit always has, even when the
      clock is behind. */
  ghost predicate Passed(since: nat, limit: nat, now: nat) {
    limit == 0 || since + limit <= now
  }

  lemma ElapsedIs(now: nat, since: nat, limit: nat)
    ensures Elapsed(now, since) >= limit <==> Passed(since, limit, now)
  {
  }

  /** `after` is `before` with one more sample for each start: the time from it
      to now, or nothing if the clock is behind it. */
  ghost predicate Gains(before: seq<nat>, after: seq<nat>, now: nat, starts: seq<nat>) {
    && |after| == |before| + |starts| && before == after[..|before|]
    && forall k :: 0 <= k < |starts| ==>
         if starts[k] <= now then starts[k] + after[|before| + k] == now else after[|before| + k] == 0
  }

  lemma GainsOne(before: seq<nat>, mid: seq<nat>, after: seq<nat>, now: nat, start: nat, starts: seq<nat>)
    requires mid == before + [Elapsed(now, start)] && Gains(mid, after, now, starts)
    ensures Gains(before, after, now, [start] + starts)
  {
    assert after[..|before|] == after[..|mid|][..|before|] && after[|before|] == after[..|mid|][|before|];
    forall k | 0 <= k < |starts| + 1
      ensures var s := ([start] + starts)[k];
              if s <= now then s + after[|before| + k] == now else after[|before| + k] == 0
    {
      if k > 0 {
        assert ([start] + starts)[k] == starts[k - 1];
        assert after[|before| + k] == after[|mid| + (k - 1)];
      }
    }
  }

  lemma GainsFirst(before: seq<nat>, now: nat, start: nat)
    ensures Gains(before, before + [Elapsed(now, start)], now, [start])
  {
  }

  /** Times do not run backwards: each grant is at or after the one before. */
  predicate Clocked(newest: nat, grants: seq<nat>) {
    && (forall i :: 0 <= i < |grants| ==> newest <= grants[i])
    && (forall i, j :: 0 <= i < j < |grants| ==> grants[i] <= grants[j])
  }

  // ---- Opening streams ----

  /** How many streams can be opened: as many as are granted, as the
      parallelism leaves room for and as the budget has left. */
  ghost function Room(inFlight: nat, started: int, granted: nat, b: Budget, parallel: nat): nat {
    var slots := if inFlight < parallel then parallel - inFlight else 0;
    var left := if b.Duration? then granted else if started < b.n then b.n - started else 0;
    var most := if slots < left then slots else left;
    if most < granted then most else granted
  }

  lemma RoomNext(inFlight: nat, started: int, granted: nat, b: Budget, parallel: nat)
    ensures if granted > 0 && inFlight < parallel && b.MayStart(started)
            then Room(inFlight, started, granted, b, parallel) == Room(inFlight + 1, started + 1, granted - 1, b, parallel) + 1
            else Room(inFlight, started, granted, b, parallel) == 0
  {
  }

  ghost function NthId(first: nat, gap: nat, j: nat): nat {
    first + gap * j
  }

  /** `m'` is `m` with the first `k` items added, under ids `gap` apart. */
  ghost predicate Added<T>(m: map<nat, T>, m': map<nat, T>, first: nat, gap: nat, items: seq<T>, k: nat) {
    && k <= |items|
    && |m'| == |m| + k
    && (forall id :: id in m ==> id in m' && m'[id] == m[id])
    && (forall j :: 0 <= j < k ==> NthId(first, gap, j) in m' && m'[NthId(first, gap, j)] == items[j])
  }

  lemma AddedOneMore<T>(m: map<nat, T>, m': map<nat, T>, first: nat, gap: nat, items: seq<T>, k: nat)
    requires items != [] && first !in m
    requires Added(m[first := items[0]], m', first + gap, gap, items[1..], k)
    ensures Added(m, m', first, gap, items, k + 1)
  {
    var m1 := m[first := items[0]];
    assert first in m1 && forall id :: id in m ==> id in m1 && m1[id] == m[id];
    forall j | 0 <= j < k + 1
      ensures NthId(first, gap, j) in m' && m'[NthId(first, gap, j)] == items[j]
    {
      if j > 0 {
        assert items[1..][j - 1] == items[j];
        NextId(first, gap, j);
      } else {
        assert NthId(first, gap, 0) == first;
      }
    }
  }

  lemma NextId(first: nat, gap: nat, j: nat)
    requires j > 0
    ensures NthId(first + gap, gap, j - 1) == NthId(first, gap, j)
  {
    assert gap * j == gap * (j - 1) + gap;
  }
}
