/**
 The lives of a worker's connections, and what each adds to what has finished.

 A life ends when its slot is given another connection. It is idle if nothing
 was opened in it and nothing was charged for it.
 */
module Lives {
  import opened Statistics
  import opened Ledgers
  import opened Sums

  /** What the life in each slot has added so far; lives that have ended; and
      those of them that were idle. */
  datatype Lives = Lives(spent: seq<nat>, ended: nat, idle: nat)

  /** No life has ended, and none has added anything. */
  ghost function NoLives(connections: nat): Lives {
    Lives(seq(connections, _ => 0), 0, 0)
  }

  /** The life in a slot goes on, or ends, with `delta` more finished. */
  ghost function Advance(v: Lives, i: nat, delta: nat, ends: bool, untouched: bool): Lives
    requires i < |v.spent|
  {
    var spent := v.spent[i] + delta;
    if !ends then v.(spent := v.spent[i := spent])
    else Lives(v.spent[i := 0], v.ended + 1, if spent == 0 && untouched then v.idle + 1 else v.idle)
  }

  /** Every life that ended and was not idle has been paid for, apart from what
      the present ones have added. */
  ghost predicate Paid(v: Lives, finished: int) {
    Sum(v.spent) + v.ended - v.idle <= finished
  }

  lemma AdvancePaid(v: Lives, i: nat, delta: nat, ends: bool, untouched: bool, finished: int)
    requires i < |v.spent| && Paid(v, finished)
    requires ends && v.spent[i] + delta == 0 ==> untouched
    ensures Paid(Advance(v, i, delta, ends, untouched), finished + delta)
  {
    SumUpdate(v.spent, i, if ends then 0 else v.spent[i] + delta);
  }

  lemma PaidFor(v: Lives, finished: int)
    requires Paid(v, finished)
    ensures v.ended <= finished + v.idle
  {
    SumBounds(v.spent);
  }

  /** Nothing counted is ever uncounted, and every failed connect is an error. */
  ghost predicate Later(l: Ledger, l': Ledger) {
    && l.tally.completed <= l'.tally.completed
    && 0 <= l'.tally.connectErrors - l.tally.connectErrors <= l'.tally.errors - l.tally.errors
  }

  /** More finished from one ledger to the other. */
  ghost function Gained(l: Ledger, l': Ledger): nat {
    if Later(l, l') then l'.tally.Finished() - l.tally.Finished() else 0
  }
}
