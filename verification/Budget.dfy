/** What ends a run: a number of requests, or a duration. */
module Budgets {
  import opened Sums

  datatype Budget = Requests(n: nat) | Duration(d: nat) {
    predicate IsEmpty() {
      this == Requests(0)
    }

    /** There is a request of the budget that nobody has taken yet. */
    predicate MayStart(started: int) {
      match this
      case Requests(n) => started < n
      case Duration(_) => true
    }

    /** Enough has finished for the run to end; time alone ends the other kind. */
    predicate IsMet(finished: int) {
      match this
      case Requests(n) => finished >= n
      case Duration(_) => false
    }

    /** The shares of a count, the larger ones in front; a duration is not
        shared but copied. */
    function Split(threads: nat): (parts: seq<Budget>)
      ensures |parts| == threads
    {
      match this
      case Duration(_) => seq(threads, _ => this)
      case Requests(n) =>
        seq(threads, i requires 0 <= i < threads =>
          Requests(n / threads + if i < n % threads then 1 else 0))
    }
  }

  /** What a counted budget will take; a duration takes no fixed number. */
  function Expected(b: Budget): nat {
    match b
    case Requests(n) => n
    case Duration(_) => 0
  }

  ghost function Counts(parts: seq<Budget>): seq<int> {
    seq(|parts|, i requires 0 <= i < |parts| => Expected(parts[i]))
  }

  /** The first `k` of a run of shares hold `k` whole quotients and as much of
      the remainder as there are shares for. */
  lemma {:induction false} SharesSum(s: seq<int>, q: nat, r: nat)
    requires forall i :: 0 <= i < |s| ==> s[i] == q + if i < r then 1 else 0
    ensures Sum(s) == q * |s| + if |s| < r then |s| else r
  {
    if s != [] {
      SharesSum(s[..|s| - 1], q, r);
      assert q * |s| == q * (|s| - 1) + q;
    }
  }

  /** The shares add up to the whole, and none is more than one request larger
      than another. */
  lemma SplitTotal(n: nat, threads: nat)
    requires threads > 0
    ensures var parts := Requests(n).Split(threads);
            && Sum(Counts(parts)) == n
            && (forall i :: 0 <= i < threads ==> parts[i].Requests?)
            && (forall i, j :: 0 <= i < j < threads ==> parts[j].n <= parts[i].n <= parts[j].n + 1)
  {
    var parts := Requests(n).Split(threads);
    SharesSum(Counts(parts), n / threads, n % threads);
    assert n == (n / threads) * threads + n % threads;
  }
}
