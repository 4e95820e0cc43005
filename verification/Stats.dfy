/** What a worker counts, and how the workers' counts become one report. */
module Statistics {
  import opened Wrappers
  import opened Sums

  /** Statuses are below this. */
  const STATUSES: nat := 1000

  /** A status, or zero for none. */
  type Status = s: nat | s < STATUSES

  type StatusTable = t: seq<nat> | |t| == STATUSES witness seq(STATUSES, _ => 0)

  ghost function AddTables(a: StatusTable, b: StatusTable): StatusTable {
    seq(STATUSES, i requires 0 <= i < STATUSES => a[i] + b[i])
  }

  /** The value of a worker's statistics. */
  datatype Tally = Tally(
    completed: nat,
    errors: nat,
    connectErrors: nat,
    bytesReceived: nat,
    bytesSent: nat,
    latencies: seq<nat>,
    statusCounts: StatusTable)
  {
    /** The status table sums to what completed, which is how many samples
        there are, and a failed connect is one of the errors. */
    ghost predicate Consistent() {
      && Sum(statusCounts) == completed == |latencies|
      && connectErrors <= errors
    }

    ghost function Success(status: Status, latency: nat): Tally
    {
      this.(completed := completed + 1,
            latencies := latencies + [latency],
            statusCounts := statusCounts[status := statusCounts[status] + 1])
    }

    ghost function Failures(n: nat): Tally {
      this.(errors := errors + n)
    }

    /** An error, and a failed connect at that. */
    ghost function ConnectFailure(): Tally {
      this.(errors := errors + 1, connectErrors := connectErrors + 1)
    }

    ghost function Finished(): nat {
      completed + errors
    }

    ghost function Plus(other: Tally): Tally
    {
      Tally(completed + other.completed, errors + other.errors, connectErrors + other.connectErrors,
            bytesReceived + other.bytesReceived, bytesSent + other.bytesSent,
            latencies + other.latencies,
            AddTables(statusCounts, other.statusCounts))
    }
  }

  ghost function Zeroes(n: nat): (s: seq<nat>)
    ensures |s| == n && forall i :: 0 <= i < n ==> s[i] == 0
  {
    if n == 0 then [] else Zeroes(n - 1) + [0]
  }

  ghost const ZEROES: StatusTable := Zeroes(STATUSES)
  ghost const NOTHING: Tally := Tally(0, 0, 0, 0, 0, [], ZEROES)

  lemma NothingConsistent()
    ensures NOTHING.Consistent()
  {
    SumZero(ZEROES);
  }

  lemma SuccessConsistent(t: Tally, status: Status, latency: nat)
    requires t.Consistent()
    ensures t.Success(status, latency).Consistent()
  {
    SumUpdate(t.statusCounts, status, t.statusCounts[status] + 1);
  }

  lemma FailuresConsistent(t: Tally, n: nat)
    requires t.Consistent()
    ensures t.Failures(n).Consistent()
  {
  }

  lemma PlusConsistent(a: Tally, b: Tally)
    requires a.Consistent() && b.Consistent()
    ensures a.Plus(b).Consistent()
  {
    SumPointwise(a.statusCounts, b.statusCounts, a.Plus(b).statusCounts);
  }

  /** The statistics of one worker, updated in place. */
  class Stats {
    var completed: nat
    var errors: nat
    var connectErrors: nat
    var bytesReceived: nat
    var bytesSent: nat
    var latencies: seq<nat>
    const statusCounts: array<nat>

    ghost predicate Valid() {
      statusCounts.Length == STATUSES
    }

    ghost function View(): Tally
      requires Valid()
      reads this, statusCounts
    {
      Tally(completed, errors, connectErrors, bytesReceived, bytesSent, latencies, statusCounts[..])
    }

    constructor ()
      ensures Valid() && View() == NOTHING
      ensures fresh(statusCounts)
    {
      completed, errors, connectErrors, bytesReceived, bytesSent := 0, 0, 0, 0, 0;
      latencies := [];
      statusCounts := new nat[STATUSES](_ => 0);
    }

    method RecordSuccess(status: Status, latency: nat)
      requires Valid()
      modifies this, statusCounts
      ensures View() == old(View()).Success(status, latency)
    {
      completed := completed + 1;
      statusCounts[status] := statusCounts[status] + 1;
      latencies := latencies + [latency];
    }

    method Merge(other: Stats)
      requires other != this && other.statusCounts != statusCounts
      requires Valid() && other.Valid()
      modifies this, statusCounts
      ensures View() == old(View()).Plus(other.View())
    {
      completed := completed + other.completed;
      errors := errors + other.errors;
      connectErrors := connectErrors + other.connectErrors;
      bytesReceived := bytesReceived + other.bytesReceived;
      bytesSent := bytesSent + other.bytesSent;
      latencies := latencies + other.latencies;
      for i := 0 to statusCounts.Length
        modifies statusCounts
        invariant forall k :: 0 <= k < i ==> statusCounts[k] == old(statusCounts[k]) + other.statusCounts[k]
        invariant forall k :: i <= k < statusCounts.Length ==> statusCounts[k] == old(statusCounts[k])
      {
        statusCounts[i] := statusCounts[i] + other.statusCounts[i];
      }
    }
  }

  // ---- Many workers ----

  /** The workers' tallies as one, in worker order. */
  ghost function Merged(ts: seq<Tally>): Tally {
    if ts == [] then NOTHING else Merged(ts[..|ts| - 1]).Plus(ts[|ts| - 1])
  }

  lemma NothingPlus(t: Tally)
    ensures NOTHING.Plus(t) == t
  {
    assert NOTHING.Plus(t).statusCounts == t.statusCounts;
  }

  ghost function FinishedAll(ts: seq<Tally>): seq<int> {
    seq(|ts|, i requires 0 <= i < |ts| => ts[i].Finished())
  }

  ghost function Samples(ts: seq<Tally>): seq<nat> {
    if ts == [] then [] else Samples(ts[..|ts| - 1]) + ts[|ts| - 1].latencies
  }

  /** A number of the report. */
  datatype Figure = Completed | Errors | ConnectErrors | BytesReceived | BytesSent | Row(status: Status)

  function Shown(t: Tally, figure: Figure): nat {
    match figure
    case Completed => t.completed
    case Errors => t.errors
    case ConnectErrors => t.connectErrors
    case BytesReceived => t.bytesReceived
    case BytesSent => t.bytesSent
    case Row(status) => t.statusCounts[status]
  }

  ghost function ShownAll(ts: seq<Tally>, figure: Figure): seq<int> {
    seq(|ts|, i requires 0 <= i < |ts| => Shown(ts[i], figure))
  }

  /** Every number of the merged report, each row of its table included, is
      the sum of the workers'. */
  lemma {:induction false} MergedSums(ts: seq<Tally>, figure: Figure)
    ensures Shown(Merged(ts), figure) == Sum(ShownAll(ts, figure))
  {
    if ts != [] {
      var init := ts[..|ts| - 1];
      MergedSums(init, figure);
      assert ShownAll(ts, figure)[..|ts| - 1] == ShownAll(init, figure);
    }
  }

  /** Merging loses nothing: every number adds up, the samples follow one
      another in worker order, and the table still sums to what completed. */
  lemma {:induction false} MergedIs(ts: seq<Tally>)
    requires forall i :: 0 <= i < |ts| ==> ts[i].Consistent()
    ensures Merged(ts).Consistent()
    ensures Merged(ts).Finished() == Sum(FinishedAll(ts))
    ensures Merged(ts).latencies == Samples(ts)
    ensures forall figure :: Shown(Merged(ts), figure) == Sum(ShownAll(ts, figure))
  {
    forall figure {
      MergedSums(ts, figure);
    }
    if ts == [] {
      NothingConsistent();
    } else {
      hide Tally.Consistent, Shown;
      var init := ts[..|ts| - 1];
      MergedIs(init);
      PlusConsistent(Merged(init), ts[|ts| - 1]);
      assert FinishedAll(ts)[..|ts| - 1] == FinishedAll(init);
    }
  }

  /** Combine worker results: a sole worker's is the report as it stands, an
      error is the first there is, and otherwise every worker is merged.
      `tallies` is what the workers that succeeded counted. */
  method MergeWorkers<E>(results: seq<Result<Stats, E>>, ghost tallies: seq<Tally>) returns (r: Result<Stats, E>)
    requires |tallies| == |results|
    requires forall i :: 0 <= i < |results| && results[i].Ok? ==>
               results[i].value.Valid() && results[i].value.View() == tallies[i]
    ensures r.Err? <==> exists i :: 0 <= i < |results| && results[i].Err?
    ensures r.Err? ==> exists i :: 0 <= i < |results| && results[i] == r && forall j :: 0 <= j < i ==> results[j].Ok?
    ensures r.Ok? ==> r.value.Valid() && r.value.View() == Merged(tallies)
  {
    if |results| == 1 {
      r := results[0];
      assert tallies[..0] == [];
      NothingPlus(tallies[0]);
      return;
    }
    var stats := new Stats();
    for k := 0 to |results|
      invariant forall i :: 0 <= i < k ==> results[i].Ok?
      invariant fresh(stats) && fresh(stats.statusCounts) && stats.Valid()
      invariant stats.View() == Merged(tallies[..k])
    {
      if results[k].Err? {
        return results[k];
      }
      assert tallies[..k + 1][..k] == tallies[..k];
      stats.Merge(results[k].value);
    }
    assert tallies[..|results|] == tallies;
    r := Ok(stats);
  }
}
