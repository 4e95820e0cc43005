/**
 A whole benchmark: the budget is split over the threads, each thread runs its
 worker, and the workers' statistics are merged into one report.
 */
module WholeRun {
  import opened Wrappers
  import opened Sums
  import opened Batches
  import opened Budgets
  import opened Statistics
  import Http1Accounting
  import Http1Worker
  import Http2Accounting
  import Http2Worker
  import Http3Accounting
  import Http3Worker

  /** One thread's protocol, and all that the kernel, the peer and the clock
      do to it. */
  datatype Script =
    | Http1(request: Http1Accounting.Bytes, timeout: bool, tls: bool, batches1: seq<seq<Http1Accounting.Step>>)
    | Http2(parallel: nat, batches2: seq<seq<Http2Accounting.Step>>)
    | Http3(parallel: nat, batches3: seq<seq<Http3Accounting.Step>>)

  ghost predicate Plausible(script: Script, connections: nat, b: Budget) {
    match script
    case Http1(request, timeout, tls, batches) =>
      var run := Http1Accounting.Run(b, request, timeout, tls);
      Http1Accounting.IsRun(Http1Accounting.Start(connections, run), Flatten(batches), run)
    case Http2(parallel, batches) =>
      Http2Accounting.IsRun(Http2Accounting.Start(connections, b), Flatten(batches), b, parallel)
    case Http3(parallel, batches) =>
      Http3Accounting.IsRun(Http3Accounting.Start(connections, b), Flatten(batches), b, parallel)
  }

  /** The tally is that of a run of the script, up to where it was stopped. */
  ghost predicate Reports(script: Script, connections: nat, b: Budget, t: Tally) {
    match script
    case Http1(request, timeout, tls, batches) =>
      var run := Http1Accounting.Run(b, request, timeout, tls);
      var w := Http1Accounting.Start(connections, run);
      exists taken :: Http1Accounting.IsRun(w, taken, run) && taken <= Flatten(batches)
                      && t == Http1Accounting.After(w, taken, run).ledger.tally
    case Http2(parallel, batches) =>
      var w := Http2Accounting.Start(connections, b);
      exists taken :: Http2Accounting.IsRun(w, taken, b, parallel) && taken <= Flatten(batches)
                      && t == Http2Accounting.Run(w, taken, b, parallel).ledger.tally
    case Http3(parallel, batches) =>
      var w := Http3Accounting.Start(connections, b);
      exists taken :: Http3Accounting.IsRun(w, taken, b, parallel) && taken <= Flatten(batches)
                      && t == Http3Accounting.Run(w, taken, b, parallel).ledger.tally
  }

  /** Whatever the protocol, a worker never reports more than its budget, and
      met it exactly if it reports all of it. */
  method RunThread(script: Script, connections: nat, b: Budget) returns (stats: Stats, met: bool)
    requires Plausible(script, connections, b)
    ensures stats.Valid() && stats.View().Consistent()
    ensures Reports(script, connections, b, stats.View())
    ensures met <==> b.IsMet(stats.completed + stats.errors)
    ensures b.Requests? ==> stats.completed + stats.errors <= b.n
  {
    hide Tally.Consistent, Http1Accounting.IsRun, Http2Accounting.IsRun, Http3Accounting.IsRun;
    hide Http1Accounting.Start, Http2Accounting.Start, Http3Accounting.Start;
    hide Http1Accounting.After, Http2Accounting.Run, Http3Accounting.Run;
    match script {
      case Http1(request, timeout, tls, batches) =>
        ghost var taken1;
        stats, met, taken1 := Http1Worker.RunWorker(connections, Http1Accounting.Run(b, request, timeout, tls), batches);
      case Http2(parallel, batches) =>
        ghost var taken2;
        stats, met, taken2 := Http2Worker.RunWorker(connections, b, parallel, batches);
      case Http3(parallel, batches) =>
        ghost var taken3;
        stats, met, taken3 := Http3Worker.RunWorker(connections, b, parallel, batches);
    }
  }

  /** What is known of one thread's result: a worker that could not go on has
      its error, any other reports a run within its budget. */
  ghost predicate Joined<E>(thread: Result<Script, E>, connections: nat, b: Budget, result: Result<Stats, E>, t: Tally) {
    match thread
    case Err(e) => result == Err(e)
    case Ok(script) =>
      result.Ok? && Reports(script, connections, b, t) && t.Consistent() && t.Finished() <= Expected(b)
  }

  /** Every thread, on its own budget. `met` is whether all that did not fail
      met it. */
  method RunThreads<E>(connections: seq<nat>, threads: seq<Result<Script, E>>, budgets: seq<Budget>)
      returns (results: seq<Result<Stats, E>>, met: bool, ghost tallies: seq<Tally>)
    requires |connections| == |threads| == |budgets|
    requires forall i :: 0 <= i < |threads| ==> budgets[i].Requests?
    requires forall i :: 0 <= i < |threads| && threads[i].Ok? ==> Plausible(threads[i].value, connections[i], budgets[i])
    ensures |results| == |tallies| == |threads|
    ensures forall i :: 0 <= i < |threads| ==> Joined(threads[i], connections[i], budgets[i], results[i], tallies[i])
    ensures forall i :: 0 <= i < |threads| && results[i].Ok? ==>
              results[i].value.Valid() && results[i].value.View() == tallies[i]
    ensures met <==> forall i :: 0 <= i < |threads| && threads[i].Ok? ==> tallies[i].Finished() == budgets[i].n
  {
    hide Plausible, Reports, Tally.Consistent;
    results, tallies, met := [], [], true;
    for i := 0 to |threads|
      invariant |results| == |tallies| == i
      invariant forall k :: 0 <= k < i ==> Joined(threads[k], connections[k], budgets[k], results[k], tallies[k])
      invariant forall k :: 0 <= k < i && results[k].Ok? ==>
                  results[k].value.Valid() && results[k].value.View() == tallies[k]
      invariant met <==> forall k :: 0 <= k < i && threads[k].Ok? ==> tallies[k].Finished() == budgets[k].n
    {
      if threads[i].Err? {
        results, tallies := results + [Err(threads[i].error)], tallies + [NOTHING];
      } else {
        var worker, done := RunThread(threads[i].value, connections[i], budgets[i]);
        results, tallies := results + [Ok(worker)], tallies + [worker.View()];
        met := met && done;
      }
    }
  }

  lemma SharesMet(tallies: seq<Tally>, budgets: seq<Budget>)
    requires |tallies| == |budgets|
    requires forall i :: 0 <= i < |tallies| ==> tallies[i].Consistent() && tallies[i].Finished() <= Expected(budgets[i])
    ensures Merged(tallies).Consistent() && Merged(tallies).Finished() <= Sum(Counts(budgets))
    ensures Merged(tallies).latencies == Samples(tallies)
    ensures forall figure :: Shown(Merged(tallies), figure) == Sum(ShownAll(tallies, figure))
    ensures Merged(tallies).Finished() == Sum(Counts(budgets)) <==>
              forall i :: 0 <= i < |tallies| ==> tallies[i].Finished() == Expected(budgets[i])
  {
    hide Tally.Consistent, Tally.Finished, Expected, Merged, Sum, Shown, ShownAll;
    MergedIs(tallies);
    var a, b := FinishedAll(tallies), Counts(budgets);
    SumBelow(a, b);
    assert a == b <==> forall i :: 0 <= i < |a| ==> a[i] == b[i];
  }

  /** The whole of a counted run: the first worker that failed fails it;
      otherwise the report never counts more than the requests asked for,
      counts exactly those just if every thread met its share, each of its
      numbers is the sum of the threads', and its samples are the threads' own,
      one after another in thread order. */
  method Benchmark<E>(n: nat, connections: seq<nat>, threads: seq<Result<Script, E>>)
      returns (r: Result<Stats, E>, met: bool, ghost tallies: seq<Tally>)
    requires |connections| == |threads| > 0
    requires forall i :: 0 <= i < |threads| && threads[i].Ok? ==>
               Plausible(threads[i].value, connections[i], Requests(n).Split(|threads|)[i])
    ensures r.Err? <==> exists i :: 0 <= i < |threads| && threads[i].Err?
    ensures r.Err? ==> exists i :: 0 <= i < |threads| && threads[i] == Err(r.error)
                                   && forall j :: 0 <= j < i ==> threads[j].Ok?
    ensures |tallies| == |threads|
    ensures r.Ok? ==> forall i :: 0 <= i < |threads| ==>
              Reports(threads[i].value, connections[i], Requests(n).Split(|threads|)[i], tallies[i])
    ensures r.Ok? ==> r.value.Valid() && r.value.View().Consistent() && r.value.latencies == Samples(tallies)
    ensures r.Ok? ==> forall figure :: Shown(r.value.View(), figure) == Sum(ShownAll(tallies, figure))
    ensures r.Ok? ==> r.value.completed + r.value.errors <= n
    ensures r.Ok? ==> (met <==> r.value.completed + r.value.errors == n)
  {
    hide Plausible, Reports, Tally.Consistent, Merged, Samples, Budget.Split, Shown, ShownAll;
    var budgets := Requests(n).Split(|threads|);
    SplitTotal(n, |threads|);
    var results;
    results, met, tallies := RunThreads(connections, threads, budgets);
    r := MergeWorkers(results, tallies);
    assert forall i :: 0 <= i < |threads| ==>
        Joined(threads[i], connections[i], budgets[i], results[i], tallies[i]) && (results[i].Err? <==> threads[i].Err?);
    if r.Err? {
      ghost var i :| 0 <= i < |results| && results[i] == r && forall j :: 0 <= j < i ==> results[j].Ok?;
      assert threads[i] == Err(r.error);
    } else {
      SharesMet(tallies, budgets);
    }
  }
}
