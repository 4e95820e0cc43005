/**
 The HTTP/1.1 worker, in plaintext and over TLS, updated in place.

 Every method is proved to compute the function of the same meaning in
 `Http1Accounting`. The ghost fields are what the kernel holds and what has
 been on the wire.
 */
module Http1Worker {
  import opened Statistics
  import opened Batches
  import opened Http1Accounting
  import Http1Results

  class Conn {
    var dialing: bool
    var connected: bool
    var active: bool
    var timed: bool
    var sending: bool
    var queued: bool
    var outOff: nat
    /** Ciphertext being sent, over TLS. */
    var out: Bytes
    ghost var trace: Trace

    ghost function View(): ConnView
      reads this
    {
      ConnView(dialing, connected, active, timed, sending, queued, outOff, out, trace)
    }

    constructor ()
      ensures View() == IDLE
    {
      dialing, connected, active, timed, sending, queued := false, false, false, false, false, false;
      outOff, out, trace := 0, [], NO_TRACE;
    }

    method Close()
      modifies this
      ensures View() == Closed(old(View()))
    {
      dialing := false;
      connected := false;
      sending := false;
      queued := false;
      outOff, out := 0, [];
      trace := NO_TRACE;
    }

    method BeginRequest(timeout: bool)
      modifies this
      ensures View() == Begin(old(View()), timeout)
    {
      active, timed := true, timeout;
    }

    method EndRequest()
      modifies this
      ensures View() == End(old(View()))
    {
      active, timed := false, false;
    }

    method StartConnect()
      modifies this
      ensures View() == old(View()).(dialing := true)
    {
      dialing := true;
    }

    lemma ShowsTrace()
      ensures View().trace == trace
    {
    }

    /** Over TLS the session has taken the request; in plaintext the offset
        goes back to zero, unless a send is out. */
    method QueueRequest(run: Run)
      modifies this
      ensures View() == Queue(old(View()), run)
    {
      if run.tls {
        return;
      }
      if sending {
        trace := trace.Leave(queued);
        queued := true;
      } else {
        outOff := 0;
        trace := trace.Restart();
      }
    }

    /** `cipher` is what the session would drain now. */
    method FlushOutput(run: Run, cipher: Bytes)
      modifies this
      ensures View() == Flush(old(View()), run, cipher)
      ensures old(WireOk(View(), run) && connected) ==>
                WireOk(View(), run) && trace.wire == old(trace.wire) && (!run.tls ==> View() == old(View()))
    {
      hide PlainOk, CipherOk;
      if WireOk(View(), run) && connected {
        FlushIdle(View(), run, cipher);
      }
      if sending {
        return;
      }
      if run.tls {
        out, trace := cipher, trace.Drain(cipher);
        if cipher != [] {
          outOff, sending, trace := 0, true, trace.Submit(cipher);
        }
      } else if outOff < |run.request| {
        sending, trace := true, trace.Submit(run.request[outOff..]);
      }
    }

    /** A next request goes behind what is on the wire. */
    method QueueAndFlushRequest(run: Run, cipher: Bytes)
      modifies this
      ensures View() == QueueAndFlush(old(View()), run, cipher)
      ensures old(WireOk(View(), run) && connected) ==>
                WireOk(View(), run) && trace.wire == old(trace.wire) && active == old(active)
    {
      hide WireOk, Queue, Flush;
      if WireOk(View(), run) && connected {
        QueueAndFlushWire(View(), run, cipher);
      }
      QueueRequest(run);
      FlushOutput(run, cipher);
    }

    /** A send completed with `n` bytes taken: they are on the wire, and what
        is outstanding now is exactly the rest. */
    method OnSent(n: nat, run: Run, cipher: Bytes)
      requires n <= |trace.flight|
      modifies this
      ensures View() == Sent(old(View()), n, run, cipher)
      ensures old(WireOk(View(), run) && sending) ==>
                WireOk(View(), run) && trace.wire == old(trace.wire) + old(trace.flight)[..n]
    {
      hide WireOk, Sent;
      if WireOk(View(), run) && sending {
        SentWire(View(), n, run, cipher);
      }
      CarryOn(n, run, cipher);
    }

    /** Submit the rest of what is being sent, or what is next. */
    method CarryOn(n: nat, run: Run, cipher: Bytes)
      requires n <= |trace.flight|
      modifies this
      ensures View() == Sent(old(View()), n, run, cipher)
    {
      hide WireOk, Flush;
      trace := trace.Took(n);
      outOff := outOff + n;
      var outbound := if run.tls then out else run.request;
      if outOff < |outbound| {
        trace := trace.Submit(outbound[outOff..]);
      } else {
        sending := false;
        if queued {
          queued := false;
          outOff := 0;
          trace := trace.Rewind();
        }
        FlushOutput(run, cipher);
      }
    }
  }

  class Worker {
    const run: Run
    const conns: seq<Conn>
    const stats: Stats
    var started: nat
    var stop: bool

    constructor (connections: nat, run: Run)
      ensures Valid() && State() == Start(connections, run)
      ensures this.run == run
      ensures fresh(stats) && fresh(stats.statusCounts) && fresh(conns)
    {
      hide Conn.View;
      this.run := run;
      var made: seq<Conn> := [];
      var begun := 0;
      for i := 0 to connections
        invariant |made| == i && begun == Begun(i, run.budget)
        invariant forall k :: 0 <= k < i ==> fresh(made[k])
        invariant forall k :: 0 <= k < i ==> made[k].View() == First(k, run)
        invariant forall j, k :: 0 <= j < k < i ==> made[j] != made[k]
      {
        var conn := new Conn();
        if run.budget.MayStart(begun) {
          begun := begun + 1;
          conn.BeginRequest(run.timeout);
          conn.StartConnect();
        }
        made := made + [conn];
      }
      started, stop, conns := begun, false, made;
      stats := new Stats();
      new;
      assert State().conns == Start(connections, run).conns;
    }

    ghost predicate Valid()
      reads this
    {
      stats.Valid() && forall i, j :: 0 <= i < j < |conns| ==> conns[i] != conns[j]
    }

    ghost function Books(): Ledger
      requires stats.Valid()
      reads this, stats, stats.statusCounts
    {
      Ledger(started, stats.View())
    }

    ghost function State(): World
      requires Valid()
      reads this, stats, stats.statusCounts, conns
    {
      World(seq(|conns|, i requires 0 <= i < |conns| reads this, conns => conns[i].View()), Books(), stop)
    }

    /** An error is counted exactly if a request was owed, and none is after. */
    method FailRequestOn(conn: Conn, ghost others: int)
      requires stats.Valid()
      modifies stats, conn
      ensures (conn.View(), Books()) == FailRequest(old(conn.View()), old(Books()))
      ensures stats.errors == old(stats.errors) + (if old(conn.active) then 1 else 0) && !conn.active
      ensures old(Balanced(conn.View(), Books(), run, others)) ==> Settled(conn.View(), Books(), run, others)
    {
      hide WireOk;
      if Balanced(conn.View(), Books(), run, others) {
        FailKeeps(conn.View(), Books(), run, others);
      }
      if conn.active {
        stats.errors := stats.errors + 1;
        conn.EndRequest();
      }
    }

    /** A request is over: its connection carries the next one, or a new
        connection is dialled for it, exactly if there is one to start. */
    method FinishRequest(conn: Conn, keep: bool, cipher: Bytes, ghost others: int)
      requires stats.Valid()
      modifies this, conn
      ensures stop == old(stop)
      ensures (conn.View(), Books()) == Finish(old(conn.View()), old(Books()), keep, run, stop, cipher)
      ensures conn.active <==> !stop && run.budget.MayStart(old(started))
      ensures conn.timed <==> conn.active && run.timeout
      ensures conn.connected == (keep && old(conn.connected))
      ensures conn.dialing == if keep then old(conn.dialing) else conn.active
      ensures started == old(started) + if conn.active then 1 else 0
      ensures old(Settled(conn.View(), Books(), run, others) && (keep ==> conn.connected && !conn.dialing)) ==>
                Balanced(conn.View(), Books(), run, others)
    {
      hide WireOk, Queue, Flush;
      if Settled(conn.View(), Books(), run, others) && (keep ==> conn.connected && !conn.dialing) {
        FinishKeeps(conn.View(), Books(), keep, run, stop, cipher, others);
      }
      FinishActive(conn.View(), Books(), keep, run, stop, cipher);
      conn.EndRequest();
      if !stop && run.budget.MayStart(started) {
        started := started + 1;
        conn.BeginRequest(run.timeout);
        if keep {
          conn.QueueAndFlushRequest(run, cipher);
        } else {
          conn.Close();
          conn.StartConnect();
        }
      } else if !keep {
        conn.Close();
      }
    }

    /** Whatever was received, a result is counted exactly if it ends a request
        that is owed. */
    method OnReceive(conn: Conn, rx: Receipt, cipher: Bytes, ghost others: int)
      requires stats.Valid()
      modifies this, stats, stats.statusCounts, conn
      ensures stop == old(stop)
      ensures (conn.View(), Books()) == Receive(old(conn.View()), old(Books()), rx, run, stop, cipher)
      ensures old(Balanced(conn.View(), Books(), run, others) && conn.connected) ==>
                && Balanced(conn.View(), Books(), run, others)
                && stats.completed + stats.errors
                   == old(stats.completed + stats.errors) + if Ends(rx) && old(conn.active) then 1 else 0
      ensures var before, after := old(stats.View()), stats.View();
              if old(conn.active) && (rx.Response? || (rx.Eof? && rx.complete)) then
                && after.statusCounts == before.statusCounts[rx.status := before.statusCounts[rx.status] + 1]
                && after.latencies == before.latencies + [rx.latency]
              else after.statusCounts == before.statusCounts && after.latencies == before.latencies
    {
      hide Finish, Flush, WireOk, LedgerOk;
      if Balanced(conn.View(), Books(), run, others) && conn.connected {
        ReceiveKeeps(conn.View(), Books(), rx, run, stop, cipher, others);
      }
      match rx {
        case NoBuffers =>
        case Partial => conn.FlushOutput(run, cipher);
        case Eof(complete, status, latency) =>
          if conn.active {
            if complete {
              stats.RecordSuccess(status, latency);
            } else {
              stats.errors := stats.errors + 1;
            }
            conn.EndRequest();
          }
          FinishRequest(conn, false, cipher, others);
        case Response(status, latency, keepAlive) =>
          if conn.active {
            stats.RecordSuccess(status, latency);
          }
          FinishRequest(conn, keepAlive, cipher, others);
        case _ =>
          FailRequestOn(conn, others);
          FinishRequest(conn, false, cipher, others);
      }
    }

    method StepOne(conn: Conn, step: Step, ghost others: int)
      requires stats.Valid() && !step.Deadline? && (step.SendDone? ==> step.n <= |conn.trace.flight|)
      modifies this, stats, stats.statusCounts, conn
      ensures stop == old(stop)
      ensures (conn.View(), Books()) == StepConn(old(conn.View()), old(Books()), step, run, stop)
    {
      hide Finish, Receive, Flush, Queue, Sent, WireOk, Balanced, Settled;
      match step {
        case Connect(_, cipher) =>
          conn.dialing, conn.connected := false, true;
          conn.BeginRequest(run.timeout);
          conn.QueueAndFlushRequest(run, cipher);
        case ConnectError(_) =>
          conn.dialing := false;
          stats.errors := stats.errors + 1;
          stats.connectErrors := stats.connectErrors + 1;
          FinishRequest(conn, false, [], others);
        case SendDone(_, n, cipher) =>
          stats.bytesSent := stats.bytesSent + n;
          conn.OnSent(n, run, cipher);
        case SendError(_) =>
          FailRequestOn(conn, others);
          FinishRequest(conn, false, [], others);
        case Received(_, rx, cipher) =>
          OnReceive(conn, rx, cipher, others);
        case Timeout(_) =>
          OnTimeout(conn, others);
      }
    }

    /** A response that does not come is a failure, and its connection goes. */
    method OnTimeout(conn: Conn, ghost others: int)
      requires stats.Valid()
      modifies this, stats, conn
      ensures stop == old(stop)
      ensures (conn.View(), Books()) == StepConn(old(conn.View()), old(Books()), Timeout(0), run, stop)
    {
      hide Finish, Receive, Flush, Queue, Sent, WireOk, Balanced, Settled;
      FailRequestOn(conn, others);
      conn.Close();
      if !stop && run.budget.MayStart(started) {
        started := started + 1;
        conn.BeginRequest(false);
        conn.StartConnect();
      }
    }

    method Step(step: Step)
      requires Valid() && Possible(State(), step)
      modifies this, stats, stats.statusCounts, conns
      ensures Valid()
      ensures State() == Next(old(State()), step, run)
    {
      hide Conn.View, StepConn;
      if step.Deadline? {
        stop := true;
        return;
      }
      assert conns[step.i].View() == State().conns[step.i];
      conns[step.i].ShowsTrace();
      StepOne(conns[step.i], step, 0);
    }

    /** The completions of one wait, in order. */
    method RunBatch(batch: seq<Step>, ghost rest: seq<Step>, ghost from: World, ghost before: seq<Step>)
        returns (ghost taken: seq<Step>)
      requires Valid() && WorldOk(State(), run)
      requires IsRun(from, before, run) && State() == After(from, before, run)
      requires IsRun(State(), batch + rest, run)
      modifies this, stats, stats.statusCounts, conns
      ensures Valid() && WorldOk(State(), run)
      ensures taken == before + batch
      ensures IsRun(from, taken, run) && State() == After(from, taken, run)
      ensures IsRun(State(), rest, run)
    {
      hide Valid, State, WorldOk, Next, Possible, IsRun, After;
      taken := before;
      for j := 0 to |batch|
        invariant Valid() && WorldOk(State(), run)
        invariant taken == before + batch[..j]
        invariant IsRun(from, taken, run) && State() == After(from, taken, run)
        invariant IsRun(State(), batch[j..] + rest, run)
      {
        assert batch[j..] + rest == [batch[j]] + (batch[j + 1..] + rest);
        RunHead(State(), batch[j], batch[j + 1..] + rest, run);
        NextKeeps(State(), batch[j], run);
        RunSnoc(from, taken, batch[j], run);
        Step(batch[j]);
        taken := taken + [batch[j]];
        assert before + batch[..j + 1] == before + batch[..j] + [batch[j]];
      }
      assert batch[|batch|..] + rest == rest && batch[..|batch|] == batch;
    }

    /** Batch after batch, until the budget is met, the deadline has passed
        or nothing more happens. */
    method RunBatches(batches: seq<seq<Step>>, ghost from: World) returns (ghost taken: seq<Step>)
      requires Valid() && WorldOk(State(), run) && State() == from
      requires IsRun(from, Flatten(batches), run)
      modifies this, stats, stats.statusCounts, conns
      ensures Valid() && WorldOk(State(), run)
      ensures taken <= Flatten(batches)
      ensures taken == Flatten(batches) || stop || run.budget.IsMet(stats.completed + stats.errors)
      ensures IsRun(from, taken, run) && State() == After(from, taken, run)
    {
      hide Valid, State, WorldOk, Next, Possible, IsRun, After;
      taken := [];
      RunNothing(from, run);
      assert batches[0..] == batches;
      var k := 0;
      while k < |batches| && !stop && !run.budget.IsMet(stats.completed + stats.errors)
        invariant 0 <= k <= |batches|
        invariant Valid() && WorldOk(State(), run)
        invariant Flatten(batches) == taken + Flatten(batches[k..])
        invariant IsRun(from, taken, run) && State() == After(from, taken, run)
        invariant IsRun(State(), Flatten(batches[k..]), run)
        decreases |batches| - k
      {
        assert batches[k..][1..] == batches[k + 1..];
        taken := RunBatch(batches[k], Flatten(batches[k + 1..]), from, taken);
        k := k + 1;
      }
      assert k == |batches| ==> batches[k..] == [];
    }

    lemma TallyShown()
      requires Valid()
      ensures State().ledger.tally == stats.View() && State().stop == stop
    {
    }
  }

  /** The benchmark loop. `batches` is what the kernel, the server and the
      clock do, one batch of completions a wait. */
  method RunWorker(connections: nat, run: Run, batches: seq<seq<Step>>)
      returns (stats: Stats, met: bool, ghost taken: seq<Step>)
    requires IsRun(Start(connections, run), Flatten(batches), run)
    ensures stats.Valid() && stats.View().Consistent()
    ensures taken <= Flatten(batches) && IsRun(Start(connections, run), taken, run)
    ensures stats.View() == After(Start(connections, run), taken, run).ledger.tally
    ensures var w := Start(connections, run);
            Http1Results.Reported(NOTHING, stats.View(), Http1Results.Answered(w, taken, run),
                                  Http1Results.Lost(w, taken, run), Http1Results.SentBytes(taken))
    ensures taken == Flatten(batches) || connections == 0 || met || After(Start(connections, run), taken, run).stop
    ensures met <==> run.budget.IsMet(stats.completed + stats.errors)
    ensures run.budget.Requests? ==> stats.completed + stats.errors <= run.budget.n
  {
    hide Worker.Valid, Worker.State, WorldOk, Next, Possible, IsRun, After, Http1Results.Reported;
    taken, met := [], false;
    if connections == 0 || run.budget.IsEmpty() {
      stats := new Stats();
      NothingConsistent();
      RunNothing(Start(connections, run), run);
      Http1Results.RunReports(Start(connections, run), [], run);
      met := run.budget.IsEmpty();
      return;
    }
    var w := new Worker(connections, run);
    StartOk(connections, run);
    RunNothing(w.State(), run);
    taken := w.RunBatches(batches, w.State());
    stats := w.stats;
    met := run.budget.IsMet(stats.completed + stats.errors);
    w.TallyShown();
    MetExactly(w.State(), run);
    Http1Results.RunReports(Start(connections, run), taken, run);
  }
}
