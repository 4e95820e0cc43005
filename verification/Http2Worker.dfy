/**
 The HTTP/2 worker's bookkeeping, updated in place.

 A `Conn` keeps its requests in a `Ring`; the `Worker` owns the counters. Every
 method is proved to compute the function of the same name in `Http2Accounting`,
 so what is proved there of every run holds of this code. The kernel, the peer
 and the clock are parameters.
 */
module Http2Worker {
  import opened Inflight
  import opened Batches
  import opened Budgets
  import opened Statistics
  import opened Ledgers
  import opened Http2Accounting

  class Conn {
    var dialing: bool
    var connected: bool
    var handshaking: bool
    var goaway: bool
    /** Next client stream id of the protocol connection. */
    var nextId: nat
    const streams: Ring<Request>
    var answered: nat
    var held: nat
    var idleSince: nat
    ghost var newest: nat

    ghost predicate Valid()
      reads this, streams
    {
      && streams.Valid()
      && streams.numbering.H2?
      && nextId % 2 == 1
      && (streams.Live() != map[] ==> streams.next == nextId / 2)
    }

    ghost function View(): ConnView
      requires Valid()
      reads this, streams
    {
      ConnView(dialing, connected, handshaking, goaway, nextId, streams.Live(), answered, held, idleSince, newest)
    }

    constructor (dial: bool)
      ensures Valid() && fresh(streams)
      ensures View() == FRESH.(dialing := dial)
    {
      dialing, connected, handshaking, goaway := dial, false, false, false;
      nextId, answered, held, idleSince, newest := 1, 0, 0, 0, 0;
      streams := new Ring(H2);
    }

    /** Reset for the next connection in this slot. */
    method Close(now: nat)
      requires Valid()
      modifies this, streams
      ensures Valid() && View() == Closed(old(View()), now)
    {
      hide Ring.Valid, Ring.Live;
      dialing, connected, handshaking, goaway := false, false, false, false;
      streams.Clear();
      nextId, answered, held, idleSince := 1, 0, 0, now;
    }

    /** Only the oldest request is looked at: requests are stamped once, in
        stream order, and the ring keeps the oldest in slot zero. */
    method TimedOut(now: nat, limit: nat, mayStart: bool) returns (wedged: bool)
      requires Valid() && Ordered(streams.Live(), nextId, newest)
      modifies this`idleSince
      ensures wedged <==> Expired(old(View()), now, limit, mayStart)
      ensures wedged <==>
                var live := streams.Live();
                if live != map[] then exists id :: id in live && (limit == 0 || live[id].start + limit <= now)
                else connected && (held > 0 || mayStart) && (limit == 0 || old(idleSince) + limit <= now)
      ensures View() == if old(View()).streams != map[] then old(View()).(idleSince := now) else old(View())
    {
      hide Ring.Valid, Ring.Live, Elapsed;
      streams.Oldest();
      var oldest := streams.Slot(0);
      if oldest.Some? {
        idleSince := now;
        wedged := Elapsed(now, oldest.value.start) >= limit;
        ElapsedIs(now, oldest.value.start, limit);
        OldestDecides(streams.Live(), streams.numbering.StreamId(streams.base), nextId, newest, now, limit);
      } else {
        ElapsedIs(now, idleSince, limit);
        wedged := connected && (held > 0 || mayStart) && Elapsed(now, idleSince) >= limit;
      }
    }
  }

  /** If the oldest request has not expired, no younger one can have. */
  lemma OldestDecides(live: map<nat, Request>, oldest: nat, nextId: nat, newest: nat, now: nat, limit: nat)
    requires Ordered(live, nextId, newest)
    requires oldest in live && forall id :: id in live ==> oldest <= id
    ensures Passed(live[oldest].start, limit, now) <==> exists id :: id in live && Passed(live[id].start, limit, now)
  {
  }

  class Worker {
    const budget: Budget
    const parallel: nat
    const conns: seq<Conn>
    const stats: Stats
    var started: nat
    var stop: bool
    /** Streams ever opened, and requests ever returned to the budget. */
    ghost var begun: nat
    ghost var refunded: nat

    constructor (connections: nat, budget: Budget, parallel: nat)
      ensures Valid() && State() == Start(connections, budget)
      ensures this.budget == budget && this.parallel == parallel
      ensures fresh(stats) && fresh(stats.statusCounts)
      ensures fresh(conns) && fresh(set c | c in conns :: c.streams)
    {
      hide Ring.Valid, Ring.Live, Conn.Valid, Conn.View;
      this.budget, this.parallel := budget, parallel;
      started, stop, begun, refunded := 0, false, 0, 0;
      var made: seq<Conn> := [];
      for i := 0 to connections
        invariant |made| == i
        invariant forall k :: 0 <= k < i ==> fresh(made[k]) && fresh(made[k].streams) && made[k].Valid()
        invariant forall k :: 0 <= k < i ==> made[k].View() == FRESH.(dialing := budget.MayStart(k))
        invariant forall j, k :: 0 <= j < k < i ==> made[j] != made[k] && made[j].streams != made[k].streams
      {
        var conn := new Conn(budget.MayStart(i));
        made := made + [conn];
      }
      conns := made;
      stats := new Stats();
      new;
      assert State().conns == Start(connections, budget).conns;
    }

    /** No two connections share storage, and none shares it with the counters. */
    ghost predicate Separate()
      reads this
    {
      && (forall i, j :: 0 <= i < j < |conns| ==> conns[i] != conns[j])
      && (forall i, j :: 0 <= i < j < |conns| ==> conns[i].streams != conns[j].streams)
    }

    ghost predicate Valid()
      reads this, conns, set c | c in conns :: c.streams
    {
      && stats.Valid()
      && Separate()
      && forall i :: 0 <= i < |conns| ==> conns[i].Valid()
    }

    ghost function State(): World
      requires Valid()
      reads this, stats, stats.statusCounts, conns, set c | c in conns :: c.streams
    {
      World(seq(|conns|, i requires 0 <= i < |conns| reads this, conns, set c | c in conns :: c.streams
                         requires conns[i].Valid() => conns[i].View()),
            Books(), stop)
    }

    ghost function Books(): Ledger
      requires stats.Valid()
      reads this, stats, stats.statusCounts
    {
      Ledger(started, begun, refunded, stats.View())
    }

    /** One stream ended. If it was answered, everything held on its connection
        is refunded in the same step. */
    method EndStream(conn: Conn, id: nat, now: nat)
      requires stats.Valid() && conn.Valid() && conn.held <= started
      modifies this, stats, stats.statusCounts, conn, conn.streams
      ensures conn.Valid() && stop == old(stop)
      ensures (conn.View(), Books()) == ApplyEvent(old(conn.View()), old(Books()), End(id), now)
      ensures var live, before, after := old(conn.streams.Live()), old(stats.View()), stats.View();
              if id in live && live[id].status != 0 then
                var status, start := live[id].status, live[id].start;
                && after.statusCounts == before.statusCounts[status := before.statusCounts[status] + 1]
                && Gains(before.latencies, after.latencies, now, [start])
              else after.statusCounts == before.statusCounts && after.latencies == before.latencies
    {
      hide Ring.Valid, Ring.Live, Elapsed, Gains;
      var inflight := conn.streams.Take(id);
      if inflight.Some? {
        if inflight.value.status == 0 {
          stats.errors := stats.errors + 1;
        } else {
          GainsFirst(stats.latencies, now, inflight.value.start);
          stats.RecordSuccess(inflight.value.status, Elapsed(now, inflight.value.start));
          conn.answered := conn.answered + 1;
          refunded := refunded + conn.held;
          started := started - conn.held;
          conn.held := 0;
        }
      }
    }

    method ProcessEvent(conn: Conn, e: Event, now: nat, ghost others: nat)
      requires stats.Valid() && conn.Valid()
      requires Balanced(conn.View(), Books(), budget, parallel, others)
      modifies this, stats, stats.statusCounts, conn, conn.streams
      ensures conn.Valid() && stop == old(stop)
      ensures (conn.View(), Books()) == ApplyEvent(old(conn.View()), old(Books()), e, now)
    {
      hide Ring.Valid, Ring.Live, Balanced, Elapsed, Tally.Success;
      NoUnderflow(conn.View(), Books(), budget, parallel, others);
      match e {
        case Status(id, status) =>
          var inflight := conn.streams.Get(id);
          if inflight.Some? {
            var _ := conn.streams.Update(id, inflight.value.(status := status));
          }
        case End(id) =>
          EndStream(conn, id, now);
        case Reset(id) =>
          var inflight := conn.streams.Take(id);
          if inflight.Some? {
            stats.errors := stats.errors + 1;
          }
        case Unprocessed(id) =>
          var inflight := conn.streams.Take(id);
          if inflight.Some? {
            if conn.answered > 0 {
              started := started - 1;
              refunded := refunded + 1;
            } else {
              conn.held := conn.held + 1;
            }
          }
        case Goaway =>
          conn.goaway := true;
      }
    }

    method ProcessEvents(conn: Conn, events: seq<Event>, now: nat, ghost others: nat)
      requires stats.Valid() && conn.Valid()
      requires Balanced(conn.View(), Books(), budget, parallel, others)
      modifies this, stats, stats.statusCounts, conn, conn.streams
      ensures conn.Valid() && stop == old(stop)
      ensures (conn.View(), Books()) == ApplyEvents(old(conn.View()), old(Books()), events, now)
      ensures var live, before, after := old(conn.streams.Live()), old(stats.View()), stats.View();
              && (forall status: Status :: after.statusCounts[status]
                    == before.statusCounts[status] + |Having(live, events, AnswersWith(status))|)
              && Sampled(live, events, before.latencies, after.latencies, now)
    {
      Recorded(conn.View(), Books(), events, now, budget, parallel, others);
      hide Ring.Valid, Ring.Live, ApplyEvent, Balanced;
      for k := 0 to |events|
        invariant conn.Valid() && stop == old(stop)
        invariant Balanced(conn.View(), Books(), budget, parallel, others)
        invariant ApplyEvents(conn.View(), Books(), events[k..], now)
               == ApplyEvents(old(conn.View()), old(Books()), events, now)
      {
        EventKeeps(conn.View(), Books(), events[k], now, budget, parallel, others);
        assert events[k..][0] == events[k] && events[k..][1..] == events[k + 1..];
        ProcessEvent(conn, events[k], now, others);
      }
    }

    method OpenStream(conn: Conn, at: nat)
      requires stats.Valid() && conn.Valid()
      modifies this, conn, conn.streams
      ensures conn.Valid() && stop == old(stop)
      ensures conn.View() == Opened(old(conn.View()), at)
      ensures Books() == old(Books()).(started := old(started) + 1, begun := old(begun) + 1)
    {
      hide Ring.Valid, Ring.Live;
      var id := conn.nextId;
      conn.nextId := conn.nextId + 2;
      conn.streams.Push(id, Request(at, 0));
      conn.newest := at;
      started := started + 1;
      begun := begun + 1;
    }

    /** Open streams until the parallelism target, the budget or the
        protocol's grants run out. */
    method FillStreams(conn: Conn, grants: seq<nat>, exhausted: bool)
      requires stats.Valid() && conn.Valid()
      requires Clocked(conn.newest, grants)
      modifies this, conn, conn.streams
      ensures conn.Valid() && stop == old(stop)
      ensures (conn.View(), Books()) == Fill(old(conn.View()), old(Books()), grants, exhausted, budget, parallel, stop)
      ensures !old(conn.connected) || old(conn.handshaking) || stop || old(conn.goaway) ==>
                begun == old(begun) && conn.streams.Live() == old(conn.streams.Live())
    {
      hide Ring.Valid, Ring.Live, Opened;
      if !conn.connected || conn.handshaking || stop || conn.goaway {
        return;
      }
      var k := 0;
      while conn.streams.Len() < parallel && budget.MayStart(started) && k < |grants|
        invariant 0 <= k <= |grants|
        invariant conn.Valid() && stop == old(stop)
        invariant OpenStreams(conn.View(), Books(), grants[k..], budget, parallel)
               == OpenStreams(old(conn.View()), old(Books()), grants, budget, parallel)
        decreases |grants| - k
      {
        assert grants[k..][0] == grants[k] && grants[k..][1..] == grants[k + 1..];
        OpenStream(conn, grants[k]);
        k := k + 1;
      }
      if exhausted {
        conn.goaway := true;
      }
    }

    method FailConnectAttempt()
      requires stats.Valid()
      modifies this, stats
      ensures Books() == FailConnect(old(Books()), budget) && stop == old(stop)
    {
      if budget.MayStart(started) {
        stats.errors := stats.errors + 1;
        stats.connectErrors := stats.connectErrors + 1;
        started := started + 1;
      }
    }

    /** Fail what is in flight, close, and dial again if budget remains. */
    method Retire(conn: Conn, now: nat)
      requires stats.Valid() && conn.Valid()
      modifies this, stats, conn, conn.streams
      ensures conn.Valid() && stop == old(stop)
      ensures (conn.View(), Books()) == Replace(old(conn.View()), old(Books()), budget, stop, now)
    {
      hide Ring.Valid, Ring.Live;
      stats.errors := stats.errors + conn.streams.Len() + conn.held;
      conn.streams.Clear();
      conn.held := 0;
      conn.Close(now);
      conn.dialing := !stop && budget.MayStart(started);
    }

    method BreakConn(conn: Conn, now: nat)
      requires stats.Valid() && conn.Valid()
      modifies this, stats, conn, conn.streams
      ensures conn.Valid() && stop == old(stop)
      ensures (conn.View(), Books()) == Break(old(conn.View()), old(Books()), budget, stop, now)
    {
      if conn.handshaking {
        FailConnectAttempt();
      }
      Retire(conn, now);
    }

    method OnReceive(conn: Conn, rx: Receipt, ghost others: nat)
      requires stats.Valid() && conn.Valid() && conn.connected
      requires Balanced(conn.View(), Books(), budget, parallel, others)
      requires Clocked(conn.newest, rx.grants)
      modifies this, stats, stats.statusCounts, conn, conn.streams
      ensures conn.Valid() && stop == old(stop)
      ensures (conn.View(), Books()) == Receive(old(conn.View()), old(Books()), rx, budget, parallel, stop)
    {
      hide Ring.Valid, Ring.Live, ApplyEvents, Fill, Break, Balanced;
      var broken := false;
      if rx.handshakeDone {
        if rx.fed && conn.handshaking && !rx.alpnH2 {
          FailConnectAttempt();
          broken := true;
        }
        conn.handshaking := false;
      }
      ghost var c, l := conn.View(), Books();
      FailConnectKeeps(old(conn.View()), old(Books()), budget, parallel, others);
      ShakenKeeps(old(conn.View()), l, budget, parallel, others);
      EventsKeep(c, l, rx.events, rx.now, budget, parallel, others);
      ProcessEvents(conn, rx.events, rx.now, others);
      if !rx.fed || broken || (conn.goaway && conn.streams.IsEmpty()) {
        BreakConn(conn, rx.now);
      } else {
        FillStreams(conn, rx.grants, rx.exhausted);
      }
    }

    method OnTimeout(conn: Conn, now: nat, limit: nat)
      requires stats.Valid() && conn.Valid()
      requires Ordered(conn.View().streams, conn.nextId, conn.newest)
      modifies this, stats, conn, conn.streams
      ensures conn.Valid() && stop == old(stop)
      ensures (conn.View(), Books()) == CheckTimeout(old(conn.View()), old(Books()), now, limit, budget, stop)
    {
      hide Ring.Valid, Ring.Live, Expired, Ordered, Replace, FailConnect;
      var wedged := conn.TimedOut(now, limit, budget.MayStart(started));
      if wedged {
        if conn.streams.IsEmpty() && conn.held == 0 {
          FailConnectAttempt();
        }
        Retire(conn, now);
      }
    }

    /** One completion or timeout check, on the connection it names. */
    method Step(step: Step)
      requires Valid()
      requires Possible(State(), step) && WorldOk(State(), budget, parallel)
      modifies this, stats, stats.statusCounts, conns, set c | c in conns :: c.streams
      ensures Valid()
      ensures State() == Next(old(State()), step, budget, parallel)
    {
      hide Ring.Valid, Ring.Live, Conn.Valid, Conn.View, WorldOk, StepConn, Possible;
      if step.Deadline? {
        stop := true;
        return;
      }
      PossibleAlone(State(), step);
      var conn := conns[step.i];
      ghost var others := OthersOwe(State(), step.i, budget, parallel);
      StepOne(conn, step, others);
      assert forall k :: 0 <= k < |conns| && k != step.i ==> conns[k].View() == old(conns[k].View());
    }

    /** The completions of one wait, in order. */
    method RunBatch(batch: seq<Step>, ghost rest: seq<Step>, ghost from: World, ghost before: seq<Step>)
        returns (ghost taken: seq<Step>)
      requires Valid() && WorldOk(State(), budget, parallel)
      requires IsRun(from, before, budget, parallel) && State() == Run(from, before, budget, parallel)
      requires IsRun(State(), batch + rest, budget, parallel)
      modifies this, stats, stats.statusCounts, conns, set c | c in conns :: c.streams
      ensures Valid() && WorldOk(State(), budget, parallel)
      ensures taken == before + batch
      ensures IsRun(from, taken, budget, parallel) && State() == Run(from, taken, budget, parallel)
      ensures IsRun(State(), rest, budget, parallel)
    {
      hide Ring.Valid, Ring.Live, Valid, State, WorldOk, Next, Possible, IsRun, Run;
      taken := before;
      for j := 0 to |batch|
        invariant Valid() && WorldOk(State(), budget, parallel)
        invariant taken == before + batch[..j]
        invariant IsRun(from, taken, budget, parallel) && State() == Run(from, taken, budget, parallel)
        invariant IsRun(State(), batch[j..] + rest, budget, parallel)
      {
        assert batch[j..] + rest == [batch[j]] + (batch[j + 1..] + rest);
        RunHead(State(), batch[j], batch[j + 1..] + rest, budget, parallel);
        NextKeeps(State(), batch[j], budget, parallel);
        RunSnoc(from, taken, batch[j], budget, parallel);
        Step(batch[j]);
        taken := taken + [batch[j]];
        assert before + batch[..j + 1] == before + batch[..j] + [batch[j]];
      }
      assert batch[|batch|..] + rest == rest && batch[..|batch|] == batch;
    }

    /** Batch after batch, until the budget is met, the deadline has passed
        or nothing more happens. */
    method RunBatches(batches: seq<seq<Step>>, ghost from: World) returns (ghost taken: seq<Step>)
      requires Valid() && WorldOk(State(), budget, parallel) && State() == from
      requires IsRun(from, Flatten(batches), budget, parallel)
      modifies this, stats, stats.statusCounts, conns, set c | c in conns :: c.streams
      ensures Valid() && WorldOk(State(), budget, parallel)
      ensures taken <= Flatten(batches)
      ensures taken == Flatten(batches) || stop || budget.IsMet(stats.completed + stats.errors)
      ensures IsRun(from, taken, budget, parallel) && State() == Run(from, taken, budget, parallel)
    {
      hide Ring.Valid, Ring.Live, Valid, State, WorldOk, Next, Possible, IsRun, Run;
      taken := [];
      RunNothing(from, budget, parallel);
      assert batches[0..] == batches;
      var k := 0;
      while k < |batches| && !stop && !budget.IsMet(stats.completed + stats.errors)
        invariant 0 <= k <= |batches|
        invariant Valid() && WorldOk(State(), budget, parallel)
        invariant Flatten(batches) == taken + Flatten(batches[k..])
        invariant IsRun(from, taken, budget, parallel) && State() == Run(from, taken, budget, parallel)
        invariant IsRun(State(), Flatten(batches[k..]), budget, parallel)
        decreases |batches| - k
      {
        assert batches[k..][1..] == batches[k + 1..];
        taken := RunBatch(batches[k], Flatten(batches[k + 1..]), from, taken);
        k := k + 1;
      }
      assert k == |batches| ==> batches[k..] == [];
    }

    lemma TallyShown()
      requires Valid()
      ensures State().ledger.tally == stats.View() && State().stop == stop
    {
    }

    method StepOne(conn: Conn, step: Step, ghost others: nat)
      requires stats.Valid() && conn.Valid() && !step.Deadline?
      requires Balanced(conn.View(), Books(), budget, parallel, others)
      requires Possible(World([conn.View()], Books(), stop), step.(i := 0))
      modifies this, stats, stats.statusCounts, conn, conn.streams
      ensures conn.Valid() && stop == old(stop)
      ensures (conn.View(), Books()) == StepConn(old(conn.View()), old(Books()), step, budget, parallel, stop)
    {
      hide Ring.Valid, Ring.Live, Fill, Break, Receive, CheckTimeout, Ordered, LedgerOk;
      match step {
        case Connect(_, tls, grants, exhausted) =>
          conn.dialing, conn.connected, conn.handshaking := false, true, tls;
          FillStreams(conn, grants, exhausted);
        case ConnectError(_, now) =>
          conn.dialing := false;
          FailConnectAttempt();
          BreakConn(conn, now);
        case Received(_, rx) =>
          OnReceive(conn, rx, others);
        case IoError(_, now) =>
          BreakConn(conn, now);
        case Timeout(_, now, limit) =>
          OnTimeout(conn, now, limit);
      }
    }
  }

  /** The benchmark loop. `batches` is what the kernel, the peer and the clock
      do, one batch of completions a wait; a batch that reaches the deadline is
      the last. */
  method RunWorker(connections: nat, budget: Budget, parallel: nat, batches: seq<seq<Step>>)
      returns (stats: Stats, met: bool, ghost taken: seq<Step>)
    requires IsRun(Start(connections, budget), Flatten(batches), budget, parallel)
    ensures stats.Valid() && stats.View().Consistent()
    ensures taken <= Flatten(batches) && IsRun(Start(connections, budget), taken, budget, parallel)
    ensures stats.View() == Run(Start(connections, budget), taken, budget, parallel).ledger.tally
    ensures taken == Flatten(batches) || connections == 0 || met
         || Run(Start(connections, budget), taken, budget, parallel).stop
    ensures met <==> budget.IsMet(stats.completed + stats.errors)
    ensures budget.Requests? ==> stats.completed + stats.errors <= budget.n
  {
    hide Ring.Valid, Ring.Live, Worker.Valid, Worker.State, WorldOk, Next, Possible, IsRun, Run;
    taken, met := [], false;
    if connections == 0 || budget.IsEmpty() {
      stats := new Stats();
      NothingConsistent();
      RunNothing(Start(connections, budget), budget, parallel);
      met := budget.IsEmpty();
      return;
    }
    var w := new Worker(connections, budget, parallel);
    StartOk(connections, budget, parallel);
    RunNothing(w.State(), budget, parallel);
    taken := w.RunBatches(batches, w.State());
    stats := w.stats;
    met := budget.IsMet(stats.completed + stats.errors);
    w.TallyShown();
    MetExactly(w.State(), budget, parallel);
  }
}
