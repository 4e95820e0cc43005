/**
 The HTTP/3 worker's bookkeeping, updated in place.

 Every method is proved to compute the function of the same meaning in
 `Http3Accounting`, so what is proved there of every run holds of this code.
 The QUIC connection, the kernel and the clock are parameters.
 */
module Http3Worker {
  import opened Wrappers
  import opened Inflight
  import opened Batches
  import opened Budgets
  import opened Statistics
  import opened Sums
  import opened Ledgers
  import opened Http3Accounting

  class Conn {
    var up: bool
    var ready: bool
    var settingUp: bool
    var goaway: Option<nat>
    /** Next client bidirectional stream of the QUIC connection. */
    var nextId: nat
    const streams: Ring<Request>
    var gb: GiveBacks
    var closing: bool
    ghost var newest: nat

    ghost predicate Valid()
      reads this, streams
    {
      && streams.Valid()
      && streams.numbering.H3?
      && nextId % 4 == 0
      && (streams.Live() != map[] ==> streams.next == nextId / 4)
    }

    ghost function View(): ConnView
      requires Valid()
      reads this, streams
    {
      ConnView(up, ready, settingUp, goaway, nextId, streams.Live(), gb, closing, newest)
    }

    constructor (dial: bool)
      ensures Valid() && fresh(streams)
      ensures View() == FRESH.(up := dial)
    {
      up, ready, settingUp, goaway, closing := dial, false, false, None, false;
      nextId, gb, newest := 0, GiveBacks(0, 0, 0), 0;
      streams := new Ring(H3);
    }

    method Close()
      requires Valid()
      modifies this, streams
      ensures Valid() && View() == Closed(old(View()))
    {
      hide Ring.Valid, Ring.Live;
      up, ready, settingUp, goaway, closing := false, false, false, None, false;
      streams.Clear();
      nextId, gb := 0, GiveBacks(0, 0, 0);
    }

    /** Only the oldest request is looked at. */
    method TimedOut(now: nat, limit: nat) returns (wedged: bool)
      requires Valid() && Ordered(streams.Live(), nextId, newest)
      ensures wedged <==> Expired(View(), now, limit)
      ensures wedged <==> var live := streams.Live(); exists id :: id in live && (limit == 0 || live[id].start + limit <= now)
    {
      hide Ring.Valid, Ring.Live, Elapsed;
      streams.Oldest();
      var oldest := streams.Slot(0);
      wedged := oldest.Some? && Elapsed(now, oldest.value.start) >= limit;
      if oldest.Some? {
        ElapsedIs(now, oldest.value.start, limit);
        OldestDecides(streams.Live(), streams.numbering.StreamId(streams.base), nextId, newest, now, limit);
      }
    }

    /** Readers learn what their streams' bytes say. */
    method ReadStreams(feeds: seq<Feed>)
      requires Valid()
      modifies streams
      ensures Valid() && View() == old(View()).(streams := ApplyFeeds(old(View()).streams, feeds))
    {
      hide Ring.Valid, Ring.Live;
      for k := 0 to |feeds|
        invariant Valid()
        invariant ApplyFeeds(streams.Live(), feeds[k..]) == ApplyFeeds(old(streams.Live()), feeds)
      {
        assert feeds[k..][1..] == feeds[k + 1..];
        var inflight := streams.Get(feeds[k].id);
        if inflight.Some? {
          var _ := streams.Update(feeds[k].id, inflight.value.(status := feeds[k].status));
        }
      }
    }

    /** GOAWAYs only ever lower the line. */
    method ReadGoaways(seen: seq<nat>)
      requires Valid()
      modifies this
      ensures Valid() && View() == old(View()).(goaway := Lowest(old(goaway), seen))
    {
      hide Ring.Valid, Ring.Live;
      for k := 0 to |seen|
        invariant Valid() && View() == old(View()).(goaway := goaway)
        invariant Lowest(goaway, seen[k..]) == Lowest(old(goaway), seen)
      {
        assert seen[k..][1..] == seen[k + 1..];
        if goaway.None? || goaway.value >= seen[k] {
          goaway := Some(seen[k]);
        }
      }
    }

    /** The reading half of a pass. */
    method ReadEvents(p: Pass)
      requires Valid()
      modifies this, streams
      ensures Valid() && View() == Read(old(View()), p)
    {
      hide Ring.Valid, Ring.Live, ApplyFeeds, Lowest;
      if p.connects.Some? {
        ready := p.connects.value;
        settingUp := !ready;
      }
      ReadStreams(p.feeds);
      ReadGoaways(p.goaways);
    }
  }

  /** If the oldest request has not expired, no younger one can have. */
  lemma OldestDecides(live: map<nat, Request>, oldest: nat, nextId: nat, newest: nat, now: nat, limit: nat)
    requires Ordered(live, nextId, newest)
    requires oldest in live && forall id :: id in live ==> oldest <= id
    ensures Passed(live[oldest].start, limit, now) <==> exists id :: id in live && Passed(live[id].start, limit, now)
  {
  }

  class Worker {
    const budget: Budget
    const parallel: nat
    const conns: seq<Conn>
    const stats: Stats
    var started: nat
    var stop: bool
    ghost var begun: nat
    ghost var refunded: nat

    constructor (connections: nat, budget: Budget, parallel: nat)
      ensures Valid() && State() == Start(connections, budget)
      ensures this.budget == budget && this.parallel == parallel
      ensures fresh(stats) && fresh(stats.statusCounts)
      ensures fresh(conns) && fresh(set c | c in conns :: c.streams)
    {
      hide Ring.Valid, Ring.Live, Conn.Valid, Conn.View;
      this.budget, this.parallel := budget, parallel;
      started, stop, begun, refunded := 0, false, 0, 0;
      var made: seq<Conn> := [];
      for i := 0 to connections
        invariant |made| == i
        invariant forall k :: 0 <= k < i ==> fresh(made[k]) && fresh(made[k].streams) && made[k].Valid()
        invariant forall k :: 0 <= k < i ==> made[k].View() == FRESH.(up := budget.MayStart(k))
        invariant forall j, k :: 0 <= j < k < i ==> made[j] != made[k] && made[j].streams != made[k].streams
      {
        var conn := new Conn(budget.MayStart(i));
        made := made + [conn];
      }
      conns := made;
      stats := new Stats();
      new;
      assert State().conns == Start(connections, budget).conns;
    }

    /** No two connections share storage. */
    ghost predicate Separate()
      reads this
    {
      && (forall i, j :: 0 <= i < j < |conns| ==> conns[i] != conns[j])
      && (forall i, j :: 0 <= i < j < |conns| ==> conns[i].streams != conns[j].streams)
    }

    ghost predicate Valid()
      reads this, conns, set c | c in conns :: c.streams
    {
      && stats.Valid()
      && Separate()
      && forall i :: 0 <= i < |conns| ==> conns[i].Valid()
    }

    ghost function State(): World
      requires Valid()
      reads this, stats, stats.statusCounts, conns, set c | c in conns :: c.streams
    {
      World(seq(|conns|, i requires 0 <= i < |conns| reads this, conns, set c | c in conns :: c.streams
                         requires conns[i].Valid() => conns[i].View()),
            Books(), stop)
    }

    ghost function Books(): Ledger
      requires stats.Valid()
      reads this, stats, stats.statusCounts
    {
      Ledger(started, begun, refunded, stats.View())
    }

    /** One request the server never started on. */
    method GiveBackOne(conn: Conn, ghost others: nat, ghost spare: int)
      requires stats.Valid() && conn.Valid() && conn.ready && !conn.closing
      requires Balanced(conn.View(), Books(), budget, parallel, others + 1, spare)
      modifies this, stats, conn
      ensures conn.Valid() && stop == old(stop)
      ensures (conn.gb, Books()) == GiveBack(old(conn.gb), old(Books()), parallel)
      ensures conn.View() == old(conn.View()).(gb := conn.gb)
      ensures Balanced(conn.View(), Books(), budget, parallel, others, spare)
    {
      hide Ring.Valid, Ring.Live, ConnOk, LedgerOk;
      GiveBackKeeps(conn.View(), Books(), 1, budget, parallel, others, spare);
      assert GiveBackMany(conn.gb, Books(), parallel, 0) == (conn.gb, Books());
      assert GiveBackMany(conn.gb, Books(), parallel, 1) == GiveBack(conn.gb, Books(), parallel);
      if conn.gb.completed == 0 {
        conn.gb := conn.gb.(unjudged := conn.gb.unjudged + 1);
      } else if conn.gb.retried < parallel * conn.gb.completed {
        conn.gb := conn.gb.(retried := conn.gb.retried + 1);
        started := started - 1;
        refunded := refunded + 1;
      } else {
        stats.errors := stats.errors + 1;
      }
    }

    /** Decide what becomes of the requests that wait for a verdict. */
    method JudgeGiveBacks(conn: Conn, ghost others: nat, ghost spare: int)
      requires stats.Valid() && conn.Valid() && !conn.closing
      requires Balanced(conn.View(), Books(), budget, parallel, others, spare)
      modifies this, stats, conn
      ensures conn.Valid() && stop == old(stop)
      ensures (conn.gb, Books()) == Judge(old(conn.gb), old(conn.streams.Live()) == map[], old(Books()), parallel)
      ensures conn.View() == old(conn.View()).(gb := conn.gb)
      ensures Balanced(conn.View(), Books(), budget, parallel, others, spare)
    {
      hide Ring.Valid, Ring.Live, LedgerOk, Ordered;
      JudgeKeeps(conn.View(), Books(), budget, parallel, others, spare);
      if conn.gb.unjudged == 0 {
        return;
      }
      var n := conn.gb.unjudged;
      if conn.gb.completed > 0 {
        conn.gb := conn.gb.(unjudged := 0);
        ghost var g, l := conn.gb, Books();
        for k := 0 to n
          invariant conn.Valid() && stop == old(stop) && conn.ready && !conn.closing
          invariant conn.View() == old(conn.View()).(gb := conn.gb)
          invariant (conn.gb, Books()) == GiveBackMany(g, l, parallel, k)
          invariant Balanced(conn.View(), Books(), budget, parallel, others + (n - k), spare)
        {
          GiveBackOne(conn, others + (n - k - 1), spare);
        }
      } else if conn.streams.IsEmpty() {
        conn.gb := conn.gb.(unjudged := 0);
        stats.errors := stats.errors + n;
      }
    }

    method FinishStream(conn: Conn, f: Finish, now: nat, ghost others: nat, ghost spare: int)
      requires stats.Valid() && conn.Valid() && !conn.closing
      requires Balanced(conn.View(), Books(), budget, parallel, others, spare)
      modifies this, stats, stats.statusCounts, conn, conn.streams
      ensures conn.Valid() && stop == old(stop)
      ensures (conn.View(), Books()) == ApplyFinish(old(conn.View()), old(Books()), f, now, parallel)
      ensures f.id in old(conn.streams.Live()) ==>
                Decided(old(conn.View()), old(Books()), f, now, parallel, conn.View(), Books())
      ensures f.id !in old(conn.streams.Live()) ==> conn.View() == old(conn.View()) && Books() == old(Books())
    {
      hide Decided;
      hide Ring.Valid, Ring.Live, Balanced, GiveBack, Elapsed;
      var inflight := conn.streams.Take(f.id);
      if inflight.Some? {
        match VerdictOn(inflight.value, f, conn.goaway) {
          case GivenBack =>
            TakenKeeps(old(conn.View()), Books(), f.id, budget, parallel, others, spare);
            GiveBackOne(conn, others, spare);
          case Failed =>
            stats.errors := stats.errors + 1;
          case Answered =>
            stats.RecordSuccess(inflight.value.status, Elapsed(now, inflight.value.start));
            conn.gb := conn.gb.(completed := conn.gb.completed + 1);
        }
        FinishDecides(old(conn.View()), old(Books()), f, now, parallel);
      }
    }

    method FinishStreams(conn: Conn, fs: seq<Finish>, now: nat, ghost others: nat, ghost spare: int)
      requires stats.Valid() && conn.Valid() && !conn.closing
      requires Balanced(conn.View(), Books(), budget, parallel, others, spare)
      modifies this, stats, stats.statusCounts, conn, conn.streams
      ensures conn.Valid() && stop == old(stop)
      ensures (conn.View(), Books()) == ApplyFinishes(old(conn.View()), old(Books()), fs, now, parallel)
      ensures var live, before, after := old(conn.streams.Live()), old(stats.View()), stats.View();
              && (forall status: Status :: after.statusCounts[status]
                    == before.statusCounts[status] + |Having(With(live, status), fs, old(conn.goaway), Answered)|)
              && Sampled(live, fs, old(conn.goaway), before.latencies, after.latencies, now)
    {
      Recorded(conn.View(), Books(), fs, now, parallel);
      hide Ring.Valid, Ring.Live, Balanced, ApplyFinish;
      for k := 0 to |fs|
        invariant conn.Valid() && stop == old(stop) && !conn.closing
        invariant Balanced(conn.View(), Books(), budget, parallel, others, spare)
        invariant ApplyFinishes(conn.View(), Books(), fs[k..], now, parallel)
               == ApplyFinishes(old(conn.View()), old(Books()), fs, now, parallel)
      {
        FinishKeeps(conn.View(), Books(), fs[k], now, budget, parallel, others, spare);
        assert fs[k..][0] == fs[k] && fs[k..][1..] == fs[k + 1..];
        FinishStream(conn, fs[k], now, others, spare);
      }
    }

    /** Collect the streams a GOAWAY did not process, then take each of them
        out and give it back. */
    method GiveBackUnprocessed(conn: Conn, ghost others: nat, ghost spare: int)
      requires stats.Valid() && conn.Valid() && !conn.closing
      requires Balanced(conn.View(), Books(), budget, parallel, others, spare)
      modifies this, stats, conn, conn.streams
      ensures conn.Valid() && stop == old(stop)
      ensures (conn.View(), Books()) == ApplyGoaway(old(conn.View()), old(Books()), parallel)
    {
      hide Ring.Valid, Ring.Live, Balanced, GiveBackMany, InOrder, Without;
      if conn.goaway.None? {
        return;
      }
      var goaway := conn.goaway.value;
      ghost var c, l := conn.View(), Books();
      var items, ids := conn.streams.Items();
      var unprocessed := AtOrAbove(items, goaway);
      OwnIds(c, l, budget, parallel, others, spare);
      AtOrAboveIs(c.streams, ids, items, goaway);
      GiveBackEach(conn, unprocessed, others, spare);
      DroppedAre(c.streams, goaway, unprocessed);
    }

    /** Take each of some streams out, and give it back. */
    method GiveBackEach(conn: Conn, unprocessed: seq<nat>, ghost others: nat, ghost spare: int)
      requires stats.Valid() && conn.Valid() && !conn.closing
      requires Balanced(conn.View(), Books(), budget, parallel, others, spare)
      requires Ascending(unprocessed) && forall id :: id in unprocessed ==> id in conn.streams.Live()
      modifies this, stats, conn, conn.streams
      ensures conn.Valid() && stop == old(stop)
      ensures conn.View() == old(conn.View()).(streams := Without(old(conn.View()).streams, unprocessed), gb := conn.gb)
      ensures (conn.gb, Books()) == GiveBackMany(old(conn.gb), old(Books()), parallel, |unprocessed|)
    {
      hide Ring.Valid, Ring.Live, Balanced, GiveBack;
      ghost var c, l := conn.View(), Books();
      for k := 0 to |unprocessed|
        invariant conn.Valid() && stop == old(stop) && !conn.closing
        invariant conn.View() == c.(streams := conn.streams.Live(), gb := conn.gb)
        invariant conn.streams.Live() == Without(c.streams, unprocessed[..k])
        invariant (conn.gb, Books()) == GiveBackMany(c.gb, l, parallel, k)
        invariant Balanced(conn.View(), Books(), budget, parallel, others, spare)
      {
        hide Without;
        ghost var before := conn.View();
        WithoutNext(c.streams, unprocessed, k);
        var _ := conn.streams.Take(unprocessed[k]);
        TakenKeeps(before, Books(), unprocessed[k], budget, parallel, others, spare);
        GiveBackOne(conn, others, spare);
      }
      assert unprocessed[..|unprocessed|] == unprocessed;
    }

    method OpenStream(conn: Conn, at: nat)
      requires stats.Valid() && conn.Valid()
      modifies this, conn, conn.streams
      ensures conn.Valid() && stop == old(stop)
      ensures conn.View() == Opened(old(conn.View()), at)
      ensures Books() == old(Books()).Open()
    {
      hide Ring.Valid, Ring.Live;
      var id := conn.nextId;
      conn.nextId := conn.nextId + 4;
      conn.streams.Push(id, Request(id, at, 0));
      conn.newest := at;
      started := started + 1;
      begun := begun + 1;
    }

    method FillStreams(conn: Conn, grants: seq<nat>)
      requires stats.Valid() && conn.Valid()
      modifies this, conn, conn.streams
      ensures conn.Valid() && stop == old(stop)
      ensures (conn.View(), Books()) == Fill(old(conn.View()), old(Books()), grants, budget, parallel, stop)
    {
      hide Ring.Valid, Ring.Live, Opened;
      if stop || conn.goaway.Some? || !conn.ready {
        return;
      }
      var k := 0;
      while conn.streams.Len() < parallel && budget.MayStart(started) && k < |grants|
        invariant 0 <= k <= |grants|
        invariant conn.Valid() && stop == old(stop)
        invariant OpenStreams(conn.View(), Books(), grants[k..], budget, parallel)
               == OpenStreams(old(conn.View()), old(Books()), grants, budget, parallel)
        decreases |grants| - k
      {
        assert grants[k..][0] == grants[k] && grants[k..][1..] == grants[k + 1..];
        OpenStream(conn, grants[k]);
        k := k + 1;
      }
    }

    /** Account for the streams that ended, the GOAWAY, and the verdicts. */
    method SettleConn(conn: Conn, p: Pass, ghost others: nat, ghost spare: int)
      requires stats.Valid() && conn.Valid() && !conn.closing
      requires Balanced(conn.View(), Books(), budget, parallel, others, spare)
      modifies this, stats, stats.statusCounts, conn, conn.streams
      ensures conn.Valid() && stop == old(stop)
      ensures (conn.View(), Books()) == Settle(old(conn.View()), old(Books()), p, parallel)
    {
      hide Ring.Valid, Ring.Live, Balanced, ApplyFinishes, ApplyGoaway, Judge;
      FinishesKeep(conn.View(), Books(), p.finished, p.now, budget, parallel, others, spare);
      FinishStreams(conn, p.finished, p.now, others, spare);
      GoawayKeeps(conn.View(), Books(), budget, parallel, others, spare);
      GiveBackUnprocessed(conn, others, spare);
      JudgeGiveBacks(conn, others, spare);
    }

    method DriveConn(conn: Conn, p: Pass, ghost others: nat, ghost spare: int) returns (alive: bool)
      requires stats.Valid() && conn.Valid() && !conn.closing
      requires Balanced(conn.View(), Books(), budget, parallel, others, spare)
      requires p.connects.Some? ==> !conn.ready && !conn.settingUp
      modifies this, stats, stats.statusCounts, conn, conn.streams
      ensures conn.Valid() && stop == old(stop)
      ensures ((conn.View(), Books()), alive) == Drive(old(conn.View()), old(Books()), p, budget, parallel, stop)
    {
      hide Ring.Valid, Ring.Live, Balanced, Read, Settle, Fill;
      if !conn.up {
        return true;
      }
      ReadKeeps(conn.View(), Books(), p, budget, parallel, others, spare);
      conn.ReadEvents(p);
      if p.aborts {
        return false;
      }
      SettleConn(conn, p, others, spare);
      alive := !p.lost && (conn.goaway.None? || !conn.streams.IsEmpty());
      if conn.settingUp && p.setUp {
        conn.settingUp, conn.ready := false, true;
      }
      FillStreams(conn, p.grants);
    }

    /** Close the socket, and open the next connection if the budget allows. */
    method FinishCloseConn(conn: Conn)
      requires stats.Valid() && conn.Valid()
      modifies conn, conn.streams
      ensures conn.Valid()
      ensures (conn.View(), Books()) == FinishClose(old(conn.View()), old(Books()), budget, stop)
    {
      hide Ring.Valid, Ring.Live;
      conn.Close();
      conn.up := !stop && budget.MayStart(started);
    }

    method ChargeConn(conn: Conn)
      requires stats.Valid() && conn.Valid()
      modifies this, stats, conn, conn.streams
      ensures conn.Valid() && stop == old(stop)
      ensures (conn.View(), Books()) == Charge(old(conn.View()), old(Books()), budget)
    {
      hide Ring.Valid, Ring.Live;
      if !conn.closing {
        if conn.ready {
          stats.errors := stats.errors + conn.streams.Len() + conn.gb.unjudged;
          conn.streams.Clear();
          conn.gb := conn.gb.(unjudged := 0);
        } else if budget.MayStart(started) {
          stats.errors := stats.errors + 1;
          stats.connectErrors := stats.connectErrors + 1;
          started := started + 1;
        }
        conn.closing := true;
      }
    }

    method BeginCloseConn(conn: Conn, sending: bool)
      requires stats.Valid() && conn.Valid()
      modifies this, stats, conn, conn.streams
      ensures conn.Valid() && stop == old(stop)
      ensures (conn.View(), Books()) == BeginClose(old(conn.View()), old(Books()), budget, stop, sending)
    {
      hide Ring.Valid, Ring.Live, Charge, FinishClose;
      ChargeConn(conn);
      if !sending {
        FinishCloseConn(conn);
      }
    }

    method StepOne(conn: Conn, step: Step, ghost others: nat, ghost spare: int)
      requires stats.Valid() && conn.Valid() && !step.Deadline?
      requires Balanced(conn.View(), Books(), budget, parallel, others, spare)
      requires Possible(World([conn.View()], Books(), stop), step.(i := 0))
      modifies this, stats, stats.statusCounts, conn, conn.streams
      ensures conn.Valid() && stop == old(stop)
      ensures (conn.View(), Books()) == StepConn(old(conn.View()), old(Books()), step, budget, parallel, stop)
    {
      hide Ring.Valid, Ring.Live, Drive, BeginClose, FinishClose, Expired, Ordered, LedgerOk;
      match step {
        case Driven(_, pass, sending) =>
          var alive := DriveConn(conn, pass, others, spare);
          if !alive {
            BeginCloseConn(conn, sending);
          }
        case Broken(_, sending) =>
          BeginCloseConn(conn, sending);
        case Timeout(_, now, limit, sending) =>
          var wedged := conn.TimedOut(now, limit);
          if wedged {
            BeginCloseConn(conn, sending);
          }
        case GraceOver(_) =>
          FinishCloseConn(conn);
      }
    }

    /** One completion, pass or timeout check, on the connection it names. */
    method Step(step: Step)
      requires Valid()
      requires Possible(State(), step) && WorldOk(State(), budget, parallel)
      modifies this, stats, stats.statusCounts, conns, set c | c in conns :: c.streams
      ensures Valid()
      ensures State() == Next(old(State()), step, budget, parallel)
    {
      hide Ring.Valid, Ring.Live, Conn.Valid, Conn.View, WorldOk, StepConn, Possible, Balanced, Credit, CreditAll, Sum;
      if step.Deadline? {
        stop := true;
        return;
      }
      PossibleAlone(State(), step);
      var conn := conns[step.i];
      ghost var others := OthersOwe(State(), step.i, budget, parallel);
      ghost var spare := Sum(CreditAll(State().conns, parallel)) - Credit(State().conns[step.i], parallel);
      StepOne(conn, step, others, spare);
      assert forall k :: 0 <= k < |conns| && k != step.i ==> conns[k].View() == old(conns[k].View());
    }

    /** A batch of completions and passes, in order. */
    method RunBatch(batch: seq<Step>, ghost rest: seq<Step>, ghost from: World, ghost before: seq<Step>)
        returns (ghost taken: seq<Step>)
      requires Valid() && WorldOk(State(), budget, parallel)
      requires IsRun(from, before, budget, parallel) && State() == Run(from, before, budget, parallel)
      requires IsRun(State(), batch + rest, budget, parallel)
      modifies this, stats, stats.statusCounts, conns, set c | c in conns :: c.streams
      ensures Valid() && WorldOk(State(), budget, parallel)
      ensures taken == before + batch
      ensures IsRun(from, taken, budget, parallel) && State() == Run(from, taken, budget, parallel)
      ensures IsRun(State(), rest, budget, parallel)
    {
      hide Ring.Valid, Ring.Live, Valid, State, WorldOk, Next, Possible, IsRun, Run;
      taken := before;
      for j := 0 to |batch|
        invariant Valid() && WorldOk(State(), budget, parallel)
        invariant taken == before + batch[..j]
        invariant IsRun(from, taken, budget, parallel) && State() == Run(from, taken, budget, parallel)
        invariant IsRun(State(), batch[j..] + rest, budget, parallel)
      {
        assert batch[j..] + rest == [batch[j]] + (batch[j + 1..] + rest);
        RunHead(State(), batch[j], batch[j + 1..] + rest, budget, parallel);
        NextKeeps(State(), batch[j], budget, parallel);
        RunSnoc(from, taken, batch[j], budget, parallel);
        Step(batch[j]);
        taken := taken + [batch[j]];
        assert before + batch[..j + 1] == before + batch[..j] + [batch[j]];
      }
      assert batch[|batch|..] + rest == rest && batch[..|batch|] == batch;
    }

    /** Batch after batch, until the budget is met, the deadline has passed
        or nothing more happens. */
    method RunBatches(batches: seq<seq<Step>>, ghost from: World) returns (ghost taken: seq<Step>)
      requires Valid() && WorldOk(State(), budget, parallel) && State() == from
      requires IsRun(from, Flatten(batches), budget, parallel)
      modifies this, stats, stats.statusCounts, conns, set c | c in conns :: c.streams
      ensures Valid() && WorldOk(State(), budget, parallel)
      ensures taken <= Flatten(batches)
      ensures taken == Flatten(batches) || stop || budget.IsMet(stats.completed + stats.errors)
      ensures IsRun(from, taken, budget, parallel) && State() == Run(from, taken, budget, parallel)
    {
      hide Ring.Valid, Ring.Live, Valid, State, WorldOk, Next, Possible, IsRun, Run;
      taken := [];
      RunNothing(from, budget, parallel);
      assert batches[0..] == batches;
      var k := 0;
      while k < |batches| && !stop && !budget.IsMet(stats.completed + stats.errors)
        invariant 0 <= k <= |batches|
        invariant Valid() && WorldOk(State(), budget, parallel)
        invariant Flatten(batches) == taken + Flatten(batches[k..])
        invariant IsRun(from, taken, budget, parallel) && State() == Run(from, taken, budget, parallel)
        invariant IsRun(State(), Flatten(batches[k..]), budget, parallel)
        decreases |batches| - k
      {
        assert batches[k..][1..] == batches[k + 1..];
        taken := RunBatch(batches[k], Flatten(batches[k + 1..]), from, taken);
        k := k + 1;
      }
      assert k == |batches| ==> batches[k..] == [];
    }

    lemma TallyShown()
      requires Valid()
      ensures State().ledger.tally == stats.View() && State().stop == stop
    {
    }
  }

  /** The benchmark loop. `batches` is what the kernel, the peer and the clock
      do; a batch that reaches the deadline is the last. */
  method RunWorker(connections: nat, budget: Budget, parallel: nat, batches: seq<seq<Step>>)
      returns (stats: Stats, met: bool, ghost taken: seq<Step>)
    requires IsRun(Start(connections, budget), Flatten(batches), budget, parallel)
    ensures stats.Valid() && stats.View().Consistent()
    ensures taken <= Flatten(batches) && IsRun(Start(connections, budget), taken, budget, parallel)
    ensures stats.View() == Run(Start(connections, budget), taken, budget, parallel).ledger.tally
    ensures taken == Flatten(batches) || connections == 0 || met
         || Run(Start(connections, budget), taken, budget, parallel).stop
    ensures met <==> budget.IsMet(stats.completed + stats.errors)
    ensures budget.Requests? ==> stats.completed + stats.errors <= budget.n
  {
    hide Ring.Valid, Ring.Live, Worker.Valid, Worker.State, WorldOk, Next, Possible, IsRun, Run;
    taken, met := [], false;
    if connections == 0 || budget.IsEmpty() {
      stats := new Stats();
      NothingConsistent();
      RunNothing(Start(connections, budget), budget, parallel);
      met := budget.IsEmpty();
      return;
    }
    var w := new Worker(connections, budget, parallel);
    StartOk(connections, budget, parallel);
    RunNothing(w.State(), budget, parallel);
    taken := w.RunBatches(batches, w.State());
    stats := w.stats;
    met := budget.IsMet(stats.completed + stats.errors);
    w.TallyShown();
    MetExactly(w.State(), budget, parallel);
  }

  /** A request taken from the ring is owed to no stream until it is placed. */
  lemma TakenKeeps(c: ConnView, l: Ledger, id: nat, b: Budget, parallel: nat, others: int, spare: int)
    requires Balanced(c, l, b, parallel, others, spare) && id in c.streams
    ensures Balanced(c.(streams := c.streams - {id}), l, b, parallel, others + 1, spare)
    ensures c.ready
  {
    hide Ordered;
    TakeOrdered(c.streams, id, c.nextId, c.newest);
  }

  lemma OwnIds(c: ConnView, l: Ledger, b: Budget, parallel: nat, others: int, spare: int)
    requires Balanced(c, l, b, parallel, others, spare)
    ensures forall id :: id in c.streams ==> c.streams[id].id == id
  {
  }

  /** The ids at or above a GOAWAY's, in the order of the ring. */
  function AtOrAbove(items: seq<Request>, goaway: nat): seq<nat> {
    if items == [] then []
    else
      var init := AtOrAbove(items[..|items| - 1], goaway);
      var last := items[|items| - 1].id;
      if last >= goaway then init + [last] else init
  }

  lemma {:induction false} AtOrAboveIs(live: map<nat, Request>, ids: seq<nat>, items: seq<Request>, goaway: nat)
    requires Ascending(ids) && Lists(live, ids, items)
    requires forall id :: id in live ==> live[id].id == id
    ensures Ascending(AtOrAbove(items, goaway))
    ensures forall id :: id in AtOrAbove(items, goaway) <==> id in ids && goaway <= id
    decreases |ids|
  {
    if ids != [] {
      var n := |ids| - 1;
      AtOrAboveIs(live, ids[..n], items[..n], goaway);
      assert ids == ids[..n] + [ids[n]];
      var init := AtOrAbove(items[..n], goaway);
      assert items[n].id == ids[n];
      assert forall id :: id in ids[..n] ==> id < ids[n];
      assert forall k :: 0 <= k < |init| ==> init[k] in init;
    }
  }

  ghost function SetOf(ids: seq<nat>): set<nat> {
    set id | id in ids
  }

  lemma SetSnoc(ids: seq<nat>, last: nat)
    ensures SetOf(ids + [last]) == SetOf(ids) + {last}
  {
  }

  lemma {:induction false} AscendingSize(ids: seq<nat>)
    requires Ascending(ids)
    ensures |SetOf(ids)| == |ids|
  {
    if ids != [] {
      var init, last := ids[..|ids| - 1], ids[|ids| - 1];
      AscendingSize(init);
      assert last !in SetOf(init);
      hide SetOf, Ascending;
      SetSnoc(init, last);
      assert ids == init + [last];
    } else {
      assert SetOf(ids) == {};
    }
  }

  /** Requests taken out one by one. */
  ghost function Without(m: map<nat, Request>, ids: seq<nat>): map<nat, Request> {
    m - SetOf(ids)
  }

  lemma WithoutNext(m: map<nat, Request>, ids: seq<nat>, k: nat)
    requires Ascending(ids) && k < |ids| && forall id :: id in ids ==> id in m
    ensures ids[k] in Without(m, ids[..k])
    ensures Without(m, ids[..k + 1]) == Without(m, ids[..k]) - {ids[k]}
  {
    assert ids[..k + 1] == ids[..k] + [ids[k]];
    SetSnoc(ids[..k], ids[k]);
    assert ids[k] in ids && ids[k] !in ids[..k];
  }

  lemma DroppedAre(streams: map<nat, Request>, goaway: nat, ids: seq<nat>)
    requires Ascending(ids)
    requires forall id :: id in ids <==> id in streams && goaway <= id
    ensures |ids| == Dropped(streams, goaway)
    ensures ids[..|ids|] == ids
    ensures Without(streams, ids) == Under(streams, goaway)
  {
    AscendingSize(ids);
    assert SetOf(ids) == set k | k in streams && goaway <= k;
    assert Without(streams, ids) == Under(streams, goaway);
  }
}
