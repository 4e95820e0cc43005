/**
 How often an HTTP/3 run can replace its connections: no more than once for each
 request that finishes, and once for each life that was idle.
 */
module Http3Lives {
  import opened Wrappers
  import opened Budgets
  import opened Statistics
  import opened Sums
  import opened Ledgers
  import opened Lives
  import opened Http3Accounting
  import opened Http3Limits

  /** In this life nothing was answered, and all that was opened is owed. */
  ghost predicate Untried(c: ConnView) {
    c.gb.completed == 0 && c.nextId == 4 * Owed(c)
  }

  // ---- What one step does ----

  /** Between two points of one life: nothing is uncounted, answers are counted
      on the connection and in the ledger alike, and nothing is refunded before
      the first. */
  ghost predicate GoesOn(g: GiveBacks, l: Ledger, g': GiveBacks, l': Ledger) {
    && Later(l, l') && l'.begun == l.begun
    && l'.started + l'.refunded == l.started + l.refunded
    && g'.completed - g.completed == l'.tally.completed - l.tally.completed
    && (g'.completed == 0 ==> l'.refunded == l.refunded)
  }

  lemma {:induction false} GiveBackGoesOn(g: GiveBacks, l: Ledger, parallel: nat, n: nat)
    ensures var (g', l') := GiveBackMany(g, l, parallel, n); GoesOn(g, l, g', l')
    decreases n
  {
    if n > 0 {
      GiveBackGoesOn(g, l, parallel, n - 1);
    }
  }

  lemma FinishGoesOn(c: ConnView, l: Ledger, f: Finish, now: nat, parallel: nat)
    ensures var (c', l') := ApplyFinish(c, l, f, now, parallel);
            GoesOn(c.gb, l, c'.gb, l') && c'.nextId == c.nextId
  {
    hide Elapsed;
  }

  lemma {:induction false} FinishesGoOn(c: ConnView, l: Ledger, fs: seq<Finish>, now: nat, parallel: nat)
    ensures var (c', l') := ApplyFinishes(c, l, fs, now, parallel);
            GoesOn(c.gb, l, c'.gb, l') && c'.nextId == c.nextId
    decreases |fs|
  {
    if fs != [] {
      hide ApplyFinish;
      FinishGoesOn(c, l, fs[0], now, parallel);
      var (c', l') := ApplyFinish(c, l, fs[0], now, parallel);
      FinishesGoOn(c', l', fs[1..], now, parallel);
    }
  }

  lemma SettleGoesOn(c: ConnView, l: Ledger, p: Pass, parallel: nat)
    ensures var (c', l') := Settle(c, l, p, parallel);
            GoesOn(c.gb, l, c'.gb, l') && c'.nextId == c.nextId
  {
    hide ApplyFinishes, GiveBackMany;
    FinishesGoOn(c, l, p.finished, p.now, parallel);
    var (c1, l1) := ApplyFinishes(c, l, p.finished, p.now, parallel);
    if c1.goaway.Some? {
      GiveBackGoesOn(c1.gb, l1, parallel, Dropped(c1.streams, c1.goaway.value));
    }
    var (c2, l2) := ApplyGoaway(c1, l1, parallel);
    GiveBackGoesOn(c2.gb.(unjudged := 0), l2, parallel, c2.gb.unjudged);
  }

  lemma {:induction false} OpeningGoesOn(c: ConnView, l: Ledger, grants: seq<nat>, b: Budget, parallel: nat)
    ensures var (c', l') := OpenStreams(c, l, grants, b, parallel);
            && c'.gb == c.gb && l'.tally == l.tally && l'.refunded == l.refunded && l.begun <= l'.begun
            && c'.nextId == c.nextId + 4 * (l'.begun - l.begun)
    decreases |grants|
  {
    if grants != [] && |c.streams| < parallel && b.MayStart(l.started) {
      OpeningGoesOn(Opened(c, grants[0]), l.Open(), grants[1..], b, parallel);
    }
  }

  /** What a step does within a life, however it leaves the connection. */
  ghost predicate Lived(c: ConnView, l: Ledger, c': ConnView, l': Ledger) {
    && Later(l, l') && l.begun <= l'.begun
    && (c.gb.completed == 0 && l'.tally.completed == l.tally.completed ==> c'.gb.completed == 0 && l'.refunded == l.refunded)
    && c'.nextId == c.nextId + 4 * (l'.begun - l.begun)
  }

  lemma DriveLived(c: ConnView, l: Ledger, p: Pass, b: Budget, parallel: nat, stop: bool)
    ensures var ((c', l'), alive) := Drive(c, l, p, b, parallel, stop); Lived(c, l, c', l')
  {
    hide ApplyFeeds, Lowest, Settle, OpenStreams;
    if c.up && !p.aborts {
      SettleGoesOn(Read(c, p), l, p, parallel);
      var (c1, l1) := Settle(Read(c, p), l, p, parallel);
      OpeningGoesOn(SetUp(c1, p), l1, p.grants, b, parallel);
    }
  }

  /** Ending a connection opens nothing, refunds nothing and answers nothing. */
  lemma CloseOnlyFails(c: ConnView, l: Ledger, b: Budget, stop: bool, sending: bool)
    ensures var (c', l') := BeginClose(c, l, b, stop, sending);
            && Later(l, l') && l'.tally.completed == l.tally.completed
            && l'.begun == l.begun && l'.refunded == l.refunded
            && (c'.closing || Untried(c'))
            && (c.closing ==> l' == l)
  {
  }

  /** A life that ends with nothing added to what has finished was idle. */
  lemma EndedUntried(c: ConnView, l: Ledger, step: Step, b: Budget, parallel: nat, stop: bool, others: int, spare: int)
    requires Balanced(c, l, b, parallel, others, spare) && Judged(c) && !step.Deadline?
    requires Possible(World([c], l, stop), step.(i := 0)) && EndsLife(c, step)
    ensures var (c', l') := StepConn(c, l, step, b, parallel, stop);
            && Later(l, l') && (c'.closing || Untried(c'))
            && (Untried(c) && Gained(l, l') == 0 ==> c.nextId == 0)
  {
    hide Drive, BeginClose, Last, Ordered;
    StepKeeps(c, l, step, b, parallel, stop, others, spare);
    EndedOwesNothing(c, l, step, b, parallel, stop, others, spare);
    match step {
      case Driven(_, p, sending) =>
        DriveLived(c, l, p, b, parallel, stop);
        LastIsLast(c, l, p, b, parallel, stop);
        var ((c1, l1), _) := Drive(c, l, p, b, parallel, stop);
        CloseOnlyFails(c1, l1, b, stop, sending);
      case Broken(_, sending) => CloseOnlyFails(c, l, b, stop, sending);
      case Timeout(_, _, _, sending) => CloseOnlyFails(c, l, b, stop, sending);
    }
  }

  /** A life that goes on with nothing added still owes all it opened. */
  lemma OngoingUntried(c: ConnView, l: Ledger, step: Step, b: Budget, parallel: nat, stop: bool, others: int, spare: int)
    requires Balanced(c, l, b, parallel, others, spare) && Judged(c) && !step.Deadline?
    requires Possible(World([c], l, stop), step.(i := 0)) && !EndsLife(c, step)
    ensures var (c', l') := StepConn(c, l, step, b, parallel, stop);
            && Later(l, l')
            && (c.closing ==> c'.closing || Untried(c'))
            && (!c.closing && Untried(c) && Gained(l, l') == 0 ==> Untried(c'))
  {
    hide Drive, BeginClose, Last, Ordered, Expired;
    StepKeeps(c, l, step, b, parallel, stop, others, spare);
    match step {
      case Driven(_, p, sending) =>
        DriveLived(c, l, p, b, parallel, stop);
        LastIsLast(c, l, p, b, parallel, stop);
      case Broken(_, sending) => CloseOnlyFails(c, l, b, stop, sending);
      case Timeout(_, _, _, sending) => CloseOnlyFails(c, l, b, stop, sending);
      case GraceOver(_) =>
    }
  }

  // ---- Whole runs ----

  ghost function Observe(v: Lives, w: World, step: Step, b: Budget, parallel: nat): Lives
    requires Possible(w, step) && |v.spent| == |w.conns|
  {
    if step.Deadline? then v
    else
      var c := w.conns[step.i];
      Advance(v, step.i, Gained(w.ledger, Next(w, step, b, parallel).ledger), EndsLife(c, step), c.nextId == 0)
  }

  ghost function Observed(v: Lives, w: World, steps: seq<Step>, b: Budget, parallel: nat): Lives
    requires IsRun(w, steps, b, parallel) && |v.spent| == |w.conns|
    decreases |steps|
  {
    if steps == [] then v
    else Observed(Observe(v, w, steps[0], b, parallel), Next(w, steps[0], b, parallel), steps[1..], b, parallel)
  }

  ghost predicate LivesOk(v: Lives, w: World) {
    && |v.spent| == |w.conns|
    && Paid(v, w.ledger.tally.Finished())
    && forall i :: 0 <= i < |w.conns| && v.spent[i] == 0 ==> w.conns[i].closing || Untried(w.conns[i])
  }

  lemma ObserveKeeps(v: Lives, w: World, step: Step, b: Budget, parallel: nat)
    requires WorldOk(w, b, parallel) && Possible(w, step) && LivesOk(v, w)
    ensures LivesOk(Observe(v, w, step, b, parallel), Next(w, step, b, parallel))
  {
    hide ConnOk, LedgerOk, Attended, Judged, Possible, StepConn, EndsLife, Untried, Paid, Later, Credit;
    if !step.Deadline? {
      PossibleAlone(w, step);
      var c, l := w.conns[step.i], w.ledger;
      var others := OthersOwe(w, step.i, b, parallel);
      var spare := Sum(CreditAll(w.conns, parallel)) - Credit(c, parallel);
      if EndsLife(c, step) {
        NotClosing(c, step);
        EndedUntried(c, l, step, b, parallel, w.stop, others, spare);
      } else {
        OngoingUntried(c, l, step, b, parallel, w.stop, others, spare);
      }
      var l' := StepConn(c, l, step, b, parallel, w.stop).1;
      AdvancePaid(v, step.i, Gained(l, l'), EndsLife(c, step), c.nextId == 0, l.tally.Finished());
    }
  }

  lemma NotClosing(c: ConnView, step: Step)
    requires !step.Deadline? && EndsLife(c, step)
    ensures !c.closing
  {
  }

  lemma {:induction false} ObservedKeeps(v: Lives, w: World, steps: seq<Step>, b: Budget, parallel: nat)
    requires WorldOk(w, b, parallel) && IsRun(w, steps, b, parallel) && LivesOk(v, w)
    ensures LivesOk(Observed(v, w, steps, b, parallel), Run(w, steps, b, parallel))
    decreases |steps|
  {
    hide WorldOk, Next, Possible, Observe, Paid, Untried;
    if steps != [] {
      ObserveKeeps(v, w, steps[0], b, parallel);
      NextKeeps(w, steps[0], b, parallel);
      ObservedKeeps(Observe(v, w, steps[0], b, parallel), Next(w, steps[0], b, parallel), steps[1..], b, parallel);
    }
  }

  /** Over any run, connections end at most once for each request that finished
      and once for each life that opened nothing and cost nothing. */
  lemma EndingsBounded(connections: nat, steps: seq<Step>, b: Budget, parallel: nat)
    requires connections > 0 && IsRun(Start(connections, b), steps, b, parallel)
    ensures var v := Observed(NoLives(connections), Start(connections, b), steps, b, parallel);
            v.ended <= Run(Start(connections, b), steps, b, parallel).ledger.tally.Finished() + v.idle
  {
    var v, w := NoLives(connections), Start(connections, b);
    StartOk(connections, b, parallel);
    SumZero(v.spent);
    assert LivesOk(v, w);
    hide Start, WorldOk, Run, Observed, Paid, Untried;
    ObservedKeeps(v, w, steps, b, parallel);
    PaidFor(Observed(v, w, steps, b, parallel), Run(w, steps, b, parallel).ledger.tally.Finished());
  }
}
