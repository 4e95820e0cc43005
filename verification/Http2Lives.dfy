/**
 How often an HTTP/2 run can replace its connections: no more than once for each
 request that finishes, and once for each life that was idle.
 */
module Http2Lives {
  import opened Budgets
  import opened Statistics
  import opened Sums
  import opened Ledgers
  import opened Lives
  import opened Http2Accounting
  import opened Http2Limits

  /** In this life nothing was answered, and all that was opened is owed. */
  ghost predicate Untried(c: ConnView) {
    c.answered == 0 && c.nextId == 1 + 2 * Owed(c)
  }

  // ---- What one step does ----

  lemma EventLater(c: ConnView, l: Ledger, e: Event, now: nat)
    ensures var (c', l') := ApplyEvent(c, l, e, now);
            && Later(l, l') && l'.begun == l.begun && c'.nextId == c.nextId
            && l'.tally.connectErrors == l.tally.connectErrors
            && (c.answered == 0 && l'.tally.completed == l.tally.completed ==> c'.answered == 0 && l'.refunded == l.refunded)
  {
    hide Elapsed;
  }

  lemma {:induction false} EventsLater(c: ConnView, l: Ledger, events: seq<Event>, now: nat)
    ensures var (c', l') := ApplyEvents(c, l, events, now);
            && Later(l, l') && l'.begun == l.begun && c'.nextId == c.nextId
            && l'.tally.connectErrors == l.tally.connectErrors
            && (c.answered == 0 && l'.tally.completed == l.tally.completed ==> c'.answered == 0 && l'.refunded == l.refunded)
    decreases |events|
  {
    if events != [] {
      hide ApplyEvent;
      EventLater(c, l, events[0], now);
      var (c', l') := ApplyEvent(c, l, events[0], now);
      EventsLater(c', l', events[1..], now);
    }
  }

  /** What a step does to a connection's life and to the ledger. */
  ghost predicate Lived(c: ConnView, l: Ledger, c': ConnView, l': Ledger, replaced: bool) {
    && Later(l, l')
    && (c.answered == 0 && l'.tally.completed == l.tally.completed ==> l'.refunded == l.refunded)
    && (replaced ==> l'.begun == l.begun)
    && (!replaced ==> c'.nextId == c.nextId + 2 * (l'.begun - l.begun))
    && (!replaced && c.answered == 0 && l'.tally.completed == l.tally.completed ==> c'.answered == 0)
  }

  lemma FillLived(c: ConnView, l: Ledger, grants: seq<nat>, exhausted: bool, b: Budget, parallel: nat, stop: bool)
    requires Ordered(c.streams, c.nextId, c.newest)
    ensures var (c', l') := Fill(c, l, grants, exhausted, b, parallel, stop);
            && l'.tally == l.tally && l'.refunded == l.refunded && c'.answered == c.answered
            && c'.nextId == c.nextId + 2 * (l'.begun - l.begun)
  {
    hide OpenStreams, Added;
    OpensExactly(c, l, grants, b, parallel);
  }

  /** Ending a connection opens nothing, refunds nothing and answers nothing. */
  ghost predicate OnlyFails(l: Ledger, l': Ledger) {
    Later(l, l') && l'.tally.completed == l.tally.completed && l'.begun == l.begun && l'.refunded == l.refunded
  }

  lemma ReplaceOnlyFails(c: ConnView, l: Ledger, b: Budget, stop: bool, now: nat)
    ensures OnlyFails(l, Replace(c, l, b, stop, now).1)
    ensures OnlyFails(l, FailConnect(l, b)) && OnlyFails(l, Replace(c, FailConnect(l, b), b, stop, now).1)
  {
  }

  lemma BreakOnlyFails(c: ConnView, l: Ledger, b: Budget, stop: bool, now: nat)
    ensures OnlyFails(l, Break(c, l, b, stop, now).1)
    ensures OnlyFails(l, Break(c, FailConnect(l, b), b, stop, now).1)
  {
    hide Replace;
    ReplaceOnlyFails(c, l, b, stop, now);
    ReplaceOnlyFails(c, FailConnect(l, b), b, stop, now);
  }

  lemma ReceiveLived(c: ConnView, l: Ledger, rx: Receipt, b: Budget, parallel: nat, stop: bool, others: int)
    requires Balanced(c, l, b, parallel, others) && c.connected
    ensures var (c', l') := Receive(c, l, rx, b, parallel, stop);
            Lived(c, l, c', l', Replaces(c, l, Received(0, rx), b))
  {
    hide ApplyEvents, Fill, Break, Balanced, Survivors, Having, FailConnect, Ordered;
    var c0 := if rx.handshakeDone then c.(handshaking := false) else c;
    var l0 := if Refused(c, rx) then FailConnect(l, b) else l;
    ReplaceOnlyFails(c, l, b, stop, rx.now);
    FailConnectKeeps(c, l, b, parallel, others);
    ShakenKeeps(c, l0, b, parallel, others);
    EventsKeep(c0, l0, rx.events, rx.now, b, parallel, others);
    EventsLater(c0, l0, rx.events, rx.now);
    var (c1, l1) := ApplyEvents(c0, l0, rx.events, rx.now);
    HeldOnlyUnanswered(c, l, b, parallel, others);
    FatesDecide(c0, l0, rx.events, rx.now);
    BreakOnlyFails(c1, l1, b, stop, rx.now);
    InIdOrder(c1, l1, b, parallel, others);
    FillLived(c1, l1, rx.grants, rx.exhausted, b, parallel, stop);
  }

  lemma HeldOnlyUnanswered(c: ConnView, l: Ledger, b: Budget, parallel: nat, others: int)
    requires Balanced(c, l, b, parallel, others)
    ensures c.answered > 0 ==> c.held == 0
  {
  }

  lemma StepLived(c: ConnView, l: Ledger, step: Step, b: Budget, parallel: nat, stop: bool, others: int)
    requires Balanced(c, l, b, parallel, others) && !step.Deadline?
    requires Possible(World([c], l, stop), step.(i := 0))
    ensures var (c', l') := StepConn(c, l, step, b, parallel, stop);
            Lived(c, l, c', l', Replaces(c, l, step, b))
  {
    hide Fill, Receive, Break, Replace, FailConnect, Expired, Balanced, Survivors;
    match step {
      case Connect(_, tls, grants, exhausted) =>
        InIdOrder(c, l, b, parallel, others);
        FillLived(c.(dialing := false, connected := true, handshaking := tls), l, grants, exhausted, b, parallel, stop);
      case ConnectError(_, now) => BreakOnlyFails(c.(dialing := false), l, b, stop, now);
      case Received(_, rx) => ReceiveLived(c, l, rx, b, parallel, stop, others);
      case IoError(_, now) => BreakOnlyFails(c, l, b, stop, now);
      case Timeout(_, now, _) =>
        ReplaceOnlyFails(c, l, b, stop, now);
        ReplaceOnlyFails(c.(idleSince := now), l, b, stop, now);
    }
  }

  /** A life that has added nothing by the end of a step has had nothing
      answered, and owes all it opened; if the step ends it, it was idle. */
  lemma StepUntried(c: ConnView, l: Ledger, step: Step, b: Budget, parallel: nat, stop: bool, others: int)
    requires Balanced(c, l, b, parallel, others) && !step.Deadline?
    requires Possible(World([c], l, stop), step.(i := 0))
    ensures var (c', l') := StepConn(c, l, step, b, parallel, stop);
            && Later(l, l')
            && (Replaces(c, l, step, b) ==> Untried(c'))
            && (Untried(c) && Gained(l, l') == 0 ==> if Replaces(c, l, step, b) then c.nextId == 1 else Untried(c'))
  {
    hide StepConn, ConnOk, Replaces;
    StepLived(c, l, step, b, parallel, stop, others);
    StepKeeps(c, l, step, b, parallel, stop, others);
    ReplacedExactlyWhen(c, l, step, b, parallel, stop, others);
  }

  // ---- Whole runs ----

  ghost function Observe(v: Lives, w: World, step: Step, b: Budget, parallel: nat): Lives
    requires Possible(w, step) && |v.spent| == |w.conns|
  {
    if step.Deadline? then v
    else
      var c := w.conns[step.i];
      Advance(v, step.i, Gained(w.ledger, Next(w, step, b, parallel).ledger), Replaces(c, w.ledger, step, b), c.nextId == 1)
  }

  ghost function Observed(v: Lives, w: World, steps: seq<Step>, b: Budget, parallel: nat): Lives
    requires IsRun(w, steps, b, parallel) && |v.spent| == |w.conns|
    decreases |steps|
  {
    if steps == [] then v
    else Observed(Observe(v, w, steps[0], b, parallel), Next(w, steps[0], b, parallel), steps[1..], b, parallel)
  }

  ghost predicate LivesOk(v: Lives, w: World) {
    && |v.spent| == |w.conns|
    && Paid(v, w.ledger.tally.Finished())
    && forall i :: 0 <= i < |w.conns| && v.spent[i] == 0 ==> Untried(w.conns[i])
  }

  lemma ObserveKeeps(v: Lives, w: World, step: Step, b: Budget, parallel: nat)
    requires WorldOk(w, b, parallel) && Possible(w, step) && LivesOk(v, w)
    ensures LivesOk(Observe(v, w, step, b, parallel), Next(w, step, b, parallel))
  {
    hide WorldOk, Possible, StepConn, Replaces, Untried, Paid, Later;
    if !step.Deadline? {
      PossibleAlone(w, step);
      var c, l := w.conns[step.i], w.ledger;
      var others := OthersOwe(w, step.i, b, parallel);
      StepUntried(c, l, step, b, parallel, w.stop, others);
      var l' := StepConn(c, l, step, b, parallel, w.stop).1;
      AdvancePaid(v, step.i, Gained(l, l'), Replaces(c, l, step, b), c.nextId == 1, l.tally.Finished());
    }
  }

  lemma {:induction false} ObservedKeeps(v: Lives, w: World, steps: seq<Step>, b: Budget, parallel: nat)
    requires WorldOk(w, b, parallel) && IsRun(w, steps, b, parallel) && LivesOk(v, w)
    ensures LivesOk(Observed(v, w, steps, b, parallel), Run(w, steps, b, parallel))
    decreases |steps|
  {
    hide WorldOk, Next, Possible, Observe, Paid, Untried;
    if steps != [] {
      ObserveKeeps(v, w, steps[0], b, parallel);
      NextKeeps(w, steps[0], b, parallel);
      ObservedKeeps(Observe(v, w, steps[0], b, parallel), Next(w, steps[0], b, parallel), steps[1..], b, parallel);
    }
  }

  /** Over any run, connections are replaced at most once for each request that
      finished and once for each life that opened nothing and cost nothing. */
  lemma ReplacementsBounded(connections: nat, steps: seq<Step>, b: Budget, parallel: nat)
    requires connections > 0 && IsRun(Start(connections, b), steps, b, parallel)
    ensures var v := Observed(NoLives(connections), Start(connections, b), steps, b, parallel);
            v.ended <= Run(Start(connections, b), steps, b, parallel).ledger.tally.Finished() + v.idle
  {
    var v, w := NoLives(connections), Start(connections, b);
    StartOk(connections, b, parallel);
    SumZero(v.spent);
    assert LivesOk(v, w);
    hide Start, WorldOk, Run, Observed, Paid, Untried;
    ObservedKeeps(v, w, steps, b, parallel);
    PaidFor(Observed(v, w, steps, b, parallel), Run(w, steps, b, parallel).ledger.tally.Finished());
  }
}
