/**
 Two things the HTTP/2 worker's accounting does not bound, and exactly when.

 Conservation holds of every run, but a counted run need not end: a peer can
 have requests sent again without limit, and can have a connection replaced
 without its costing the budget anything.
 */
module Http2Limits {
  import opened Budgets
  import opened Statistics
  import opened Ledgers
  import opened Http2Accounting

  // ---- Retries ----

  /** With at most one request to send, or no stream to send it on, there is
      never anything to give back after an answer. */
  ghost predicate NothingToRetry(b: Budget, parallel: nat) {
    parallel == 0 || (b.Requests? && b.n <= 1)
  }

  lemma EventUnrefunded(c: ConnView, l: Ledger, e: Event, now: nat, b: Budget, parallel: nat, others: nat)
    requires Balanced(c, l, b, parallel, others) && NothingToRetry(b, parallel)
    ensures ApplyEvent(c, l, e, now).1.refunded == l.refunded
  {
    hide Ordered, Tally.Consistent;
    if !e.Goaway? && e.id in c.streams {
      assert |c.streams| > 0;
    }
  }

  lemma {:induction false} EventsUnrefunded(c: ConnView, l: Ledger, events: seq<Event>, now: nat, b: Budget, parallel: nat, others: nat)
    requires Balanced(c, l, b, parallel, others) && NothingToRetry(b, parallel)
    ensures ApplyEvents(c, l, events, now).1.refunded == l.refunded
    decreases |events|
  {
    if events != [] {
      hide ApplyEvent, Balanced, NothingToRetry;
      EventUnrefunded(c, l, events[0], now, b, parallel, others);
      EventKeeps(c, l, events[0], now, b, parallel, others);
      var (c', l') := ApplyEvent(c, l, events[0], now);
      EventsUnrefunded(c', l', events[1..], now, b, parallel, others);
    }
  }

  lemma FillUnrefunded(c: ConnView, l: Ledger, grants: seq<nat>, exhausted: bool, b: Budget, parallel: nat, stop: bool)
    requires Ordered(c.streams, c.nextId, c.newest)
    ensures Fill(c, l, grants, exhausted, b, parallel, stop).1.refunded == l.refunded
  {
    hide OpenStreams, OpenedMore;
    OpensExactly(c, l, grants, b, parallel);
  }

  lemma ReceiveUnrefunded(c: ConnView, l: Ledger, rx: Receipt, b: Budget, parallel: nat, stop: bool, others: nat)
    requires Balanced(c, l, b, parallel, others) && NothingToRetry(b, parallel)
    ensures Receive(c, l, rx, b, parallel, stop).1.refunded == l.refunded
  {
    hide ApplyEvents, Fill, Balanced, NothingToRetry;
    var c0 := if rx.handshakeDone then c.(handshaking := false) else c;
    var l0 := if Refused(c, rx) then FailConnect(l, b) else l;
    FailConnectKeeps(c, l, b, parallel, others);
    ShakenKeeps(c, l0, b, parallel, others);
    EventsKeep(c0, l0, rx.events, rx.now, b, parallel, others);
    EventsUnrefunded(c0, l0, rx.events, rx.now, b, parallel, others);
    var (c1, l1) := ApplyEvents(c0, l0, rx.events, rx.now);
    InIdOrder(c1, l1, b, parallel, others);
    FillUnrefunded(c1, l1, rx.grants, rx.exhausted, b, parallel, stop);
  }

  lemma InIdOrder(c: ConnView, l: Ledger, b: Budget, parallel: nat, others: int)
    requires Balanced(c, l, b, parallel, others)
    ensures Ordered(c.streams, c.nextId, c.newest)
  {
  }

  lemma StepUnrefunded(c: ConnView, l: Ledger, step: Step, b: Budget, parallel: nat, stop: bool, others: nat)
    requires Balanced(c, l, b, parallel, others) && NothingToRetry(b, parallel) && !step.Deadline?
    ensures StepConn(c, l, step, b, parallel, stop).1.refunded == l.refunded
  {
    hide Fill, Receive, Expired, Balanced, NothingToRetry;
    match step {
      case Connect(_, tls, grants, exhausted) =>
        InIdOrder(c, l, b, parallel, others);
        FillUnrefunded(c.(dialing := false, connected := true, handshaking := tls), l, grants, exhausted, b, parallel, stop);
      case Received(_, rx) => ReceiveUnrefunded(c, l, rx, b, parallel, stop, others);
      case _ =>
    }
  }

  lemma {:induction false} RunUnrefunded(w: World, steps: seq<Step>, b: Budget, parallel: nat)
    requires WorldOk(w, b, parallel) && IsRun(w, steps, b, parallel) && NothingToRetry(b, parallel)
    ensures Run(w, steps, b, parallel).ledger.refunded == w.ledger.refunded
    decreases |steps|
  {
    hide WorldOk, Possible, StepConn, NothingToRetry;
    if steps != [] {
      var step := steps[0];
      NextKeeps(w, step, b, parallel);
      if !step.Deadline? {
        PossibleAlone(w, step);
        var others := OthersOwe(w, step.i, b, parallel);
        StepUnrefunded(w.conns[step.i], w.ledger, step, b, parallel, w.stop, others);
      }
      RunUnrefunded(Next(w, step, b, parallel), steps[1..], b, parallel);
    }
  }

  lemma AtMostTheBudget(connections: nat, n: nat, parallel: nat, steps: seq<Step>)
    requires connections > 0 && NothingToRetry(Requests(n), parallel)
    requires IsRun(Start(connections, Requests(n)), steps, Requests(n), parallel)
    ensures Run(Start(connections, Requests(n)), steps, Requests(n), parallel).ledger.begun <= n
  {
    hide IsRun, Run, NothingToRetry;
    StartOk(connections, Requests(n), parallel);
    RunUnrefunded(Start(connections, Requests(n)), steps, Requests(n), parallel);
    Conservation(connections, steps, Requests(n), parallel);
  }

  /** The first connection has answered and has one request in flight, the
      second of the run. */
  ghost predicate Refusing(w: World) {
    && |w.conns| > 0 && !w.stop && w.ledger.started == 2
    && var c := w.conns[0];
       && c.connected && !c.handshaking && !c.goaway && c.answered > 0 && c.held == 0
       && exists id :: c.streams.Keys == {id}
  }

  /** The peer refuses the request in flight, and it is opened again. */
  lemma RefuseOnce(w: World, n: nat, parallel: nat) returns (step: Step)
    requires Refusing(w) && n >= 2 && parallel >= 1
    ensures Possible(w, step)
    ensures Refusing(Next(w, step, Requests(n), parallel))
    ensures Next(w, step, Requests(n), parallel).ledger.begun == w.ledger.begun + 1
  {
    var c := w.conns[0];
    var id :| c.streams.Keys == {id};
    step := Received(0, Receipt([Unprocessed(id)], true, false, false, [c.newest], false, 0));
    assert (c.streams - {id}).Keys == {};
    var c1 := c.(streams := map[]);
    var l1 := w.ledger.Refund(1);
    assert ApplyEvents(c, w.ledger, [Unprocessed(id)], 0) == (c1, l1) by {
      assert c.streams - {id} == map[];
      assert [Unprocessed(id)][1..] == [];
    }
    var c2 := Opened(c1, c.newest);
    assert c2.streams.Keys == {c.nextId};
    OpenOne(c1, l1, c.newest, n, parallel);
  }

  lemma OpenOne(c: ConnView, l: Ledger, at: nat, n: nat, parallel: nat)
    requires c.streams == map[] && parallel > 0 && l.started < n
    ensures OpenStreams(c, l, [at], Requests(n), parallel) == (Opened(c, at), l.Open())
  {
    assert [at][1..] == [];
  }

  lemma {:induction false} RefuseMany(w: World, n: nat, parallel: nat, k: nat) returns (steps: seq<Step>)
    requires Refusing(w) && n >= 2 && parallel >= 1
    ensures IsRun(w, steps, Requests(n), parallel)
    ensures Run(w, steps, Requests(n), parallel).ledger.begun == w.ledger.begun + k
    decreases k
  {
    if k == 0 {
      steps := [];
    } else {
      var step := RefuseOnce(w, n, parallel);
      hide Refusing, Next, Possible;
      var rest := RefuseMany(Next(w, step, Requests(n), parallel), n, parallel, k - 1);
      steps := [step] + rest;
      assert steps[1..] == rest;
    }
  }

  /** Two steps, one after the other. */
  lemma RunTwo(w: World, a: Step, z: Step, b: Budget, parallel: nat)
    requires Possible(w, a) && Possible(Next(w, a, b, parallel), z)
    ensures IsRun(w, [a, z], b, parallel)
    ensures Run(w, [a, z], b, parallel) == Next(Next(w, a, b, parallel), z, b, parallel)
  {
    hide Possible, Next;
    RunNothing(w, b, parallel);
    RunSnoc(w, [], a, b, parallel);
    assert [] + [a] == [a] && [a] + [z] == [a, z];
    RunSnoc(w, [a], z, b, parallel);
  }

  const OPEN_ONE: ConnView := FRESH.(connected := true, nextId := 3, streams := map[1 := Request(0, 0)])

  lemma ConnectOpens(connections: nat, n: nat, parallel: nat) returns (step: Step)
    requires connections >= 1 && n >= 2 && parallel >= 1
    ensures Possible(Start(connections, Requests(n)), step)
    ensures var w := Next(Start(connections, Requests(n)), step, Requests(n), parallel);
            |w.conns| > 0 && w.conns[0] == OPEN_ONE && w.ledger.started == 1 && !w.stop
  {
    step := Connect(0, false, [0], false);
    var w := Start(connections, Requests(n));
    var c := FRESH.(connected := true);
    assert Opened(c, 0) == OPEN_ONE by {
      assert map[][1 := Request(0, 0)] == map[1 := Request(0, 0)];
    }
    OpenOne(c, w.ledger, 0, n, parallel);
  }

  lemma AnswerOpens(w: World, n: nat, parallel: nat) returns (step: Step)
    requires |w.conns| > 0 && w.conns[0] == OPEN_ONE && w.ledger.started == 1 && !w.stop
    requires n >= 2 && parallel >= 1
    ensures Possible(w, step) && Refusing(Next(w, step, Requests(n), parallel))
  {
    hide OpenStreams;
    var events := [Status(1, 200), End(1)];
    step := Received(0, Receipt(events, true, false, false, [0], false, 0));
    var c1 := OPEN_ONE.(streams := map[1 := Request(0, 200)]);
    var c2 := OPEN_ONE.(streams := map[], answered := 1);
    var l2 := w.ledger.(tally := w.ledger.tally.Success(200, 0));
    assert ApplyEvents(OPEN_ONE, w.ledger, events, 0) == (c2, l2) by {
      assert OPEN_ONE.streams[1 := Request(0, 200)] == c1.streams;
      assert c1.streams - {1} == map[];
      assert events[1..] == [End(1)] && [End(1)][1..] == [];
    }
    OpenOne(c2, l2, 0, n, parallel);
    assert Opened(c2, 0).streams.Keys == {3};
  }

  /** The first request answered, the second opened. */
  lemma AnswerOne(connections: nat, n: nat, parallel: nat) returns (steps: seq<Step>)
    requires connections >= 1 && n >= 2 && parallel >= 1
    ensures IsRun(Start(connections, Requests(n)), steps, Requests(n), parallel)
    ensures Refusing(Run(Start(connections, Requests(n)), steps, Requests(n), parallel))
  {
    hide Possible, Next, Refusing;
    var w := Start(connections, Requests(n));
    var connect := ConnectOpens(connections, n, parallel);
    var answer := AnswerOpens(Next(w, connect, Requests(n), parallel), n, parallel);
    RunTwo(w, connect, answer, Requests(n), parallel);
    steps := [connect, answer];
  }

  /** There is no retry bound in HTTP/2: any budget of two requests or more can
      open any number of streams, because a connection that has answered once
      may give back every request after it. */
  lemma NoRetryBound(connections: nat, n: nat, parallel: nat, k: nat) returns (steps: seq<Step>)
    requires connections >= 1 && n >= 2 && parallel >= 1
    ensures IsRun(Start(connections, Requests(n)), steps, Requests(n), parallel)
    ensures Run(Start(connections, Requests(n)), steps, Requests(n), parallel).ledger.begun >= k
  {
    hide Refusing, Next, Possible;
    var first := AnswerOne(connections, n, parallel);
    var w := Run(Start(connections, Requests(n)), first, Requests(n), parallel);
    var more := RefuseMany(w, n, parallel, k);
    RunConcat(Start(connections, Requests(n)), first, more, Requests(n), parallel);
    steps := first + more;
  }

  lemma {:induction false} RunConcat(w: World, a: seq<Step>, z: seq<Step>, b: Budget, parallel: nat)
    requires IsRun(w, a, b, parallel) && IsRun(Run(w, a, b, parallel), z, b, parallel)
    ensures IsRun(w, a + z, b, parallel)
    ensures Run(w, a + z, b, parallel) == Run(Run(w, a, b, parallel), z, b, parallel)
    decreases |a|
  {
    hide Next, Possible;
    if a == [] {
      assert a + z == z;
    } else {
      assert (a + z)[1..] == a[1..] + z;
      RunConcat(Next(w, a[0], b, parallel), a[1..], z, b, parallel);
    }
  }

  /** Exactly when no run opens more streams than it was asked for requests:
      with one request at most, or with no streams at all. */
  lemma RetriesBoundedExactlyWhen(connections: nat, n: nat, parallel: nat)
    requires connections > 0
    ensures (forall steps :: IsRun(Start(connections, Requests(n)), steps, Requests(n), parallel) ==>
               Run(Start(connections, Requests(n)), steps, Requests(n), parallel).ledger.begun <= n)
       <==> n <= 1 || parallel == 0
  {
    hide IsRun, Run, Start;
    if n <= 1 || parallel == 0 {
      forall steps | IsRun(Start(connections, Requests(n)), steps, Requests(n), parallel)
        ensures Run(Start(connections, Requests(n)), steps, Requests(n), parallel).ledger.begun <= n
      {
        AtMostTheBudget(connections, n, parallel, steps);
      }
    } else {
      var steps := NoRetryBound(connections, n, parallel, n + 1);
    }
  }

  // ---- Replacing a connection ----

  /** The step ends the connection: it failed, made no sense, was refused, has
      drained after a GOAWAY, or has waited too long. */
  ghost predicate Replaces(c: ConnView, l: Ledger, step: Step, b: Budget)
    requires !step.Deadline?
  {
    match step
    case Connect(_, _, _, _) => false
    case ConnectError(_, _) => true
    case IoError(_, _) => true
    case Received(_, rx) =>
      || !rx.fed || Refused(c, rx)
      || ((c.goaway || Goaway in rx.events) && Survivors(c.streams, rx.events) == map[])
    case Timeout(_, now, limit) => Expired(c, now, limit, b.MayStart(l.started))
  }

  /** There is a request left to charge, and something to charge it for: a
      connect that failed, a handshake cut short or refused, an idle wait. */
  predicate Chargeable(c: ConnView, l: Ledger, step: Step, b: Budget) {
    b.MayStart(l.started) &&
    match step
    case Connect(_, _, _, _) => false
    case ConnectError(_, _) => true
    case IoError(_, _) => c.handshaking
    case Received(_, rx) => c.handshaking && (!rx.handshakeDone || Refused(c, rx))
    case Timeout(_, _, _) => true
    case Deadline => false
  }

  function When(step: Step): nat {
    match step
    case ConnectError(_, now) => now
    case IoError(_, now) => now
    case Received(_, rx) => rx.now
    case Timeout(_, now, _) => now
    case _ => 0
  }

  lemma {:induction false} NothingToEnd(c: ConnView, l: Ledger, events: seq<Event>, now: nat)
    requires c.streams == map[]
    ensures ApplyEvents(c, l, events, now) == (c.(goaway := c.goaway || Goaway in events), l)
    decreases |events|
  {
    if events != [] {
      assert Goaway in events <==> events[0] == Goaway || Goaway in events[1..];
      NothingToEnd(ApplyEvent(c, l, events[0], now).0, l, events[1..], now);
    }
  }

  lemma {:induction false} SameSlot(c: ConnView, l: Ledger, events: seq<Event>, now: nat)
    ensures ApplyEvents(c, l, events, now).0.newest == c.newest
    decreases |events|
  {
    if events != [] {
      var (c', l') := ApplyEvent(c, l, events[0], now);
      SameSlot(c', l', events[1..], now);
    }
  }

  lemma ReceiveReplaces(c: ConnView, l: Ledger, rx: Receipt, b: Budget, parallel: nat, stop: bool)
    requires c.connected && Clocked(c.newest, rx.grants) && (c.answered > 0 ==> c.held == 0)
    ensures var (c', l') := Receive(c, l, rx, b, parallel, stop);
            if Replaces(c, l, Received(0, rx), b)
            then c' == Closed(c, rx.now).(dialing := !stop && b.MayStart(l'.started))
            else c'.connected
  {
    hide ApplyEvents, OpenStreams, Survivors, Having;
    var c0 := if rx.handshakeDone then c.(handshaking := false) else c;
    var l0 := if Refused(c, rx) then FailConnect(l, b) else l;
    FatesDecide(c0, l0, rx.events, rx.now);
    SameSlot(c0, l0, rx.events, rx.now);
    StaysUp(c0, l0, rx.events, rx.now);
    var (c1, l1) := ApplyEvents(c0, l0, rx.events, rx.now);
    FillStaysUp(c1, l1, rx.grants, b, parallel);
  }

  lemma {:induction false} StaysUp(c: ConnView, l: Ledger, events: seq<Event>, now: nat)
    ensures ApplyEvents(c, l, events, now).0.connected == c.connected
    decreases |events|
  {
    if events != [] {
      var (c', l') := ApplyEvent(c, l, events[0], now);
      StaysUp(c', l', events[1..], now);
    }
  }

  lemma {:induction false} FillStaysUp(c: ConnView, l: Ledger, grants: seq<nat>, b: Budget, parallel: nat)
    ensures OpenStreams(c, l, grants, b, parallel).0.connected == c.connected
    decreases |grants|
  {
    if grants != [] && |c.streams| < parallel && b.MayStart(l.started) {
      FillStaysUp(Opened(c, grants[0]), l.Open(), grants[1..], b, parallel);
    }
  }

  /** A step that replaces a connection leaves its slot as a fresh one, dialled
      if there is something to start; any other leaves the connection up, or
      was a check that did not expire. */
  lemma ReplacedExactlyWhen(c: ConnView, l: Ledger, step: Step, b: Budget, parallel: nat, stop: bool, others: int)
    requires Balanced(c, l, b, parallel, others) && !step.Deadline?
    requires Possible(World([c], l, stop), step.(i := 0))
    ensures var (c', l') := StepConn(c, l, step, b, parallel, stop);
            if Replaces(c, l, step, b)
            then c' == ConnView(!stop && b.MayStart(l'.started), false, false, false, 1, map[], 0, 0, When(step), c.newest)
            else c'.connected || (step.Timeout? && l' == l && c' == c.(idleSince := c'.idleSince))
  {
    hide Receive, Expired, Ordered, LedgerOk, Survivors, OpenStreams;
    match step {
      case Connect(_, tls, grants, _) =>
        FillStaysUp(c.(dialing := false, connected := true, handshaking := tls), l, grants, b, parallel);
      case Received(_, rx) => ReceiveReplaces(c, l, rx, b, parallel, stop);
      case _ =>
    }
  }

  lemma BreakOwingNothing(c: ConnView, l: Ledger, b: Budget, stop: bool, now: nat)
    requires Owed(c) == 0
    ensures Break(c, l, b, stop, now).1 == if c.handshaking then FailConnect(l, b) else l
  {
  }

  lemma ReceiveOwingNothing(c: ConnView, l: Ledger, rx: Receipt, b: Budget, parallel: nat, stop: bool)
    requires Owed(c) == 0 && Replaces(c, l, Received(0, rx), b)
    ensures Receive(c, l, rx, b, parallel, stop).1 == l <==> !Chargeable(c, l, Received(0, rx), b)
  {
    hide ApplyEvents, Fill, Break;
    assert c.streams == map[];
    var c0 := if rx.handshakeDone then c.(handshaking := false) else c;
    var l0 := if Refused(c, rx) then FailConnect(l, b) else l;
    NothingToEnd(c0, l0, rx.events, rx.now);
    var c1 := c0.(goaway := c0.goaway || Goaway in rx.events);
    BreakOwingNothing(c1, l0, b, stop, rx.now);
  }

  /** Replacing a connection that owed nothing leaves the ledger alone exactly
      if there was nothing to charge. */
  lemma NothingOwed(c: ConnView, l: Ledger, step: Step, b: Budget, parallel: nat, stop: bool)
    requires !step.Deadline? && Owed(c) == 0 && Replaces(c, l, step, b)
    ensures StepConn(c, l, step, b, parallel, stop).1 == l <==> !Chargeable(c, l, step, b)
  {
    hide Receive, Survivors, Fill, Break;
    assert c.streams == map[];
    match step {
      case ConnectError(_, now) => BreakOwingNothing(c.(dialing := false), FailConnect(l, b), b, stop, now);
      case IoError(_, now) => BreakOwingNothing(c, l, b, stop, now);
      case Received(_, rx) => ReceiveOwingNothing(c, l, rx, b, parallel, stop);
      case Timeout(_, now, limit) => TimeoutCosts(c, l, now, limit, b, stop);
    }
  }

  /** Replacing a connection costs nothing exactly when it owed nothing and
      there was nothing to charge for in its not having carried anything. */
  lemma FreeExactlyWhen(w: World, step: Step, b: Budget, parallel: nat)
    requires WorldOk(w, b, parallel) && Possible(w, step) && !step.Deadline?
    requires Replaces(w.conns[step.i], w.ledger, step, b)
    ensures Next(w, step, b, parallel).ledger == w.ledger
       <==> Owed(w.conns[step.i]) == 0 && !Chargeable(w.conns[step.i], w.ledger, step, b)
  {
    hide WorldOk, Replaces, Chargeable, StepConn;
    PossibleAlone(w, step);
    var c, l, i := w.conns[step.i], w.ledger, step.i;
    var others := OthersOwe(w, i, b, parallel);
    if Owed(c) == 0 {
      NothingOwed(c, l, step, b, parallel, w.stop);
    } else {
      StepKeeps(c, l, step, b, parallel, w.stop, others);
      ReplacedExactlyWhen(c, l, step, b, parallel, w.stop, others);
    }
  }

  /** The first state, but for when the first connection was last idle. */
  ghost function Again(connections: nat, b: Budget, idleSince: nat): World
    requires connections > 0
  {
    var w := Start(connections, b);
    w.(conns := w.conns[0 := w.conns[0].(idleSince := idleSince)])
  }

  /** So a TLS peer that sends GOAWAY with the end of its handshake brings the
      worker back to where it began, at whatever time, having counted nothing,
      and can do so again: only the time has changed. */
  lemma ReconnectsForNothing(connections: nat, b: Budget, parallel: nat, was: nat, now: nat) returns (steps: seq<Step>)
    requires connections > 0 && b.MayStart(0)
    ensures Again(connections, b, 0) == Start(connections, b)
    ensures |steps| == 2 && IsRun(Again(connections, b, was), steps, b, parallel)
    ensures Run(Again(connections, b, was), steps, b, parallel) == Again(connections, b, now)
  {
    var connect := Connect(0, true, [], false);
    var receive := Received(0, Receipt([Goaway], true, true, true, [], false, now));
    steps := [connect, receive];
    assert Again(connections, b, 0).conns == Start(connections, b).conns;
    var w0 := Again(connections, b, was);
    var w1 := Next(w0, connect, b, parallel);
    var c1 := w0.conns[0].(dialing := false, connected := true, handshaking := true);
    assert w1.conns[0] == c1 && w1.ledger == w0.ledger;
    NothingToEnd(c1.(handshaking := false), w0.ledger, [Goaway], now);
    var w2 := Next(w1, receive, b, parallel);
    assert w2.conns[0] == w0.conns[0].(idleSince := now) && w2.ledger == w0.ledger;
    assert w2.conns == Again(connections, b, now).conns;
    RunTwo(w0, connect, receive, b, parallel);
  }
}
