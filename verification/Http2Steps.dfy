/**
 What one receive does to an HTTP/2 connection, all told: which streams it ends
 and how, what it charges, and what it opens after them.
 */
module Http2Steps {
  import opened Budgets
  import opened Statistics
  import opened Ledgers
  import opened Http2Accounting
  import opened Http2Limits
  import opened Http2Lives

  /** Streams can be opened: the worker is not stopping, the connection is up
      with nothing left to agree on, and it has seen no GOAWAY. */
  predicate Opens(c: ConnView, stop: bool) {
    c.connected && !c.handshaking && !stop && !c.goaway
  }

  /** A stopped worker, a connection still being set up and one that has seen a
      GOAWAY open nothing; any other opens exactly what there is room for. */
  lemma FillOpens(c: ConnView, l: Ledger, grants: seq<nat>, exhausted: bool, b: Budget, parallel: nat, stop: bool)
    requires forall id :: id in c.streams ==> id < c.nextId
    ensures var (c', l') := Fill(c, l, grants, exhausted, b, parallel, stop);
            var k := if Opens(c, stop) then Room(|c.streams|, l.started, |grants|, b, parallel) else 0;
            && l' == l.(started := l.started + k, begun := l.begun + k)
            && OpenedMore(c, c'.(goaway := c.goaway), grants, k)
            && c'.goaway == (c.goaway || (Opens(c, stop) && exhausted))
  {
    hide OpenStreams, Added, Room;
    OpensExactly(c, l, grants, b, parallel);
    OpenedNone(c, grants);
  }

  /** The requests given back that return to the budget, and those that are
      still held, after a batch of events. */
  ghost function Back(c: ConnView, events: seq<Event>): nat {
    if c.answered + |Having(c.streams, events, Answers)| > 0 then c.held + |Having(c.streams, events, GiveBacks)| else 0
  }

  ghost function StillHeld(c: ConnView, events: seq<Event>): nat {
    if c.answered + |Having(c.streams, events, Answers)| > 0 then 0 else c.held + |Having(c.streams, events, GiveBacks)|
  }

  /** After the events of a receive that is to replace the connection. */
  lemma BrokenCounts(c: ConnView, l: Ledger, b: Budget, stop: bool, now: nat)
    ensures var (c', l') := Break(c, l, b, stop, now);
            var charge := if c.handshaking && b.MayStart(l.started) then 1 else 0;
            && l'.begun == l.begun && l'.started == l.started + charge
            && l'.tally.completed == l.tally.completed
            && l'.tally.connectErrors == l.tally.connectErrors + charge
            && l'.tally.errors == l.tally.errors + charge + |c.streams| + c.held
  {
  }

  /** What a receive counts. */
  lemma ReceiveCounts(c: ConnView, l: Ledger, rx: Receipt, b: Budget, parallel: nat, stop: bool, others: int)
    requires Balanced(c, l, b, parallel, others) && c.connected
    ensures var (c', l') := Receive(c, l, rx, b, parallel, stop);
            var replaced := Replaces(c, l, Received(0, rx), b);
            var charge := if replaced && Chargeable(c, l, Received(0, rx), b) then 1 else 0;
            && l'.tally.completed == l.tally.completed + |Having(c.streams, rx.events, Answers)|
            && l'.tally.connectErrors == l.tally.connectErrors + charge
            && l'.tally.errors == l.tally.errors + |Having(c.streams, rx.events, Failures)| + charge
                 + (if replaced then |Survivors(c.streams, rx.events)| + StillHeld(c, rx.events) else 0)
            && l'.started - (l'.begun - l.begun) == l.started - Back(c, rx.events) + charge
  {
    hide ApplyEvents, Fill, Break, Balanced, Survivors, Having, Ordered;
    var c0 := if rx.handshakeDone then c.(handshaking := false) else c;
    var l0 := if Refused(c, rx) then FailConnect(l, b) else l;
    FailConnectKeeps(c, l, b, parallel, others);
    ShakenKeeps(c, l0, b, parallel, others);
    EventsKeep(c0, l0, rx.events, rx.now, b, parallel, others);
    EventsLater(c0, l0, rx.events, rx.now);
    HeldOnlyUnanswered(c, l, b, parallel, others);
    FatesDecide(c0, l0, rx.events, rx.now);
    var (c1, l1) := ApplyEvents(c0, l0, rx.events, rx.now);
    BrokenCounts(c1, l1, b, stop, rx.now);
    InIdOrder(c1, l1, b, parallel, others);
    FillOpens(c1, l1, rx.grants, rx.exhausted, b, parallel, stop);
    if c.handshaking {
      NoneYet(c, l, rx.events, b, parallel, others);
    }
  }

  lemma NoneYet(c: ConnView, l: Ledger, events: seq<Event>, b: Budget, parallel: nat, others: int)
    requires Balanced(c, l, b, parallel, others) && c.handshaking
    ensures Back(c, events) == 0 && StillHeld(c, events) == 0
    ensures forall kind :: |Having(c.streams, events, kind)| == 0
  {
    forall kind
      ensures Having(c.streams, events, kind) == {}
    {
    }
  }

  /** What a receive that does not replace the connection leaves in flight: the
      streams no event ended, as the events left them, and as many new ones as
      there is room for beside them, or none if it may open none. */
  lemma ReceiveOpens(c: ConnView, l: Ledger, rx: Receipt, b: Budget, parallel: nat, stop: bool, others: int)
    requires Balanced(c, l, b, parallel, others) && c.connected
    requires !Replaces(c, l, Received(0, rx), b)
    ensures var (c', l') := Receive(c, l, rx, b, parallel, stop);
            var kept := Survivors(c.streams, rx.events);
            var may := !stop && !c.goaway && Goaway !in rx.events && (c.handshaking ==> rx.handshakeDone);
            var k := if may then Room(|kept|, l.started - Back(c, rx.events), |rx.grants|, b, parallel) else 0;
            && l'.begun == l.begun + k
            && Added(kept, c'.streams, c.nextId, 2, Stamped(rx.grants), k)
            && c'.nextId == c.nextId + 2 * k
            && c'.goaway == (c.goaway || Goaway in rx.events || (may && rx.exhausted))
            && c'.handshaking == (c.handshaking && !rx.handshakeDone)
  {
    hide ApplyEvents, Fill, Break, Balanced, Survivors, Having, Ordered, Added, Room;
    var c0 := if rx.handshakeDone then c.(handshaking := false) else c;
    FailConnectKeeps(c, l, b, parallel, others);
    ShakenKeeps(c, l, b, parallel, others);
    EventsKeep(c0, l, rx.events, rx.now, b, parallel, others);
    EventsLater(c0, l, rx.events, rx.now);
    HeldOnlyUnanswered(c, l, b, parallel, others);
    FatesDecide(c0, l, rx.events, rx.now);
    var (c1, l1) := ApplyEvents(c0, l, rx.events, rx.now);
    InIdOrder(c1, l1, b, parallel, others);
    FillOpens(c1, l1, rx.grants, rx.exhausted, b, parallel, stop);
  }

  /** A receive leaves in the table and among the samples exactly the streams
      its events answered, timed to the moment it came. */
  lemma ReceiveRecords(c: ConnView, l: Ledger, rx: Receipt, b: Budget, parallel: nat, stop: bool, others: int)
    requires Balanced(c, l, b, parallel, others) && c.connected
    ensures var before, after := l.tally, Receive(c, l, rx, b, parallel, stop).1.tally;
            && (forall status: Status :: after.statusCounts[status]
                  == before.statusCounts[status] + |Having(c.streams, rx.events, AnswersWith(status))|)
            && Sampled(c.streams, rx.events, before.latencies, after.latencies, rx.now)
  {
    hide ApplyEvents, Fill, Break, Balanced, Having, Ordered, Sampled;
    var c0 := if rx.handshakeDone then c.(handshaking := false) else c;
    var l0 := if Refused(c, rx) then FailConnect(l, b) else l;
    FailConnectKeeps(c, l, b, parallel, others);
    ShakenKeeps(c, l0, b, parallel, others);
    EventsKeep(c0, l0, rx.events, rx.now, b, parallel, others);
    Recorded(c0, l0, rx.events, rx.now, b, parallel, others);
    var (c1, l1) := ApplyEvents(c0, l0, rx.events, rx.now);
    BreakRecordsNothing(c1, l1, b, stop, rx.now);
    InIdOrder(c1, l1, b, parallel, others);
    FillOpens(c1, l1, rx.grants, rx.exhausted, b, parallel, stop);
  }

  lemma BreakRecordsNothing(c: ConnView, l: Ledger, b: Budget, stop: bool, now: nat)
    ensures var t := Break(c, l, b, stop, now).1.tally;
            t.statusCounts == l.tally.statusCounts && t.latencies == l.tally.latencies
  {
  }

  /** A connection that comes up is shaking hands exactly if it speaks TLS, and
      otherwise opens what there is room for. */
  lemma UpOpens(c: ConnView, l: Ledger, i: nat, tls: bool, grants: seq<nat>, exhausted: bool,
                b: Budget, parallel: nat, stop: bool, others: int)
    requires Balanced(c, l, b, parallel, others) && c.dialing
    ensures var (c', l') := StepConn(c, l, Connect(i, tls, grants, exhausted), b, parallel, stop);
            var may := !tls && !stop && !c.goaway;
            var k := if may then Room(0, l.started, |grants|, b, parallel) else 0;
            && c'.connected && !c'.dialing && c'.handshaking == tls
            && c'.goaway == (c.goaway || (may && exhausted))
            && l' == l.(started := l.started + k, begun := l.begun + k)
            && Added(map[], c'.streams, c.nextId, 2, Stamped(grants), k)
  {
    hide Fill, LedgerOk, Ordered, Room, Added;
    InIdOrder(c, l, b, parallel, others);
    FillOpens(c.(dialing := false, connected := true, handshaking := tls), l, grants, exhausted, b, parallel, stop);
  }

  /** Ending a connection in any other way is an error for all it owed, and for
      one request more that a connect or a handshake that failed, or an idle
      wait, is charged to, if there is one. */
  lemma EndCounts(c: ConnView, l: Ledger, step: Step, b: Budget, parallel: nat, stop: bool, others: int)
    requires step.ConnectError? || step.IoError? || step.Timeout?
    requires Balanced(c, l, b, parallel, others) && Possible(World([c], l, stop), step.(i := 0))
    ensures var t, l' := l.tally, StepConn(c, l, step, b, parallel, stop).1;
            var ends := Replaces(c, l, step, b);
            var charged := ends && Chargeable(c, l, step, b) && (step.Timeout? ==> Owed(c) == 0);
            && l'.begun == l.begun && l'.started == l.started + (if charged then 1 else 0)
            && l'.tally.completed == t.completed && l'.tally.statusCounts == t.statusCounts
            && l'.tally.connectErrors == t.connectErrors + (if charged then 1 else 0)
            && l'.tally.errors == t.errors + (if charged then 1 else 0) + (if ends then Owed(c) else 0)
  {
    hide Break, LedgerOk, Ordered;
    match step {
      case ConnectError(_, now) =>
        BrokenCounts(c.(dialing := false), FailConnect(l, b), b, stop, now);
        BreakRecordsNothing(c.(dialing := false), FailConnect(l, b), b, stop, now);
      case IoError(_, now) =>
        BrokenCounts(c, l, b, stop, now);
        BreakRecordsNothing(c, l, b, stop, now);
      case Timeout(_, now, limit) =>
        TimeoutCosts(c, l, now, limit, b, stop);
        OwesNothing(c);
    }
  }

  lemma OwesNothing(c: ConnView)
    ensures Owed(c) == 0 <==> c.streams == map[] && c.held == 0
  {
  }

  /** No step of a stopped worker opens a stream, and none on a connection that
      has seen a GOAWAY or is not up and agreed by the end of the step. */
  lemma OpensOnlyWhen(c: ConnView, l: Ledger, step: Step, b: Budget, parallel: nat, stop: bool, others: int)
    requires Balanced(c, l, b, parallel, others) && !step.Deadline?
    requires Possible(World([c], l, stop), step.(i := 0))
    ensures StepConn(c, l, step, b, parallel, stop).1.begun > l.begun ==>
              && !stop && !c.goaway
              && (step.Connect? || (step.Received? && step.rx.fed && Goaway !in step.rx.events))
              && (if step.Connect? then !step.tls else c.handshaking ==> step.rx.handshakeDone)
  {
    hide Fill, Receive, Break, Replace, FailConnect, Expired, Balanced, Survivors, Room, Added;
    StepLived(c, l, step, b, parallel, stop, others);
    match step {
      case Connect(_, tls, grants, exhausted) =>
        InIdOrder(c, l, b, parallel, others);
        FillOpens(c.(dialing := false, connected := true, handshaking := tls), l, grants, exhausted, b, parallel, stop);
      case Received(_, rx) =>
        if !Replaces(c, l, step, b) {
          ReceiveOpens(c, l, rx, b, parallel, stop, others);
        }
      case Timeout(_, now, limit) =>
        TimeoutCosts(c, l, now, limit, b, stop);
      case _ =>
    }
  }
}
