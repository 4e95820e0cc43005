/**
 What ending an HTTP/3 connection costs, and exactly when it costs nothing.

 Retries are bounded, but a counted run need not end: a peer can have a
 connection replaced without its costing the budget anything.
 */
module Http3Limits {
  import opened Wrappers
  import opened Budgets
  import Sums
  import opened Ledgers
  import opened Http3Accounting

  /** The connection is set up by the end of the pass. */
  ghost predicate ReadyAfter(c: ConnView, p: Pass) {
    var r := Read(c, p);
    r.ready || (!p.aborts && r.settingUp && p.setUp)
  }

  /** What the endings of a pass leave in flight on a connection. */
  ghost function LeftBy(c: ConnView, p: Pass): map<nat, Request> {
    var r := Read(c, p);
    var rest := Unended(r.streams, p.finished, r.goaway);
    if r.goaway.None? then rest else Under(rest, r.goaway.value)
  }

  /** The pass is the connection's last: reading failed, QUIC gave up, or a
      GOAWAY has left it nothing to wait for. */
  ghost predicate Last(c: ConnView, p: Pass) {
    c.up && (p.aborts || p.lost || (Read(c, p).goaway.Some? && LeftBy(c, p) == map[]))
  }

  /** The step ends the connection's life. */
  ghost predicate EndsLife(c: ConnView, step: Step)
    requires !step.Deadline?
  {
    !c.closing &&
    match step
    case Driven(_, pass, _) => Last(c, pass)
    case Broken(_, _) => true
    case Timeout(_, now, limit, _) => Expired(c, now, limit)
    case GraceOver(_) => false
  }

  /** There is a request left to charge for a connection never set up, or one
      was opened in the same breath. */
  ghost predicate Chargeable(c: ConnView, l: Ledger, step: Step, b: Budget, parallel: nat, stop: bool)
    requires !step.Deadline?
  {
    b.MayStart(l.started) &&
    match step
    case Driven(_, p, _) =>
      || !ReadyAfter(c, p)
      || (!p.aborts && !stop && Read(c, p).goaway.None? && p.grants != [] && parallel > 0)
    case Broken(_, _) => !c.ready
    case Timeout(_, _, _, _) => true
    case GraceOver(_) => false
  }

  lemma {:induction false} NothingToFinish(c: ConnView, l: Ledger, fs: seq<Finish>, now: nat, parallel: nat)
    requires c.streams == map[]
    ensures ApplyFinishes(c, l, fs, now, parallel) == (c, l)
    decreases |fs|
  {
    if fs != [] {
      NothingToFinish(c, l, fs[1..], now, parallel);
    }
  }

  lemma {:induction false} NothingToFeed(feeds: seq<Feed>)
    ensures ApplyFeeds(map[], feeds) == map[]
    decreases |feeds|
  {
    if feeds != [] {
      NothingToFeed(feeds[1..]);
    }
  }

  /** With nothing owed there is nothing to settle. */
  lemma NothingToSettle(c: ConnView, l: Ledger, p: Pass, parallel: nat)
    requires c.streams == map[] && c.gb.unjudged == 0
    ensures Settle(c, l, p, parallel) == (c, l)
  {
    hide ApplyFinishes;
    NothingToFinish(c, l, p.finished, p.now, parallel);
    if c.goaway.Some? {
      assert Under(c.streams, c.goaway.value) == map[];
      assert Dropped(c.streams, c.goaway.value) == 0;
    }
  }

  /** Streams opened by a pass change the ledger; none opened leave it alone. */
  lemma OpenedShows(c: ConnView, l: Ledger, grants: seq<nat>, b: Budget, parallel: nat)
    requires c.streams == map[]
    ensures var (c', l') := OpenStreams(c, l, grants, b, parallel);
            && |c'.streams| == l'.begun - l.begun
            && c' == c.(streams := c'.streams, nextId := c'.nextId, newest := c'.newest)
            && l' == l.(started := l'.started, begun := l'.begun)
            && (l'.begun > l.begun <==> grants != [] && parallel > 0 && b.MayStart(l.started))
            && (l'.begun == l.begun ==> l' == l)
  {
    hide OpenStreams, Added;
    OpensExactly(c, l, grants, b, parallel);
    RoomNext(0, l.started, |grants|, b, parallel);
    AddedSize(c, OpenStreams(c, l, grants, b, parallel).0, grants, Room(0, l.started, |grants|, b, parallel));
  }

  lemma AddedSize(c: ConnView, c': ConnView, grants: seq<nat>, k: nat)
    requires OpenedMore(c, c', grants, k)
    ensures |c'.streams| == |c.streams| + k
  {
  }

  /** A last pass over a connection that owed nothing: what it leaves to
      charge, and what it opened on the way. */
  lemma LastPass(c: ConnView, l: Ledger, p: Pass, b: Budget, parallel: nat, stop: bool)
    requires Owed(c) == 0 && !c.closing && Last(c, p)
    requires p.connects.Some? ==> !c.ready && !c.settingUp
    requires c.ready ==> !c.settingUp
    ensures var ((c', l'), alive) := Drive(c, l, p, b, parallel, stop);
            && !alive && !c'.closing && (c'.ready <==> ReadyAfter(c, p))
            && Owed(c') == l'.begun - l.begun
            && (!c'.ready ==> l' == l)
            && l' == l.(started := l'.started, begun := l'.begun)
            && (l' == l <==> l'.begun == l.begun)
            && (l'.begun > l.begun <==>
                  && ReadyAfter(c, p) && b.MayStart(l.started) && !p.aborts && !stop
                  && Read(c, p).goaway.None? && p.grants != [] && parallel > 0)
  {
    hide ApplyFeeds, Settle, OpenStreams, Unended;
    assert c.streams == map[];
    NothingToFeed(p.feeds);
    var c0 := Read(c, p);
    assert c0.streams == map[] && c0.gb == c.gb;
    NothingToSettle(c0, l, p, parallel);
    OpenedShows(SetUp(c0, p), l, p.grants, b, parallel);
  }

  lemma NothingOwed(c: ConnView, l: Ledger, step: Step, b: Budget, parallel: nat, stop: bool)
    requires !step.Deadline? && Owed(c) == 0 && EndsLife(c, step)
    requires step.Driven? && step.pass.connects.Some? ==> !c.ready && !c.settingUp
    requires c.ready ==> !c.settingUp
    ensures StepConn(c, l, step, b, parallel, stop).1 == l <==> !Chargeable(c, l, step, b, parallel, stop)
  {
    hide Drive, Last, ReadyAfter, Closed, Read;
    assert c.streams == map[];
    match step {
      case Driven(_, p, _) => LastPass(c, l, p, b, parallel, stop);
      case _ =>
    }
  }

  /** A step that ends a connection's life leaves it closing, waiting for its
      last send, or the slot as a fresh one; nothing is owed either way. */
  lemma EndedOwesNothing(c: ConnView, l: Ledger, step: Step, b: Budget, parallel: nat, stop: bool, others: int, spare: int)
    requires Balanced(c, l, b, parallel, others, spare) && Judged(c) && !step.Deadline?
    requires Possible(World([c], l, stop), step.(i := 0)) && EndsLife(c, step)
    ensures Owed(StepConn(c, l, step, b, parallel, stop).0) == 0
  {
    hide Drive, Ordered, LedgerOk, Judged;
    match step {
      case Driven(_, p, _) =>
        LastIsLast(c, l, p, b, parallel, stop);
        DriveKeeps(c, l, p, b, parallel, stop, others, spare);
      case _ =>
    }
  }

  lemma LastIsLast(c: ConnView, l: Ledger, p: Pass, b: Budget, parallel: nat, stop: bool)
    ensures Drive(c, l, p, b, parallel, stop).1 <==> !Last(c, p)
  {
    hide Read, ApplyFinishes, Judge, Fill, Unended, Having;
    if c.up && !p.aborts {
      var r := Read(c, p);
      VerdictsDecide(r, l, p.finished, p.now, parallel);
      KeepsGoaway(r, l, p.finished, p.now, parallel);
    }
  }

  lemma {:induction false} KeepsGoaway(c: ConnView, l: Ledger, fs: seq<Finish>, now: nat, parallel: nat)
    ensures ApplyFinishes(c, l, fs, now, parallel).0.goaway == c.goaway
    decreases |fs|
  {
    if fs != [] {
      var (c', l') := ApplyFinish(c, l, fs[0], now, parallel);
      KeepsGoaway(c', l', fs[1..], now, parallel);
    }
  }

  /** Ending a connection costs nothing exactly when it owed nothing and there
      was neither a request to charge for its never having been set up nor one
      opened as it ended. */
  lemma FreeExactlyWhen(w: World, step: Step, b: Budget, parallel: nat)
    requires WorldOk(w, b, parallel) && Possible(w, step) && !step.Deadline?
    requires EndsLife(w.conns[step.i], step)
    ensures Next(w, step, b, parallel).ledger == w.ledger
       <==> Owed(w.conns[step.i]) == 0 && !Chargeable(w.conns[step.i], w.ledger, step, b, parallel, w.stop)
  {
    hide EndsLife, Chargeable, StepConn, Ordered, Attended;
    PossibleAlone(w, step);
    var c, l := w.conns[step.i], w.ledger;
    var others := OthersOwe(w, step.i, b, parallel);
    if Owed(c) == 0 {
      NothingOwed(c, l, step, b, parallel, w.stop);
    } else {
      SpendsOwed(w, step, b, parallel, others);
    }
  }

  lemma SpendsOwed(w: World, step: Step, b: Budget, parallel: nat, others: nat)
    requires WorldOk(w, b, parallel) && Possible(w, step) && !step.Deadline?
    requires EndsLife(w.conns[step.i], step) && Owed(w.conns[step.i]) > 0
    requires Balanced(w.conns[step.i], w.ledger, b, parallel, others,
                      Sums.Sum(CreditAll(w.conns, parallel)) - Credit(w.conns[step.i], parallel))
    ensures Next(w, step, b, parallel).ledger != w.ledger
  {
    hide EndsLife, StepConn, ConnOk, LedgerOk, Attended, Judged, Credit;
    PossibleAlone(w, step);
    var spare := Sums.Sum(CreditAll(w.conns, parallel)) - Credit(w.conns[step.i], parallel);
    StepKeeps(w.conns[step.i], w.ledger, step, b, parallel, w.stop, others, spare);
    EndedOwesNothing(w.conns[step.i], w.ledger, step, b, parallel, w.stop, others, spare);
  }

  /** So a peer that sends GOAWAY(0) with the end of its handshake brings the
      worker back to exactly where it began, having counted nothing. The pass
      closes the connection and leaves its last datagram out; when that has
      been sent, the slot is opened again. */
  lemma ReconnectsForNothing(connections: nat, b: Budget, parallel: nat) returns (steps: seq<Step>)
    requires connections > 0 && b.MayStart(0)
    ensures |steps| == 2 && IsRun(Start(connections, b), steps, b, parallel)
    ensures Run(Start(connections, b), steps, b, parallel) == Start(connections, b)
    ensures steps[0].Driven? && steps[0].sending
    ensures Next(Start(connections, b), steps[0], b, parallel).conns[0].closing
  {
    var p := Pass(Some(true), false, [], [0], false, [], false, [], 0);
    var pass, done := Driven(0, p, true), Broken(0, false);
    steps := [pass, done];
    var w := Start(connections, b);
    var c0 := w.conns[0].(ready := true, goaway := Some(0));
    assert Read(w.conns[0], p) == c0 by {
      assert [0][1..] == [];
    }
    NothingToSettle(c0, w.ledger, p, parallel);
    var w1 := Next(w, pass, b, parallel);
    assert w1.conns[0] == c0.(closing := true) && w1.ledger == w.ledger;
    var w2 := Next(w1, done, b, parallel);
    assert w2.conns[0] == w.conns[0] && w2.ledger == w.ledger;
    assert w2.conns == w.conns;
    RunTwo(w, pass, done, b, parallel);
  }

  /** Two steps, one after the other. */
  lemma RunTwo(w: World, a: Step, z: Step, b: Budget, parallel: nat)
    requires Possible(w, a) && Possible(Next(w, a, b, parallel), z)
    ensures IsRun(w, [a, z], b, parallel)
    ensures Run(w, [a, z], b, parallel) == Next(Next(w, a, b, parallel), z, b, parallel)
  {
    hide Possible, Next;
    RunNothing(w, b, parallel);
    RunSnoc(w, [], a, b, parallel);
    assert [] + [a] == [a] && [a] + [z] == [a, z];
    RunSnoc(w, [a], z, b, parallel);
  }
}
