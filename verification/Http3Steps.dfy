/**
 What one pass over an HTTP/3 connection reads and opens, and what the end of a
 connection leaves of its slot.
 */
module Http3Steps {
  import opened Wrappers
  import opened Budgets
  import opened Statistics
  import opened Ledgers
  import opened Http3Accounting
  import opened Http3Limits
  import opened Http3Lives

  // ---- Reading ----

  /** A request ends a read with the status of the last feed that names it, at
      `k`, or with its own if there is none; nothing else about it changes, and
      no request comes or goes. */
  lemma {:induction false} LastFeedWins(streams: map<nat, Request>, feeds: seq<Feed>, id: nat, k: int)
    requires id in streams && -1 <= k < |feeds|
    requires k >= 0 ==> feeds[k].id == id
    requires forall j :: k < j < |feeds| ==> feeds[j].id != id
    ensures var read := ApplyFeeds(streams, feeds);
            && read.Keys == streams.Keys
            && read[id] == streams[id].(status := if k < 0 then streams[id].status else feeds[k].status)
    decreases |feeds|
  {
    if feeds != [] {
      var f := feeds[0];
      var next := if f.id in streams then streams[f.id := streams[f.id].(status := f.status)] else streams;
      assert next.Keys == streams.Keys;
      LastFeedWins(next, feeds[1..], id, if k < 0 then -1 else k - 1);
    }
  }

  /** The H3 streams are set up by the end of the pass: they were before it, they
      could be as soon as the handshake ended, or their credit came after all. */
  predicate Ready(c: ConnView, p: Pass) {
    || c.ready
    || p.connects == Some(true)
    || (p.setUp && (c.settingUp || p.connects == Some(false)))
  }

  // ---- Opening ----

  /** A stopped worker, a connection not set up and one that has seen a GOAWAY
      open nothing; any other opens exactly what there is room for. */
  lemma FillOpens(c: ConnView, l: Ledger, grants: seq<nat>, b: Budget, parallel: nat, stop: bool)
    requires forall id :: id in c.streams ==> id < c.nextId
    ensures var (c', l') := Fill(c, l, grants, b, parallel, stop);
            var may := c.ready && !stop && c.goaway.None?;
            var k := if may then Room(|c.streams|, l.started, |grants|, b, parallel) else 0;
            && l' == l.(started := l.started + k, begun := l.begun + k)
            && OpenedMore(c, c', grants, k)
  {
    hide OpenStreams, Added, Room;
    OpensExactly(c, l, grants, b, parallel);
    OpenedNone(c, grants);
  }

  /** What the accounting of a pass leaves in flight, and of the slot. */
  lemma SettleLeaves(c: ConnView, l: Ledger, p: Pass, b: Budget, parallel: nat, others: int, spare: int)
    requires Balanced(c, l, b, parallel, others, spare) && !c.closing
    ensures var (c', l') := Settle(c, l, p, parallel);
            var rest := Unended(c.streams, p.finished, c.goaway);
            && c'.streams == (if c.goaway.None? then rest else Under(rest, c.goaway.value))
            && (forall id :: id in c'.streams ==> id < c'.nextId)
            && SameLife(c, c') && c'.nextId == c.nextId
            && l'.begun == l.begun && l'.started + l'.refunded == l.started + l.refunded
  {
    hide ApplyFinishes, Judge, Unended, Having, Balanced, LedgerOk, GiveBackMany;
    SettleKeeps(c, l, p, b, parallel, others, spare);
    SettleGoesOn(c, l, p, parallel);
    VerdictsDecide(c, l, p.finished, p.now, parallel);
    KeepsGoaway(c, l, p.finished, p.now, parallel);
    var (c', l') := Settle(c, l, p, parallel);
    IdsBelow(c', l', b, parallel, others, spare);
  }

  lemma IdsBelow(c: ConnView, l: Ledger, b: Budget, parallel: nat, others: int, spare: int)
    requires Balanced(c, l, b, parallel, others, spare)
    ensures forall id :: id in c.streams ==> id < c.nextId
  {
  }

  /** What a pass that goes through leaves in flight: the requests that neither
      ended nor lie at or above the GOAWAY, and as many new ones as there is
      room for beside them, or none if it may open none. */
  lemma DriveOpens(c: ConnView, l: Ledger, p: Pass, b: Budget, parallel: nat, stop: bool, others: int, spare: int)
    requires Balanced(c, l, b, parallel, others, spare) && c.up && !c.closing && !p.aborts
    requires p.connects.Some? ==> !c.ready && !c.settingUp
    ensures var ((c', l'), alive) := Drive(c, l, p, b, parallel, stop);
            var may := Ready(c, p) && !stop && c.goaway.None? && p.goaways == [];
            var k := if may then Room(|LeftBy(c, p)|, l.started - (l'.refunded - l.refunded), |p.grants|, b, parallel) else 0;
            && l'.begun == l.begun + k
            && Added(LeftBy(c, p), c'.streams, c.nextId, 4, Stamped(c.nextId, p.grants), k)
            && c'.nextId == c.nextId + 4 * k
            && (c'.ready <==> Ready(c, p))
            && (c'.settingUp <==> !p.setUp && (c.settingUp || p.connects == Some(false)))
  {
    hide ApplyFeeds, Settle, Fill, Unended, Balanced, Added, Room, LedgerOk, Ordered;
    ReadKeeps(c, l, p, b, parallel, others, spare);
    LowestIs(c.goaway, p.goaways);
    var c0 := Read(c, p);
    SettleLeaves(c0, l, p, b, parallel, others, spare);
    var (c1, l1) := Settle(c0, l, p, parallel);
    FillOpens(SetUp(c1, p), l1, p.grants, b, parallel, stop);
  }

  /** A pass leaves in the table and among the samples exactly the requests it
      answered, as it had read them, timed to the moment of the pass. */
  lemma DriveRecords(c: ConnView, l: Ledger, p: Pass, b: Budget, parallel: nat, stop: bool, others: int, spare: int)
    requires Balanced(c, l, b, parallel, others, spare) && c.up && !c.closing && !p.aborts
    requires p.connects.Some? ==> !c.ready && !c.settingUp
    ensures var r := Read(c, p);
            var before, after := l.tally, Drive(c, l, p, b, parallel, stop).0.1.tally;
            && (forall status: Status :: after.statusCounts[status]
                  == before.statusCounts[status] + |Having(With(r.streams, status), p.finished, r.goaway, Answered)|)
            && Sampled(r.streams, p.finished, r.goaway, before.latencies, after.latencies, p.now)
  {
    hide Settle, Fill, Balanced, Having, Sampled, Read, With;
    ReadKeeps(c, l, p, b, parallel, others, spare);
    var r := Read(c, p);
    SettleLeaves(r, l, p, b, parallel, others, spare);
    SettleRecords(r, l, p, parallel);
    var (c1, l1) := Settle(r, l, p, parallel);
    FillOpens(SetUp(c1, p), l1, p.grants, b, parallel, stop);
  }

  lemma SettleRecords(c: ConnView, l: Ledger, p: Pass, parallel: nat)
    ensures var before, after := l.tally, Settle(c, l, p, parallel).1.tally;
            && (forall status: Status :: after.statusCounts[status]
                  == before.statusCounts[status] + |Having(With(c.streams, status), p.finished, c.goaway, Answered)|)
            && Sampled(c.streams, p.finished, c.goaway, before.latencies, after.latencies, p.now)
  {
    hide ApplyFinishes, GiveBackMany, Having, Sampled, With;
    Recorded(c, l, p.finished, p.now, parallel);
    var (c1, l1) := ApplyFinishes(c, l, p.finished, p.now, parallel);
    if c1.goaway.Some? {
      GiveBackRecordsNothing(c1.gb, l1, parallel, Dropped(c1.streams, c1.goaway.value));
    }
    var (c2, l2) := ApplyGoaway(c1, l1, parallel);
    GiveBackRecordsNothing(c2.gb.(unjudged := 0), l2, parallel, c2.gb.unjudged);
  }

  lemma {:induction false} GiveBackRecordsNothing(g: GiveBacks, l: Ledger, parallel: nat, n: nat)
    ensures var t := GiveBackMany(g, l, parallel, n).1.tally;
            t.statusCounts == l.tally.statusCounts && t.latencies == l.tally.latencies
  {
    if n > 0 {
      GiveBackRecordsNothing(g, l, parallel, n - 1);
    }
  }

  /** No step of a stopped worker opens a stream, and none on a connection that
      has seen a GOAWAY or is not set up by the end of the pass. */
  lemma OpensOnlyWhen(c: ConnView, l: Ledger, step: Step, b: Budget, parallel: nat, stop: bool, others: int, spare: int)
    requires Balanced(c, l, b, parallel, others, spare) && !step.Deadline?
    requires Possible(World([c], l, stop), step.(i := 0))
    ensures StepConn(c, l, step, b, parallel, stop).1.begun > l.begun ==>
              && step.Driven? && !step.pass.aborts && c.up && !stop
              && c.goaway.None? && step.pass.goaways == [] && Ready(c, step.pass)
  {
    hide Drive, BeginClose, Expired, Balanced, Added, Room, LeftBy;
    match step {
      case Driven(_, p, sending) =>
        if c.up && !p.aborts {
          DriveOpens(c, l, p, b, parallel, stop, others, spare);
        } else {
          DriveReadsOnly(c, l, p, b, parallel, stop);
        }
        var ((c1, l1), _) := Drive(c, l, p, b, parallel, stop);
        CloseOnlyFails(c1, l1, b, stop, sending);
      case Broken(_, sending) => CloseOnlyFails(c, l, b, stop, sending);
      case Timeout(_, _, _, sending) => CloseOnlyFails(c, l, b, stop, sending);
      case GraceOver(_) =>
    }
  }

  lemma DriveReadsOnly(c: ConnView, l: Ledger, p: Pass, b: Budget, parallel: nat, stop: bool)
    requires !c.up || p.aborts
    ensures Drive(c, l, p, b, parallel, stop).0.1 == l
  {
  }

  // ---- Ending ----

  /** A slot as if it had never been used, with a connection in it exactly if
      there is something to start. */
  ghost predicate Renewed(c: ConnView, l: Ledger, b: Budget, stop: bool) {
    c == ConnView(!stop && b.MayStart(l.started), false, false, None, 0, map[], GiveBacks(0, 0, 0), false, c.newest)
  }

  /** A step that ends a connection's life, or finds it over, renews the slot,
      unless the last send is still out; then the slot waits, owing nothing,
      and the send's completion or the end of the grace renews it. */
  lemma EndedExactly(c: ConnView, l: Ledger, step: Step, b: Budget, parallel: nat, stop: bool, others: int, spare: int)
    requires Balanced(c, l, b, parallel, others, spare) && Judged(c) && !step.Deadline?
    requires Possible(World([c], l, stop), step.(i := 0))
    requires EndsLife(c, step) || step.GraceOver? || (c.closing && step.Broken?)
    ensures var (c', l') := StepConn(c, l, step, b, parallel, stop);
            if !step.GraceOver? && step.sending then c'.closing && c'.up && Owed(c') == 0
            else Renewed(c', l', b, stop)
  {
    hide Drive, Last, LedgerOk, Ordered;
    match step {
      case Driven(_, p, sending) =>
        DriveKeeps(c, l, p, b, parallel, stop, others, spare);
        LastIsLast(c, l, p, b, parallel, stop);
      case Timeout(_, _, _, _) =>
        assert c.streams.Keys != {} && |c.streams| == |c.streams.Keys|;
      case _ =>
    }
  }
}
