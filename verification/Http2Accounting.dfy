/**
 Request accounting of the HTTP/2 worker, as functions on values.

 A request is opened, and then answered, failed, given back to the budget, or
 held until its connection answers something. The functions here say what each
 event does to one connection and to the worker's ledger; the lemmas say what
 no sequence of events, over any number of connections, can break.
 `Http2Worker` is the in-place code proved to compute these functions.
 */
module Http2Accounting {
  import opened Budgets
  import opened Statistics
  import opened Sums
  import opened Ledgers

  /** An in-flight request: when it was opened and its `:status` (0 = none yet). */
  datatype Request = Request(start: nat, status: Status)

  /** What the protocol tells the worker. Ids are whatever the peer names. */
  datatype Event =
    | Status(id: nat, status: Status)
    | End(id: nat)
    | Reset(id: nat)
    | Unprocessed(id: nat)
    | Goaway

  datatype ConnView = ConnView(
    /** A connect is outstanding. */
    dialing: bool,
    connected: bool,
    /** Connected, and the TLS handshake is still in progress. */
    handshaking: bool,
    goaway: bool,
    nextId: nat,
    streams: map<nat, Request>,
    /** Responses received on this connection. */
    answered: nat,
    /** Requests the peer turned away on a connection without an answer. */
    held: nat,
    idleSince: nat,
    /** When the newest request of this connection was opened. */
    newest: nat)

  // ---- One connection ----

  ghost function ApplyEvent(c: ConnView, l: Ledger, e: Event, now: nat): (ConnView, Ledger) {
    match e
    case Status(id, status) =>
      if id in c.streams
      then (c.(streams := c.streams[id := c.streams[id].(status := status)]), l)
      else (c, l)
    case End(id) =>
      if id !in c.streams then (c, l)
      else
        var r := c.streams[id];
        var c' := c.(streams := c.streams - {id});
        if r.status == 0 then (c', l.Fail(1))
        else (c'.(answered := c.answered + 1, held := 0),
              l.(tally := l.tally.Success(r.status, Elapsed(now, r.start))).Refund(c.held))
    case Reset(id) =>
      if id in c.streams then (c.(streams := c.streams - {id}), l.Fail(1)) else (c, l)
    case Unprocessed(id) =>
      if id !in c.streams then (c, l)
      else
        var c' := c.(streams := c.streams - {id});
        if c.answered > 0 then (c', l.Refund(1)) else (c'.(held := c.held + 1), l)
    case Goaway => (c.(goaway := true), l)
  }

  ghost function ApplyEvents(c: ConnView, l: Ledger, events: seq<Event>, now: nat): (ConnView, Ledger)
    decreases |events|
  {
    if events == [] then (c, l)
    else
      var (c', l') := ApplyEvent(c, l, events[0], now);
      ApplyEvents(c', l', events[1..], now)
  }

  /** Open streams while the protocol grants them; one grant is the time at
      which it did, and the end of the grants is a refusal. */
  ghost function OpenStreams(c: ConnView, l: Ledger, grants: seq<nat>, b: Budget, parallel: nat): (ConnView, Ledger)
    decreases |grants|
  {
    if grants == [] || |c.streams| >= parallel || !b.MayStart(l.started) then (c, l)
    else OpenStreams(Opened(c, grants[0]), l.Open(), grants[1..], b, parallel)
  }

  ghost function Opened(c: ConnView, at: nat): ConnView {
    c.(streams := c.streams[c.nextId := Request(at, 0)], nextId := c.nextId + 2, newest := at)
  }

  ghost function Fill(c: ConnView, l: Ledger, grants: seq<nat>, exhausted: bool,
                      b: Budget, parallel: nat, stop: bool): (ConnView, Ledger)
  {
    if !c.connected || c.handshaking || stop || c.goaway then (c, l)
    else
      var (c', l') := OpenStreams(c, l, grants, b, parallel);
      (if exhausted then c'.(goaway := true) else c', l')
  }

  ghost function FailInflight(c: ConnView, l: Ledger): (ConnView, Ledger) {
    (c.(streams := map[], held := 0), l.Fail(|c.streams| + c.held))
  }

  ghost function Closed(c: ConnView, now: nat): ConnView {
    ConnView(false, false, false, false, 1, map[], 0, 0, now, c.newest)
  }

  /** Fail what is in flight, close, and dial again if budget remains. */
  ghost function Replace(c: ConnView, l: Ledger, b: Budget, stop: bool, now: nat): (ConnView, Ledger) {
    var (c', l') := FailInflight(c, l);
    (Closed(c', now).(dialing := !stop && b.MayStart(l'.started)), l')
  }

  /** The connection died or refused. */
  ghost function Break(c: ConnView, l: Ledger, b: Budget, stop: bool, now: nat): (ConnView, Ledger) {
    Replace(c, if c.handshaking then FailConnect(l, b) else l, b, stop, now)
  }

  /** What one receive brought: its events, whether the bytes made sense, and
      whether they finished the TLS handshake with h2 agreed. */
  datatype Receipt = Receipt(
    events: seq<Event>,
    fed: bool,
    handshakeDone: bool,
    alpnH2: bool,
    grants: seq<nat>,
    exhausted: bool,
    now: nat)

  /** The TLS handshake ended without h2 agreed. */
  predicate Refused(c: ConnView, rx: Receipt) {
    rx.fed && c.handshaking && rx.handshakeDone && !rx.alpnH2
  }

  ghost function Receive(c: ConnView, l: Ledger, rx: Receipt, b: Budget, parallel: nat, stop: bool): (ConnView, Ledger) {
    var refused := Refused(c, rx);
    var c0 := if rx.handshakeDone then c.(handshaking := false) else c;
    var l0 := if refused then FailConnect(l, b) else l;
    var (c', l') := ApplyEvents(c0, l0, rx.events, rx.now);
    if !rx.fed || refused || (c'.goaway && c'.streams == map[])
    then Break(c', l', b, stop, rx.now)
    else Fill(c', l', rx.grants, rx.exhausted, b, parallel, stop)
  }

  /** Some request in flight was opened the limit or longer ago; or there is
      none, although there is work, and the connection has been idle that long. */
  ghost predicate Expired(c: ConnView, now: nat, limit: nat, mayStart: bool) {
    if c.streams != map[] then exists id :: id in c.streams && Passed(c.streams[id].start, limit, now)
    else c.connected && (c.held > 0 || mayStart) && Passed(c.idleSince, limit, now)
  }

  ghost function CheckTimeout(c: ConnView, l: Ledger, now: nat, limit: nat, b: Budget, stop: bool): (ConnView, Ledger) {
    var seen := if c.streams != map[] then c.(idleSince := now) else c;
    if !Expired(c, now, limit, b.MayStart(l.started)) then (seen, l)
    else Replace(seen, if c.streams == map[] && c.held == 0 then FailConnect(l, b) else l, b, stop, now)
  }

  // ---- The worker ----

  datatype World = World(conns: seq<ConnView>, ledger: Ledger, stop: bool)

  datatype Step =
    | Connect(i: nat, tls: bool, grants: seq<nat>, exhausted: bool)
    | ConnectError(i: nat, now: nat)
    | Received(i: nat, rx: Receipt)
    | IoError(i: nat, now: nat)
    | Timeout(i: nat, now: nat, limit: nat)
    | Deadline

  ghost function StepConn(c: ConnView, l: Ledger, step: Step, b: Budget, parallel: nat, stop: bool): (ConnView, Ledger)
    requires !step.Deadline?
  {
    match step
    case Connect(_, tls, grants, exhausted) =>
      Fill(c.(dialing := false, connected := true, handshaking := tls), l, grants, exhausted, b, parallel, stop)
    case ConnectError(_, now) => Break(c.(dialing := false), FailConnect(l, b), b, stop, now)
    case Received(_, rx) => Receive(c, l, rx, b, parallel, stop)
    case IoError(_, now) => Break(c, l, b, stop, now)
    case Timeout(_, now, limit) => CheckTimeout(c, l, now, limit, b, stop)
  }

  /** The kernel completes only what is outstanding, and time is monotone. */
  predicate Possible(w: World, step: Step) {
    step.Deadline? ||
    (step.i < |w.conns| &&
     var c := w.conns[step.i];
     match step
     case Connect(_, _, grants, _) => c.dialing && Clocked(c.newest, grants)
     case ConnectError(_, _) => c.dialing
     case Received(_, rx) => c.connected && Clocked(c.newest, rx.grants)
     case IoError(_, _) => c.connected
     case Timeout(_, _, _) => true)
  }

  lemma PossibleAlone(w: World, step: Step)
    requires Possible(w, step) && !step.Deadline?
    ensures step.i < |w.conns| && Possible(World([w.conns[step.i]], w.ledger, w.stop), step.(i := 0))
  {
  }

  ghost function Next(w: World, step: Step, b: Budget, parallel: nat): World
    requires Possible(w, step)
  {
    if step.Deadline? then w.(stop := true)
    else
      var (c, l) := StepConn(w.conns[step.i], w.ledger, step, b, parallel, w.stop);
      w.(conns := w.conns[step.i := c], ledger := l)
  }

  const FRESH: ConnView := ConnView(false, false, false, false, 1, map[], 0, 0, 0, 0)

  ghost function Start(connections: nat, b: Budget): World {
    World(seq(connections, i => FRESH.(dialing := b.MayStart(i))), Ledger(0, 0, 0, NOTHING), false)
  }

  /** Every step of a run is possible where it is taken. */
  ghost predicate IsRun(w: World, steps: seq<Step>, b: Budget, parallel: nat)
    decreases |steps|
  {
    steps == [] || (Possible(w, steps[0]) && IsRun(Next(w, steps[0], b, parallel), steps[1..], b, parallel))
  }

  ghost function Run(w: World, steps: seq<Step>, b: Budget, parallel: nat): World
    requires IsRun(w, steps, b, parallel)
    decreases |steps|
  {
    if steps == [] then w else Run(Next(w, steps[0], b, parallel), steps[1..], b, parallel)
  }

  // ---- What every step keeps ----

  /** Requests of this connection that have neither ended nor been refunded. */
  ghost function Owed(c: ConnView): nat {
    |c.streams| + c.held
  }

  ghost predicate ConnOk(c: ConnView, parallel: nat) {
    && (c.answered > 0 ==> c.held == 0)
    && |c.streams| <= parallel
    && (!c.connected || c.handshaking ==> c.streams == map[] && c.held == 0 && c.answered == 0)
    && (c.handshaking ==> c.connected)
    && (c.dialing ==> !c.connected)
    && c.nextId % 2 == 1
    && Ordered(c.streams, c.nextId, c.newest)
  }

  /** Later ids carry later start times, and every id is below the next. */
  ghost predicate Ordered(streams: map<nat, Request>, nextId: nat, newest: nat) {
    && (forall id :: id in streams ==> id < nextId && streams[id].start <= newest)
    && (forall a, b :: a in streams && b in streams && a < b ==> streams[a].start <= streams[b].start)
  }

  ghost predicate LedgerOk(l: Ledger, b: Budget) {
    && l.tally.Consistent()
    && l.started == l.begun + l.tally.connectErrors - l.refunded
    && (l.tally.completed == 0 ==> l.refunded == 0)
    && (b.Requests? ==> l.started <= b.n)
  }

  /** `others` is what the rest of the worker's connections owe. */
  ghost predicate Balanced(c: ConnView, l: Ledger, b: Budget, parallel: nat, others: int) {
    && ConnOk(c, parallel)
    && LedgerOk(l, b)
    && c.answered <= l.tally.completed
    && l.started == l.tally.Finished() + Owed(c) + others
  }

  lemma TakeOrdered(m: map<nat, Request>, id: nat, nextId: nat, newest: nat)
    requires id in m && Ordered(m, nextId, newest)
    ensures |m - {id}| == |m| - 1 && Ordered(m - {id}, nextId, newest)
  {
    assert (m - {id}).Keys == m.Keys - {id};
  }

  lemma StatusOrdered(m: map<nat, Request>, id: nat, status: Status, nextId: nat, newest: nat)
    requires id in m && Ordered(m, nextId, newest)
    ensures var m' := m[id := m[id].(status := status)]; |m'| == |m| && Ordered(m', nextId, newest)
  {
    assert m[id := m[id].(status := status)].Keys == m.Keys;
  }

  lemma OpenOrdered(c: ConnView, at: nat)
    requires Ordered(c.streams, c.nextId, c.newest) && c.newest <= at
    ensures var c' := Opened(c, at); |c'.streams| == |c.streams| + 1 && Ordered(c'.streams, c'.nextId, c'.newest)
  {
    assert c.nextId !in c.streams;
  }

  lemma EventKeeps(c: ConnView, l: Ledger, e: Event, now: nat, b: Budget, parallel: nat, others: int)
    requires Balanced(c, l, b, parallel, others)
    ensures var (c', l') := ApplyEvent(c, l, e, now);
            && Balanced(c', l', b, parallel, others)
            && c'.connected == c.connected && c'.handshaking == c.handshaking
            && c'.newest == c.newest && c'.dialing == c.dialing
            && l.tally.completed <= l'.tally.completed
  {
    hide Ordered, Tally.Consistent;
    if !e.Goaway? && e.id in c.streams {
      var r := c.streams[e.id];
      TakeOrdered(c.streams, e.id, c.nextId, c.newest);
      match e {
        case End(_) =>
          SuccessConsistent(l.tally, r.status, Elapsed(now, r.start));
          FailuresConsistent(l.tally, 1);
        case Status(id, status) =>
          StatusOrdered(c.streams, id, status, c.nextId, c.newest);
        case Reset(_) =>
          FailuresConsistent(l.tally, 1);
        case Unprocessed(_) =>
      }
    }
  }

  lemma {:induction false} EventsKeep(c: ConnView, l: Ledger, events: seq<Event>, now: nat, b: Budget, parallel: nat, others: int)
    requires Balanced(c, l, b, parallel, others)
    ensures var (c', l') := ApplyEvents(c, l, events, now);
            && Balanced(c', l', b, parallel, others)
            && c'.connected == c.connected && c'.handshaking == c.handshaking
            && c'.newest == c.newest && c'.dialing == c.dialing
            && l.tally.completed <= l'.tally.completed
    decreases |events|
  {
    if events != [] {
      hide ApplyEvent, Balanced;
      EventKeeps(c, l, events[0], now, b, parallel, others);
      var (c', l') := ApplyEvent(c, l, events[0], now);
      EventsKeep(c', l', events[1..], now, b, parallel, others);
    }
  }

  lemma {:induction false} OpenKeeps(c: ConnView, l: Ledger, grants: seq<nat>, b: Budget, parallel: nat, others: int)
    requires Balanced(c, l, b, parallel, others)
    requires c.connected && !c.handshaking
    requires Clocked(c.newest, grants)
    ensures var (c', l') := OpenStreams(c, l, grants, b, parallel);
            Balanced(c', l', b, parallel, others) && c'.connected && l'.tally == l.tally
    decreases |grants|
  {
    if grants != [] && |c.streams| < parallel && b.MayStart(l.started) {
      hide Ordered, Tally.Consistent;
      OpenOrdered(c, grants[0]);
      var l' := l.Open();
      OpenKeeps(Opened(c, grants[0]), l', grants[1..], b, parallel, others);
    }
  }

  /** What is opened for a list of grants. */
  ghost function Stamped(grants: seq<nat>): seq<Request> {
    seq(|grants|, j requires 0 <= j < |grants| => Request(grants[j], 0))
  }

  /** `c'` is `c` with `k` more streams, under consecutive ids, each stamped
      with the time it was granted, and nothing else touched. */
  ghost predicate OpenedMore(c: ConnView, c': ConnView, grants: seq<nat>, k: nat) {
    && c' == c.(streams := c'.streams, nextId := c.nextId + 2 * k, newest := c'.newest)
    && Added(c.streams, c'.streams, c.nextId, 2, Stamped(grants), k)
  }

  lemma OpenedOneMore(c: ConnView, c': ConnView, grants: seq<nat>, k: nat)
    requires grants != [] && c.nextId !in c.streams
    requires OpenedMore(Opened(c, grants[0]), c', grants[1..], k)
    ensures OpenedMore(c, c', grants, k + 1)
  {
    hide Added;
    assert Stamped(grants)[1..] == Stamped(grants[1..]);
    AddedOneMore(c.streams, c'.streams, c.nextId, 2, Stamped(grants), k);
  }

  /** Exactly as many streams are opened as there is room for. */
  lemma {:induction false} OpensExactly(c: ConnView, l: Ledger, grants: seq<nat>, b: Budget, parallel: nat)
    requires forall id :: id in c.streams ==> id < c.nextId
    ensures var (c', l') := OpenStreams(c, l, grants, b, parallel);
            var k := Room(|c.streams|, l.started, |grants|, b, parallel);
            && l' == l.(started := l.started + k, begun := l.begun + k)
            && OpenedMore(c, c', grants, k)
    decreases |grants|
  {
    hide OpenedMore, Room;
    RoomNext(|c.streams|, l.started, |grants|, b, parallel);
    if grants != [] && |c.streams| < parallel && b.MayStart(l.started) {
      var c1 := Opened(c, grants[0]);
      assert c.nextId !in c.streams && |c1.streams| == |c.streams| + 1;
      OpensExactly(c1, l.Open(), grants[1..], b, parallel);
      var c' := OpenStreams(c1, l.Open(), grants[1..], b, parallel).0;
      OpenedOneMore(c, c', grants, Room(|c1.streams|, l.started + 1, |grants| - 1, b, parallel));
    } else {
      OpenedNone(c, grants);
    }
  }

  lemma OpenedNone(c: ConnView, grants: seq<nat>)
    ensures OpenedMore(c, c, grants, 0)
  {
  }

  lemma FillKeeps(c: ConnView, l: Ledger, grants: seq<nat>, exhausted: bool, b: Budget, parallel: nat, stop: bool, others: int)
    requires Balanced(c, l, b, parallel, others)
    requires Clocked(c.newest, grants)
    ensures var (c', l') := Fill(c, l, grants, exhausted, b, parallel, stop);
            Balanced(c', l', b, parallel, others) && c'.connected == c.connected && l'.tally == l.tally
  {
    if c.connected && !c.handshaking {
      OpenKeeps(c, l, grants, b, parallel, others);
    }
  }

  lemma FailConnectKeeps(c: ConnView, l: Ledger, b: Budget, parallel: nat, others: int)
    requires Balanced(c, l, b, parallel, others)
    ensures Balanced(c, FailConnect(l, b), b, parallel, others)
  {
  }

  /** What a connection owes can always be subtracted from what was started. */
  lemma NoUnderflow(c: ConnView, l: Ledger, b: Budget, parallel: nat, others: nat)
    requires Balanced(c, l, b, parallel, others)
    ensures c.held <= l.started
    ensures forall id :: id in c.streams ==> c.held + 1 <= l.started
  {
  }

  lemma ShakenKeeps(c: ConnView, l: Ledger, b: Budget, parallel: nat, others: int)
    requires Balanced(c, l, b, parallel, others)
    ensures Balanced(c.(handshaking := false), l, b, parallel, others)
  {
  }

  lemma ReplaceKeeps(c: ConnView, l: Ledger, b: Budget, parallel: nat, stop: bool, now: nat, others: int)
    requires Balanced(c, l, b, parallel, others)
    ensures var (c', l') := Replace(c, l, b, stop, now);
            && Balanced(c', l', b, parallel, others)
            && Owed(c') == 0 && l'.tally.completed == l.tally.completed
            && l'.tally.errors == l.tally.errors + Owed(c) && l'.tally.connectErrors == l.tally.connectErrors
            && (c'.dialing <==> !stop && b.MayStart(l'.started))
  {
  }

  /** A connection, once stepped, is up or is being dialled, if there is
      anything left to start. */
  ghost predicate Served(c: ConnView, l: Ledger, b: Budget, stop: bool) {
    b.MayStart(l.started) && !stop ==> c.connected || c.dialing
  }

  lemma ReceiveKeeps(c: ConnView, l: Ledger, rx: Receipt, b: Budget, parallel: nat, stop: bool, others: int)
    requires Balanced(c, l, b, parallel, others) && c.connected
    requires Clocked(c.newest, rx.grants)
    ensures var (c', l') := Receive(c, l, rx, b, parallel, stop);
            && Balanced(c', l', b, parallel, others) && Served(c', l', b, stop)
            && l.tally.completed <= l'.tally.completed
  {
    hide Ordered, LedgerOk, Break, Fill, ApplyEvents;
    var refused := Refused(c, rx);
    var c0 := if rx.handshakeDone then c.(handshaking := false) else c;
    FailConnectKeeps(c0, l, b, parallel, others);
    var l0 := if refused then FailConnect(l, b) else l;
    EventsKeep(c0, l0, rx.events, rx.now, b, parallel, others);
    var (c1, l1) := ApplyEvents(c0, l0, rx.events, rx.now);
    if !rx.fed || refused || (c1.goaway && c1.streams == map[]) {
      BreakKeeps(c1, l1, b, parallel, stop, rx.now, others);
    } else {
      FillKeeps(c1, l1, rx.grants, rx.exhausted, b, parallel, stop, others);
    }
  }

  lemma BreakKeeps(c: ConnView, l: Ledger, b: Budget, parallel: nat, stop: bool, now: nat, others: int)
    requires Balanced(c, l, b, parallel, others)
    ensures var (c', l') := Break(c, l, b, stop, now);
            && Balanced(c', l', b, parallel, others) && Served(c', l', b, stop)
            && l'.tally.completed == l.tally.completed
            && l'.tally.errors == l.tally.errors + Owed(c) + (if c.handshaking && b.MayStart(l.started) then 1 else 0)
  {
    hide Balanced, Replace, Owed;
    FailConnectKeeps(c, l, b, parallel, others);
    ReplaceKeeps(c, if c.handshaking then FailConnect(l, b) else l, b, parallel, stop, now, others);
  }

  lemma ConnectKeeps(c: ConnView, l: Ledger, tls: bool, grants: seq<nat>, exhausted: bool,
                     b: Budget, parallel: nat, stop: bool, others: int)
    requires Balanced(c, l, b, parallel, others) && c.dialing
    requires Clocked(c.newest, grants)
    ensures var (c', l') := Fill(c.(dialing := false, connected := true, handshaking := tls), l, grants, exhausted, b, parallel, stop);
            Balanced(c', l', b, parallel, others) && c'.connected && l'.tally == l.tally
  {
    hide Ordered, LedgerOk, Fill;
    FillKeeps(c.(dialing := false, connected := true, handshaking := tls), l, grants, exhausted, b, parallel, stop, others);
  }

  lemma TimeoutKeeps(c: ConnView, l: Ledger, now: nat, limit: nat, b: Budget, parallel: nat, stop: bool, others: int)
    requires Balanced(c, l, b, parallel, others)
    ensures var (c', l') := CheckTimeout(c, l, now, limit, b, stop);
            && Balanced(c', l', b, parallel, others)
            && (Served(c', l', b, stop) || (l' == l && c'.connected == c.connected && c'.dialing == c.dialing))
            && l'.tally.completed == l.tally.completed
  {
    hide Ordered, LedgerOk, Replace, Expired;
    var seen := if c.streams != map[] then c.(idleSince := now) else c;
    FailConnectKeeps(seen, l, b, parallel, others);
    ReplaceKeeps(seen, if c.streams == map[] && c.held == 0 then FailConnect(l, b) else l, b, parallel, stop, now, others);
  }

  /** A timeout always costs something: it fails all that the connection owed,
      or, when it owed nothing, one request that it never got to carry. */
  lemma TimeoutCosts(c: ConnView, l: Ledger, now: nat, limit: nat, b: Budget, stop: bool)
    ensures var (c', l') := CheckTimeout(c, l, now, limit, b, stop);
            if Expired(c, now, limit, b.MayStart(l.started))
            then Owed(c') == 0 && l'.tally.completed == l.tally.completed
                 && l'.tally.errors == l.tally.errors + (if Owed(c) == 0 then 1 else Owed(c))
                 && l'.tally.connectErrors == l.tally.connectErrors + (if Owed(c) == 0 then 1 else 0)
                 && l'.started == l.started + (if Owed(c) == 0 then 1 else 0)
            else l' == l && c' == if c.streams != map[] then c.(idleSince := now) else c
  {
    if c.streams == map[] {
      assert |c.streams| == 0;
    }
  }

  lemma StepKeeps(c: ConnView, l: Ledger, step: Step, b: Budget, parallel: nat, stop: bool, others: int)
    requires Balanced(c, l, b, parallel, others) && !step.Deadline?
    requires Possible(World([c], l, stop), step.(i := 0))
    ensures var (c', l') := StepConn(c, l, step, b, parallel, stop);
            && Balanced(c', l', b, parallel, others)
            && (Served(c', l', b, stop) || (l' == l && c'.connected == c.connected && c'.dialing == c.dialing))
            && l.tally.completed <= l'.tally.completed
  {
    hide Fill, Break, Receive, CheckTimeout, Ordered, LedgerOk;
    match step {
      case Connect(_, tls, grants, exhausted) =>
        ConnectKeeps(c, l, tls, grants, exhausted, b, parallel, stop, others);
      case ConnectError(_, now) =>
        FailConnectKeeps(c.(dialing := false), l, b, parallel, others);
        BreakKeeps(c.(dialing := false), FailConnect(l, b), b, parallel, stop, now, others);
      case Received(_, rx) =>
        ReceiveKeeps(c, l, rx, b, parallel, stop, others);
      case IoError(_, now) =>
        BreakKeeps(c, l, b, parallel, stop, now, others);
      case Timeout(_, now, limit) =>
        TimeoutKeeps(c, l, now, limit, b, parallel, stop, others);
    }
  }

  // ---- Whole runs ----

  ghost function OwedAll(conns: seq<ConnView>): seq<int> {
    seq(|conns|, i requires 0 <= i < |conns| => Owed(conns[i]))
  }

  /** The invariant of the worker:
      every request started is completed, failed, in flight or held, exactly
      once; the counters never overshoot the budget; and while there is
      something left to start, some connection is up or being dialled. */
  ghost predicate WorldOk(w: World, b: Budget, parallel: nat) {
    && LedgerOk(w.ledger, b)
    && (forall i :: 0 <= i < |w.conns| ==> ConnOk(w.conns[i], parallel))
    && (forall i :: 0 <= i < |w.conns| ==> w.conns[i].answered <= w.ledger.tally.completed)
    && w.ledger.started == w.ledger.tally.Finished() + Sum(OwedAll(w.conns))
    && Attended(w, b)
  }

  ghost predicate Attended(w: World, b: Budget) {
    b.MayStart(w.ledger.started) && !w.stop ==>
      exists i :: 0 <= i < |w.conns| && (w.conns[i].connected || w.conns[i].dialing)
  }

  lemma StartOk(connections: nat, b: Budget, parallel: nat)
    requires connections > 0
    ensures WorldOk(Start(connections, b), b, parallel)
    ensures forall i :: 0 <= i < connections ==> (Start(connections, b).conns[i].dialing <==> b.Duration? || i < b.n)
  {
    var w := Start(connections, b);
    NothingConsistent();
    SumZero(OwedAll(w.conns));
    assert b.MayStart(0) ==> w.conns[0].dialing;
  }

  /** One connection's books, put back among the others'. */
  lemma PutBack(w: World, i: nat, c: ConnView, l: Ledger, b: Budget, parallel: nat)
    requires WorldOk(w, b, parallel) && i < |w.conns|
    requires Balanced(c, l, b, parallel, Sum(OwedAll(w.conns)) - Owed(w.conns[i]))
    requires w.ledger.tally.completed <= l.tally.completed
    requires Served(c, l, b, w.stop) ||
             (l == w.ledger && c.connected == w.conns[i].connected && c.dialing == w.conns[i].dialing)
    ensures WorldOk(w.(conns := w.conns[i := c], ledger := l), b, parallel)
  {
    hide ConnOk, LedgerOk, Owed;
    var w' := w.(conns := w.conns[i := c], ledger := l);
    SumUpdate(OwedAll(w.conns), i, Owed(c));
    assert OwedAll(w'.conns) == OwedAll(w.conns)[i := Owed(c)];
    assert Attended(w', b) by {
      if b.MayStart(l.started) && !w.stop {
        if Served(c, l, b, w.stop) {
          assert w'.conns[i].connected || w'.conns[i].dialing;
        } else {
          var k :| 0 <= k < |w.conns| && (w.conns[k].connected || w.conns[k].dialing);
          assert w'.conns[k].connected || w'.conns[k].dialing;
        }
      }
    }
  }

  /** What the other connections owe, as a natural number. */
  ghost function OthersOwe(w: World, i: nat, b: Budget, parallel: nat): (others: nat)
    requires WorldOk(w, b, parallel) && i < |w.conns|
    ensures Balanced(w.conns[i], w.ledger, b, parallel, others)
  {
    SumBounds(OwedAll(w.conns));
    assert OwedAll(w.conns)[i] == Owed(w.conns[i]);
    Sum(OwedAll(w.conns)) - Owed(w.conns[i])
  }

  lemma NextKeeps(w: World, step: Step, b: Budget, parallel: nat)
    requires WorldOk(w, b, parallel) && Possible(w, step)
    ensures WorldOk(Next(w, step, b, parallel), b, parallel)
    ensures w.ledger.tally.completed <= Next(w, step, b, parallel).ledger.tally.completed
  {
    hide StepConn, ConnOk, LedgerOk, Owed, Possible, OwedAll, Served;
    if !step.Deadline? {
      PossibleAlone(w, step);
      var i := step.i;
      var (c, l) := StepConn(w.conns[i], w.ledger, step, b, parallel, w.stop);
      StepKeeps(w.conns[i], w.ledger, step, b, parallel, w.stop, Sum(OwedAll(w.conns)) - Owed(w.conns[i]));
      PutBack(w, i, c, l, b, parallel);
    }
  }

  /** Every reachable state is in balance. */
  lemma {:induction false} RunKeeps(w: World, steps: seq<Step>, b: Budget, parallel: nat)
    requires WorldOk(w, b, parallel) && IsRun(w, steps, b, parallel)
    ensures WorldOk(Run(w, steps, b, parallel), b, parallel)
    ensures w.ledger.tally.completed <= Run(w, steps, b, parallel).ledger.tally.completed
    decreases |steps|
  {
    hide WorldOk, Next, Possible;
    if steps != [] {
      NextKeeps(w, steps[0], b, parallel);
      RunKeeps(Next(w, steps[0], b, parallel), steps[1..], b, parallel);
    }
  }

  /** A run that met its budget reports exactly it, with nothing left over. */
  lemma MetExactly(w: World, b: Budget, parallel: nat)
    requires WorldOk(w, b, parallel)
    ensures w.ledger.tally.Consistent()
    ensures 0 <= w.ledger.started
    ensures b.Requests? ==> w.ledger.tally.Finished() <= b.n
    ensures b.IsMet(w.ledger.tally.Finished()) ==>
              && w.ledger.tally.Finished() == b.n
              && forall i :: 0 <= i < |w.conns| ==> w.conns[i].streams == map[] && w.conns[i].held == 0
  {
    hide ConnOk;
    SumBounds(OwedAll(w.conns));
    forall i | 0 <= i < |w.conns| && b.IsMet(w.ledger.tally.Finished())
      ensures w.conns[i].streams == map[] && w.conns[i].held == 0
    {
      assert OwedAll(w.conns)[i] == 0;
    }
  }

  lemma RunNothing(w: World, b: Budget, parallel: nat)
    ensures IsRun(w, [], b, parallel) && Run(w, [], b, parallel) == w
  {
  }

  lemma RunHead(w: World, step: Step, rest: seq<Step>, b: Budget, parallel: nat)
    requires IsRun(w, [step] + rest, b, parallel)
    ensures Possible(w, step) && IsRun(Next(w, step, b, parallel), rest, b, parallel)
  {
    assert ([step] + rest)[1..] == rest;
  }

  lemma {:induction false} RunSnoc(w: World, steps: seq<Step>, last: Step, b: Budget, parallel: nat)
    requires IsRun(w, steps, b, parallel) && Possible(Run(w, steps, b, parallel), last)
    ensures IsRun(w, steps + [last], b, parallel)
    ensures Run(w, steps + [last], b, parallel) == Next(Run(w, steps, b, parallel), last, b, parallel)
    decreases |steps|
  {
    hide Possible, Next;
    if steps == [] {
      assert steps + [last] == [last] && [last][1..] == [];
    } else {
      assert (steps + [last])[1..] == steps[1..] + [last];
      RunSnoc(Next(w, steps[0], b, parallel), steps[1..], last, b, parallel);
    }
  }

  /** Conservation, over any run of any number of connections: no refund
      underflows, nothing is started beyond the budget, every stream opened
      has exactly one fate, and a run that met its budget reports exactly it,
      with nothing in flight or held anywhere. */
  lemma Conservation(connections: nat, steps: seq<Step>, b: Budget, parallel: nat)
    requires connections > 0 && IsRun(Start(connections, b), steps, b, parallel)
    ensures var w := Run(Start(connections, b), steps, b, parallel);
            var t := w.ledger.tally;
            && 0 <= w.ledger.started == t.completed + t.errors + Sum(OwedAll(w.conns))
            && w.ledger.begun == t.completed + (t.errors - t.connectErrors) + w.ledger.refunded + Sum(OwedAll(w.conns))
            && t.Consistent()
            && (b.Requests? ==> w.ledger.started <= b.n)
            && (b.Requests? && t.completed == 0 ==> w.ledger.begun <= b.n)
            && (b.IsMet(t.completed + t.errors) ==>
                  && t.completed + t.errors == b.n
                  && forall i :: 0 <= i < |w.conns| ==> w.conns[i].streams == map[] && w.conns[i].held == 0)
  {
    hide IsRun, Run, ConnOk, Attended;
    var w := Run(Start(connections, b), steps, b, parallel);
    StartOk(connections, b, parallel);
    RunKeeps(Start(connections, b), steps, b, parallel);
    MetExactly(w, b, parallel);
  }

  // ---- A batch of events, stream by stream ----

  datatype Fate = Pending(r: Request) | Answered(status: Status) | Failed | GivenBack

  /** What becomes of one request, looking at nothing but the events that
      name its stream: the last status before the first ending decides. */
  ghost function FateOf(id: nat, r: Request, events: seq<Event>): Fate
    decreases |events|
  {
    if events == [] then Pending(r)
    else if events[0].Goaway? || events[0].id != id then FateOf(id, r, events[1..])
    else match events[0]
      case Status(_, status) => FateOf(id, r.(status := status), events[1..])
      case End(_) => if r.status == 0 then Failed else Answered(r.status)
      case Reset(_) => Failed
      case Unprocessed(_) => GivenBack
  }

  /** Fates that are counted together: answers of any status, or of one. */
  datatype Kind = Answers | AnswersWith(status: Status) | Failures | GiveBacks

  predicate Fits(fate: Fate, kind: Kind) {
    match kind
    case Answers => fate.Answered?
    case AnswersWith(status) => fate == Answered(status)
    case Failures => fate.Failed?
    case GiveBacks => fate.GivenBack?
  }

  ghost function Having(streams: map<nat, Request>, events: seq<Event>, kind: Kind): set<nat> {
    set id | id in streams && Fits(FateOf(id, streams[id], events), kind)
  }

  ghost function Survivors(streams: map<nat, Request>, events: seq<Event>): map<nat, Request> {
    map id | id in streams && FateOf(id, streams[id], events).Pending? :: FateOf(id, streams[id], events).r
  }

  /** The streams left by one event. */
  ghost function After(streams: map<nat, Request>, e: Event): map<nat, Request> {
    if e.Goaway? || e.id !in streams then streams
    else if e.Status? then streams[e.id := streams[e.id].(status := e.status)]
    else streams - {e.id}
  }

  /** 1 if the event ends a live stream with a fate of this kind, else 0. */
  ghost function EndsAs(streams: map<nat, Request>, e: Event, kind: Kind): nat {
    if e.Goaway? || e.Status? || e.id !in streams then 0
    else if Fits(FateOf(e.id, streams[e.id], [e]), kind) then 1
    else 0
  }

  lemma HavingAt(streams: map<nat, Request>, events: seq<Event>, kind: Kind, id: nat)
    requires events != []
    ensures var e := events[0];
            id in Having(streams, events, kind) <==>
              || id in Having(After(streams, e), events[1..], kind)
              || (EndsAs(streams, e, kind) == 1 && id == e.id)
    ensures EndsAs(streams, events[0], kind) == 1 && id == events[0].id ==>
              id !in Having(After(streams, events[0]), events[1..], kind)
  {
  }

  lemma HavingStep(streams: map<nat, Request>, events: seq<Event>, kind: Kind)
    requires events != []
    ensures |Having(streams, events, kind)|
         == |Having(After(streams, events[0]), events[1..], kind)| + EndsAs(streams, events[0], kind)
  {
    hide Having, After, FateOf, Fits;
    var e := events[0];
    var rest := Having(After(streams, e), events[1..], kind);
    forall id {
      HavingAt(streams, events, kind, id);
    }
    if EndsAs(streams, e, kind) == 1 {
      assert Having(streams, events, kind) == rest + {e.id};
    } else {
      assert Having(streams, events, kind) == rest;
    }
  }

  lemma SurvivorsStep(streams: map<nat, Request>, events: seq<Event>)
    requires events != []
    ensures Survivors(streams, events) == Survivors(After(streams, events[0]), events[1..])
  {
  }

  /** One event, in the same terms. */
  lemma OneEvent(c: ConnView, l: Ledger, e: Event, now: nat)
    requires c.answered > 0 ==> c.held == 0
    ensures var (c', l') := ApplyEvent(c, l, e, now);
            var answered := EndsAs(c.streams, e, Answers);
            var givenBack := EndsAs(c.streams, e, GiveBacks);
            && c'.streams == After(c.streams, e)
            && c'.answered == c.answered + answered
            && l'.tally.completed == l.tally.completed + answered
            && l'.tally.errors == l.tally.errors + EndsAs(c.streams, e, Failures)
            && c'.goaway == (c.goaway || e == Goaway)
            && c'.held == (if c'.answered > 0 then 0 else c.held + givenBack)
            && l'.started == l.started - (if c'.answered > 0 then c.held + givenBack else 0)
  {
    hide Elapsed;
    assert forall id, r :: FateOf(id, r, []) == Pending(r);
    if !e.Goaway? && e.id in c.streams {
      assert [e][1..] == [];
    }
  }

  /** `process_events` in one line per stream. Whatever the order of the
      events, each request's fate depends on its own stream's events alone,
      the counters move by how many met each fate, and what was given back
      returns to the budget exactly if the connection has answered by the end
      of the batch, and is held exactly if it has not. */
  lemma {:induction false} FatesDecide(c: ConnView, l: Ledger, events: seq<Event>, now: nat)
    requires c.answered > 0 ==> c.held == 0
    ensures var (c', l') := ApplyEvents(c, l, events, now);
            var answered := |Having(c.streams, events, Answers)|;
            var failed := |Having(c.streams, events, Failures)|;
            var givenBack := |Having(c.streams, events, GiveBacks)|;
            && c'.streams == Survivors(c.streams, events)
            && c'.answered == c.answered + answered
            && l'.tally.completed == l.tally.completed + answered
            && l'.tally.errors == l.tally.errors + failed
            && c'.goaway == (c.goaway || Goaway in events)
            && c'.held == (if c'.answered > 0 then 0 else c.held + givenBack)
            && l'.started == l.started - (if c'.answered > 0 then c.held + givenBack else 0)
    decreases |events|
  {
    if events == [] {
      assert Survivors(c.streams, events) == c.streams;
    } else {
      hide FateOf, Fits, Having, Survivors, EndsAs, ApplyEvent, After;
      var (c1, l1) := ApplyEvent(c, l, events[0], now);
      OneEvent(c, l, events[0], now);
      assert Goaway in events <==> events[0] == Goaway || Goaway in events[1..];
      HavingStep(c.streams, events, Answers);
      HavingStep(c.streams, events, Failures);
      HavingStep(c.streams, events, GiveBacks);
      SurvivorsStep(c.streams, events);
      FatesDecide(c1, l1, events[1..], now);
    }
  }

  // ---- What is recorded of an answer ----

  /** One event moves one row of the table at most: that of the status its
      stream was answered with. */
  lemma OneEventRow(c: ConnView, l: Ledger, e: Event, now: nat, status: Status)
    ensures ApplyEvent(c, l, e, now).1.tally.statusCounts[status]
         == l.tally.statusCounts[status] + EndsAs(c.streams, e, AnswersWith(status))
  {
    hide Elapsed;
    assert forall id, r :: FateOf(id, r, []) == Pending(r);
    if !e.Goaway? && e.id in c.streams {
      assert [e][1..] == [];
    }
  }

  /** Each row of the status table rises by the number of streams whose last
      status before a proper end it is. */
  lemma {:induction false} RowsRise(c: ConnView, l: Ledger, events: seq<Event>, now: nat, status: Status)
    requires c.answered > 0 ==> c.held == 0
    ensures ApplyEvents(c, l, events, now).1.tally.statusCounts[status]
         == l.tally.statusCounts[status] + |Having(c.streams, events, AnswersWith(status))|
    decreases |events|
  {
    if events != [] {
      hide FateOf, Fits, Having, EndsAs, ApplyEvent, After;
      var (c1, l1) := ApplyEvent(c, l, events[0], now);
      OneEvent(c, l, events[0], now);
      OneEventRow(c, l, events[0], now, status);
      HavingStep(c.streams, events, AnswersWith(status));
      RowsRise(c1, l1, events[1..], now, status);
    }
  }

  /** One event takes one sample at most, of the stream it answers. */
  lemma OneEventSample(c: ConnView, l: Ledger, e: Event, now: nat)
    ensures var l' := ApplyEvent(c, l, e, now).1;
            if EndsAs(c.streams, e, Answers) == 1
            then !e.Goaway? && e.id in c.streams
                 && l'.tally.latencies == l.tally.latencies + [Elapsed(now, c.streams[e.id].start)]
            else l'.tally.latencies == l.tally.latencies
    ensures forall id :: id in After(c.streams, e) ==> id in c.streams && After(c.streams, e)[id].start == c.streams[id].start
  {
    hide Elapsed;
    if !e.Goaway? && e.id in c.streams {
      assert [e][1..] == [];
    }
  }

  ghost function StartsOf(streams: map<nat, Request>, ids: seq<nat>): seq<nat>
    requires forall id :: id in ids ==> id in streams
  {
    seq(|ids|, k requires 0 <= k < |ids| => assert ids[k] in ids; streams[ids[k]].start)
  }

  /** Removing one stream, or noting a status, leaves the other starts. */
  lemma StartsStep(streams: map<nat, Request>, left: map<nat, Request>, id: nat, rest: seq<nat>)
    requires forall k :: k in left ==> k in streams && left[k].start == streams[k].start
    requires forall k :: k in rest ==> k in left
    ensures StartsOf(left, rest) == StartsOf(streams, rest)
    ensures id in streams ==> StartsOf(streams, [id] + rest) == [streams[id].start] + StartsOf(streams, rest)
  {
    assert forall k :: 0 <= k < |rest| ==> rest[k] in rest;
  }

  /** Exactly the streams that the batch answers, each once. */
  ghost predicate AnsweredOnce(streams: map<nat, Request>, events: seq<Event>, ids: seq<nat>) {
    && (forall j, k :: 0 <= j < k < |ids| ==> ids[j] != ids[k])
    && forall id :: id in ids <==> id in streams && FateOf(id, streams[id], events).Answered?
  }

  lemma AnsweredStep(streams: map<nat, Request>, events: seq<Event>, rest: seq<nat>)
    requires events != [] && AnsweredOnce(After(streams, events[0]), events[1..], rest)
    ensures var ends := EndsAs(streams, events[0], Answers) == 1;
            AnsweredOnce(streams, events, if ends then [events[0].id] + rest else rest)
  {
    var e := events[0];
    forall id
      ensures id in rest <==> id in Having(After(streams, e), events[1..], Answers)
      ensures id in Having(streams, events, Answers) <==> id in streams && FateOf(id, streams[id], events).Answered?
    {
    }
    hide FateOf, After, Having, EndsAs;
    forall id {
      HavingAt(streams, events, Answers, id);
    }
  }

  /** Some list of exactly the streams answered accounts for the new samples. */
  ghost predicate Sampled(streams: map<nat, Request>, events: seq<Event>, before: seq<nat>, after: seq<nat>, now: nat) {
    exists ids :: AnsweredOnce(streams, events, ids) && Gains(before, after, now, StartsOf(streams, ids))
  }

  /** The samples gain one for each stream answered, in the order they were:
      the time from its start to now. */
  lemma {:induction false} SamplesGain(c: ConnView, l: Ledger, events: seq<Event>, now: nat) returns (ids: seq<nat>)
    requires c.answered > 0 ==> c.held == 0
    ensures AnsweredOnce(c.streams, events, ids)
    ensures Gains(l.tally.latencies, ApplyEvents(c, l, events, now).1.tally.latencies, now, StartsOf(c.streams, ids))
    decreases |events|
  {
    if events == [] {
      ids := [];
    } else {
      var e := events[0];
      var (c1, l1) := ApplyEvent(c, l, e, now);
      hide FateOf, Fits, After, EndsAs, ApplyEvent, Elapsed, Gains, StartsOf;
      OneEvent(c, l, e, now);
      OneEventSample(c, l, e, now);
      var rest := SamplesGain(c1, l1, events[1..], now);
      AnsweredStep(c.streams, events, rest);
      StartsStep(c.streams, c1.streams, if e.Goaway? then 0 else e.id, rest);
      if EndsAs(c.streams, e, Answers) == 1 {
        ids := [e.id] + rest;
        GainsOne(l.tally.latencies, l1.tally.latencies, ApplyEvents(c1, l1, events[1..], now).1.tally.latencies,
                 now, c.streams[e.id].start, StartsOf(c.streams, rest));
      } else {
        ids := rest;
      }
    }
  }

  /** What a batch leaves in the table and among the samples. */
  lemma Recorded(c: ConnView, l: Ledger, events: seq<Event>, now: nat, b: Budget, parallel: nat, others: int)
    requires Balanced(c, l, b, parallel, others)
    ensures var before, after := l.tally, ApplyEvents(c, l, events, now).1.tally;
            && (forall status: Status :: after.statusCounts[status]
                  == before.statusCounts[status] + |Having(c.streams, events, AnswersWith(status))|)
            && Sampled(c.streams, events, before.latencies, after.latencies, now)
  {
    forall status: Status {
      RowsRise(c, l, events, now, status);
    }
    var ids := SamplesGain(c, l, events, now);
  }
}
