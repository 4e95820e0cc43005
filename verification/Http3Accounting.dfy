/**
 Request accounting of the HTTP/3 worker, as functions on values.

 A request the server never started on is given back: it is sent again if its
 connection answers something, within a bound, and is an error otherwise. The
 verdict waits in `unjudged`. `Http3Worker` is the in-place code proved to
 compute these functions.
 */
module Http3Accounting {
  import opened Wrappers
  import opened Budgets
  import opened Statistics
  import opened Sums
  import opened Ledgers

  /** The reset code of a request the server never started on. */
  const H3_REQUEST_REJECTED: nat := 0x10b

  /** An in-flight request; `status` is what its response reader has read. */
  datatype Request = Request(id: nat, start: nat, status: Status)

  /** Requests a connection gave back, and what became of them. */
  datatype GiveBacks = GiveBacks(completed: nat, unjudged: nat, retried: nat)

  datatype ConnView = ConnView(
    /** There is a QUIC connection in this slot. */
    up: bool,
    /** The handshake is over and the H3 streams are set up. */
    ready: bool,
    /** The H3 streams are still waiting for credit. */
    settingUp: bool,
    goaway: Option<nat>,
    nextId: nat,
    streams: map<nat, Request>,
    gb: GiveBacks,
    /** Over and accounted for, waiting for its last send. */
    closing: bool,
    newest: nat)

  // ---- Give-backs ----

  ghost function GiveBack(g: GiveBacks, l: Ledger, parallel: nat): (GiveBacks, Ledger) {
    if g.completed == 0 then (g.(unjudged := g.unjudged + 1), l)
    else if g.retried < parallel * g.completed then (g.(retried := g.retried + 1), l.Refund(1))
    else (g, l.Fail(1))
  }

  ghost function GiveBackMany(g: GiveBacks, l: Ledger, parallel: nat, n: nat): (GiveBacks, Ledger) {
    if n == 0 then (g, l)
    else
      var (g', l') := GiveBackMany(g, l, parallel, n - 1);
      GiveBack(g', l', parallel)
  }

  ghost function Judge(g: GiveBacks, drained: bool, l: Ledger, parallel: nat): (GiveBacks, Ledger) {
    if g.unjudged == 0 then (g, l)
    else if g.completed > 0 then GiveBackMany(g.(unjudged := 0), l, parallel, g.unjudged)
    else if drained then (g.(unjudged := 0), l.Fail(g.unjudged))
    else (g, l)
  }

  /** Giving back `n` requests at once: with an answer to the connection's
      name, as many as the bound still allows are refunded and the rest are
      errors; with none, all of them wait. */
  lemma {:induction false} GiveBackManyIs(g: GiveBacks, l: Ledger, parallel: nat, n: nat)
    requires g.retried <= parallel * g.completed
    ensures var room := parallel * g.completed - g.retried;
            var again := if n < room then n else room;
            GiveBackMany(g, l, parallel, n) ==
              if g.completed == 0 then (g.(unjudged := g.unjudged + n), l)
              else (g.(retried := g.retried + again), l.Refund(again).Fail(n - again))
    decreases n
  {
    if n > 0 {
      GiveBackManyIs(g, l, parallel, n - 1);
    }
  }

  // ---- One connection ----

  /** A stream that ended, and the code it was reset with, if it was. */
  datatype Finish = Finish(id: nat, reset: Option<nat>)

  datatype Verdict = Answered | Failed | GivenBack

  /** A reset is a give-back if its code says so, or if no status was read and
      the stream is not under the GOAWAY; any other reset is a failure. */
  function VerdictOn(r: Request, f: Finish, goaway: Option<nat>): Verdict {
    var unprocessed := r.status == 0 && goaway.Some? && f.id >= goaway.value;
    if f.reset == Some(H3_REQUEST_REJECTED) || (f.reset.Some? && unprocessed) then GivenBack
    else if f.reset.Some? || r.status == 0 then Failed
    else Answered
  }

  ghost function ApplyFinish(c: ConnView, l: Ledger, f: Finish, now: nat, parallel: nat): (ConnView, Ledger) {
    if f.id !in c.streams then (c, l)
    else
      var r := c.streams[f.id];
      var c' := c.(streams := c.streams - {f.id});
      match VerdictOn(r, f, c.goaway)
      case GivenBack =>
        var (g, l') := GiveBack(c.gb, l, parallel);
        (c'.(gb := g), l')
      case Failed => (c', l.Fail(1))
      case Answered =>
        (c'.(gb := c.gb.(completed := c.gb.completed + 1)),
         l.(tally := l.tally.Success(r.status, Elapsed(now, r.start))))
  }

  /** What one ending does, in codes, ids and statuses. It is an answer exactly
      if it is no reset and a status was read; it is given back exactly if the
      server says it never started on the request, by the code or by a GOAWAY
      at or below its id; and it is one error in every other case. What is
      given back waits for an answer, is sent again, or is an error once the
      connection has used up its retries. */
  ghost predicate Decided(c: ConnView, l: Ledger, f: Finish, now: nat, parallel: nat, c': ConnView, l': Ledger) {
    f.id in c.streams &&
    var status, start := c.streams[f.id].status, c.streams[f.id].start;
    var g, t := c.gb, l.tally;
    c'.(gb := g) == c.(streams := c.streams - {f.id}) &&
    if f.reset.None? && status != 0 then
      && c'.gb == GiveBacks(g.completed + 1, g.unjudged, g.retried)
      && l' == l.(tally := l'.tally)
      && l'.tally.completed == t.completed + 1
      && l'.tally.errors == t.errors && l'.tally.connectErrors == t.connectErrors
      && l'.tally.statusCounts == t.statusCounts[status := t.statusCounts[status] + 1]
      && Gains(t.latencies, l'.tally.latencies, now, [start])
    else if f.reset == Some(0x10b) || (f.reset.Some? && status == 0 && c.goaway.Some? && c.goaway.value <= f.id) then
      if g.completed == 0 then c'.gb == g.(unjudged := g.unjudged + 1) && l' == l
      else if g.retried < parallel * g.completed then
        && c'.gb == g.(retried := g.retried + 1)
        && l' == l.(started := l.started - 1, refunded := l.refunded + 1)
      else c'.gb == g && l' == l.(tally := t.(errors := t.errors + 1))
    else c'.gb == g && l' == l.(tally := t.(errors := t.errors + 1))
  }

  lemma FinishDecides(c: ConnView, l: Ledger, f: Finish, now: nat, parallel: nat)
    requires f.id in c.streams
    ensures var (c', l') := ApplyFinish(c, l, f, now, parallel);
            Decided(c, l, f, now, parallel, c', l')
  {
    GainsFirst(l.tally.latencies, now, c.streams[f.id].start);
  }

  ghost function ApplyFinishes(c: ConnView, l: Ledger, fs: seq<Finish>, now: nat, parallel: nat): (ConnView, Ledger)
    decreases |fs|
  {
    if fs == [] then (c, l)
    else
      var (c', l') := ApplyFinish(c, l, fs[0], now, parallel);
      ApplyFinishes(c', l', fs[1..], now, parallel)
  }

  ghost function Under(streams: map<nat, Request>, id: nat): map<nat, Request> {
    map k | k in streams && k < id :: streams[k]
  }

  /** A GOAWAY gives back everything at or above its id. */
  ghost function ApplyGoaway(c: ConnView, l: Ledger, parallel: nat): (ConnView, Ledger) {
    if c.goaway.None? then (c, l)
    else
      var kept := Under(c.streams, c.goaway.value);
      var (g, l') := GiveBackMany(c.gb, l, parallel, Dropped(c.streams, c.goaway.value));
      (c.(streams := kept, gb := g), l')
  }

  ghost function Dropped(streams: map<nat, Request>, id: nat): (n: nat)
    ensures n == |streams| - |Under(streams, id)|
  {
    var gone := set k | k in streams && id <= k;
    assert streams.Keys == Under(streams, id).Keys + gone;
    |gone|
  }

  /** What a response reader has learnt of a stream. */
  datatype Feed = Feed(id: nat, status: Status)

  ghost function ApplyFeeds(streams: map<nat, Request>, feeds: seq<Feed>): map<nat, Request>
    decreases |feeds|
  {
    if feeds == [] then streams
    else
      var f := feeds[0];
      ApplyFeeds(if f.id in streams then streams[f.id := streams[f.id].(status := f.status)] else streams, feeds[1..])
  }

  /** The lowest GOAWAY seen. */
  ghost function Lowest(goaway: Option<nat>, seen: seq<nat>): Option<nat>
    decreases |seen|
  {
    if seen == [] then goaway
    else Lowest(if goaway.Some? && goaway.value < seen[0] then goaway else Some(seen[0]), seen[1..])
  }

  /** It is one of those seen, or the one before, and none of them is lower. */
  lemma {:induction false} LowestIs(goaway: Option<nat>, seen: seq<nat>)
    ensures var r := Lowest(goaway, seen);
            && (r.None? <==> goaway.None? && seen == [])
            && (r.Some? ==> (r == goaway || r.value in seen)
                            && (goaway.Some? ==> r.value <= goaway.value)
                            && forall id :: id in seen ==> r.value <= id)
    decreases |seen|
  {
    if seen != [] {
      assert forall id :: id in seen <==> id == seen[0] || id in seen[1..];
      LowestIs(if goaway.Some? && goaway.value < seen[0] then goaway else Some(seen[0]), seen[1..]);
    }
  }

  /** What one pass over the QUIC connection's events finds. */
  datatype Pass = Pass(
    /** The handshake ended, and whether the H3 streams could be set up. */
    connects: Option<bool>,
    lost: bool,
    feeds: seq<Feed>,
    goaways: seq<nat>,
    /** Reading failed, which ends the pass before anything is accounted. */
    aborts: bool,
    finished: seq<Finish>,
    /** Streams waiting for credit were set up after all. */
    setUp: bool,
    grants: seq<nat>,
    now: nat)

  ghost function Opened(c: ConnView, at: nat): ConnView {
    c.(streams := c.streams[c.nextId := Request(c.nextId, at, 0)], nextId := c.nextId + 4, newest := at)
  }

  ghost function OpenStreams(c: ConnView, l: Ledger, grants: seq<nat>, b: Budget, parallel: nat): (ConnView, Ledger)
    decreases |grants|
  {
    if grants == [] || |c.streams| >= parallel || !b.MayStart(l.started) then (c, l)
    else OpenStreams(Opened(c, grants[0]), l.Open(), grants[1..], b, parallel)
  }

  ghost function Fill(c: ConnView, l: Ledger, grants: seq<nat>, b: Budget, parallel: nat, stop: bool): (ConnView, Ledger) {
    if stop || c.goaway.Some? || !c.ready then (c, l) else OpenStreams(c, l, grants, b, parallel)
  }

  /** The connection as the pass leaves it for accounting. */
  ghost function Read(c: ConnView, p: Pass): ConnView {
    var c' := if p.connects.None? then c else c.(ready := p.connects.value, settingUp := !p.connects.value);
    c'.(streams := ApplyFeeds(c.streams, p.feeds), goaway := Lowest(c.goaway, p.goaways))
  }

  ghost function Settle(c: ConnView, l: Ledger, p: Pass, parallel: nat): (ConnView, Ledger) {
    var (c1, l1) := ApplyFinishes(c, l, p.finished, p.now, parallel);
    var (c2, l2) := ApplyGoaway(c1, l1, parallel);
    var (g, l3) := Judge(c2.gb, c2.streams == map[], l2, parallel);
    (c2.(gb := g), l3)
  }

  ghost function SetUp(c: ConnView, p: Pass): ConnView {
    if c.settingUp && p.setUp then c.(ready := true, settingUp := false) else c
  }

  /** One pass, and whether the connection is still of use after it. */
  ghost function Drive(c: ConnView, l: Ledger, p: Pass, b: Budget, parallel: nat, stop: bool): ((ConnView, Ledger), bool) {
    if !c.up then ((c, l), true)
    else
      var c0 := Read(c, p);
      if p.aborts then ((c0, l), false)
      else
        var (c1, l1) := Settle(c0, l, p, parallel);
        (Fill(SetUp(c1, p), l1, p.grants, b, parallel, stop), !p.lost && (c1.goaway.None? || c1.streams != map[]))
  }

  ghost function FailInflight(c: ConnView, l: Ledger): (ConnView, Ledger) {
    (c.(streams := map[], gb := c.gb.(unjudged := 0)), l.Fail(|c.streams| + c.gb.unjudged))
  }

  ghost function Closed(c: ConnView): ConnView {
    ConnView(false, false, false, None, 0, map[], GiveBacks(0, 0, 0), false, c.newest)
  }

  ghost function FinishClose(c: ConnView, l: Ledger, b: Budget, stop: bool): (ConnView, Ledger) {
    (Closed(c).(up := !stop && b.MayStart(l.started)), l)
  }

  /** Charge the connection's life, once, and close it unless its last send is
      still outstanding. */
  ghost function BeginClose(c: ConnView, l: Ledger, b: Budget, stop: bool, sending: bool): (ConnView, Ledger) {
    var (c', l') := Charge(c, l, b);
    if sending then (c', l') else FinishClose(c', l', b, stop)
  }

  ghost function Charge(c: ConnView, l: Ledger, b: Budget): (ConnView, Ledger) {
    if c.closing then (c, l)
    else if c.ready then
      var (c', l') := FailInflight(c, l);
      (c'.(closing := true), l')
    else (c.(closing := true), FailConnect(l, b))
  }

  ghost predicate Expired(c: ConnView, now: nat, limit: nat) {
    exists id :: id in c.streams && Passed(c.streams[id].start, limit, now)
  }

  // ---- The worker ----

  datatype World = World(conns: seq<ConnView>, ledger: Ledger, stop: bool)

  datatype Step =
    | Driven(i: nat, pass: Pass, sending: bool)
    | Broken(i: nat, sending: bool)
    | Timeout(i: nat, now: nat, limit: nat, sending: bool)
    | GraceOver(i: nat)
    | Deadline

  ghost function StepConn(c: ConnView, l: Ledger, step: Step, b: Budget, parallel: nat, stop: bool): (ConnView, Ledger)
    requires !step.Deadline?
  {
    match step
    case Driven(_, pass, sending) =>
      var ((c', l'), alive) := Drive(c, l, pass, b, parallel, stop);
      if alive then (c', l') else BeginClose(c', l', b, stop, sending)
    case Broken(_, sending) => BeginClose(c, l, b, stop, sending)
    case Timeout(_, now, limit, sending) =>
      if Expired(c, now, limit) then BeginClose(c, l, b, stop, sending) else (c, l)
    case GraceOver(_) => FinishClose(c, l, b, stop)
  }

  /** Closing connections are not driven, a handshake ends once, only a
      connection that is there can break, and time is monotone. */
  predicate Possible(w: World, step: Step) {
    step.Deadline? ||
    (step.i < |w.conns| &&
     var c := w.conns[step.i];
     match step
     case Driven(_, pass, _) =>
       && !c.closing
       && (pass.connects.Some? ==> !c.ready && !c.settingUp)
       && Clocked(c.newest, pass.grants)
     case Broken(_, _) => c.up
     case Timeout(_, _, _, _) => true
     case GraceOver(_) => c.closing)
  }

  ghost function Next(w: World, step: Step, b: Budget, parallel: nat): World
    requires Possible(w, step)
  {
    if step.Deadline? then w.(stop := true)
    else
      var (c, l) := StepConn(w.conns[step.i], w.ledger, step, b, parallel, w.stop);
      w.(conns := w.conns[step.i := c], ledger := l)
  }

  const FRESH: ConnView := ConnView(false, false, false, None, 0, map[], GiveBacks(0, 0, 0), false, 0)

  ghost function Start(connections: nat, b: Budget): World {
    World(seq(connections, i => FRESH.(up := b.MayStart(i))), Ledger(0, 0, 0, NOTHING), false)
  }

  ghost predicate IsRun(w: World, steps: seq<Step>, b: Budget, parallel: nat)
    decreases |steps|
  {
    steps == [] || (Possible(w, steps[0]) && IsRun(Next(w, steps[0], b, parallel), steps[1..], b, parallel))
  }

  ghost function Run(w: World, steps: seq<Step>, b: Budget, parallel: nat): World
    requires IsRun(w, steps, b, parallel)
    decreases |steps|
  {
    if steps == [] then w else Run(Next(w, steps[0], b, parallel), steps[1..], b, parallel)
  }

  // ---- What every step keeps ----

  ghost function Owed(c: ConnView): nat {
    |c.streams| + c.gb.unjudged
  }

  /** Retries this connection may still be allowed for what it has answered. */
  ghost function Credit(c: ConnView, parallel: nat): int {
    parallel * c.gb.completed - c.gb.retried
  }

  ghost predicate Ordered(streams: map<nat, Request>, nextId: nat, newest: nat) {
    && (forall id :: id in streams ==> streams[id].id == id < nextId && streams[id].start <= newest)
    && (forall a, b :: a in streams && b in streams && a < b ==> streams[a].start <= streams[b].start)
  }

  /** What holds of a connection throughout a pass. */
  ghost predicate ConnOk(c: ConnView, parallel: nat) {
    && 0 <= Credit(c, parallel)
    && |c.streams| <= parallel
    && (!c.ready || c.closing ==> Owed(c) == 0)
    && (!c.ready ==> c.gb == GiveBacks(0, 0, 0))
    && (c.ready ==> !c.settingUp)
    && (!c.up ==> !c.ready && !c.closing)
    && c.nextId % 4 == 0
    && Ordered(c.streams, c.nextId, c.newest)
  }

  /** ... and between passes: a verdict waits only while nothing has been
      answered and something is still in flight, and a GOAWAY has already
      given back everything at or above it. */
  ghost predicate Judged(c: ConnView) {
    && (c.gb.unjudged > 0 ==> c.gb.completed == 0 && c.streams != map[])
    && (c.goaway.Some? ==> forall id :: id in c.streams ==> id < c.goaway.value)
  }

  ghost predicate LedgerOk(l: Ledger, b: Budget) {
    && l.tally.Consistent()
    && l.started == l.begun + l.tally.connectErrors - l.refunded
    && (b.Requests? ==> l.started <= b.n)
  }

  /** `others` is what the worker's other connections owe, `spare` the retry
      credit they have left. */
  ghost predicate Balanced(c: ConnView, l: Ledger, b: Budget, parallel: nat, others: int, spare: int) {
    && ConnOk(c, parallel)
    && LedgerOk(l, b)
    && c.gb.completed <= l.tally.completed
    && l.started == l.tally.Finished() + Owed(c) + others
    && Credit(c, parallel) + spare <= parallel * l.tally.completed - l.refunded
  }

  lemma TakeOrdered(m: map<nat, Request>, id: nat, nextId: nat, newest: nat)
    requires id in m && Ordered(m, nextId, newest)
    ensures |m - {id}| == |m| - 1 && Ordered(m - {id}, nextId, newest)
  {
    assert (m - {id}).Keys == m.Keys - {id};
  }

  lemma OpenOrdered(c: ConnView, at: nat)
    requires Ordered(c.streams, c.nextId, c.newest) && c.newest <= at
    ensures var c' := Opened(c, at); |c'.streams| == |c.streams| + 1 && Ordered(c'.streams, c'.nextId, c'.newest)
  {
    assert c.nextId !in c.streams;
  }

  lemma {:induction false} FeedsOrdered(m: map<nat, Request>, feeds: seq<Feed>, nextId: nat, newest: nat)
    requires Ordered(m, nextId, newest)
    ensures Ordered(ApplyFeeds(m, feeds), nextId, newest) && |ApplyFeeds(m, feeds)| == |m|
    decreases |feeds|
  {
    if feeds != [] {
      var f := feeds[0];
      var m' := if f.id in m then m[f.id := m[f.id].(status := f.status)] else m;
      assert m'.Keys == m.Keys;
      FeedsOrdered(m', feeds[1..], nextId, newest);
    }
  }

  lemma UnderOrdered(m: map<nat, Request>, id: nat, nextId: nat, newest: nat)
    requires Ordered(m, nextId, newest)
    ensures Ordered(Under(m, id), nextId, newest)
  {
  }

  lemma More(parallel: nat, completed: nat)
    ensures parallel * (completed + 1) == parallel * completed + parallel
  {
  }

  /** Requests that have left the ring find their place, one way or another. */
  lemma GiveBackKeeps(c: ConnView, l: Ledger, n: nat, b: Budget, parallel: nat, others: int, spare: int)
    requires Balanced(c, l, b, parallel, others + n, spare)
    requires n > 0 ==> c.ready && !c.closing
    ensures var (g, l') := GiveBackMany(c.gb, l, parallel, n);
            && Balanced(c.(gb := g), l', b, parallel, others, spare)
            && g.completed == c.gb.completed && l'.tally.completed == l.tally.completed
            && (c.gb.completed > 0 ==> g.unjudged == c.gb.unjudged)
  {
    hide Ordered;
    GiveBackManyIs(c.gb, l, parallel, n);
  }

  lemma FinishKeeps(c: ConnView, l: Ledger, f: Finish, now: nat, b: Budget, parallel: nat, others: int, spare: int)
    requires Balanced(c, l, b, parallel, others, spare) && !c.closing
    ensures var (c', l') := ApplyFinish(c, l, f, now, parallel);
            && Balanced(c', l', b, parallel, others, spare)
            && SameLife(c, c') && l.tally.completed <= l'.tally.completed
  {
    hide Ordered, Tally.Consistent;
    if f.id in c.streams {
      var r := c.streams[f.id];
      var c' := c.(streams := c.streams - {f.id});
      TakeOrdered(c.streams, f.id, c.nextId, c.newest);
      match VerdictOn(r, f, c.goaway) {
        case GivenBack =>
          GiveBackKeeps(c', l, 1, b, parallel, others, spare);
          assert GiveBackMany(c.gb, l, parallel, 0) == (c.gb, l);
          assert GiveBackMany(c.gb, l, parallel, 1) == GiveBack(c.gb, l, parallel);
        case Failed =>
          FailuresConsistent(l.tally, 1);
        case Answered =>
          More(parallel, c.gb.completed);
          More(parallel, l.tally.completed);
          SuccessConsistent(l.tally, r.status, Elapsed(now, r.start));
      }
    }
  }

  /** What accounting leaves alone. */
  ghost predicate SameLife(c: ConnView, c': ConnView) {
    && c'.up == c.up && c'.ready == c.ready && c'.closing == c.closing && c'.settingUp == c.settingUp
    && c'.goaway == c.goaway && c'.newest == c.newest
  }

  lemma {:induction false} FinishesKeep(c: ConnView, l: Ledger, fs: seq<Finish>, now: nat, b: Budget, parallel: nat, others: int, spare: int)
    requires Balanced(c, l, b, parallel, others, spare) && !c.closing
    ensures var (c', l') := ApplyFinishes(c, l, fs, now, parallel);
            && Balanced(c', l', b, parallel, others, spare)
            && SameLife(c, c') && l.tally.completed <= l'.tally.completed
    decreases |fs|
  {
    if fs != [] {
      hide ApplyFinish, Balanced;
      FinishKeeps(c, l, fs[0], now, b, parallel, others, spare);
      var (c', l') := ApplyFinish(c, l, fs[0], now, parallel);
      FinishesKeep(c', l', fs[1..], now, b, parallel, others, spare);
    }
  }

  lemma GoawayKeeps(c: ConnView, l: Ledger, b: Budget, parallel: nat, others: int, spare: int)
    requires Balanced(c, l, b, parallel, others, spare) && !c.closing
    ensures var (c', l') := ApplyGoaway(c, l, parallel);
            && Balanced(c', l', b, parallel, others, spare)
            && SameLife(c, c') && l.tally.completed == l'.tally.completed
            && (c'.goaway.Some? ==> forall id :: id in c'.streams ==> id < c'.goaway.value)
  {
    hide Ordered, Tally.Consistent;
    if c.goaway.Some? {
      var n := Dropped(c.streams, c.goaway.value);
      UnderOrdered(c.streams, c.goaway.value, c.nextId, c.newest);
      GiveBackKeeps(c.(streams := Under(c.streams, c.goaway.value)), l, n, b, parallel, others, spare);
    }
  }

  lemma JudgeKeeps(c: ConnView, l: Ledger, b: Budget, parallel: nat, others: int, spare: int)
    requires Balanced(c, l, b, parallel, others, spare) && !c.closing
    ensures var (g, l') := Judge(c.gb, c.streams == map[], l, parallel);
            && Balanced(c.(gb := g), l', b, parallel, others, spare)
            && l.tally.completed == l'.tally.completed
            && (g.unjudged > 0 ==> g.completed == 0 && c.streams != map[])
  {
    hide Ordered, Tally.Consistent;
    if c.gb.unjudged > 0 && c.gb.completed > 0 {
      GiveBackKeeps(c.(gb := c.gb.(unjudged := 0)), l, c.gb.unjudged, b, parallel, others, spare);
    } else {
      FailuresConsistent(l.tally, c.gb.unjudged);
    }
  }

  lemma SettleKeeps(c: ConnView, l: Ledger, p: Pass, b: Budget, parallel: nat, others: int, spare: int)
    requires Balanced(c, l, b, parallel, others, spare) && !c.closing
    ensures var (c', l') := Settle(c, l, p, parallel);
            && Balanced(c', l', b, parallel, others, spare)
            && SameLife(c, c') && l.tally.completed <= l'.tally.completed && Judged(c')
  {
    hide ApplyFinishes, ApplyGoaway, Judge, Balanced;
    FinishesKeep(c, l, p.finished, p.now, b, parallel, others, spare);
    var (c1, l1) := ApplyFinishes(c, l, p.finished, p.now, parallel);
    GoawayKeeps(c1, l1, b, parallel, others, spare);
    var (c2, l2) := ApplyGoaway(c1, l1, parallel);
    JudgeKeeps(c2, l2, b, parallel, others, spare);
  }

  lemma {:induction false} OpenKeeps(c: ConnView, l: Ledger, grants: seq<nat>, b: Budget, parallel: nat, others: int, spare: int)
    requires Balanced(c, l, b, parallel, others, spare) && Judged(c)
    requires c.up && c.ready && !c.closing && c.goaway.None?
    requires Clocked(c.newest, grants)
    ensures var (c', l') := OpenStreams(c, l, grants, b, parallel);
            Balanced(c', l', b, parallel, others, spare) && Judged(c') && c'.up && !c'.closing && l'.tally == l.tally
    decreases |grants|
  {
    if grants != [] && |c.streams| < parallel && b.MayStart(l.started) {
      hide Ordered, Tally.Consistent;
      OpenOrdered(c, grants[0]);
      OpenKeeps(Opened(c, grants[0]), l.Open(), grants[1..], b, parallel, others, spare);
    }
  }

  /** What is opened for a list of grants. */
  ghost function Stamped(first: nat, grants: seq<nat>): seq<Request> {
    seq(|grants|, j requires 0 <= j < |grants| => Request(first + 4 * j, grants[j], 0))
  }

  /** `c'` is `c` with `k` more streams, under consecutive ids, each stamped
      with the time it was granted, and nothing else touched. */
  ghost predicate OpenedMore(c: ConnView, c': ConnView, grants: seq<nat>, k: nat) {
    && c' == c.(streams := c'.streams, nextId := c.nextId + 4 * k, newest := c'.newest)
    && Added(c.streams, c'.streams, c.nextId, 4, Stamped(c.nextId, grants), k)
  }

  lemma OpenedOneMore(c: ConnView, c': ConnView, grants: seq<nat>, k: nat)
    requires grants != [] && c.nextId !in c.streams
    requires OpenedMore(Opened(c, grants[0]), c', grants[1..], k)
    ensures OpenedMore(c, c', grants, k + 1)
  {
    hide Added;
    assert Stamped(c.nextId, grants)[1..] == Stamped(c.nextId + 4, grants[1..]);
    AddedOneMore(c.streams, c'.streams, c.nextId, 4, Stamped(c.nextId, grants), k);
  }

  /** Exactly as many streams are opened as there is room for. */
  lemma {:induction false} OpensExactly(c: ConnView, l: Ledger, grants: seq<nat>, b: Budget, parallel: nat)
    requires forall id :: id in c.streams ==> id < c.nextId
    ensures var (c', l') := OpenStreams(c, l, grants, b, parallel);
            var k := Room(|c.streams|, l.started, |grants|, b, parallel);
            && l' == l.(started := l.started + k, begun := l.begun + k)
            && OpenedMore(c, c', grants, k)
    decreases |grants|
  {
    hide OpenedMore, Room;
    RoomNext(|c.streams|, l.started, |grants|, b, parallel);
    if grants != [] && |c.streams| < parallel && b.MayStart(l.started) {
      var c1 := Opened(c, grants[0]);
      assert c.nextId !in c.streams && |c1.streams| == |c.streams| + 1;
      OpensExactly(c1, l.Open(), grants[1..], b, parallel);
      var c' := OpenStreams(c1, l.Open(), grants[1..], b, parallel).0;
      OpenedOneMore(c, c', grants, Room(|c1.streams|, l.started + 1, |grants| - 1, b, parallel));
    } else {
      OpenedNone(c, grants);
    }
  }

  lemma OpenedNone(c: ConnView, grants: seq<nat>)
    ensures OpenedMore(c, c, grants, 0)
  {
  }

  lemma ReadKeeps(c: ConnView, l: Ledger, p: Pass, b: Budget, parallel: nat, others: int, spare: int)
    requires Balanced(c, l, b, parallel, others, spare) && c.up && !c.closing
    requires p.connects.Some? ==> !c.ready && !c.settingUp
    ensures var c' := Read(c, p);
            Balanced(c', l, b, parallel, others, spare) && c'.up && !c'.closing && c'.newest == c.newest
  {
    hide Ordered, LedgerOk;
    FeedsOrdered(c.streams, p.feeds, c.nextId, c.newest);
  }

  lemma DriveKeeps(c: ConnView, l: Ledger, p: Pass, b: Budget, parallel: nat, stop: bool, others: int, spare: int)
    requires Balanced(c, l, b, parallel, others, spare) && Judged(c) && !c.closing
    requires p.connects.Some? ==> !c.ready && !c.settingUp
    requires Clocked(c.newest, p.grants)
    ensures var ((c', l'), alive) := Drive(c, l, p, b, parallel, stop);
            && Balanced(c', l', b, parallel, others, spare)
            && c'.up == c.up && !c'.closing && l.tally.completed <= l'.tally.completed
            && (alive ==> Judged(c')) && (!alive ==> c.up)
            && (!c.up ==> l' == l)
  {
    if c.up {
      hide Read, Settle, Ordered, LedgerOk;
      ReadKeeps(c, l, p, b, parallel, others, spare);
      var c0 := Read(c, p);
      SettleKeeps(c0, l, p, b, parallel, others, spare);
      var (c1, l1) := Settle(c0, l, p, parallel);
      var c2 := SetUp(c1, p);
      if !(stop || c2.goaway.Some? || !c2.ready) {
        OpenKeeps(c2, l1, p.grants, b, parallel, others, spare);
      }
    }
  }

  ghost predicate Served(c: ConnView, l: Ledger, b: Budget, stop: bool) {
    b.MayStart(l.started) && !stop ==> c.up
  }

  lemma ChargeKeeps(c: ConnView, l: Ledger, b: Budget, parallel: nat, others: int, spare: int)
    requires Balanced(c, l, b, parallel, others, spare) && c.up
    ensures var (c', l') := Charge(c, l, b);
            && Balanced(c', l', b, parallel, others, spare)
            && c'.up && c'.closing && Owed(c') == 0 && l'.tally.completed == l.tally.completed
  {
  }

  /** A connection's life is charged once, however often it is ended: for all
      it owed if it was set up, and for one request if it never was. */
  lemma ChargedOnce(c: ConnView, l: Ledger, b: Budget)
    ensures var (c', l') := Charge(c, l, b);
            && c'.closing && Charge(c', l', b) == (c', l')
            && l'.tally.completed == l.tally.completed
            && l'.tally.errors == l.tally.errors +
                 (if c.closing then 0 else if c.ready then Owed(c) else if b.MayStart(l.started) then 1 else 0)
            && l'.tally.connectErrors == l.tally.connectErrors +
                 (if !c.closing && !c.ready && b.MayStart(l.started) then 1 else 0)
  {
  }

  lemma FinishCloseKeeps(c: ConnView, l: Ledger, b: Budget, parallel: nat, stop: bool, others: int, spare: int)
    requires Balanced(c, l, b, parallel, others, spare) && Owed(c) == 0
    ensures var (c', l') := FinishClose(c, l, b, stop);
            && Balanced(c', l', b, parallel, others, spare) && Judged(c')
            && Served(c', l', b, stop) && l' == l
  {
  }

  lemma BeginCloseKeeps(c: ConnView, l: Ledger, b: Budget, parallel: nat, stop: bool, sending: bool, others: int, spare: int)
    requires Balanced(c, l, b, parallel, others, spare) && c.up
    ensures var (c', l') := BeginClose(c, l, b, stop, sending);
            && Balanced(c', l', b, parallel, others, spare) && Judged(c')
            && Served(c', l', b, stop) && l'.tally.completed == l.tally.completed
  {
    hide Charge, FinishClose, Balanced;
    ChargeKeeps(c, l, b, parallel, others, spare);
    var (c', l') := Charge(c, l, b);
    FinishCloseKeeps(c', l', b, parallel, stop, others, spare);
  }

  lemma StepKeeps(c: ConnView, l: Ledger, step: Step, b: Budget, parallel: nat, stop: bool, others: int, spare: int)
    requires Balanced(c, l, b, parallel, others, spare) && Judged(c) && !step.Deadline?
    requires Possible(World([c], l, stop), step.(i := 0))
    ensures var (c', l') := StepConn(c, l, step, b, parallel, stop);
            && Balanced(c', l', b, parallel, others, spare) && Judged(c')
            && (Served(c', l', b, stop) || (l' == l && c'.up == c.up))
            && l.tally.completed <= l'.tally.completed
  {
    hide Drive, BeginClose, FinishClose, Ordered, LedgerOk, Judged;
    match step {
      case Driven(_, pass, sending) =>
        DriveKeeps(c, l, pass, b, parallel, stop, others, spare);
        var ((c', l'), alive) := Drive(c, l, pass, b, parallel, stop);
        if !alive {
          BeginCloseKeeps(c', l', b, parallel, stop, sending, others, spare);
        }
      case Broken(_, sending) =>
        BeginCloseKeeps(c, l, b, parallel, stop, sending, others, spare);
      case Timeout(_, now, limit, sending) =>
        if Expired(c, now, limit) {
          BeginCloseKeeps(c, l, b, parallel, stop, sending, others, spare);
        }
      case GraceOver(_) =>
        FinishCloseKeeps(c, l, b, parallel, stop, others, spare);
    }
  }

  // ---- Whole runs ----

  ghost function OwedAll(conns: seq<ConnView>): seq<int> {
    seq(|conns|, i requires 0 <= i < |conns| => Owed(conns[i]))
  }

  ghost function CreditAll(conns: seq<ConnView>, parallel: nat): seq<int> {
    seq(|conns|, i requires 0 <= i < |conns| => Credit(conns[i], parallel))
  }

  /** The invariant of the worker: every request started is completed, failed,
      in flight or unjudged, exactly once; retries are within what has been
      answered; and while there is something left to start, some slot has a
      connection. */
  ghost predicate WorldOk(w: World, b: Budget, parallel: nat) {
    && LedgerOk(w.ledger, b)
    && (forall i :: 0 <= i < |w.conns| ==> ConnOk(w.conns[i], parallel) && Judged(w.conns[i]))
    && (forall i :: 0 <= i < |w.conns| ==> w.conns[i].gb.completed <= w.ledger.tally.completed)
    && w.ledger.started == w.ledger.tally.Finished() + Sum(OwedAll(w.conns))
    && Sum(CreditAll(w.conns, parallel)) <= parallel * w.ledger.tally.completed - w.ledger.refunded
    && Attended(w, b)
  }

  ghost predicate Attended(w: World, b: Budget) {
    b.MayStart(w.ledger.started) && !w.stop ==> exists i :: 0 <= i < |w.conns| && w.conns[i].up
  }

  lemma StartOk(connections: nat, b: Budget, parallel: nat)
    requires connections > 0
    ensures WorldOk(Start(connections, b), b, parallel)
    ensures forall i :: 0 <= i < connections ==> (Start(connections, b).conns[i].up <==> b.Duration? || i < b.n)
  {
    hide ConnOk, Judged, Owed, Credit;
    var w := Start(connections, b);
    NothingConsistent();
    forall i | 0 <= i < connections {
      FreshOk(b.MayStart(i), parallel);
    }
    SumZero(OwedAll(w.conns));
    SumZero(CreditAll(w.conns, parallel));
    assert parallel * NOTHING.completed == 0;
    assert b.MayStart(0) ==> w.conns[0].up;
  }

  lemma FreshOk(up: bool, parallel: nat)
    ensures var c := FRESH.(up := up); ConnOk(c, parallel) && Judged(c) && Owed(c) == 0 && Credit(c, parallel) == 0
  {
  }

  /** One connection's books, put back among the others'. */
  lemma PutBack(w: World, i: nat, c: ConnView, l: Ledger, b: Budget, parallel: nat)
    requires WorldOk(w, b, parallel) && i < |w.conns|
    requires Balanced(c, l, b, parallel, Sum(OwedAll(w.conns)) - Owed(w.conns[i]),
                      Sum(CreditAll(w.conns, parallel)) - Credit(w.conns[i], parallel))
    requires Judged(c) && w.ledger.tally.completed <= l.tally.completed
    requires Served(c, l, b, w.stop) || (l == w.ledger && c.up == w.conns[i].up)
    ensures WorldOk(w.(conns := w.conns[i := c], ledger := l), b, parallel)
  {
    hide ConnOk, LedgerOk, Owed, Credit, Judged;
    var w' := w.(conns := w.conns[i := c], ledger := l);
    SumUpdate(OwedAll(w.conns), i, Owed(c));
    assert OwedAll(w'.conns) == OwedAll(w.conns)[i := Owed(c)];
    SumUpdate(CreditAll(w.conns, parallel), i, Credit(c, parallel));
    assert CreditAll(w'.conns, parallel) == CreditAll(w.conns, parallel)[i := Credit(c, parallel)];
    assert Attended(w', b) by {
      if b.MayStart(l.started) && !w.stop {
        if Served(c, l, b, w.stop) {
          assert w'.conns[i].up;
        } else {
          var k :| 0 <= k < |w.conns| && w.conns[k].up;
          assert w'.conns[k].up;
        }
      }
    }
  }

  lemma PossibleAlone(w: World, step: Step)
    requires Possible(w, step) && !step.Deadline?
    ensures step.i < |w.conns| && Possible(World([w.conns[step.i]], w.ledger, w.stop), step.(i := 0))
  {
  }

  /** What the other connections owe, as a natural number. */
  ghost function OthersOwe(w: World, i: nat, b: Budget, parallel: nat): (others: nat)
    requires WorldOk(w, b, parallel) && i < |w.conns|
    ensures Balanced(w.conns[i], w.ledger, b, parallel, others,
                     Sum(CreditAll(w.conns, parallel)) - Credit(w.conns[i], parallel))
  {
    SumBounds(OwedAll(w.conns));
    assert OwedAll(w.conns)[i] == Owed(w.conns[i]);
    Sum(OwedAll(w.conns)) - Owed(w.conns[i])
  }

  lemma NextKeeps(w: World, step: Step, b: Budget, parallel: nat)
    requires WorldOk(w, b, parallel) && Possible(w, step)
    ensures WorldOk(Next(w, step, b, parallel), b, parallel)
  {
    hide StepConn, ConnOk, LedgerOk, Owed, Credit, Judged, Possible, OwedAll, CreditAll, Served;
    if !step.Deadline? {
      PossibleAlone(w, step);
      var i := step.i;
      var (c, l) := StepConn(w.conns[i], w.ledger, step, b, parallel, w.stop);
      StepKeeps(w.conns[i], w.ledger, step, b, parallel, w.stop, Sum(OwedAll(w.conns)) - Owed(w.conns[i]),
                Sum(CreditAll(w.conns, parallel)) - Credit(w.conns[i], parallel));
      PutBack(w, i, c, l, b, parallel);
    }
  }

  /** Every reachable state is in balance. */
  lemma {:induction false} RunKeeps(w: World, steps: seq<Step>, b: Budget, parallel: nat)
    requires WorldOk(w, b, parallel) && IsRun(w, steps, b, parallel)
    ensures WorldOk(Run(w, steps, b, parallel), b, parallel)
    decreases |steps|
  {
    hide WorldOk, Next, Possible;
    if steps != [] {
      NextKeeps(w, steps[0], b, parallel);
      RunKeeps(Next(w, steps[0], b, parallel), steps[1..], b, parallel);
    }
  }

  /** A run that met its budget reports exactly it, with nothing left over. */
  lemma MetExactly(w: World, b: Budget, parallel: nat)
    requires WorldOk(w, b, parallel)
    ensures w.ledger.tally.Consistent()
    ensures 0 <= w.ledger.started
    ensures b.Requests? ==> w.ledger.tally.Finished() <= b.n
    ensures b.IsMet(w.ledger.tally.Finished()) ==>
              && w.ledger.tally.Finished() == b.n
              && forall i :: 0 <= i < |w.conns| ==> w.conns[i].streams == map[] && w.conns[i].gb.unjudged == 0
  {
    hide ConnOk, Attended;
    SumBounds(OwedAll(w.conns));
    forall i | 0 <= i < |w.conns| && b.IsMet(w.ledger.tally.Finished())
      ensures w.conns[i].streams == map[] && w.conns[i].gb.unjudged == 0
    {
      assert OwedAll(w.conns)[i] == 0;
    }
  }

  /** The retry bound: the streams ever opened are within the budget and
      `parallel` more for each answer, whatever the server does. */
  lemma RetriesBounded(w: World, b: Budget, parallel: nat)
    requires WorldOk(w, b, parallel)
    ensures w.ledger.refunded <= parallel * w.ledger.tally.completed
    ensures b.Requests? ==> w.ledger.begun <= b.n + parallel * w.ledger.tally.completed
    ensures b.Requests? ==> w.ledger.begun <= b.n * (1 + parallel)
    ensures b.Requests? && w.ledger.tally.completed == 0 ==> w.ledger.begun <= b.n
  {
    hide Attended, Judged, Credit, ConnOk;
    CreditsNat(w, b, parallel);
    SumBounds(OwedAll(w.conns));
    SumBounds(CreditAll(w.conns, parallel));
    if b.Requests? {
      Scaled(parallel, w.ledger.tally.completed, b.n);
    }
  }

  lemma CreditsNat(w: World, b: Budget, parallel: nat)
    requires WorldOk(w, b, parallel)
    ensures AllNat(CreditAll(w.conns, parallel))
  {
    hide Attended, Judged, Credit;
  }

  lemma Scaled(parallel: nat, completed: nat, n: nat)
    requires completed <= n
    ensures n + parallel * completed <= n * (1 + parallel)
  {
    assert parallel * completed <= parallel * n;
  }

  lemma Totals(w: World, b: Budget, parallel: nat)
    requires WorldOk(w, b, parallel)
    ensures w.ledger.started == w.ledger.tally.completed + w.ledger.tally.errors + Sum(OwedAll(w.conns))
    ensures w.ledger.started == w.ledger.begun + w.ledger.tally.connectErrors - w.ledger.refunded
    ensures b.Requests? ==> w.ledger.started <= b.n
  {
  }

  /** Conservation and the retry bound, over any run of any number of
      connections: no refund underflows, nothing is started beyond the budget,
      every stream opened has exactly one fate, and a run that met its budget
      reports exactly it. */
  lemma Conservation(connections: nat, steps: seq<Step>, b: Budget, parallel: nat)
    requires connections > 0 && IsRun(Start(connections, b), steps, b, parallel)
    ensures var w := Run(Start(connections, b), steps, b, parallel);
            var t := w.ledger.tally;
            && 0 <= w.ledger.started == t.completed + t.errors + Sum(OwedAll(w.conns))
            && w.ledger.begun == t.completed + (t.errors - t.connectErrors) + w.ledger.refunded + Sum(OwedAll(w.conns))
            && t.Consistent()
            && (b.Requests? ==> w.ledger.started <= b.n)
            && (b.Requests? ==> w.ledger.begun <= b.n * (1 + parallel))
            && (b.Requests? && t.completed == 0 ==> w.ledger.begun <= b.n)
            && (b.IsMet(t.completed + t.errors) ==>
                  && t.completed + t.errors == b.n
                  && forall i :: 0 <= i < |w.conns| ==> w.conns[i].streams == map[] && w.conns[i].gb.unjudged == 0)
  {
    hide IsRun, Run, WorldOk;
    var w := Run(Start(connections, b), steps, b, parallel);
    StartOk(connections, b, parallel);
    RunKeeps(Start(connections, b), steps, b, parallel);
    Totals(w, b, parallel);
    MetExactly(w, b, parallel);
    RetriesBounded(w, b, parallel);
  }

  lemma RunNothing(w: World, b: Budget, parallel: nat)
    ensures IsRun(w, [], b, parallel) && Run(w, [], b, parallel) == w
  {
  }

  lemma RunHead(w: World, step: Step, rest: seq<Step>, b: Budget, parallel: nat)
    requires IsRun(w, [step] + rest, b, parallel)
    ensures Possible(w, step) && IsRun(Next(w, step, b, parallel), rest, b, parallel)
  {
    assert ([step] + rest)[1..] == rest;
  }

  lemma {:induction false} RunSnoc(w: World, steps: seq<Step>, last: Step, b: Budget, parallel: nat)
    requires IsRun(w, steps, b, parallel) && Possible(Run(w, steps, b, parallel), last)
    ensures IsRun(w, steps + [last], b, parallel)
    ensures Run(w, steps + [last], b, parallel) == Next(Run(w, steps, b, parallel), last, b, parallel)
    decreases |steps|
  {
    hide Possible, Next;
    if steps == [] {
      assert steps + [last] == [last] && [last][1..] == [];
    } else {
      assert (steps + [last])[1..] == steps[1..] + [last];
      RunSnoc(Next(w, steps[0], b, parallel), steps[1..], last, b, parallel);
    }
  }

  // ---- A pass's endings, stream by stream ----

  /** The verdict on one request, looking only at the first ending that names
      its stream. */
  ghost function VerdictFor(id: nat, r: Request, fs: seq<Finish>, goaway: Option<nat>): Option<Verdict>
    decreases |fs|
  {
    if fs == [] then None
    else if fs[0].id == id then Some(VerdictOn(r, fs[0], goaway))
    else VerdictFor(id, r, fs[1..], goaway)
  }

  ghost function Having(streams: map<nat, Request>, fs: seq<Finish>, goaway: Option<nat>, v: Verdict): set<nat> {
    set id | id in streams && VerdictFor(id, streams[id], fs, goaway) == Some(v)
  }

  ghost function Unended(streams: map<nat, Request>, fs: seq<Finish>, goaway: Option<nat>): map<nat, Request> {
    map id | id in streams && VerdictFor(id, streams[id], fs, goaway) == None :: streams[id]
  }

  /** 1 if the ending names a live stream and brings this verdict, else 0. */
  ghost function EndsAs(streams: map<nat, Request>, f: Finish, goaway: Option<nat>, v: Verdict): nat {
    if f.id in streams && VerdictOn(streams[f.id], f, goaway) == v then 1 else 0
  }

  lemma HavingAt(streams: map<nat, Request>, fs: seq<Finish>, goaway: Option<nat>, v: Verdict, id: nat)
    requires fs != []
    ensures id in Having(streams, fs, goaway, v) <==>
              || id in Having(streams - {fs[0].id}, fs[1..], goaway, v)
              || (EndsAs(streams, fs[0], goaway, v) == 1 && id == fs[0].id)
    ensures fs[0].id !in Having(streams - {fs[0].id}, fs[1..], goaway, v)
  {
  }

  lemma HavingStep(streams: map<nat, Request>, fs: seq<Finish>, goaway: Option<nat>, v: Verdict)
    requires fs != []
    ensures |Having(streams, fs, goaway, v)|
         == |Having(streams - {fs[0].id}, fs[1..], goaway, v)| + EndsAs(streams, fs[0], goaway, v)
  {
    hide Having, VerdictFor;
    var rest := Having(streams - {fs[0].id}, fs[1..], goaway, v);
    forall id {
      HavingAt(streams, fs, goaway, v, id);
    }
    if EndsAs(streams, fs[0], goaway, v) == 1 {
      assert Having(streams, fs, goaway, v) == rest + {fs[0].id};
    } else {
      assert Having(streams, fs, goaway, v) == rest;
    }
  }

  lemma UnendedStep(streams: map<nat, Request>, fs: seq<Finish>, goaway: Option<nat>)
    requires fs != []
    ensures Unended(streams, fs, goaway) == Unended(streams - {fs[0].id}, fs[1..], goaway)
  {
  }

  lemma OneFinish(c: ConnView, l: Ledger, f: Finish, now: nat, parallel: nat)
    ensures var (c', l') := ApplyFinish(c, l, f, now, parallel);
            var failed := EndsAs(c.streams, f, c.goaway, Failed);
            var givenBack := EndsAs(c.streams, f, c.goaway, GivenBack);
            && c'.streams == c.streams - {f.id} && c'.goaway == c.goaway
            && c'.gb.completed == c.gb.completed + EndsAs(c.streams, f, c.goaway, Answered)
            && l'.tally.completed == l.tally.completed + EndsAs(c.streams, f, c.goaway, Answered)
            && l.tally.errors + failed <= l'.tally.errors
            && l'.refunded <= l.refunded + givenBack
            && l'.tally.errors + l'.refunded + c'.gb.unjudged
               == l.tally.errors + l.refunded + c.gb.unjudged + failed + givenBack
            && l'.started + l'.refunded == l.started + l.refunded
  {
    if f.id !in c.streams {
      assert c.streams - {f.id} == c.streams;
    }
  }

  /** Whatever the order of the endings, each request's verdict depends on its
      own stream alone. Answers are counted one for one, every failure is an
      error, and only requests given back can be refunded, left waiting, or,
      beyond the retry bound, be errors as well. */
  lemma {:induction false} VerdictsDecide(c: ConnView, l: Ledger, fs: seq<Finish>, now: nat, parallel: nat)
    ensures var (c', l') := ApplyFinishes(c, l, fs, now, parallel);
            var answered := |Having(c.streams, fs, c.goaway, Answered)|;
            var failed := |Having(c.streams, fs, c.goaway, Failed)|;
            var givenBack := |Having(c.streams, fs, c.goaway, GivenBack)|;
            && c'.streams == Unended(c.streams, fs, c.goaway)
            && c'.gb.completed == c.gb.completed + answered
            && l'.tally.completed == l.tally.completed + answered
            && l.tally.errors + failed <= l'.tally.errors
            && l'.refunded <= l.refunded + givenBack
            && l'.tally.errors + l'.refunded + c'.gb.unjudged
               == l.tally.errors + l.refunded + c.gb.unjudged + failed + givenBack
            && l'.started + l'.refunded == l.started + l.refunded
    decreases |fs|
  {
    if fs == [] {
      assert Unended(c.streams, fs, c.goaway) == c.streams;
    } else {
      hide Having, Unended, EndsAs, ApplyFinish, VerdictFor;
      OneFinish(c, l, fs[0], now, parallel);
      HavingStep(c.streams, fs, c.goaway, Answered);
      HavingStep(c.streams, fs, c.goaway, Failed);
      HavingStep(c.streams, fs, c.goaway, GivenBack);
      UnendedStep(c.streams, fs, c.goaway);
      var (c1, l1) := ApplyFinish(c, l, fs[0], now, parallel);
      VerdictsDecide(c1, l1, fs[1..], now, parallel);
    }
  }

  // ---- What is recorded of an answer ----

  ghost function With(streams: map<nat, Request>, status: Status): map<nat, Request> {
    map id | id in streams && streams[id].status == status :: streams[id]
  }

  lemma OneFinishRow(c: ConnView, l: Ledger, f: Finish, now: nat, parallel: nat, status: Status)
    ensures ApplyFinish(c, l, f, now, parallel).1.tally.statusCounts[status]
         == l.tally.statusCounts[status] + EndsAs(With(c.streams, status), f, c.goaway, Answered)
    ensures With(c.streams - {f.id}, status) == With(c.streams, status) - {f.id}
  {
    hide Elapsed;
  }

  /** Each row of the status table rises by the number of streams answered that
      had read this status. */
  lemma {:induction false} RowsRise(c: ConnView, l: Ledger, fs: seq<Finish>, now: nat, parallel: nat, status: Status)
    ensures ApplyFinishes(c, l, fs, now, parallel).1.tally.statusCounts[status]
         == l.tally.statusCounts[status] + |Having(With(c.streams, status), fs, c.goaway, Answered)|
    decreases |fs|
  {
    if fs != [] {
      hide Having, With, EndsAs, ApplyFinish, VerdictFor;
      OneFinish(c, l, fs[0], now, parallel);
      OneFinishRow(c, l, fs[0], now, parallel, status);
      HavingStep(With(c.streams, status), fs, c.goaway, Answered);
      var (c1, l1) := ApplyFinish(c, l, fs[0], now, parallel);
      RowsRise(c1, l1, fs[1..], now, parallel, status);
    }
  }

  ghost function StartsOf(streams: map<nat, Request>, ids: seq<nat>): seq<nat>
    requires forall id :: id in ids ==> id in streams
  {
    seq(|ids|, k requires 0 <= k < |ids| => assert ids[k] in ids; streams[ids[k]].start)
  }

  /** Exactly the streams that the endings answer, each once. */
  ghost predicate AnsweredOnce(streams: map<nat, Request>, fs: seq<Finish>, goaway: Option<nat>, ids: seq<nat>) {
    && (forall j, k :: 0 <= j < k < |ids| ==> ids[j] != ids[k])
    && forall id :: id in ids <==> id in streams && VerdictFor(id, streams[id], fs, goaway) == Some(Answered)
  }

  lemma AnsweredStep(streams: map<nat, Request>, fs: seq<Finish>, goaway: Option<nat>, rest: seq<nat>)
    requires fs != [] && AnsweredOnce(streams - {fs[0].id}, fs[1..], goaway, rest)
    ensures var ends := EndsAs(streams, fs[0], goaway, Answered) == 1;
            AnsweredOnce(streams, fs, goaway, if ends then [fs[0].id] + rest else rest)
  {
    forall id
      ensures id in rest <==> id in Having(streams - {fs[0].id}, fs[1..], goaway, Answered)
      ensures id in Having(streams, fs, goaway, Answered)
         <==> id in streams && VerdictFor(id, streams[id], fs, goaway) == Some(Answered)
    {
    }
    hide VerdictFor, Having, EndsAs;
    forall id {
      HavingAt(streams, fs, goaway, Answered, id);
    }
  }

  lemma StartsStep(streams: map<nat, Request>, id: nat, rest: seq<nat>)
    requires forall k :: k in rest ==> k in streams - {id}
    ensures StartsOf(streams - {id}, rest) == StartsOf(streams, rest)
    ensures id in streams ==> StartsOf(streams, [id] + rest) == [streams[id].start] + StartsOf(streams, rest)
  {
    assert forall k :: 0 <= k < |rest| ==> rest[k] in rest;
  }

  lemma OneFinishSample(c: ConnView, l: Ledger, f: Finish, now: nat, parallel: nat)
    ensures var (c', l') := ApplyFinish(c, l, f, now, parallel);
            && c'.streams == c.streams - {f.id} && c'.goaway == c.goaway &&
            if EndsAs(c.streams, f, c.goaway, Answered) == 1
            then f.id in c.streams
                 && l'.tally.latencies == l.tally.latencies + [Elapsed(now, c.streams[f.id].start)]
            else l'.tally.latencies == l.tally.latencies
  {
    hide Elapsed;
    if f.id !in c.streams {
      assert c.streams - {f.id} == c.streams;
    }
  }

  /** Some list of exactly the streams answered accounts for the new samples. */
  ghost predicate Sampled(streams: map<nat, Request>, fs: seq<Finish>, goaway: Option<nat>,
                          before: seq<nat>, after: seq<nat>, now: nat)
  {
    exists ids :: AnsweredOnce(streams, fs, goaway, ids) && Gains(before, after, now, StartsOf(streams, ids))
  }

  /** The samples gain one for each stream answered, in the order they were:
      the time from its start to now. */
  lemma {:induction false} SamplesGain(c: ConnView, l: Ledger, fs: seq<Finish>, now: nat, parallel: nat) returns (ids: seq<nat>)
    ensures AnsweredOnce(c.streams, fs, c.goaway, ids)
    ensures Gains(l.tally.latencies, ApplyFinishes(c, l, fs, now, parallel).1.tally.latencies, now, StartsOf(c.streams, ids))
    decreases |fs|
  {
    if fs == [] {
      ids := [];
    } else {
      var f := fs[0];
      var (c1, l1) := ApplyFinish(c, l, f, now, parallel);
      hide VerdictFor, EndsAs, ApplyFinish, Elapsed, Gains, StartsOf;
      OneFinishSample(c, l, f, now, parallel);
      var rest := SamplesGain(c1, l1, fs[1..], now, parallel);
      AnsweredStep(c.streams, fs, c.goaway, rest);
      StartsStep(c.streams, f.id, rest);
      if EndsAs(c.streams, f, c.goaway, Answered) == 1 {
        ids := [f.id] + rest;
        GainsOne(l.tally.latencies, l1.tally.latencies, ApplyFinishes(c1, l1, fs[1..], now, parallel).1.tally.latencies,
                 now, c.streams[f.id].start, StartsOf(c.streams, rest));
      } else {
        ids := rest;
      }
    }
  }

  /** What a pass's endings leave in the table and among the samples. */
  lemma Recorded(c: ConnView, l: Ledger, fs: seq<Finish>, now: nat, parallel: nat)
    ensures var before, after := l.tally, ApplyFinishes(c, l, fs, now, parallel).1.tally;
            && (forall status: Status :: after.statusCounts[status]
                  == before.statusCounts[status] + |Having(With(c.streams, status), fs, c.goaway, Answered)|)
            && Sampled(c.streams, fs, c.goaway, before.latencies, after.latencies, now)
  {
    forall status: Status {
      RowsRise(c, l, fs, now, parallel, status);
    }
    var ids := SamplesGain(c, l, fs, now, parallel);
  }

  // ---- Where give-backs end up ----

  ghost function AtLeastOne(n: nat): nat {
    if n == 0 then 1 else n
  }

  /** From `g0` and `l0` to `g` and `l`, with so many requests answered, failed
      and given back: everything given back was sent again, waits or is an
      error; while nothing was answered all of it waits; and it is an error
      only once the retries are used up. */
  ghost predicate Accounted(g0: GiveBacks, l0: Ledger, g: GiveBacks, l: Ledger, parallel: nat,
                            answered: nat, failed: nat, givenBack: nat)
  {
    var again := l.refunded - l0.refunded;
    var excess := l.tally.errors - l0.tally.errors - failed;
    && g.completed == g0.completed + answered
    && l.tally.completed == l0.tally.completed + answered
    && l.started == l0.started - again
    && g.retried == g0.retried + again
    && 0 <= again && 0 <= excess && g0.unjudged <= g.unjudged
    && again + excess + (g.unjudged - g0.unjudged) == givenBack
    && (g.completed == 0 ==> again == 0 && excess == 0)
    && (g0.completed > 0 ==> g.unjudged == g0.unjudged)
    && (excess > 0 ==> parallel * AtLeastOne(g0.completed) <= g.retried)
  }

  lemma NoLess(parallel: nat, a: nat, b: nat)
    requires a <= b
    ensures parallel * a <= parallel * b
  {
    var d: nat := b - a;
    assert parallel * b == parallel * a + parallel * d;
  }

  lemma GiveBackAccounted(g0: GiveBacks, l0: Ledger, g: GiveBacks, l: Ledger, parallel: nat,
                          answered: nat, failed: nat, givenBack: nat)
    requires Accounted(g0, l0, g, l, parallel, answered, failed, givenBack)
    ensures var (g', l') := GiveBack(g, l, parallel);
            Accounted(g0, l0, g', l', parallel, answered, failed, givenBack + 1)
  {
    if g.completed > 0 {
      NoLess(parallel, AtLeastOne(g0.completed), g.completed);
    }
  }

  lemma {:induction false} GiveBackManyAccounted(g0: GiveBacks, l0: Ledger, g: GiveBacks, l: Ledger, parallel: nat,
                                                 answered: nat, failed: nat, givenBack: nat, n: nat)
    requires Accounted(g0, l0, g, l, parallel, answered, failed, givenBack)
    ensures var (g', l') := GiveBackMany(g, l, parallel, n);
            Accounted(g0, l0, g', l', parallel, answered, failed, givenBack + n)
    decreases n
  {
    if n > 0 {
      hide Accounted, GiveBack;
      GiveBackManyAccounted(g0, l0, g, l, parallel, answered, failed, givenBack, n - 1);
      var (g', l') := GiveBackMany(g, l, parallel, n - 1);
      GiveBackAccounted(g0, l0, g', l', parallel, answered, failed, givenBack + n - 1);
    }
  }

  lemma FinishAccounted(g0: GiveBacks, l0: Ledger, c: ConnView, l: Ledger, f: Finish, now: nat, parallel: nat,
                        answered: nat, failed: nat, givenBack: nat)
    requires Accounted(g0, l0, c.gb, l, parallel, answered, failed, givenBack)
    ensures var (c', l') := ApplyFinish(c, l, f, now, parallel);
            && c'.streams == c.streams - {f.id} && c'.goaway == c.goaway
            && Accounted(g0, l0, c'.gb, l', parallel,
                         answered + EndsAs(c.streams, f, c.goaway, Answered),
                         failed + EndsAs(c.streams, f, c.goaway, Failed),
                         givenBack + EndsAs(c.streams, f, c.goaway, GivenBack))
  {
    hide GiveBack, Elapsed, Accounted;
    if f.id in c.streams {
      var r := c.streams[f.id];
      match VerdictOn(r, f, c.goaway) {
        case GivenBack => GiveBackAccounted(g0, l0, c.gb, l, parallel, answered, failed, givenBack);
        case Failed => FailureAccounted(g0, l0, c.gb, l, parallel, answered, failed, givenBack);
        case Answered =>
          AnswerAccounted(g0, l0, c.gb, l, r.status, Elapsed(now, r.start), parallel, answered, failed, givenBack);
      }
    } else {
      assert c.streams - {f.id} == c.streams;
    }
  }

  lemma FailureAccounted(g0: GiveBacks, l0: Ledger, g: GiveBacks, l: Ledger, parallel: nat,
                         answered: nat, failed: nat, givenBack: nat)
    requires Accounted(g0, l0, g, l, parallel, answered, failed, givenBack)
    ensures Accounted(g0, l0, g, l.Fail(1), parallel, answered, failed + 1, givenBack)
  {
  }

  lemma AnswerAccounted(g0: GiveBacks, l0: Ledger, g: GiveBacks, l: Ledger, status: Status, latency: nat, parallel: nat,
                        answered: nat, failed: nat, givenBack: nat)
    requires Accounted(g0, l0, g, l, parallel, answered, failed, givenBack)
    ensures Accounted(g0, l0, g.(completed := g.completed + 1), l.(tally := l.tally.Success(status, latency)),
                      parallel, answered + 1, failed, givenBack)
  {
  }

  lemma {:induction false} FinishesAccounted(g0: GiveBacks, l0: Ledger, c: ConnView, l: Ledger, fs: seq<Finish>, now: nat,
                                             parallel: nat, answered: nat, failed: nat, givenBack: nat)
    requires Accounted(g0, l0, c.gb, l, parallel, answered, failed, givenBack)
    ensures var (c', l') := ApplyFinishes(c, l, fs, now, parallel);
            && c'.streams == Unended(c.streams, fs, c.goaway) && c'.goaway == c.goaway
            && Accounted(g0, l0, c'.gb, l', parallel,
                         answered + |Having(c.streams, fs, c.goaway, Answered)|,
                         failed + |Having(c.streams, fs, c.goaway, Failed)|,
                         givenBack + |Having(c.streams, fs, c.goaway, GivenBack)|)
    decreases |fs|
  {
    if fs == [] {
      assert Unended(c.streams, fs, c.goaway) == c.streams;
      forall v ensures Having(c.streams, fs, c.goaway, v) == {} {
      }
    } else {
      hide Having, Unended, EndsAs, ApplyFinish, VerdictFor, Accounted;
      FinishAccounted(g0, l0, c, l, fs[0], now, parallel, answered, failed, givenBack);
      HavingStep(c.streams, fs, c.goaway, Answered);
      HavingStep(c.streams, fs, c.goaway, Failed);
      HavingStep(c.streams, fs, c.goaway, GivenBack);
      UnendedStep(c.streams, fs, c.goaway);
      var (c1, l1) := ApplyFinish(c, l, fs[0], now, parallel);
      FinishesAccounted(g0, l0, c1, l1, fs[1..], now, parallel,
                        answered + EndsAs(c.streams, fs[0], c.goaway, Answered),
                        failed + EndsAs(c.streams, fs[0], c.goaway, Failed),
                        givenBack + EndsAs(c.streams, fs[0], c.goaway, GivenBack));
    }
  }

  /** How many streams a GOAWAY cuts off, of those whose endings did not come. */
  ghost function CutOff(c: ConnView, fs: seq<Finish>): nat {
    if c.goaway.None? then 0 else Dropped(Unended(c.streams, fs, c.goaway), c.goaway.value)
  }

  /** What a pass does with all that is given back, by then or before: without
      an answer it waits, or is an error when no stream is left; with one it is
      sent again, and is an error only when the retries that the answers before
      the pass, or one answer, allow are used up. */
  lemma GiveBacksSettle(c: ConnView, l: Ledger, p: Pass, parallel: nat)
    ensures var (c', l') := Settle(c, l, p, parallel);
            var failed := |Having(c.streams, p.finished, c.goaway, Failed)|;
            var total := c.gb.unjudged + |Having(c.streams, p.finished, c.goaway, GivenBack)| + CutOff(c, p.finished);
            var again := l'.refunded - l.refunded;
            && c'.gb.completed == c.gb.completed + |Having(c.streams, p.finished, c.goaway, Answered)|
            && 0 <= again <= total && l'.started == l.started - again
            && (c'.gb.completed == 0 && c'.streams != map[] ==>
                  again == 0 && c'.gb.unjudged == total && l'.tally.errors == l.tally.errors + failed)
            && (c'.gb.completed == 0 && c'.streams == map[] ==>
                  again == 0 && c'.gb.unjudged == 0 && l'.tally.errors == l.tally.errors + failed + total)
            && (c'.gb.completed > 0 ==>
                  c'.gb.unjudged == 0 && l'.tally.errors == l.tally.errors + failed + (total - again))
            && (c'.gb.completed > 0 && again < total ==> parallel * AtLeastOne(c.gb.completed) <= c.gb.retried + again)
  {
    hide Having, Unended, ApplyFinishes, GiveBackMany;
    FinishesAccounted(c.gb, l, c, l, p.finished, p.now, parallel, 0, 0, 0);
    var (c1, l1) := ApplyFinishes(c, l, p.finished, p.now, parallel);
    var answered, failed := |Having(c.streams, p.finished, c.goaway, Answered)|, |Having(c.streams, p.finished, c.goaway, Failed)|;
    var givenBack := |Having(c.streams, p.finished, c.goaway, GivenBack)|;
    var (c2, l2) := ApplyGoaway(c1, l1, parallel);
    if c.goaway.Some? {
      GiveBackManyAccounted(c.gb, l, c1.gb, l1, parallel, answered, failed, givenBack, CutOff(c, p.finished));
    }
    assert Accounted(c.gb, l, c2.gb, l2, parallel, answered, failed, givenBack + CutOff(c, p.finished));
    JudgeAccounted(c2.gb, c2.streams == map[], l2, parallel);
    if c2.gb.completed > 0 {
      NoLess(parallel, AtLeastOne(c.gb.completed), c2.gb.completed);
    }
  }

  /** The verdict on what was waiting. */
  lemma JudgeAccounted(g: GiveBacks, drained: bool, l: Ledger, parallel: nat)
    ensures var (g', l') := Judge(g, drained, l, parallel);
            && g'.completed == g.completed && l'.tally.completed == l.tally.completed
            && (g.completed == 0 && !drained ==> g' == g && l' == l)
            && (g.completed == 0 && drained ==> g' == g.(unjudged := 0) && l' == l.Fail(g.unjudged))
            && (g.completed > 0 ==> Accounted(g.(unjudged := 0), l, g', l', parallel, 0, 0, g.unjudged) && g'.unjudged == 0)
  {
    hide GiveBackMany;
    if g.completed > 0 {
      GiveBackManyAccounted(g.(unjudged := 0), l, g.(unjudged := 0), l, parallel, 0, 0, 0, g.unjudged);
    }
  }

  // ---- Exactly which are sent again ----

  /** A connection's give-backs after one ending: the verdict and the bound
      decide, whatever the ledger says. */
  ghost function AfterOne(g: GiveBacks, streams: map<nat, Request>, f: Finish, goaway: Option<nat>, parallel: nat): GiveBacks {
    if f.id !in streams then g
    else match VerdictOn(streams[f.id], f, goaway)
      case Answered => g.(completed := g.completed + 1)
      case Failed => g
      case GivenBack =>
        if g.completed == 0 then g.(unjudged := g.unjudged + 1)
        else if g.retried < parallel * g.completed then g.(retried := g.retried + 1)
        else g
  }

  ghost function AfterAll(g: GiveBacks, streams: map<nat, Request>, fs: seq<Finish>, goaway: Option<nat>, parallel: nat): GiveBacks
    decreases |fs|
  {
    if fs == [] then g
    else AfterAll(AfterOne(g, streams, fs[0], goaway, parallel), streams - {fs[0].id}, fs[1..], goaway, parallel)
  }

  /** Every request given back by an ending finds a retry left, or nothing
      answered yet. */
  ghost predicate Covered(g: GiveBacks, streams: map<nat, Request>, fs: seq<Finish>, goaway: Option<nat>, parallel: nat)
    decreases |fs|
  {
    fs == [] ||
    (&& (EndsAs(streams, fs[0], goaway, GivenBack) == 1 && g.completed > 0 ==> g.retried < parallel * g.completed)
     && Covered(AfterOne(g, streams, fs[0], goaway, parallel), streams - {fs[0].id}, fs[1..], goaway, parallel))
  }

  lemma {:induction false} AfterAllIs(c: ConnView, l: Ledger, fs: seq<Finish>, now: nat, parallel: nat)
    ensures ApplyFinishes(c, l, fs, now, parallel).0.gb == AfterAll(c.gb, c.streams, fs, c.goaway, parallel)
    decreases |fs|
  {
    if fs != [] {
      var (c', l') := ApplyFinish(c, l, fs[0], now, parallel);
      assert c'.gb == AfterOne(c.gb, c.streams, fs[0], c.goaway, parallel);
      assert c'.streams == c.streams - {fs[0].id} && c'.goaway == c.goaway;
      hide ApplyFinish, AfterOne;
      AfterAllIs(c', l', fs[1..], now, parallel);
    }
  }

  lemma AfterOneKeeps(g: GiveBacks, streams: map<nat, Request>, f: Finish, goaway: Option<nat>, parallel: nat)
    requires g.retried <= parallel * g.completed
    ensures var g' := AfterOne(g, streams, f, goaway, parallel);
            && g'.retried <= parallel * g'.completed && g.retried <= g'.retried && g.unjudged <= g'.unjudged
            && var moved := (g'.retried - g.retried) + (g'.unjudged - g.unjudged);
               && moved <= EndsAs(streams, f, goaway, GivenBack)
               && (moved == EndsAs(streams, f, goaway, GivenBack) <==>
                     (EndsAs(streams, f, goaway, GivenBack) == 1 && g.completed > 0 ==> g.retried < parallel * g.completed))
  {
    More(parallel, g.completed);
  }

  /** All that the endings give back is retried or waits exactly if they are
      covered. */
  lemma {:induction false} CoveredExactlyWhen(g: GiveBacks, streams: map<nat, Request>, fs: seq<Finish>, goaway: Option<nat>, parallel: nat)
    requires g.retried <= parallel * g.completed
    ensures var g' := AfterAll(g, streams, fs, goaway, parallel);
            && g'.retried <= parallel * g'.completed && g.retried <= g'.retried && g.unjudged <= g'.unjudged
            && var moved := (g'.retried - g.retried) + (g'.unjudged - g.unjudged);
               && moved <= |Having(streams, fs, goaway, GivenBack)|
               && (moved == |Having(streams, fs, goaway, GivenBack)| <==> Covered(g, streams, fs, goaway, parallel))
    decreases |fs|
  {
    if fs == [] {
      assert Having(streams, fs, goaway, GivenBack) == {};
    } else {
      hide AfterOne, EndsAs, Having;
      AfterOneKeeps(g, streams, fs[0], goaway, parallel);
      HavingStep(streams, fs, goaway, GivenBack);
      CoveredExactlyWhen(AfterOne(g, streams, fs[0], goaway, parallel), streams - {fs[0].id}, fs[1..], goaway, parallel);
    }
  }

  /** All the give-backs a pass settles: those that waited before it, those its
      endings bring, and those its GOAWAY cuts off. */
  ghost function GivenBackIn(c: ConnView, fs: seq<Finish>): nat {
    c.gb.unjudged + |Having(c.streams, fs, c.goaway, GivenBack)| + CutOff(c, fs)
  }

  ghost function Least(a: int, b: int): int {
    if a < b then a else b
  }

  /** Judging what waits after a GOAWAY has cut off `n`: both draw on what is
      left of the bound. */
  lemma CutThenJudged(g: GiveBacks, l: Ledger, n: nat, drained: bool, parallel: nat)
    requires g.retried <= parallel * g.completed
    ensures var (g1, l1) := GiveBackMany(g, l, parallel, n);
            var (g2, l2) := Judge(g1, drained, l1, parallel);
            && g2.completed == g.completed
            && l2.refunded == l.refunded +
                 (if g.completed == 0 then 0 else Least(n + g.unjudged, parallel * g.completed - g.retried))
  {
    hide GiveBackMany;
    GiveBackManyIs(g, l, parallel, n);
    var (g1, l1) := GiveBackMany(g, l, parallel, n);
    if g.completed > 0 {
      GiveBackManyIs(g1.(unjudged := 0), l1, parallel, g1.unjudged);
    }
  }

  /** How many give-backs a pass sends again, exactly: what its endings find
      retries for, and then of the rest as many as the bound has left. On a
      connection that has answered that is all of them exactly if the endings
      are covered and the rest fits; and it is always as many as the answers
      before the pass, or one answer, allow. */
  lemma SentAgainExactlyWhen(c: ConnView, l: Ledger, p: Pass, parallel: nat)
    requires 0 <= Credit(c, parallel)
    ensures var (c', l') := Settle(c, l, p, parallel);
            var g := AfterAll(c.gb, c.streams, p.finished, c.goaway, parallel);
            var again, total := l'.refunded - l.refunded, GivenBackIn(c, p.finished);
            var rest, room := g.unjudged + CutOff(c, p.finished), parallel * g.completed - g.retried;
            && c'.gb.completed == g.completed && 0 <= room
            && (g.completed == 0 ==> again == 0)
            && (g.completed > 0 ==>
                  && again == (g.retried - c.gb.retried) + Least(rest, room)
                  && (again == total <==> Covered(c.gb, c.streams, p.finished, c.goaway, parallel) && rest <= room)
                  && Least(total, parallel * AtLeastOne(c.gb.completed) - c.gb.retried) <= again
                  && again <= parallel * g.completed - c.gb.retried)
  {
    hide Having, Unended, ApplyFinishes, GiveBackMany, Judge, AfterAll, Covered;
    FinishesAccounted(c.gb, l, c, l, p.finished, p.now, parallel, 0, 0, 0);
    AfterAllIs(c, l, p.finished, p.now, parallel);
    CoveredExactlyWhen(c.gb, c.streams, p.finished, c.goaway, parallel);
    var (c1, l1) := ApplyFinishes(c, l, p.finished, p.now, parallel);
    assert GiveBackMany(c1.gb, l1, parallel, 0) == (c1.gb, l1) by {
      GiveBackManyIs(c1.gb, l1, parallel, 0);
    }
    var (c2, l2) := ApplyGoaway(c1, l1, parallel);
    CutThenJudged(c1.gb, l1, CutOff(c, p.finished), c2.streams == map[], parallel);
    AtLeastThatMany(c, l, p, parallel);
  }

  lemma AtLeastThatMany(c: ConnView, l: Ledger, p: Pass, parallel: nat)
    ensures var (c', l') := Settle(c, l, p, parallel);
            c'.gb.completed > 0 ==>
              Least(GivenBackIn(c, p.finished), parallel * AtLeastOne(c.gb.completed) - c.gb.retried) <= l'.refunded - l.refunded
  {
    hide Settle, Having, CutOff;
    GiveBacksSettle(c, l, p, parallel);
  }
}
