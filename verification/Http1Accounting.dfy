/**
 The HTTP/1.1 worker, as functions on values: which requests are owed, and what
 each connection has put on the wire.

 A connection carries one request at a time. In plaintext every connection
 sends the same bytes, so what is per connection is how far into them the
 socket has got; over TLS it sends the ciphertext drained from its session,
 which arrives here as an argument, since it is the session's to make up.
 `Http1Worker` is the in-place code proved to compute these functions.
 */
module Http1Accounting {
  import opened Budgets
  import opened Statistics
  import opened Sums

  type Bytes = seq<bv8>

  datatype ConnView = ConnView(
    /** A connect is outstanding. */
    dialing: bool,
    connected: bool,
    /** A request is still owed. */
    active: bool,
    /** Its response deadline is armed. */
    timed: bool,
    sending: bool,
    /** Another copy of the request is to follow the one being sent. */
    queued: bool,
    /** How far into what it is sending the socket has got. */
    outOff: nat,
    /** The ciphertext it is sending, over TLS. */
    out: Bytes,
    trace: Trace)

  /** What the kernel has of a connection's, and its history. */
  datatype Trace = Trace(
    /** The bytes the outstanding send was given. */
    flight: Bytes,
    /** How many sends are outstanding. */
    outstanding: int,
    /** The bytes the socket took. */
    wire: Bytes,
    /** The ciphertext drained from the TLS session. */
    drained: Bytes,
    /** The copies of the request finished before the current one. */
    whole: nat,
    /** The requests begun, and those of them folded into one already queued. */
    begun: nat,
    folded: nat)
  {
    function Submit(rest: Bytes): Trace {
      this.(flight := rest, outstanding := outstanding + 1)
    }

    function Took(n: nat): Trace
      requires n <= |flight|
    {
      this.(wire := wire + flight[..n], outstanding := outstanding - 1)
    }

    function Drain(cipher: Bytes): Trace {
      this.(drained := drained + cipher)
    }

    function Leave(waiting: bool): Trace {
      this.(begun := begun + 1, folded := if waiting then folded + 1 else folded)
    }

    function Restart(): Trace {
      this.(begun := begun + 1, whole := if begun == 0 then 0 else whole + 1)
    }

    function Rewind(): Trace {
      this.(whole := whole + 1)
    }
  }

  const NO_TRACE: Trace := Trace([], 0, [], [], 0, 0, 0)

  /** What does not change during a run. */
  datatype Run = Run(budget: Budget, request: Bytes, timeout: bool, tls: bool)

  datatype Ledger = Ledger(started: nat, tally: Tally)

  const IDLE: ConnView := ConnView(false, false, false, false, false, false, 0, [], NO_TRACE)

  // ---- Sending ----

  /** The bytes a connection is sending: ciphertext of its own, or the request. */
  function Outbound(c: ConnView, run: Run): Bytes {
    if run.tls then c.out else run.request
  }

  /** Submit what there is to send, unless a send is out: what is left of the
      request, or the ciphertext the session has. */
  function Flush(c: ConnView, run: Run, cipher: Bytes): ConnView {
    if c.sending then c
    else if run.tls then
      var c' := c.(out := cipher, trace := c.trace.Drain(cipher));
      if cipher == [] then c' else c'.(outOff := 0, sending := true, trace := c'.trace.Submit(cipher))
    else if c.outOff >= |run.request| then c
    else c.(sending := true, trace := c.trace.Submit(run.request[c.outOff..]))
  }

  /** Start the next copy of the request: by handing it to the session, by
      going back to offset zero, or, when a send is out, by raising a flag that
      its completion will see. */
  function Queue(c: ConnView, run: Run): ConnView {
    if run.tls then c
    else if c.sending then c.(queued := true, trace := c.trace.Leave(c.queued))
    else c.(outOff := 0, trace := c.trace.Restart())
  }

  function QueueAndFlush(c: ConnView, run: Run, cipher: Bytes): ConnView {
    Flush(Queue(c, run), run, cipher)
  }

  /** The socket took `n` bytes of the outstanding send. */
  function Sent(c: ConnView, n: nat, run: Run, cipher: Bytes): ConnView
    requires n <= |c.trace.flight|
  {
    var c' := c.(outOff := c.outOff + n, trace := c.trace.Took(n));
    if c'.outOff < |Outbound(c', run)| then c'.(trace := c'.trace.Submit(Outbound(c', run)[c'.outOff..]))
    else if c.queued then
      Flush(c'.(sending := false, queued := false, outOff := 0, trace := c'.trace.Rewind()), run, cipher)
    else Flush(c'.(sending := false), run, cipher)
  }

  // ---- Requests ----

  function Closed(c: ConnView): ConnView {
    IDLE.(active := c.active, timed := c.timed)
  }

  function Begin(c: ConnView, timed: bool): ConnView {
    c.(active := true, timed := timed)
  }

  function End(c: ConnView): ConnView {
    c.(active := false, timed := false)
  }

  ghost function FailRequest(c: ConnView, l: Ledger): (ConnView, Ledger) {
    if c.active then (End(c), l.(tally := l.tally.Failures(1))) else (c, l)
  }

  /** What a receive turned out to be. */
  datatype Receipt =
    | NoBuffers
    | ReceiveError
    /** The peer closed, which is the proper end of some responses. */
    | Eof(complete: bool, status: Status, latency: nat)
    /** Nothing finished by it. */
    | Partial
    | Response(status: Status, latency: nat, keepAlive: bool)
    | Malformed

  ghost function FinishAtEof(c: ConnView, l: Ledger, rx: Receipt): (ConnView, Ledger)
    requires rx.Eof?
  {
    if !c.active then (c, l)
    else (End(c), l.(tally := if rx.complete then l.tally.Success(rx.status, rx.latency) else l.tally.Failures(1)))
  }

  /** A request is over: start the next, on this connection or a new one. */
  ghost function Finish(c: ConnView, l: Ledger, keep: bool, run: Run, stop: bool, cipher: Bytes): (ConnView, Ledger) {
    var c' := End(c);
    if !stop && run.budget.MayStart(l.started) then
      var c1 := Begin(c', run.timeout);
      (if keep then QueueAndFlush(c1, run, cipher) else Closed(c1).(dialing := true),
       l.(started := l.started + 1))
    else (if keep then c' else Closed(c'), l)
  }

  ghost function Receive(c: ConnView, l: Ledger, rx: Receipt, run: Run, stop: bool, cipher: Bytes): (ConnView, Ledger) {
    match rx
    case NoBuffers => (c, l)
    case Partial => (Flush(c, run, cipher), l)
    case Eof(_, _, _) =>
      var (c', l') := FinishAtEof(c, l, rx);
      Finish(c', l', false, run, stop, cipher)
    case Response(status, latency, keepAlive) =>
      Finish(c, if c.active then l.(tally := l.tally.Success(status, latency)) else l, keepAlive, run, stop, cipher)
    case _ =>
      var (c', l') := FailRequest(c, l);
      Finish(c', l', false, run, stop, cipher)
  }

  // ---- The worker ----

  datatype World = World(conns: seq<ConnView>, ledger: Ledger, stop: bool)

  datatype Step =
    | Connect(i: nat, cipher: Bytes)
    | ConnectError(i: nat)
    | SendDone(i: nat, n: nat, cipher: Bytes)
    | SendError(i: nat)
    | Received(i: nat, rx: Receipt, cipher: Bytes)
    | Timeout(i: nat)
    | Deadline

  /** The kernel completes only what is outstanding: a connect or a send that
      was started, and receives on an established connection. */
  predicate Possible(w: World, step: Step) {
    step.Deadline? ||
    (step.i < |w.conns| &&
     var c := w.conns[step.i];
     match step
     case Connect(_, _) => c.dialing
     case ConnectError(_) => c.dialing
     case SendDone(_, n, _) => c.sending && n <= |c.trace.flight|
     case SendError(_) => c.sending
     case Received(_, _, _) => c.connected
     case Timeout(_) => c.timed)
  }

  ghost function StepConn(c: ConnView, l: Ledger, step: Step, run: Run, stop: bool): (ConnView, Ledger)
    requires !step.Deadline? && (step.SendDone? ==> step.n <= |c.trace.flight|)
  {
    match step
    case Connect(_, cipher) =>
      (QueueAndFlush(Begin(c.(dialing := false, connected := true), run.timeout), run, cipher), l)
    case ConnectError(_) =>
      Finish(c.(dialing := false), l.(tally := l.tally.ConnectFailure()), false, run, stop, [])
    case SendDone(_, n, cipher) => (Sent(c, n, run, cipher), l.(tally := l.tally.(bytesSent := l.tally.bytesSent + n)))
    case SendError(_) =>
      var (c', l') := FailRequest(c, l);
      Finish(c', l', false, run, stop, [])
    case Received(_, rx, cipher) => Receive(c, l, rx, run, stop, cipher)
    case Timeout(_) =>
      var (c', l') := FailRequest(c, l);
      if stop || !run.budget.MayStart(l'.started) then (Closed(c'), l')
      else (Begin(Closed(c'), false).(dialing := true), l'.(started := l'.started + 1))
  }

  ghost function Next(w: World, step: Step, run: Run): World
    requires Possible(w, step)
  {
    if step.Deadline? then w.(stop := true)
    else
      var (c, l) := StepConn(w.conns[step.i], w.ledger, step, run, w.stop);
      w.(conns := w.conns[step.i := c], ledger := l)
  }

  /** The first requests, one per connection while the budget lasts. */
  ghost function Start(connections: nat, run: Run): World {
    World(seq(connections, i => First(i, run)),
          Ledger(Begun(connections, run.budget), NOTHING), false)
  }

  function First(i: int, run: Run): ConnView {
    if run.budget.MayStart(i) then Begin(IDLE, run.timeout).(dialing := true) else IDLE
  }

  function Begun(connections: nat, b: Budget): nat {
    if b.Requests? && b.n < connections then b.n else connections
  }

  ghost predicate IsRun(w: World, steps: seq<Step>, run: Run)
    decreases |steps|
  {
    steps == [] || (Possible(w, steps[0]) && IsRun(Next(w, steps[0], run), steps[1..], run))
  }

  ghost function After(w: World, steps: seq<Step>, run: Run): World
    requires IsRun(w, steps, run)
    decreases |steps|
  {
    if steps == [] then w else After(Next(w, steps[0], run), steps[1..], run)
  }

  // ---- What is on the wire ----

  ghost function Copies(request: Bytes, n: nat): Bytes {
    if n == 0 then [] else Copies(request, n - 1) + request
  }

  /** Rewinding after a whole copy is starting the next one. */
  lemma NextCopy(request: Bytes, n: nat)
    ensures Copies(request, n) + request == Copies(request, n + 1) + request[..0]
    ensures request[0..] == request
  {
  }

  /** In plaintext, what the socket took is whole copies of the request and
      then the part of the current one it has got to; the outstanding send
      holds exactly the rest; and with no send out, there is no rest. */
  ghost predicate PlainOk(c: ConnView, request: Bytes) {
    && c.outOff <= |request|
    && c.trace.wire == Copies(request, c.trace.whole) + request[..c.outOff]
    && (c.sending ==> c.connected && c.outOff < |request| && c.trace.flight == request[c.outOff..])
    && (c.connected && !c.sending ==> c.outOff == |request|)
    && (c.queued ==> c.sending)
    && (c.connected ==> c.trace.begun > 0)
    && c.trace.begun == Carried(c) + c.trace.folded
    && (!c.connected ==> c.trace.begun == 0 && c.outOff == 0 && c.trace.whole == 0)
  }

  /** Over TLS, what the socket took and then the outstanding send are exactly
      the ciphertext drained from the session, in order. */
  ghost predicate CipherOk(c: ConnView) {
    && !c.queued
    && (c.sending ==> c.connected && c.outOff < |c.out| && c.trace.flight == c.out[c.outOff..])
    && c.trace.drained == c.trace.wire + if c.sending then c.trace.flight else []
  }

  /** There is never a second send. */
  ghost predicate WireOk(c: ConnView, run: Run) {
    && c.trace.outstanding == (if c.sending then 1 else 0)
    && if run.tls then CipherOk(c) else PlainOk(c, run.request)
  }

  /** Requests the wire has carried, is carrying, or is to carry next. */
  ghost function Carried(c: ConnView): nat {
    if c.trace.begun == 0 then 0 else c.trace.whole + 1 + if c.queued then 1 else 0
  }

  /** What sending leaves alone. */
  ghost predicate Same(c: ConnView, c': ConnView) {
    c'.active == c.active && c'.timed == c.timed && c'.dialing == c.dialing
  }

  /** An extra flush sends nothing, unless a TLS session has something to say;
      then it is sent, behind everything before it. */
  lemma FlushIdle(c: ConnView, run: Run, cipher: Bytes)
    requires WireOk(c, run) && c.connected
    ensures var c' := Flush(c, run, cipher);
            && WireOk(c', run) && c'.connected && Same(c, c')
            && c'.trace.wire == c.trace.wire
            && (!run.tls ==> c' == c)
            && (c'.trace.outstanding > c.trace.outstanding <==> run.tls && !c.sending && cipher != [])
  {
    hide Copies;
    assert cipher[0..] == cipher;
    assert c.trace.wire + [] == c.trace.wire;
  }

  lemma QueueAndFlushPlain(c: ConnView, run: Run, cipher: Bytes)
    requires !run.tls && c.connected
    requires WireOk(c, run) || (WireOk(c.(connected := false), run) && !c.sending)
    ensures var c' := QueueAndFlush(c, run, cipher);
            WireOk(c', run) && c'.connected && Same(c, c') && c'.trace.wire == c.trace.wire
  {
    hide Copies;
    assert run.request[..|run.request|] == run.request;
    NextCopy(run.request, c.trace.whole);
  }

  /** A next request is put behind what is on the wire, never inside it. */
  lemma QueueAndFlushWire(c: ConnView, run: Run, cipher: Bytes)
    requires c.connected
    requires WireOk(c, run) || (WireOk(c.(connected := false), run) && !c.sending)
    ensures var c' := QueueAndFlush(c, run, cipher);
            WireOk(c', run) && c'.connected && Same(c, c') && c'.trace.wire == c.trace.wire
  {
    if run.tls {
      FlushIdle(c, run, cipher);
    } else {
      QueueAndFlushPlain(c, run, cipher);
    }
  }

  lemma SentPlain(c: ConnView, n: nat, run: Run, cipher: Bytes)
    requires !run.tls && WireOk(c, run) && c.sending && n <= |c.trace.flight|
    ensures var c' := Sent(c, n, run, cipher);
            WireOk(c', run) && c.connected && c'.connected && Same(c, c')
  {
    hide Copies;
    var request, whole := run.request, c.trace.whole;
    var part := c.trace.flight[..n];
    assert c.trace.wire + part == Copies(request, whole) + (request[..c.outOff] + part);
    assert request[..c.outOff + n] == request[..c.outOff] + part;
    if c.outOff + n == |request| {
      assert request[..|request|] == request;
      if c.queued {
        NextCopy(request, whole);
      }
    }
  }

  lemma SentCipher(c: ConnView, n: nat, run: Run, cipher: Bytes)
    requires run.tls && WireOk(c, run) && c.sending && n <= |c.trace.flight|
    ensures var c' := Sent(c, n, run, cipher);
            WireOk(c', run) && c.connected && c'.connected && Same(c, c')
  {
    hide Flush;
    var c1 := c.(outOff := c.outOff + n, trace := c.trace.Took(n));
    TakePart(c, n);
    if c1.outOff == |c.out| {
      FlushIdle(c1.(sending := false), run, cipher);
    }
  }

  /** What was taken is on the wire, and the rest of the ciphertext is left. */
  lemma TakePart(c: ConnView, n: nat)
    requires CipherOk(c) && c.sending && n <= |c.trace.flight|
    ensures var c1 := c.(outOff := c.outOff + n, trace := c.trace.Took(n));
            && c1.outOff <= |c.out| && c1.trace.drained == c1.trace.wire + c.out[c1.outOff..]
            && (c1.outOff == |c.out| ==> c1.trace.drained == c1.trace.wire)
  {
    Parts(c.trace.wire, c.out, c.outOff, n);
  }

  lemma Parts(wire: Bytes, out: Bytes, off: nat, n: nat)
    requires off <= |out| && n <= |out| - off
    ensures wire + out[off..] == (wire + out[off..][..n]) + out[off + n..]
    ensures off + n == |out| ==> (wire + out[off..][..n]) + out[off + n..] == wire + out[off..][..n]
  {
    assert out[off..] == out[off..][..n] + out[off + n..];
  }

  /** The socket takes what it was given, in order, and what is outstanding
      afterwards is exactly the rest. */
  lemma SentWire(c: ConnView, n: nat, run: Run, cipher: Bytes)
    requires WireOk(c, run) && c.sending && n <= |c.trace.flight|
    ensures var c' := Sent(c, n, run, cipher);
            && WireOk(c', run) && c.connected && c'.connected && Same(c, c')
            && c'.trace.wire == c.trace.wire + c.trace.flight[..n]
  {
    hide WireOk;
    if run.tls {
      SentCipher(c, n, run, cipher);
    } else {
      SentPlain(c, n, run, cipher);
    }
  }

  // ---- What has left ----

  lemma {:induction false} CopiesLength(request: Bytes, n: nat)
    ensures |Copies(request, n)| == n * |request|
  {
    if n > 0 {
      CopiesLength(request, n - 1);
      assert n * |request| == (n - 1) * |request| + |request|;
    }
  }

  lemma Fewer(a: nat, b: nat, length: nat)
    requires a < b
    ensures a * length + length <= b * length
  {
    var d: nat := b - a - 1;
    assert b * length == a * length + length + d * length;
  }

  /** A plaintext connection has put on the wire every request it began, each
      whole, exactly when no send is out and no request was ever folded into
      one already waiting. */
  lemma AllLeftExactlyWhen(c: ConnView, run: Run)
    requires WireOk(c, run) && !run.tls && c.connected && run.request != []
    ensures c.trace.wire == Copies(run.request, c.trace.begun) <==> !c.sending && c.trace.folded == 0
  {
    var request, t := run.request, c.trace;
    CopiesLength(request, t.whole);
    CopiesLength(request, t.begun);
    if c.sending || t.folded > 0 {
      if !c.sending {
        Fewer(t.whole + 1, t.begun, |request|);
      } else if t.whole < t.begun {
        Fewer(t.whole, t.begun, |request|);
      }
      assert (t.whole + 1) * |request| == t.whole * |request| + |request|;
    } else {
      assert request[..|request|] == request;
      assert Copies(request, t.whole + 1) == Copies(request, t.whole) + request;
    }
  }

  /** A request put in the queue gets its own copy on the wire exactly if none
      was already waiting there. */
  lemma FoldedExactlyWhen(c: ConnView, run: Run, cipher: Bytes)
    requires WireOk(c, run) && !run.tls && c.connected
    ensures Carried(QueueAndFlush(c, run, cipher)) == Carried(c) + 1 <==> !c.queued
  {
    hide Copies;
  }

  // ---- What every step keeps ----

  ghost predicate ConnOk(c: ConnView, run: Run) {
    && WireOk(c, run)
    && (c.dialing ==> c.active && !c.connected)
    && (c.active ==> c.dialing || c.connected)
    && Armed(c, run)
  }

  /** A request owed on a connection that is up has a response deadline exactly
      if the run has a timeout, and nothing else has one without it. */
  predicate Armed(c: ConnView, run: Run) {
    && (c.connected && c.active ==> (c.timed <==> run.timeout))
    && (c.timed ==> c.active && run.timeout)
  }

  ghost function Owed(c: ConnView): nat {
    if c.active then 1 else 0
  }

  ghost predicate LedgerOk(l: Ledger, b: Budget) {
    && l.tally.Consistent()
    && (b.Requests? ==> l.started <= b.n)
  }

  /** `others` is how many of the other connections owe a request. */
  ghost predicate Balanced(c: ConnView, l: Ledger, run: Run, others: int) {
    && ConnOk(c, run)
    && LedgerOk(l, run.budget)
    && l.started == l.tally.Finished() + Owed(c) + others
  }

  /** Between requests: the connection owes nothing, and the books say so. */
  ghost predicate Settled(c: ConnView, l: Ledger, run: Run, others: int) {
    WireOk(c, run) && LedgerOk(l, run.budget) && l.started == l.tally.Finished() + others
  }

  /** An error is counted exactly if a request was owed, and none is after. */
  lemma FailKeeps(c: ConnView, l: Ledger, run: Run, others: int)
    requires Balanced(c, l, run, others)
    ensures var (c', l') := FailRequest(c, l);
            && Settled(c', l', run, others) && !c'.active && l'.started == l.started
            && l'.tally.errors == l.tally.errors + Owed(c) && l'.tally.completed == l.tally.completed
  {
    hide Copies;
  }

  /** A closed connection has nothing out, and starts its wire afresh. */
  lemma ClosedWire(c: ConnView, run: Run)
    ensures WireOk(Closed(c), run) && !Closed(c).sending && Closed(c).trace == NO_TRACE
    ensures Same(c, Closed(c).(dialing := c.dialing))
  {
    assert run.request[..0] == [];
  }

  /** After a request is over its connection carries the next one exactly if
      there is one to start. */
  lemma FinishKeeps(c: ConnView, l: Ledger, keep: bool, run: Run, stop: bool, cipher: Bytes, others: int)
    requires Settled(c, l, run, others)
    requires keep ==> c.connected && !c.dialing
    ensures var (c', l') := Finish(c, l, keep, run, stop, cipher);
            && Balanced(c', l', run, others) && l'.tally == l.tally
            && (c'.active <==> !stop && run.budget.MayStart(l.started))
            && (c'.timed <==> c'.active && run.timeout)
            && (c'.connected <==> keep) && (c'.dialing <==> c'.active && !keep)
            && l'.started == l.started + Owed(c')
            && (run.budget.MayStart(l'.started) && !stop ==> c'.active)
  {
    hide WireOk, QueueAndFlush;
    ClosedWire(c, run);
    var c1 := Begin(End(c), run.timeout);
    assert WireOk(c1, run) && WireOk(End(c), run) by {
      SameWire(c, c1, run);
      SameWire(c, End(c), run);
    }
    ClosedWire(c1, run);
    ClosedWire(End(c), run);
    SameWire(Closed(c1), Closed(c1).(dialing := true), run);
    if keep {
      QueueAndFlushWire(c1, run, cipher);
    }
  }

  lemma FinishActive(c: ConnView, l: Ledger, keep: bool, run: Run, stop: bool, cipher: Bytes)
    ensures var (c', l') := Finish(c, l, keep, run, stop, cipher);
            && (c'.active <==> !stop && run.budget.MayStart(l.started))
            && (c'.timed <==> c'.active && run.timeout)
            && c'.connected == (keep && c.connected)
            && c'.dialing == (if keep then c.dialing else c'.active)
            && l'.started == l.started + Owed(c')
  {
    hide QueueAndFlush;
    QueueAndFlushSame(Begin(End(c), run.timeout), run, cipher);
  }

  lemma QueueAndFlushSame(c: ConnView, run: Run, cipher: Bytes)
    ensures var c' := QueueAndFlush(c, run, cipher); Same(c, c') && c'.connected == c.connected
  {
  }

  /** The wire says nothing of which requests are owed. */
  lemma SameWire(c: ConnView, c': ConnView, run: Run)
    requires c' == c.(active := c'.active, timed := c'.timed, dialing := c'.dialing)
    ensures WireOk(c, run) <==> WireOk(c', run)
  {
  }

  lemma FailAndFinish(c: ConnView, l: Ledger, run: Run, stop: bool, cipher: Bytes, others: int)
    requires Balanced(c, l, run, others)
    ensures var (c1, l1) := FailRequest(c, l);
            var (c', l') := Finish(c1, l1, false, run, stop, cipher);
            && Balanced(c', l', run, others)
            && l'.tally.Finished() == l.tally.Finished() + Owed(c)
            && (run.budget.MayStart(l'.started) && !stop ==> c'.active)
            && l.started <= l'.started
  {
    hide Finish, Balanced, FailRequest, Settled;
    FailKeeps(c, l, run, others);
    var (c1, l1) := FailRequest(c, l);
    FinishKeeps(c1, l1, false, run, stop, cipher, others);
  }

  /** Whether a receive ends a request, if one is owed. */
  predicate Ends(rx: Receipt) {
    !rx.NoBuffers? && !rx.Partial?
  }

  /** A receive produces a result exactly if it ends a request that is owed. */
  lemma ReceiveKeeps(c: ConnView, l: Ledger, rx: Receipt, run: Run, stop: bool, cipher: Bytes, others: int)
    requires Balanced(c, l, run, others) && c.connected
    ensures var (c', l') := Receive(c, l, rx, run, stop, cipher);
            && Balanced(c', l', run, others)
            && l'.tally.Finished() == l.tally.Finished() + (if Ends(rx) then Owed(c) else 0)
            && (c.active && run.budget.MayStart(l'.started) && !stop ==> c'.active)
            && l.started <= l'.started
  {
    hide WireOk, Finish, Flush, Tally.Consistent;
    match rx {
      case NoBuffers =>
      case Partial => FlushIdle(c, run, cipher);
      case Eof(complete, status, latency) =>
        SuccessConsistent(l.tally, status, latency);
        FailuresConsistent(l.tally, 1);
        var (c', l') := FinishAtEof(c, l, rx);
        SameWire(c, c', run);
        FinishKeeps(c', l', false, run, stop, cipher, others);
      case Response(status, latency, keepAlive) =>
        SuccessConsistent(l.tally, status, latency);
        FinishKeeps(c, if c.active then l.(tally := l.tally.Success(status, latency)) else l, keepAlive, run, stop, cipher, others);
      case ReceiveError =>
        FailAndFinish(c, l, run, stop, cipher, others);
      case Malformed =>
        FailAndFinish(c, l, run, stop, cipher, others);
    }
  }

  lemma StepKeeps(c: ConnView, l: Ledger, step: Step, run: Run, stop: bool, others: int)
    requires Balanced(c, l, run, others) && !step.Deadline?
    requires Possible(World([c], l, stop), step.(i := 0))
    ensures var (c', l') := StepConn(c, l, step, run, stop);
            && Balanced(c', l', run, others)
            && (c.active && run.budget.MayStart(l'.started) && !stop ==> c'.active)
            && l.started <= l'.started
  {
    hide WireOk, Finish, Receive, QueueAndFlush, Sent, Tally.Consistent;
    match step {
      case Connect(_, cipher) =>
        var c0 := Begin(c.(dialing := false, connected := true), run.timeout);
        ConnectWire(c, c0, run);
        QueueAndFlushWire(c0, run, cipher);
      case ConnectError(_) =>
        SameWire(c, c.(dialing := false), run);
        ConnectFailureConsistent(l.tally);
        FinishKeeps(c.(dialing := false), l.(tally := l.tally.ConnectFailure()), false, run, stop, [], others);
      case SendDone(_, n, cipher) =>
        SentWire(c, n, run, cipher);
        BytesConsistent(l.tally, n);
      case SendError(_) =>
        FailAndFinish(c, l, run, stop, [], others);
      case Received(_, rx, cipher) =>
        ReceiveKeeps(c, l, rx, run, stop, cipher, others);
      case Timeout(_) =>
        FailKeeps(c, l, run, others);
        var (c', l') := FailRequest(c, l);
        ClosedWire(c', run);
        SameWire(Closed(c'), Begin(Closed(c'), false).(dialing := true), run);
    }
  }

  lemma ConnectWire(c: ConnView, c0: ConnView, run: Run)
    requires WireOk(c, run) && c.dialing && !c.connected
    requires c0 == Begin(c.(dialing := false, connected := true), c0.timed)
    ensures WireOk(c0.(connected := false), run) && !c0.sending
  {
    hide Copies;
  }

  lemma ConnectFailureConsistent(t: Tally)
    requires t.Consistent()
    ensures t.ConnectFailure().Consistent()
  {
  }

  lemma BytesConsistent(t: Tally, n: nat)
    requires t.Consistent()
    ensures t.(bytesSent := t.bytesSent + n).Consistent()
  {
  }

  // ---- Whole runs ----

  ghost function OwedAll(conns: seq<ConnView>): seq<int> {
    seq(|conns|, i requires 0 <= i < |conns| => Owed(conns[i]))
  }

  /** The invariant of the worker: every request started is completed, failed
      or owed by exactly one connection; and while there is something left to
      start, every connection has a request. */
  ghost predicate WorldOk(w: World, run: Run) {
    && LedgerOk(w.ledger, run.budget)
    && (forall i :: 0 <= i < |w.conns| ==> ConnOk(w.conns[i], run))
    && w.ledger.started == w.ledger.tally.Finished() + Sum(OwedAll(w.conns))
    && (run.budget.MayStart(w.ledger.started) && !w.stop ==>
          forall i :: 0 <= i < |w.conns| ==> w.conns[i].active)
  }

  lemma {:induction false} OwedCount(conns: seq<ConnView>, n: nat)
    requires n <= |conns|
    requires forall i :: 0 <= i < |conns| ==> (conns[i].active <==> i < n)
    ensures Sum(OwedAll(conns)) == n
    decreases |conns|
  {
    if conns != [] {
      var init := conns[..|conns| - 1];
      assert OwedAll(conns)[..|conns| - 1] == OwedAll(init);
      OwedCount(init, if n == |conns| then n - 1 else n);
    }
  }

  lemma StartOk(connections: nat, run: Run)
    ensures WorldOk(Start(connections, run), run)
    ensures var w := Start(connections, run);
            forall i :: 0 <= i < connections ==>
              && (w.conns[i].active <==> run.budget.Duration? || i < run.budget.n)
              && (w.conns[i].dialing <==> w.conns[i].active)
              && (w.conns[i].timed <==> w.conns[i].active && run.timeout)
  {
    var w := Start(connections, run);
    NothingConsistent();
    OwedCount(w.conns, Begun(connections, run.budget));
    ClosedWire(IDLE, run);
    hide WireOk;
    SameWire(IDLE, Begin(IDLE, run.timeout).(dialing := true), run);
    assert Closed(IDLE) == IDLE;
  }

  lemma PossibleAlone(w: World, step: Step)
    requires Possible(w, step) && !step.Deadline?
    ensures step.i < |w.conns| && Possible(World([w.conns[step.i]], w.ledger, w.stop), step.(i := 0))
  {
  }

  lemma NextKeeps(w: World, step: Step, run: Run)
    requires WorldOk(w, run) && Possible(w, step)
    ensures WorldOk(Next(w, step, run), run)
  {
    hide StepConn, ConnOk, LedgerOk, Owed, Possible;
    if !step.Deadline? {
      PossibleAlone(w, step);
      var i := step.i;
      var (c, l) := StepConn(w.conns[i], w.ledger, step, run, w.stop);
      StepKeeps(w.conns[i], w.ledger, step, run, w.stop, Sum(OwedAll(w.conns)) - Owed(w.conns[i]));
      SumUpdate(OwedAll(w.conns), i, Owed(c));
      assert OwedAll(w.conns[i := c]) == OwedAll(w.conns)[i := Owed(c)];
    }
  }

  /** Whatever happens on a connection that owes nothing, a late end of
      stream, a failed send or a response nobody asked for, is no result and
      starts nothing. */
  lemma IdleIsInert(w: World, step: Step, run: Run)
    requires WorldOk(w, run) && Possible(w, step)
    requires !step.Deadline? && !w.conns[step.i].active
    ensures var w' := Next(w, step, run);
            && w'.ledger.started == w.ledger.started
            && w'.ledger.tally == w.ledger.tally.(bytesSent := w'.ledger.tally.bytesSent)
            && !w'.conns[step.i].active
  {
    hide WireOk, Queue;
  }

  lemma {:induction false} RunKeeps(w: World, steps: seq<Step>, run: Run)
    requires WorldOk(w, run) && IsRun(w, steps, run)
    ensures WorldOk(After(w, steps, run), run)
    decreases |steps|
  {
    hide WorldOk, Next, Possible;
    if steps != [] {
      NextKeeps(w, steps[0], run);
      RunKeeps(Next(w, steps[0], run), steps[1..], run);
    }
  }

  /** A run that met its budget reports exactly it, with nothing owed. */
  lemma MetExactly(w: World, run: Run)
    requires WorldOk(w, run)
    ensures w.ledger.tally.Consistent()
    ensures run.budget.Requests? ==> w.ledger.tally.Finished() <= run.budget.n
    ensures run.budget.IsMet(w.ledger.tally.Finished()) ==>
              && w.ledger.tally.Finished() == run.budget.n
              && forall i :: 0 <= i < |w.conns| ==> !w.conns[i].active
  {
    hide ConnOk;
    SumBounds(OwedAll(w.conns));
    forall i | 0 <= i < |w.conns| && run.budget.IsMet(w.ledger.tally.Finished())
      ensures !w.conns[i].active
    {
      assert OwedAll(w.conns)[i] == 0;
    }
  }

  /** A connection that owes a request is up or being dialled; once up, it waits
      for the response with a deadline exactly if the run has a timeout. It has
      at most one send out. In plaintext it has put on its wire whole requests and then
      a prefix; over TLS its session's ciphertext, in order, but for what the
      outstanding send still holds. */
  ghost predicate NothingSpliced(c: ConnView, run: Run) {
    && (c.dialing ==> c.active)
    && (c.active ==> c.dialing || c.connected)
    && (c.connected && c.active ==> (c.timed <==> run.timeout))
    && (c.timed ==> c.active && run.timeout)
    && 0 <= c.trace.outstanding <= 1
    && (run.tls ==> c.trace.drained == c.trace.wire + if c.sending then c.trace.flight else [])
    && (!run.tls ==>
          && c.outOff <= |run.request|
          && c.trace.wire == Copies(run.request, c.trace.whole) + run.request[..c.outOff]
          && (c.connected && !c.sending ==> c.outOff == |run.request|))
  }

  lemma ConnShown(c: ConnView, run: Run)
    requires ConnOk(c, run)
    ensures NothingSpliced(c, run)
  {
    hide Copies;
  }

  /** Over any run, in plaintext or over TLS: results are counted exactly once,
      no request is owed by a connection that is neither up nor being dialled,
      and no connection ever splices what it sends. */
  lemma ExactlyOnce(connections: nat, steps: seq<Step>, run: Run)
    requires IsRun(Start(connections, run), steps, run)
    ensures var w := After(Start(connections, run), steps, run);
            var t := w.ledger.tally;
            && w.ledger.started == t.completed + t.errors + Sum(OwedAll(w.conns))
            && t.Consistent()
            && (run.budget.Requests? ==> w.ledger.started <= run.budget.n)
            && (run.budget.IsMet(t.completed + t.errors) ==>
                  t.completed + t.errors == run.budget.n && forall i :: 0 <= i < |w.conns| ==> !w.conns[i].active)
            && (forall i :: 0 <= i < |w.conns| ==> NothingSpliced(w.conns[i], run))
  {
    hide IsRun, After, Start, ConnOk, NothingSpliced, Tally.Consistent;
    var w := After(Start(connections, run), steps, run);
    StartOk(connections, run);
    RunKeeps(Start(connections, run), steps, run);
    MetExactly(w, run);
    forall i | 0 <= i < |w.conns| ensures NothingSpliced(w.conns[i], run) {
      ConnShown(w.conns[i], run);
    }
  }

  lemma RunNothing(w: World, run: Run)
    ensures IsRun(w, [], run) && After(w, [], run) == w
  {
  }

  lemma RunHead(w: World, step: Step, rest: seq<Step>, run: Run)
    requires IsRun(w, [step] + rest, run)
    ensures Possible(w, step) && IsRun(Next(w, step, run), rest, run)
  {
    assert ([step] + rest)[1..] == rest;
  }

  lemma {:induction false} RunSnoc(w: World, steps: seq<Step>, last: Step, run: Run)
    requires IsRun(w, steps, run) && Possible(After(w, steps, run), last)
    ensures IsRun(w, steps + [last], run)
    ensures After(w, steps + [last], run) == Next(After(w, steps, run), last, run)
    decreases |steps|
  {
    hide Possible, Next;
    if steps == [] {
      assert steps + [last] == [last] && [last][1..] == [];
    } else {
      assert (steps + [last])[1..] == steps[1..] + [last];
      RunSnoc(Next(w, steps[0], run), steps[1..], last, run);
    }
  }

  // ---- Is a request that was answered one that had left? ----

  /** The step is an answer to a request that its connection owes. */
  predicate AnswersOn(c: ConnView, step: Step) {
    step.Received? && c.active && (step.rx.Response? || (step.rx.Eof? && step.rx.complete))
  }

  ghost predicate Answers(w: World, step: Step)
    requires Possible(w, step)
  {
    !step.Deadline? && AnswersOn(w.conns[step.i], step)
  }

  lemma AnswersCount(w: World, step: Step, run: Run)
    requires Possible(w, step)
    ensures Next(w, step, run).ledger.tally.completed == w.ledger.tally.completed + if Answers(w, step) then 1 else 0
  {
    hide Queue, Flush, Sent;
  }

  /** Every answer the run counts finds all the requests of its connection, the
      one answered included, whole on the wire. */
  ghost predicate AnsweredHadLeft(w: World, steps: seq<Step>, run: Run)
    requires IsRun(w, steps, run)
    decreases |steps|
  {
    steps == [] ||
    (&& (Answers(w, steps[0]) ==>
           w.conns[steps[0].i].trace.wire == Copies(run.request, w.conns[steps[0].i].trace.begun))
     && AnsweredHadLeft(Next(w, steps[0], run), steps[1..], run))
  }

  /** No answer is counted on a connection that is still sending. */
  ghost predicate NoneEarly(w: World, steps: seq<Step>, run: Run)
    requires IsRun(w, steps, run)
    decreases |steps|
  {
    steps == [] ||
    (&& (Answers(w, steps[0]) ==> !w.conns[steps[0].i].sending)
     && NoneEarly(Next(w, steps[0], run), steps[1..], run))
  }

  /** No request is waiting, and none was ever folded. */
  ghost predicate Unfolded(w: World) {
    forall i :: 0 <= i < |w.conns| ==> !w.conns[i].queued && w.conns[i].trace.folded == 0
  }

  lemma SentUnfolded(c: ConnView, n: nat, run: Run, cipher: Bytes)
    requires n <= |c.trace.flight| && !c.queued && c.trace.folded == 0
    ensures var c' := Sent(c, n, run, cipher); !c'.queued && c'.trace.folded == 0
  {
  }

  lemma NothingOut(c: ConnView, run: Run)
    requires WireOk(c, run) && !c.connected
    ensures !c.sending
  {
    hide Copies;
  }

  lemma FinishUnfolded(c: ConnView, l: Ledger, keep: bool, run: Run, stop: bool, cipher: Bytes)
    requires !c.queued && c.trace.folded == 0
    requires keep && !stop && run.budget.MayStart(l.started) ==> !c.sending
    ensures var c' := Finish(c, l, keep, run, stop, cipher).0; !c'.queued && c'.trace.folded == 0
  {
  }

  lemma StepUnfolded(w: World, step: Step, run: Run)
    requires WorldOk(w, run) && Possible(w, step) && Unfolded(w)
    requires Answers(w, step) ==> !w.conns[step.i].sending
    ensures Unfolded(Next(w, step, run))
  {
    hide Sent, PlainOk, CipherOk, Finish, LedgerOk;
    if !step.Deadline? {
      var c, l := w.conns[step.i], w.ledger;
      match step {
        case Connect(_, _) => NothingOut(c, run);
        case ConnectError(_) =>
          FinishUnfolded(c.(dialing := false), l.(tally := l.tally.ConnectFailure()), false, run, w.stop, []);
        case SendDone(_, n, cipher) => SentUnfolded(c, n, run, cipher);
        case SendError(_) =>
          var (c', l') := FailRequest(c, l);
          FinishUnfolded(c', l', false, run, w.stop, []);
        case Received(_, rx, cipher) => ReceiveUnfolded(w, step, run);
        case Timeout(_) =>
      }
    }
  }

  lemma ReceiveUnfolded(w: World, step: Step, run: Run)
    requires WorldOk(w, run) && Possible(w, step) && Unfolded(w) && step.Received?
    requires Answers(w, step) ==> !w.conns[step.i].sending
    ensures var c' := Receive(w.conns[step.i], w.ledger, step.rx, run, w.stop, step.cipher).0;
            !c'.queued && c'.trace.folded == 0
  {
    hide ConnOk, Finish, LedgerOk;
    var c, l := w.conns[step.i], w.ledger;
    match step.rx {
      case NoBuffers =>
      case Partial =>
      case Eof(_, _, _) =>
        var (c', l') := FinishAtEof(c, l, step.rx);
        FinishUnfolded(c', l', false, run, w.stop, step.cipher);
      case Response(status, latency, keepAlive) =>
        var l' := if c.active then l.(tally := l.tally.Success(status, latency)) else l;
        FinishUnfolded(c, l', keepAlive, run, w.stop, step.cipher);
      case _ =>
        var (c', l') := FailRequest(c, l);
        FinishUnfolded(c', l', false, run, w.stop, step.cipher);
    }
  }

  /** In a plaintext run, every request answered had left whole exactly when no
      answer came while its connection was still sending. */
  lemma {:induction false} HadLeftExactlyWhen(w: World, steps: seq<Step>, run: Run)
    requires WorldOk(w, run) && IsRun(w, steps, run) && Unfolded(w)
    requires !run.tls
    ensures AnsweredHadLeft(w, steps, run) <==> NoneEarly(w, steps, run)
    decreases |steps|
  {
    if steps != [] {
      hide WorldOk, Next, Possible, Unfolded;
      var step := steps[0];
      var w' := Next(w, step, run);
      NextKeeps(w, step, run);
      AnswerLeft(w, step, run);
      if Answers(w, step) ==> !w.conns[step.i].sending {
        StepUnfolded(w, step, run);
        HadLeftExactlyWhen(w', steps[1..], run);
      }
    }
  }

  lemma NothingToSend(c: ConnView, run: Run)
    requires WireOk(c, run) && !run.tls && run.request == []
    ensures !c.sending && c.trace.wire == Copies(run.request, c.trace.begun)
  {
    CopiesLength([], c.trace.whole);
    CopiesLength([], c.trace.begun);
  }

  lemma AnswerLeft(w: World, step: Step, run: Run)
    requires WorldOk(w, run) && Possible(w, step) && Unfolded(w) && !run.tls
    ensures Answers(w, step) ==>
              (w.conns[step.i].trace.wire == Copies(run.request, w.conns[step.i].trace.begun)
               <==> !w.conns[step.i].sending)
  {
    hide WireOk;
    if Answers(w, step) {
      if run.request == [] {
        NothingToSend(w.conns[step.i], run);
      } else {
        AllLeftExactlyWhen(w.conns[step.i], run);
      }
    }
  }

  lemma LeftExactlyWhen(connections: nat, steps: seq<Step>, run: Run)
    requires IsRun(Start(connections, run), steps, run) && !run.tls
    ensures AnsweredHadLeft(Start(connections, run), steps, run) <==> NoneEarly(Start(connections, run), steps, run)
  {
    StartOk(connections, run);
    assert Unfolded(Start(connections, run));
    hide WorldOk, Start;
    HadLeftExactlyWhen(Start(connections, run), steps, run);
  }

  /** A response is believed whether or not its request has left. A server
      that answers three times before reading meets a budget of three with
      nothing sent, and only two of the requests have a place on the wire. */
  lemma AnsweredUnsent(request: Bytes) returns (steps: seq<Step>)
    requires request != []
    ensures var run := Run(Requests(3), request, false, false);
            && IsRun(Start(1, run), steps, run)
            && var w := After(Start(1, run), steps, run);
               && |w.conns| == 1 && w.ledger.tally.completed == 3 && run.budget.IsMet(w.ledger.tally.Finished())
               && w.conns[0].trace.wire == [] && w.conns[0].trace.begun == 3 && Carried(w.conns[0]) == 2
  {
    var run := Run(Requests(3), request, false, false);
    var connect, answer := Connect(0, []), Received(0, Response(200, 0, true), []);
    var w0 := Start(1, run);
    var w1 := Next(w0, connect, run);
    var c1 := ConnView(false, true, true, false, true, false, 0, [], Trace(request, 1, [], [], 0, 1, 0));
    assert w1.conns == [c1] && w1.ledger.started == 1 by {
      assert request[0..] == request;
    }
    var w2 := Next(w1, answer, run);
    assert w2.conns == [c1.(queued := true, trace := c1.trace.(begun := 2))] && w2.ledger.started == 2;
    var w3 := Next(w2, answer, run);
    assert w3.conns == [c1.(queued := true, trace := c1.trace.(begun := 3, folded := 1))] && w3.ledger.started == 3;
    var w4 := Next(w3, answer, run);
    assert w4.conns == [c1.(active := false, queued := true, trace := c1.trace.(begun := 3, folded := 1))];
    RunNothing(w0, run);
    hide Possible, Next;
    RunSnoc(w0, [], connect, run);
    RunSnoc(w0, [] + [connect], answer, run);
    RunSnoc(w0, [] + [connect] + [answer], answer, run);
    RunSnoc(w0, [] + [connect] + [answer] + [answer], answer, run);
    steps := [] + [connect] + [answer] + [answer] + [answer];
  }
}
