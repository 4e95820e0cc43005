/**
 What the HTTP/1.1 worker reports, read off the steps of its run: the answers
 with their statuses and latencies, the errors, and the bytes sent.
 */
module Http1Results {
  import opened Statistics
  import opened Http1Accounting

  // ---- One step ----

  /** The step costs a request that is owed its answer. */
  predicate FailsOn(c: ConnView, step: Step) {
    c.active &&
    (|| step.SendError? || step.Timeout?
     || (step.Received? && (step.rx.ReceiveError? || step.rx.Malformed? || (step.rx.Eof? && !step.rx.complete))))
  }

  lemma FinishCounts(c: ConnView, l: Ledger, keep: bool, run: Run, stop: bool, cipher: Bytes)
    ensures Finish(c, l, keep, run, stop, cipher).1.tally == l.tally
  {
  }

  /** What one step adds to the report, and nothing else does: an answer its
      status and its latency, a lost request one error, a failed connect one of
      each kind of error, and a finished send its bytes. */
  lemma StepReports(c: ConnView, l: Ledger, step: Step, run: Run, stop: bool)
    requires !step.Deadline? && (step.SendDone? ==> step.n <= |c.trace.flight|)
    ensures var t, t' := l.tally, StepConn(c, l, step, run, stop).1.tally;
            && t'.completed == t.completed + (if AnswersOn(c, step) then 1 else 0)
            && t'.statusCounts == (if AnswersOn(c, step)
                                   then t.statusCounts[step.rx.status := t.statusCounts[step.rx.status] + 1]
                                   else t.statusCounts)
            && t'.latencies == t.latencies + (if AnswersOn(c, step) then [step.rx.latency] else [])
            && t'.errors == t.errors + (if FailsOn(c, step) || step.ConnectError? then 1 else 0)
            && t'.connectErrors == t.connectErrors + (if step.ConnectError? then 1 else 0)
            && t'.bytesSent == t.bytesSent + (if step.SendDone? then step.n else 0)
            && t'.bytesReceived == t.bytesReceived
  {
    hide Finish, QueueAndFlush, Flush, Sent;
    match step {
      case ConnectError(_) =>
        FinishCounts(c.(dialing := false), l.(tally := l.tally.ConnectFailure()), false, run, stop, []);
      case SendError(_) =>
        var (c', l') := FailRequest(c, l);
        FinishCounts(c', l', false, run, stop, []);
      case Received(_, rx, cipher) =>
        ReceiveReports(c, l, rx, run, stop, cipher);
      case _ =>
    }
  }

  lemma ReceiveReports(c: ConnView, l: Ledger, rx: Receipt, run: Run, stop: bool, cipher: Bytes)
    ensures Receive(c, l, rx, run, stop, cipher).1.tally ==
              if !c.active || rx.NoBuffers? || rx.Partial? then l.tally
              else if rx.Response? || (rx.Eof? && rx.complete) then l.tally.Success(rx.status, rx.latency)
              else l.tally.Failures(1)
  {
    hide Finish, Flush;
    match rx {
      case Eof(_, _, _) =>
        var (c', l') := FinishAtEof(c, l, rx);
        FinishCounts(c', l', false, run, stop, cipher);
      case Response(status, latency, keepAlive) =>
        FinishCounts(c, if c.active then l.(tally := l.tally.Success(status, latency)) else l, keepAlive, run, stop, cipher);
      case ReceiveError =>
        var (c', l') := FailRequest(c, l);
        FinishCounts(c', l', false, run, stop, cipher);
      case Malformed =>
        var (c', l') := FailRequest(c, l);
        FinishCounts(c', l', false, run, stop, cipher);
      case _ =>
    }
  }

  // ---- A run ----

  datatype Answer = Answer(status: Status, latency: nat)

  /** The answers of a run, in the order they came. */
  ghost function Answered(w: World, steps: seq<Step>, run: Run): seq<Answer>
    requires IsRun(w, steps, run)
    decreases |steps|
  {
    if steps == [] then [] else AnswerOf(w, steps[0]) + Answered(Next(w, steps[0], run), steps[1..], run)
  }

  ghost function AnswerOf(w: World, step: Step): seq<Answer>
    requires Possible(w, step)
  {
    if Answers(w, step) then [Answer(step.rx.status, step.rx.latency)] else []
  }

  /** How often a request was lost, or a connect failed, during a run. */
  ghost function Lost(w: World, steps: seq<Step>, run: Run): nat
    requires IsRun(w, steps, run)
    decreases |steps|
  {
    if steps == [] then 0 else LostBy(w, steps[0]) + Lost(Next(w, steps[0], run), steps[1..], run)
  }

  ghost function LostBy(w: World, step: Step): nat
    requires Possible(w, step)
  {
    if !step.Deadline? && (FailsOn(w.conns[step.i], step) || step.ConnectError?) then 1 else 0
  }

  function SentBytes(steps: seq<Step>): nat
    decreases |steps|
  {
    if steps == [] then 0 else (if steps[0].SendDone? then steps[0].n else 0) + SentBytes(steps[1..])
  }

  function Latencies(answers: seq<Answer>): seq<nat>
    decreases |answers|
  {
    if answers == [] then [] else [answers[0].latency] + Latencies(answers[1..])
  }

  /** How many of the answers had this status. */
  function WithStatus(answers: seq<Answer>, status: Status): nat
    decreases |answers|
  {
    if answers == [] then 0 else (if answers[0].status == status then 1 else 0) + WithStatus(answers[1..], status)
  }

  /** The tally is the one before it with so much more in it. */
  ghost predicate Reported(t: Tally, t': Tally, answers: seq<Answer>, lost: nat, sent: nat) {
    && t'.completed == t.completed + |answers|
    && t'.latencies == t.latencies + Latencies(answers)
    && (forall status: Status :: t'.statusCounts[status] == t.statusCounts[status] + WithStatus(answers, status))
    && t'.errors == t.errors + lost
    && t'.bytesSent == t.bytesSent + sent
  }

  lemma FirstLatency(a: Answer, rest: seq<Answer>)
    ensures Latencies([a] + rest) == [a.latency] + Latencies(rest) && Latencies([a]) == [a.latency]
  {
    assert ([a] + rest)[1..] == rest && [a][1..] == [];
  }

  lemma FirstStatus(a: Answer, rest: seq<Answer>, status: Status)
    ensures WithStatus([a] + rest, status) == WithStatus([a], status) + WithStatus(rest, status)
    ensures WithStatus([a], status) == if a.status == status then 1 else 0
  {
    assert ([a] + rest)[1..] == rest && [a][1..] == [];
  }

  lemma ReportedNext(t: Tally, t1: Tally, t': Tally, first: seq<Answer>, rest: seq<Answer>,
                     lost: nat, lostAfter: nat, sent: nat, sentAfter: nat)
    requires |first| <= 1
    requires Reported(t, t1, first, lost, sent) && Reported(t1, t', rest, lostAfter, sentAfter)
    ensures Reported(t, t', first + rest, lost + lostAfter, sent + sentAfter)
  {
    if first == [] {
      assert first + rest == rest;
    } else {
      assert first == [first[0]];
      FirstLatency(first[0], rest);
      forall status: Status {
        FirstStatus(first[0], rest, status);
      }
    }
  }

  lemma NextReports(w: World, step: Step, run: Run)
    requires Possible(w, step)
    ensures Reported(w.ledger.tally, Next(w, step, run).ledger.tally,
                     AnswerOf(w, step), LostBy(w, step), SentBytes([step]))
  {
    hide StepConn;
    assert [step][1..] == [];
    if !step.Deadline? {
      StepReports(w.conns[step.i], w.ledger, step, run, w.stop);
      if Answers(w, step) {
        FirstLatency(Answer(step.rx.status, step.rx.latency), []);
        forall status: Status {
          FirstStatus(Answer(step.rx.status, step.rx.latency), [], status);
        }
      }
    }
  }

  /** The report of a run is its answers, in order, and what was lost: as many
      completed as there were answers, the samples their latencies, each row
      of the table the number that had its status, an error for every request
      lost and every failed connect, and the bytes of every finished send. */
  lemma {:induction false} RunReports(w: World, steps: seq<Step>, run: Run)
    requires IsRun(w, steps, run)
    ensures Reported(w.ledger.tally, After(w, steps, run).ledger.tally,
                     Answered(w, steps, run), Lost(w, steps, run), SentBytes(steps))
    decreases |steps|
  {
    if steps != [] {
      hide Next, Reported, AnswerOf, LostBy, Possible;
      var step := steps[0];
      var w1 := Next(w, step, run);
      RunReports(w1, steps[1..], run);
      NextReports(w, step, run);
      ReportedNext(w.ledger.tally, w1.ledger.tally, After(w, steps, run).ledger.tally,
                   AnswerOf(w, step), Answered(w1, steps[1..], run), LostBy(w, step), Lost(w1, steps[1..], run),
                   SentBytes([step]), SentBytes(steps[1..]));
      assert SentBytes(steps) == SentBytes([step]) + SentBytes(steps[1..]) by { assert [step][1..] == []; }
    }
  }

  // ---- What goes out ----

  /** The step puts the next request on this connection. */
  predicate PutsRequest(c: ConnView, l: Ledger, step: Step, run: Run, stop: bool) {
    || step.Connect?
    || (step.Received? && step.rx.Response? && step.rx.keepAlive && !stop && run.budget.MayStart(l.started))
  }

  /** The step ends the connection. */
  predicate Closes(step: Step) {
    || step.ConnectError? || step.SendError? || step.Timeout?
    || (step.Received? &&
        (step.rx.Eof? || step.rx.ReceiveError? || step.rx.Malformed? || (step.rx.Response? && !step.rx.keepAlive)))
  }

  /** The step finds the session with something it may send: no send is out, or
      the step completes the last of one. */
  predicate Drains(c: ConnView, l: Ledger, step: Step, run: Run, stop: bool) {
    || (step.Connect? && !c.sending)
    || (step.SendDone? && c.outOff + step.n >= |c.out|)
    || (step.Received? && !c.sending && (step.rx.Partial? || PutsRequest(c, l, step, run, stop)))
  }

  function CipherOf(step: Step): Bytes {
    if step.Connect? || step.SendDone? || step.Received? then step.cipher else []
  }

  /** From `c` to `c'` on one connection: it was given this request, or not, and
      this ciphertext was taken from its session. */
  ghost predicate Goes(c: ConnView, c': ConnView, run: Run, requests: bool, taken: Bytes) {
    && (!run.tls ==> c'.trace.begun == c.trace.begun + if requests then 1 else 0)
    && (run.tls ==> c'.trace.drained == c.trace.drained + taken)
  }

  /** In plaintext a request goes out, or waits its turn, for each that the
      connection is given; over TLS the session's ciphertext is taken whenever
      it can be sent, all of it, behind what was taken before. Nothing of one
      connection is left for the next in its slot. */
  lemma StepSends(c: ConnView, l: Ledger, step: Step, run: Run, stop: bool)
    requires !step.Deadline? && (step.SendDone? ==> step.n <= |c.trace.flight|)
    ensures var c' := StepConn(c, l, step, run, stop).0;
            if Closes(step) then c' == IDLE.(active := c'.active, timed := c'.timed, dialing := c'.dialing)
            else
              && c'.connected == (c.connected || step.Connect?)
              && Goes(c, c', run, PutsRequest(c, l, step, run, stop),
                      if Drains(c, l, step, run, stop) then CipherOf(step) else [])
  {
    hide QueueAndFlush, Sent, Receive, Finish;
    match step {
      case Connect(_, cipher) =>
        QueueAndFlushSends(Begin(c.(dialing := false, connected := true), run.timeout), run, cipher);
      case SendDone(_, n, cipher) => SentSends(c, n, run, cipher);
      case Received(_, rx, cipher) => ReceiveSends(c, l, step, run, stop);
      case ConnectError(_) =>
        FinishCloses(c.(dialing := false), l.(tally := l.tally.ConnectFailure()), run, stop, []);
      case SendError(_) =>
        var (c', l') := FailRequest(c, l);
        FinishCloses(c', l', run, stop, []);
      case _ =>
    }
  }

  lemma FinishCloses(c: ConnView, l: Ledger, run: Run, stop: bool, cipher: Bytes)
    ensures var c' := Finish(c, l, false, run, stop, cipher).0;
            c' == IDLE.(active := c'.active, timed := c'.timed, dialing := c'.dialing)
  {
  }

  /** The next request on a connection that is kept, if there is one. */
  lemma FinishSends(c: ConnView, l: Ledger, run: Run, stop: bool, cipher: Bytes)
    ensures var c' := Finish(c, l, true, run, stop, cipher).0;
            var more := !stop && run.budget.MayStart(l.started);
            c'.connected == c.connected && Goes(c, c', run, more, if more && !c.sending then cipher else [])
  {
    hide QueueAndFlush;
    QueueAndFlushSends(Begin(End(c), run.timeout), run, cipher);
  }

  lemma NothingGoes(c: ConnView, run: Run)
    ensures Goes(c, c, run, false, [])
  {
  }

  lemma ReceiveSends(c: ConnView, l: Ledger, step: Step, run: Run, stop: bool)
    requires step.Received?
    ensures var c' := Receive(c, l, step.rx, run, stop, step.cipher).0;
            if Closes(step) then c' == IDLE.(active := c'.active, timed := c'.timed, dialing := c'.dialing)
            else
              && c'.connected == c.connected
              && Goes(c, c', run, PutsRequest(c, l, step, run, stop),
                      if Drains(c, l, step, run, stop) then step.cipher else [])
  {
    hide Finish, Flush, Goes;
    var cipher := step.cipher;
    match step.rx {
      case NoBuffers => NothingGoes(c, run);
      case Partial => FlushSends(c, run, cipher);
      case Response(status, latency, keepAlive) =>
        var l' := if c.active then l.(tally := l.tally.Success(status, latency)) else l;
        FinishSends(c, l', run, stop, cipher);
        FinishCloses(c, l', run, stop, cipher);
      case Eof(_, _, _) =>
        var (c', l') := FinishAtEof(c, l, step.rx);
        FinishCloses(c', l', run, stop, cipher);
      case _ =>
        var (c', l') := FailRequest(c, l);
        FinishCloses(c', l', run, stop, cipher);
    }
  }

  lemma SentSends(c: ConnView, n: nat, run: Run, cipher: Bytes)
    requires n <= |c.trace.flight|
    ensures var c' := Sent(c, n, run, cipher);
            && c'.connected == c.connected
            && Goes(c, c', run, false, if c.outOff + n >= |c.out| then cipher else [])
  {
    hide Flush;
    var c1 := c.(outOff := c.outOff + n, sending := false, trace := c.trace.Took(n));
    FlushSends(c1, run, cipher);
    FlushSends(c1.(queued := false, outOff := 0, trace := c1.trace.Rewind()), run, cipher);
  }

  lemma QueueAndFlushSends(c: ConnView, run: Run, cipher: Bytes)
    ensures var c' := QueueAndFlush(c, run, cipher);
            c'.connected == c.connected && Goes(c, c', run, true, if c.sending then [] else cipher)
  {
    hide Queue, Flush;
    QueueSends(c, run);
    FlushSends(Queue(c, run), run, cipher);
  }

  lemma QueueSends(c: ConnView, run: Run)
    ensures var c' := Queue(c, run);
            && c'.connected == c.connected && c'.sending == c.sending && c'.trace.drained == c.trace.drained
            && c'.trace.begun == c.trace.begun + (if run.tls then 0 else 1)
  {
  }

  lemma FlushSends(c: ConnView, run: Run, cipher: Bytes)
    ensures var c' := Flush(c, run, cipher);
            c'.connected == c.connected && Goes(c, c', run, false, if c.sending then [] else cipher)
  {
  }

  // ---- Deadlines ----

  /** A request whose response did not come in time is one error, and its
      connection goes; the next request, if there is one, waits for a new
      connection with no deadline of its own. */
  lemma TimedOutStartsOver(c: ConnView, l: Ledger, i: nat, run: Run, stop: bool)
    requires c.active
    ensures var (c', l') := StepConn(c, l, Timeout(i), run, stop);
            var more := !stop && run.budget.MayStart(l.started);
            && c' == IDLE.(active := more, dialing := more)
            && l'.started == l.started + (if more then 1 else 0)
            && l'.tally.errors == l.tally.errors + 1 && l'.tally.completed == l.tally.completed
  {
  }

  /** It stays as it is until its own connect ends: up, it is given the
      deadline of the run; failed, the next request is given it at once. */
  lemma UntimedUntilUp(w: World, step: Step, run: Run, i: nat)
    requires WorldOk(w, run) && Possible(w, step)
    requires i < |w.conns| && w.conns[i].dialing && !w.conns[i].timed
    ensures var c' := Next(w, step, run).conns[i];
            if !step.Deadline? && step.i == i && step.Connect? then
              c'.connected && c'.active && !c'.dialing && (c'.timed <==> run.timeout)
            else if !step.Deadline? && step.i == i && step.ConnectError? then
              !c'.connected && (c'.timed <==> c'.active && run.timeout)
            else c' == w.conns[i]
  {
    hide WireOk, Finish, QueueAndFlush;
    if !step.Deadline? && step.i == i {
      var c := w.conns[i];
      NothingOut(c, run);
      match step {
        case Connect(_, cipher) =>
          QueueAndFlushSame(Begin(c.(dialing := false, connected := true), run.timeout), run, cipher);
        case ConnectError(_) =>
          FinishActive(c.(dialing := false), w.ledger.(tally := w.ledger.tally.ConnectFailure()), false, run, w.stop, []);
        case _ =>
      }
    }
  }
}
