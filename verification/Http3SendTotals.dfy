/**
 Two things about whole runs of the HTTP/3 send queues: the bytes counted are
 those the completions reported, and no datagram waits while nothing is out.
 */
module Http3SendTotals {
  import opened Http3Sends

  // ---- Bytes ----

  /** What a completion reports as sent: its result, unless that is an error. */
  function BytesOf(step: Step): nat {
    if (step.Completion? || step.FinalCompletion?) && step.res > 0 then step.res else 0
  }

  function TotalBytes(steps: seq<Step>): nat
    decreases |steps|
  {
    if steps == [] then 0 else BytesOf(steps[0]) + TotalBytes(steps[1..])
  }

  lemma NextBytes(w: Wire, step: Step)
    requires Possible(w, step)
    ensures Next(w, step).credited == w.credited + BytesOf(step)
  {
  }

  lemma {:induction false} RunBytes(w: Wire, steps: seq<Step>)
    requires IsRun(w, steps)
    ensures Run(w, steps).credited == w.credited + TotalBytes(steps)
    decreases |steps|
  {
    hide Next, Possible, Closes, Unwrapped;
    if steps != [] {
      NextBytes(w, steps[0]);
      RunBytes(Next(w, steps[0]), steps[1..]);
    }
  }

  /** Over a whole run, the bytes counted as sent are the sum of what the
      completions reported, each once, of this generation or an older one. */
  lemma BytesAreReported(connections: nat, steps: seq<Step>)
    requires IsRun(Start(connections), steps)
    ensures Run(Start(connections), steps).bytesSent == TotalBytes(steps)
  {
    hide IsRun, Run, TotalBytes;
    SendsSafe(connections, steps);
    RunBytes(Start(connections), steps);
  }

  // ---- Nothing waits for nothing ----

  /** A connection with something to send has a send out. */
  predicate Busy(c: SendConn) {
    c.outQueue != [] ==> c.sending
  }

  ghost predicate AllBusy(w: Wire) {
    forall i :: 0 <= i < |w.conns| ==> Busy(w.conns[i])
  }

  ghost predicate OthersBusy(w: Wire, i: nat) {
    forall j :: 0 <= j < |w.conns| && j != i ==> Busy(w.conns[j])
  }

  lemma PushFrontBusy(w: Wire, i: nat)
    requires OthersBusy(w, i) && i < |w.conns|
    ensures AllBusy(PushFront(w, i))
  {
  }

  lemma PumpBusy(w: Wire, i: nat, batch: seq<Datagram>)
    requires OthersBusy(w, i) && i < |w.conns|
    ensures AllBusy(Pump(w, i, batch))
  {
    hide PushFront;
    var c := w.conns[i];
    PushFrontBusy(w.(conns := w.conns[i := c.(outQueue := c.outQueue + batch, pumped := c.pumped + batch)]), i);
  }

  lemma FinishCloseBusy(w: Wire, i: nat, flight: seq<Datagram>)
    requires OthersBusy(w, i) && i < |w.conns|
    ensures AllBusy(FinishClose(w, i, flight))
  {
    hide Pump;
    PumpBusy(Close(w, i), i, flight);
  }

  lemma BeginCloseBusy(w: Wire, i: nat, flight: seq<Datagram>)
    requires OthersBusy(w, i) && i < |w.conns|
    ensures AllBusy(BeginClose(w, i, flight))
  {
    hide FinishClose;
    FinishCloseBusy(w.(conns := w.conns[i := w.conns[i].(closing := true)]), i, flight);
  }

  lemma CurrentBusy(w: Wire, i: nat, res: int, flight: seq<Datagram>)
    requires OthersBusy(w, i) && i < |w.conns|
    ensures AllBusy(CompleteCurrent(w, i, res, flight))
  {
    hide BeginClose, PushFront;
    var c := w.conns[i].(sending := false);
    var w1 := w.(conns := w.conns[i := Popped(c)], bytesSent := w.bytesSent + Positive(res));
    PushFrontKeeps(w1, i);
    PushFrontBusy(w1, i);
    BeginCloseBusy(w.(conns := w.conns[i := c]), i, flight);
    BeginCloseBusy(PushFront(w1, i), i, flight);
  }

  lemma NextBusy(w: Wire, step: Step)
    requires Possible(w, step) && AllBusy(w) && !step.FinalCompletion?
    ensures AllBusy(Next(w, step))
  {
    hide Pump, BeginClose, FinishClose, CompleteCurrent;
    match step {
      case Transmit(i, batch) => PumpBusy(w, i, batch);
      case Completion(tag, res, flight) => CurrentBusy(Reap(w, tag, res), tag.conn, res, flight);
      case GiveUp(i, flight) => BeginCloseBusy(w, i, flight);
      case GraceOver(i, flight) => FinishCloseBusy(w, i, flight);
    }
  }

  lemma {:induction false} RunBusy(w: Wire, steps: seq<Step>)
    requires IsRun(w, steps) && AllBusy(w)
    requires forall k :: 0 <= k < |steps| ==> !steps[k].FinalCompletion?
    ensures AllBusy(Run(w, steps))
    decreases |steps|
  {
    hide Next, Possible, Closes, Unwrapped, AllBusy;
    if steps != [] {
      NextBusy(w, steps[0]);
      RunBusy(Next(w, steps[0]), steps[1..]);
    }
  }

  /** Until the run is over, a connection has a send out exactly if it has
      something to send, so no queue waits for a completion that will not come. */
  lemma NeverStalls(connections: nat, steps: seq<Step>, i: nat)
    requires IsRun(Start(connections), steps) && i < connections
    requires forall k :: 0 <= k < |steps| ==> !steps[k].FinalCompletion?
    ensures var w := Run(Start(connections), steps);
            i < |w.conns| && (w.conns[i].sending <==> w.conns[i].outQueue != [])
  {
    var w := Start(connections);
    StartSafe(connections);
    assert AllBusy(w) && |w.conns| == connections;
    hide Start, IsRun, Run, Kept, NoMore, Boxed, AllInOrder, Distinct, Counted;
    RunSafe(w, steps);
    SameSlots(w, steps);
    RunBusy(w, steps);
  }
}
