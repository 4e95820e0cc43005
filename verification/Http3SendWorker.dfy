/**
 The HTTP/3 worker's send queues, updated in place.

 Each method is proved to compute the function of the same meaning in
 `Http3Sends`. The ghost fields are the kernel's side.
 */
module Http3SendWorker {
  import opened Wrappers
  import opened Http3Sends
  import opened Http3SendTotals

  class Conn {
    /** What is to be sent; the kernel has the first of it while `sending`. */
    var outQueue: seq<Datagram>
    var sending: bool
    var generation: nat
    var closing: bool
    /** Where this connection writes its message headers. */
    var box: nat
    ghost var pumped: seq<Datagram>
    ghost var handed: seq<Datagram>

    constructor (box: nat)
      ensures View() == QUIET.(box := box)
    {
      outQueue, sending, generation, closing, this.box := [], false, 0, false, box;
      pumped, handed := [], [];
    }

    ghost function View(): SendConn
      reads this
    {
      SendConn(outQueue, sending, generation, closing, box, pumped, handed)
    }

    /** Drop the first datagram, which the kernel is done with. */
    method Recycle()
      modifies this
      ensures View() == Popped(old(View()))
    {
      if outQueue != [] {
        outQueue := outQueue[1..];
      }
    }
  }

  class Worker {
    const conns: seq<Conn>
    /** Sends outliving their connection. */
    var retired: seq<Retired>
    var bytesSent: nat
    /** Boxes ever allocated. */
    var boxes: nat
    ghost var kernel: map<Tag, Sent>
    ghost var submitted: nat
    ghost var reaped: nat
    ghost var credited: nat

    constructor (connections: nat)
      ensures Valid() && State() == Start(connections)
      ensures fresh(conns)
    {
      var made: seq<Conn> := [];
      for i := 0 to connections
        invariant |made| == i
        invariant forall k :: 0 <= k < i ==> fresh(made[k]) && made[k].View() == QUIET.(box := k)
        invariant forall j, k :: 0 <= j < k < i ==> made[j] != made[k]
      {
        var conn := new Conn(i);
        made := made + [conn];
      }
      conns, retired, bytesSent, boxes := made, [], 0, connections;
      kernel, submitted, reaped, credited := map[], 0, 0, 0;
    }

    ghost predicate Valid()
      reads this
    {
      forall i, j :: 0 <= i < j < |conns| ==> conns[i] != conns[j]
    }

    ghost function State(): Wire
      reads this, conns
    {
      Wire(seq(|conns|, i requires 0 <= i < |conns| reads this, conns => conns[i].View()),
           retired, kernel, boxes, bytesSent, submitted, reaped, credited)
    }

    /** Give the kernel the first datagram, which stays first in the queue. */
    method PushFrontSend(i: nat)
      requires Valid() && i < |conns|
      modifies this, conns[i]
      ensures Valid() && State() == PushFront(old(State()), i)
      ensures conns[i].outQueue == old(conns[i].outQueue) && conns[i].closing == old(conns[i].closing)
      ensures conns[i].sending <==> old(conns[i].sending) || conns[i].outQueue != []
      ensures old(Safe(State()) && !conns[i].sending) ==>
                Safe(State()) && (conns[i].sending <==> old(conns[i].outQueue) != [])
    {
      hide Safe;
      if Safe(State()) && !conns[i].sending {
        PushFrontSafe(State(), i);
      }
      var conn := conns[i];
      if conn.outQueue == [] {
        return;
      }
      conn.sending := true;
      conn.handed := conn.handed + [conn.outQueue[0]];
      kernel := kernel[Tag(i, conn.generation) := Given(conn.outQueue[0], conn.box)];
      submitted := submitted + 1;
    }

    /** Every entry of the batch is queued, and a send is out if there is one. */
    method PumpTransmits(i: nat, batch: seq<Datagram>)
      requires Valid() && i < |conns|
      modifies this, conns[i]
      ensures Valid() && State() == Pump(old(State()), i, batch)
      ensures conns[i].outQueue == old(conns[i].outQueue) + batch
      ensures conns[i].sending <==> old(conns[i].sending) || conns[i].outQueue != []
      ensures conns[i].closing == old(conns[i].closing)
    {
      hide Safe;
      conns[i].outQueue := conns[i].outQueue + batch;
      conns[i].pumped := conns[i].pumped + batch;
      if !conns[i].sending {
        assert State() == old(State()).(conns := old(State()).conns[i := conns[i].View()]);
        PushFrontSend(i);
      }
    }

    /** Retain the datagram in flight, which is enough exactly if the new
        generation is not one the kernel is still using. */
    method CloseConn(i: nat)
      requires Valid() && i < |conns|
      modifies this, conns[i]
      ensures Valid() && State() == Close(old(State()), i) && kernel == old(kernel)
      ensures conns[i].outQueue == [] && !conns[i].sending && !conns[i].closing
      ensures old(Safe(State())) ==> (Safe(State()) <==> old(Unwrapped(State(), i)))
    {
      hide Safe, Unwrapped;
      if Safe(State()) {
        CloseSafeExactlyWhen(State(), i);
      }
      var conn := conns[i];
      if conn.sending && conn.outQueue != [] {
        retired := retired + [Retired(Tag(i, conn.generation), conn.outQueue[0], conn.box)];
        conn.box, boxes := boxes, boxes + 1;
      }
      conn.outQueue, conn.sending, conn.closing := [], false, false;
      conn.generation := NextGeneration(conn.generation);
      conn.pumped, conn.handed := [], [];
    }

    method FinishCloseConn(i: nat, flight: seq<Datagram>)
      requires Valid() && i < |conns|
      modifies this, conns[i]
      ensures Valid() && State() == FinishClose(old(State()), i, flight)
      ensures conns[i].outQueue == flight && (conns[i].sending <==> flight != []) && !conns[i].closing
    {
      hide Safe, Close, Pump;
      CloseConn(i);
      PumpTransmits(i, flight);
    }

    method BeginCloseConn(i: nat, flight: seq<Datagram>)
      requires Valid() && i < |conns|
      modifies this, conns[i]
      ensures Valid() && State() == BeginClose(old(State()), i, flight)
    {
      conns[i].closing := true;
      assert State() == old(State()).(conns := old(State()).conns[i := conns[i].View()]);
      if !conns[i].sending {
        FinishCloseConn(i, flight);
      }
    }

    /** Where the send with a tag is retained, if it is. */
    method FindRetired(tag: Tag) returns (r: Option<nat>)
      ensures r == Find(retired, tag)
      ensures r.Some? ==> r.value < |retired| && retired[r.value].tag == tag
    {
      FindIs(retired, tag);
      for k := 0 to |retired|
        invariant Find(retired, tag) == match Find(retired[k..], tag) case None => None case Some(j) => Some(k + j)
      {
        assert retired[k..][0] == retired[k] && retired[k..][1..] == retired[k + 1..];
        if retired[k].tag == tag {
          return Some(k);
        }
      }
      r := None;
    }

    /** Only the retained operation owns these bytes. */
    method CompleteRetiredSend(tag: Tag, res: int)
      requires Valid()
      modifies this`retired, this`bytesSent
      ensures Valid() && State() == CompleteRetired(old(State()), tag, res)
    {
      hide Find;
      var k := FindRetired(tag);
      if k.Some? {
        var last := |retired| - 1;
        retired := if k.value == last then retired[..last] else retired[..last][k.value := retired[last]];
        if res > 0 {
          bytesSent := bytesSent + res;
        }
      }
    }

    /** A send completion during the run: what the kernel still has stays where
        it is and the result is counted once, exactly if no connection closes
        onto a generation still in use. */
    method OnSend(tag: Tag, res: int, flight: seq<Datagram>)
      requires Valid() && tag.conn < |conns|
      modifies this, conns[tag.conn]
      ensures Valid() && State() == Complete(old(State()), tag, res, flight)
      ensures old(Safe(State()) && tag in kernel) ==>
                && (Safe(State()) <==> old(Closes(State(), Completion(tag, res, flight)) ==> Unwrapped(State(), tag.conn)))
                && (Safe(State()) ==> bytesSent == old(bytesSent) + Positive(res))
    {
      hide CompleteCurrent, CompleteRetired, Safe, Closes, Unwrapped;
      ghost var was := State();
      SendIs(was, tag, res, flight);
      TakeSend(tag, res, flight);
    }

    method TakeSend(tag: Tag, res: int, flight: seq<Datagram>)
      requires Valid() && tag.conn < |conns|
      modifies this, conns[tag.conn]
      ensures Valid() && State() == Complete(old(State()), tag, res, flight)
    {
      hide CompleteCurrent, CompleteRetired;
      kernel, reaped, credited := kernel - {tag}, reaped + 1, credited + Positive(res);
      assert State() == Reap(old(State()), tag, res);
      var i := tag.conn;
      if tag.generation != conns[i].generation {
        CompleteRetiredSend(tag, res);
        return;
      }
      OnCurrentSend(i, res, flight);
    }

    method OnCurrentSend(i: nat, res: int, flight: seq<Datagram>)
      requires Valid() && i < |conns|
      modifies this, conns[i]
      ensures Valid() && State() == CompleteCurrent(old(State()), i, res, flight)
    {
      hide Safe, Unwrapped, BeginClose, PushFront;
      if res < 0 && res != -EMSGSIZE {
        conns[i].sending := false;
        assert State() == old(State()).(conns := old(State()).conns[i := old(State()).conns[i].(sending := false)]);
        BeginCloseConn(i, flight);
        return;
      }
      PushFrontKeeps(old(State()).(conns := old(State()).conns[i := Popped(old(State()).conns[i].(sending := false))],
                                   bytesSent := bytesSent + Positive(res)), i);
      SendNext(i, res);
      if conns[i].closing && !conns[i].sending {
        BeginCloseConn(i, flight);
      }
    }

    /** Count what was sent, retire its datagram and submit the next. */
    method SendNext(i: nat, res: int)
      requires Valid() && i < |conns|
      modifies this, conns[i]
      ensures Valid()
      ensures var w, c := old(State()), Popped(old(conns[i].View()).(sending := false));
              State() == PushFront(w.(conns := w.conns[i := c], bytesSent := w.bytesSent + Positive(res)), i)
    {
      hide Safe, PushFront, Popped;
      ghost var w := State();
      conns[i].sending := false;
      bytesSent := bytesSent + Positive(res);
      conns[i].Recycle();
      assert State() == w.(conns := w.conns[i := Popped(w.conns[i].(sending := false))], bytesSent := bytesSent);
      PushFrontSend(i);
    }

    /** A send completion after the run: counted once, and nothing started. */
    method OnFinalSend(tag: Tag, res: int)
      requires Valid() && tag.conn < |conns|
      modifies this, conns[tag.conn]
      ensures Valid() && State() == FinalComplete(old(State()), tag, res)
      ensures old(Safe(State()) && tag in kernel) ==>
                Safe(State()) && kernel == old(kernel) - {tag} && bytesSent == old(bytesSent) + Positive(res)
    {
      hide FinalComplete, Safe;
      FinalSendIs(State(), tag, res);
      TakeFinalSend(tag, res);
    }

    method TakeFinalSend(tag: Tag, res: int)
      requires Valid() && tag.conn < |conns|
      modifies this, conns[tag.conn]
      ensures Valid() && State() == FinalComplete(old(State()), tag, res)
    {
      hide CompleteRetired;
      kernel, reaped, credited := kernel - {tag}, reaped + 1, credited + Positive(res);
      assert State() == Reap(old(State()), tag, res);
      var conn := conns[tag.conn];
      if tag.generation != conn.generation {
        CompleteRetiredSend(tag, res);
      } else if conn.sending {
        if res > 0 {
          bytesSent := bytesSent + res;
        }
        conn.sending := false;
        conn.Recycle();
      }
    }

    method Take(step: Step)
      requires Valid() && Possible(State(), step)
      modifies this, conns
      ensures Valid() && State() == Next(old(State()), step)
    {
      hide Pump, BeginClose, FinishClose, Complete, FinalComplete;
      match step {
        case Transmit(i, batch) => PumpTransmits(i, batch);
        case Completion(tag, res, flight) => OnSend(tag, res, flight);
        case GiveUp(i, flight) => BeginCloseConn(i, flight);
        case GraceOver(i, flight) => FinishCloseConn(i, flight);
        case FinalCompletion(tag, res) => OnFinalSend(tag, res);
      }
    }
  }

  lemma SendIs(w: Wire, tag: Tag, res: int, flight: seq<Datagram>)
    requires tag.conn < |w.conns|
    ensures var step := Completion(tag, res, flight);
            var w' := Complete(w, tag, res, flight);
            Safe(w) && tag in w.kernel ==>
              && (Safe(w') <==> (Closes(w, step) ==> Unwrapped(w, tag.conn)))
              && (Safe(w') ==> w'.bytesSent == w.bytesSent + Positive(res))
  {
    hide Kept, NoMore, AtFront, Distinct, Closes, Unwrapped, CompleteRetired, CompleteCurrent;
    if Safe(w) && tag in w.kernel {
      NextSafeExactlyWhen(w, Completion(tag, res, flight));
      CreditedIs(w, tag, res, flight);
    }
  }

  lemma CreditedIs(w: Wire, tag: Tag, res: int, flight: seq<Datagram>)
    requires tag.conn < |w.conns|
    ensures Complete(w, tag, res, flight).credited == w.credited + Positive(res)
  {
  }

  lemma FinalSendIs(w: Wire, tag: Tag, res: int)
    requires tag.conn < |w.conns|
    ensures var w' := FinalComplete(w, tag, res);
            Safe(w) && tag in w.kernel ==>
              Safe(w') && w'.kernel == w.kernel - {tag} && w'.bytesSent == w.bytesSent + Positive(res)
  {
    hide Kept, NoMore, AtFront, Distinct;
    if Safe(w) && tag in w.kernel {
      NextSafeExactlyWhen(w, FinalCompletion(tag, res));
    }
  }

  /** Any run of the queues, ending where `Http3Sends` says, with the kernel's
      datagrams all accounted for. */
  method RunSends(connections: nat, steps: seq<Step>) returns (w: Worker)
    requires IsRun(Start(connections), steps)
    ensures w.Valid() && w.State() == Run(Start(connections), steps)
    ensures Safe(w.State()) && HeadersKept(w.State())
    ensures |w.conns| == connections
    ensures forall i :: 0 <= i < connections ==>
              Delivers(w.conns[i].View(), Supplied(Start(connections), steps, i, []))
    ensures w.bytesSent == TotalBytes(steps)
    ensures (forall k :: 0 <= k < |steps| ==> !steps[k].FinalCompletion?) ==>
              forall i :: 0 <= i < connections ==> (w.conns[i].sending <==> w.conns[i].outQueue != [])
  {
    hide Safe, Run, IsRun, Start, Delivers, Supplied, HeadersKept, TotalBytes;
    w := FollowSends(connections, steps);
    SendsSafe(connections, steps);
    BytesAreReported(connections, steps);
    if forall k :: 0 <= k < |steps| ==> !steps[k].FinalCompletion? {
      forall i | 0 <= i < connections
        ensures var c := Run(Start(connections), steps).conns[i]; c.sending <==> c.outQueue != []
      {
        NeverStalls(connections, steps, i);
      }
    }
    ghost var state := w.State();
    assert |state.conns| == |w.conns| && forall i :: 0 <= i < |w.conns| ==> state.conns[i] == w.conns[i].View();
  }

  method FollowSends(connections: nat, steps: seq<Step>) returns (w: Worker)
    requires IsRun(Start(connections), steps)
    ensures w.Valid() && w.State() == Run(Start(connections), steps) && Safe(w.State())
  {
    hide Possible, Closes, Unwrapped, Next, Safe, Worker.State, Worker.Valid;
    w := new Worker(connections);
    StartSafe(connections);
    for k := 0 to |steps|
      invariant fresh(w) && fresh(w.conns) && w.Valid()
      invariant IsRun(w.State(), steps[k..]) && Run(w.State(), steps[k..]) == Run(Start(connections), steps)
      invariant Safe(w.State())
    {
      assert steps[k..][0] == steps[k] && steps[k..][1..] == steps[k + 1..];
      NextSafeExactlyWhen(w.State(), steps[k]);
      w.Take(steps[k]);
    }
  }
}
