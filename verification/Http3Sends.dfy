/**
 Send storage of the HTTP/3 worker.

 A datagram handed to the kernel must stay where it is until its completion is
 reaped, even when its connection has been closed and its slot reused. `Wire`
 holds the worker's queues and the sends the kernel still owns; the lemmas say
 that in every reachable state each of those is either at the front of its own
 connection's queue or retained under its own tag, and nowhere else.
 */
module Http3Sends {
  import opened Wrappers

  /** Generations wrap at 42 bits. */
  const GENERATIONS: nat := 0x400_0000_0000

  const EMSGSIZE: int := 90

  /** What identifies an operation to the kernel: `user_data` for OP_SEND. */
  datatype Tag = Tag(conn: nat, generation: nat)

  datatype Datagram = Datagram(ticket: nat, segmentSize: nat)

  /** What the kernel reads for a send: the datagram, and for one of several
      segments the message header that points at it, which is in a box. */
  datatype Sent = Sent(datagram: Datagram, header: Option<nat>)

  function Given(d: Datagram, box: nat): Sent {
    Sent(d, if d.segmentSize > 0 then Some(box) else None)
  }

  /** A send that has outlived its connection, and all that it needs. */
  datatype Retired = Retired(tag: Tag, datagram: Datagram, box: nat)

  /** `pumped` is all that was queued since the connection was opened, and
      `handed` what of it the kernel was given. */
  datatype SendConn = SendConn(
    outQueue: seq<Datagram>,
    sending: bool,
    generation: nat,
    closing: bool,
    /** The box this connection writes its message headers in. */
    box: nat,
    pumped: seq<Datagram>,
    handed: seq<Datagram>)

  const QUIET: SendConn := SendConn([], false, 0, false, 0, [], [])

  /** `kernel` is what the kernel has been given and not yet given back;
      `submitted` and `reaped` count the sends each way, and `credited` is what
      the positive results add up to. */
  datatype Wire = Wire(
    conns: seq<SendConn>,
    retired: seq<Retired>,
    kernel: map<Tag, Sent>,
    /** Boxes ever allocated. */
    boxes: nat,
    bytesSent: nat,
    submitted: nat,
    reaped: nat,
    credited: nat)
  {
    ghost function TagOf(i: nat): Tag
      requires i < |conns|
    {
      Tag(i, conns[i].generation)
    }
  }

  function NextGeneration(g: nat): nat {
    (g + 1) % GENERATIONS
  }

  // ---- What the worker does ----

  ghost function PushFront(w: Wire, i: nat): Wire
    requires i < |w.conns|
  {
    var c := w.conns[i];
    if c.outQueue == [] then w
    else w.(conns := w.conns[i := c.(sending := true, handed := c.handed + [c.outQueue[0]])],
            kernel := w.kernel[w.TagOf(i) := Given(c.outQueue[0], c.box)], submitted := w.submitted + 1)
  }

  /** Queue what QUIC has to send, and start sending unless a send is out. */
  ghost function Pump(w: Wire, i: nat, batch: seq<Datagram>): Wire
    requires i < |w.conns|
  {
    var c := w.conns[i];
    var w' := w.(conns := w.conns[i := c.(outQueue := c.outQueue + batch, pumped := c.pumped + batch)]);
    if c.sending then w' else PushFront(w', i)
  }

  /** The slot starts over; what the kernel has of it is put aside first. */
  ghost function Close(w: Wire, i: nat): Wire
    requires i < |w.conns|
  {
    var c := w.conns[i];
    var next := QUIET.(generation := NextGeneration(c.generation), box := c.box);
    if c.sending && c.outQueue != [] then
      w.(conns := w.conns[i := next.(box := w.boxes)],
         retired := w.retired + [Retired(w.TagOf(i), c.outQueue[0], c.box)],
         boxes := w.boxes + 1)
    else w.(conns := w.conns[i := next])
  }

  /** Close, and let the next connection send its first flight. */
  ghost function FinishClose(w: Wire, i: nat, flight: seq<Datagram>): Wire
    requires i < |w.conns|
  {
    Pump(Close(w, i), i, flight)
  }

  ghost function BeginClose(w: Wire, i: nat, flight: seq<Datagram>): Wire
    requires i < |w.conns|
  {
    var w' := w.(conns := w.conns[i := w.conns[i].(closing := true)]);
    if w.conns[i].sending then w' else FinishClose(w', i, flight)
  }

  function Positive(res: int): nat {
    if res > 0 then res else 0
  }

  /** The kernel gives back a send. */
  ghost function Reap(w: Wire, tag: Tag, res: int): Wire {
    w.(kernel := w.kernel - {tag}, reaped := w.reaped + 1, credited := w.credited + Positive(res))
  }

  /** The send retained under a tag, if there is one. */
  ghost function Find(retired: seq<Retired>, tag: Tag): Option<nat> {
    if retired == [] then None
    else if retired[0].tag == tag then Some(0)
    else match Find(retired[1..], tag)
      case None => None
      case Some(k) => Some(k + 1)
  }

  /** `swap_remove`: the last entry takes the place of the one removed. */
  ghost function SwapRemove(retired: seq<Retired>, k: nat): seq<Retired>
    requires k < |retired|
  {
    var last := |retired| - 1;
    if k == last then retired[..last] else retired[..last][k := retired[last]]
  }

  /** A completion of an older generation touches nothing but `retired`. */
  ghost function CompleteRetired(w: Wire, tag: Tag, res: int): Wire {
    match Find(w.retired, tag)
    case None => w
    case Some(k) =>
      if k < |w.retired|
      then w.(retired := SwapRemove(w.retired, k), bytesSent := w.bytesSent + Positive(res))
      else w
  }

  ghost function Popped(c: SendConn): SendConn {
    if c.outQueue == [] then c else c.(outQueue := c.outQueue[1..])
  }

  /** A completion of the current generation. */
  ghost function CompleteCurrent(w: Wire, i: nat, res: int, flight: seq<Datagram>): Wire
    requires i < |w.conns|
  {
    var c := w.conns[i].(sending := false);
    if res < 0 && res != -EMSGSIZE then
      BeginClose(w.(conns := w.conns[i := c]), i, flight)
    else
      var w' := PushFront(w.(conns := w.conns[i := Popped(c)], bytesSent := w.bytesSent + Positive(res)), i);
      if c.closing && !w'.conns[i].sending then BeginClose(w', i, flight) else w'
  }

  ghost function Complete(w: Wire, tag: Tag, res: int, flight: seq<Datagram>): Wire
    requires tag.conn < |w.conns|
  {
    var w' := Reap(w, tag, res);
    if tag.generation != w.conns[tag.conn].generation then CompleteRetired(w', tag, res)
    else CompleteCurrent(w', tag.conn, res, flight)
  }

  /** After the run: reap without starting anything. */
  ghost function FinalComplete(w: Wire, tag: Tag, res: int): Wire
    requires tag.conn < |w.conns|
  {
    var w' := Reap(w, tag, res);
    var c := w.conns[tag.conn];
    if tag.generation != c.generation then CompleteRetired(w', tag, res)
    else if c.sending then
      w'.(conns := w.conns[tag.conn := Popped(c.(sending := false))], bytesSent := w.bytesSent + Positive(res))
    else w'
  }

  datatype Step =
    | Transmit(i: nat, batch: seq<Datagram>)
    | Completion(tag: Tag, res: int, flight: seq<Datagram>)
    | GiveUp(i: nat, flight: seq<Datagram>)
    | GraceOver(i: nat, flight: seq<Datagram>)
    | FinalCompletion(tag: Tag, res: int)

  /** The connection a step is about. */
  function At(step: Step): nat {
    match step
    case Transmit(i, _) => i
    case Completion(tag, _, _) => tag.conn
    case GiveUp(i, _) => i
    case GraceOver(i, _) => i
    case FinalCompletion(tag, _) => tag.conn
  }

  /** The kernel completes only what it owns. */
  ghost predicate Possible(w: Wire, step: Step) {
    && At(step) < |w.conns|
    && (step.Completion? || step.FinalCompletion? ==> step.tag in w.kernel)
  }

  /** The step closes its connection, and so takes a new generation: a send
      failed, the last send of a closing connection is done, or it is given up
      with nothing out. */
  ghost predicate Closes(w: Wire, step: Step)
    requires Possible(w, step)
  {
    var c := w.conns[At(step)];
    match step
    case Transmit(_, _) => false
    case Completion(tag, res, _) =>
      tag.generation == c.generation && ((res < 0 && res != -EMSGSIZE) || (c.closing && |c.outQueue| <= 1))
    case GiveUp(_, _) => !c.sending
    case GraceOver(_, _) => true
    case FinalCompletion(_, _) => false
  }

  /** No send is still outstanding under the tag this connection would take
      next: the generation has not wrapped all the way round beneath it. */
  ghost predicate Unwrapped(w: Wire, i: nat)
    requires i < |w.conns|
  {
    Tag(i, NextGeneration(w.conns[i].generation)) !in w.kernel
  }

  ghost function Next(w: Wire, step: Step): Wire
    requires Possible(w, step)
  {
    match step
    case Transmit(i, batch) => Pump(w, i, batch)
    case Completion(tag, res, flight) => Complete(w, tag, res, flight)
    case GiveUp(i, flight) => BeginClose(w, i, flight)
    case GraceOver(i, flight) => FinishClose(w, i, flight)
    case FinalCompletion(tag, res) => FinalComplete(w, tag, res)
  }

  // ---- Where the kernel's datagrams are ----

  ghost predicate Distinct(retired: seq<Retired>) {
    forall j, k :: 0 <= j < k < |retired| ==> retired[j].tag != retired[k].tag
  }

  ghost predicate Holds(retired: seq<Retired>, tag: Tag, s: Sent) {
    exists k :: 0 <= k < |retired| && retired[k].tag == tag && Given(retired[k].datagram, retired[k].box) == s
  }

  /** A connection is sending exactly what the kernel has of its generation,
      and that is at the front of its queue. */
  ghost predicate AtFront(w: Wire) {
    && (forall i :: 0 <= i < |w.conns| ==> (w.conns[i].sending <==> w.TagOf(i) in w.kernel))
    && (forall i :: 0 <= i < |w.conns| && w.conns[i].sending ==>
          w.conns[i].outQueue != [] && w.kernel[w.TagOf(i)] == Given(w.conns[i].outQueue[0], w.conns[i].box))
  }

  /** Everything else the kernel has is retained under its own tag. */
  ghost predicate Kept(w: Wire) {
    forall tag :: tag in w.kernel ==>
      tag.conn < |w.conns| && (tag != w.TagOf(tag.conn) ==> Holds(w.retired, tag, w.kernel[tag]))
  }

  /** And nothing else is retained. */
  ghost predicate NoMore(w: Wire) {
    forall k :: 0 <= k < |w.retired| ==>
      && w.retired[k].tag in w.kernel
      && w.retired[k].tag.conn < |w.conns|
      && w.retired[k].tag != w.TagOf(w.retired[k].tag.conn)
      && w.kernel[w.retired[k].tag] == Given(w.retired[k].datagram, w.retired[k].box)
  }

  /** No tag was submitted again before it came back, and every positive
      result has been counted once. */
  ghost predicate Counted(w: Wire) {
    w.submitted == w.reaped + |w.kernel| && w.bytesSent == w.credited
  }

  ghost predicate Safe(w: Wire) {
    AtFront(w) && Kept(w) && NoMore(w) && Distinct(w.retired) && Counted(w)
  }

  /** Reaping a send and counting its result, or starting one, keeps count. */
  lemma CountedReap(w: Wire, w': Wire, tag: Tag, p: nat)
    requires Counted(w) && tag in w.kernel
    requires w'.kernel == w.kernel - {tag} && w'.submitted == w.submitted && w'.reaped == w.reaped + 1
    requires w'.bytesSent == w.bytesSent + p && w'.credited == w.credited + p
    ensures Counted(w')
  {
    assert w'.kernel.Keys == w.kernel.Keys - {tag};
  }

  lemma CountedPush(w: Wire, i: nat)
    requires Counted(w) && i < |w.conns|
    ensures w.TagOf(i) !in w.kernel ==> Counted(PushFront(w, i))
    ensures w.TagOf(i) in w.kernel && w.conns[i].outQueue != [] ==> !Counted(PushFront(w, i))
  {
    if w.TagOf(i) in w.kernel && w.conns[i].outQueue != [] {
      assert PushFront(w, i).kernel.Keys == w.kernel.Keys;
    }
  }

  /** Changing a connection without touching its generation, or what the kernel
      has of it, leaves the retained sends as they were. */
  lemma SameRetained(w: Wire, w': Wire)
    requires Kept(w) && NoMore(w)
    requires w'.retired == w.retired && |w'.conns| == |w.conns|
    requires forall i :: 0 <= i < |w.conns| ==> w'.TagOf(i) == w.TagOf(i)
    requires forall tag :: tag in w.kernel && tag.conn < |w.conns| && tag != w.TagOf(tag.conn) ==>
               tag in w'.kernel && w'.kernel[tag] == w.kernel[tag]
    requires forall tag :: tag in w'.kernel ==>
               tag.conn < |w.conns| && (tag != w.TagOf(tag.conn) ==> tag in w.kernel && w.kernel[tag] == w'.kernel[tag])
    ensures Kept(w') && NoMore(w')
  {
    hide Holds;
  }

  lemma PushFrontSafe(w: Wire, i: nat)
    requires Safe(w) && i < |w.conns| && !w.conns[i].sending
    ensures Safe(PushFront(w, i))
    ensures PushFront(w, i).conns[i].sending <==> w.conns[i].outQueue != []
    ensures w.conns[i].outQueue == [] ==> PushFront(w, i) == w
  {
    hide Distinct, Kept, NoMore, Counted, AtFront;
    FrontIs(w, i);
    CountedPush(w, i);
    SafeOwners(w);
    PushFrontAtFront(w, i);
    SameRetained(w, PushFront(w, i));
  }

  lemma FrontIs(w: Wire, i: nat)
    requires AtFront(w) && i < |w.conns|
    ensures w.conns[i].sending <==> w.TagOf(i) in w.kernel
    ensures w.conns[i].sending ==> w.conns[i].outQueue != []
  {
  }

  lemma PushFrontAtFront(w: Wire, i: nat)
    requires AtFront(w) && i < |w.conns|
    ensures AtFront(PushFront(w, i))
  {
    var w' := PushFront(w, i);
    assert forall k :: 0 <= k < |w.conns| ==> w'.TagOf(k) == w.TagOf(k);
    assert forall k :: 0 <= k < |w.conns| && k != i ==> w.TagOf(k) != w.TagOf(i);
  }

  lemma SafeOwners(w: Wire)
    requires Kept(w)
    ensures forall tag :: tag in w.kernel ==> tag.conn < |w.conns|
  {
    hide Holds;
  }

  lemma PumpSafe(w: Wire, i: nat, batch: seq<Datagram>)
    requires Safe(w) && i < |w.conns|
    ensures Safe(Pump(w, i, batch))
  {
    hide Distinct, Kept, NoMore;
    var c := w.conns[i];
    var w' := w.(conns := w.conns[i := c.(outQueue := c.outQueue + batch, pumped := c.pumped + batch)]);
    SafeOwners(w);
    SameRetained(w, w');
    assert Safe(w');
    if !c.sending {
      PushFrontSafe(w', i);
    }
  }

  lemma HoldsSnoc(retired: seq<Retired>, r: Retired)
    ensures Holds(retired + [r], r.tag, Given(r.datagram, r.box))
    ensures forall tag, s :: Holds(retired, tag, s) ==> Holds(retired + [r], tag, s)
  {
    assert (retired + [r])[|retired|] == r;
    forall tag, s | Holds(retired, tag, s) ensures Holds(retired + [r], tag, s) {
      var k :| 0 <= k < |retired| && retired[k].tag == tag && Given(retired[k].datagram, retired[k].box) == s;
      assert (retired + [r])[k] == retired[k];
    }
  }

  lemma NewGeneration(g: nat)
    ensures NextGeneration(g) != g
  {
  }

  lemma CloseAtFront(w: Wire, i: nat)
    requires AtFront(w) && i < |w.conns|
    ensures AtFront(Close(w, i)) <==> Unwrapped(w, i)
  {
    var w' := Close(w, i);
    if !Unwrapped(w, i) {
      assert w'.TagOf(i) in w'.kernel && !w'.conns[i].sending;
    }
  }

  lemma CloseKept(w: Wire, i: nat)
    requires AtFront(w) && Kept(w) && i < |w.conns|
    ensures Kept(Close(w, i))
  {
    hide Holds;
    if w.conns[i].sending {
      HoldsSnoc(w.retired, Retired(w.TagOf(i), w.conns[i].outQueue[0], w.conns[i].box));
    }
  }

  lemma CloseNoMore(w: Wire, i: nat)
    requires AtFront(w) && NoMore(w) && Distinct(w.retired) && i < |w.conns| && Unwrapped(w, i)
    ensures NoMore(Close(w, i)) && Distinct(Close(w, i).retired)
  {
    NewGeneration(w.conns[i].generation);
  }

  /** Closing a connection leaves the kernel's datagrams accounted for exactly
      when the generation it takes is not one the kernel is still using. */
  lemma CloseSafeExactlyWhen(w: Wire, i: nat)
    requires Safe(w) && i < |w.conns|
    ensures Safe(Close(w, i)) <==> Unwrapped(w, i)
  {
    hide AtFront, Kept, NoMore, Distinct;
    CloseAtFront(w, i);
    CloseKept(w, i);
    if Unwrapped(w, i) {
      CloseNoMore(w, i);
    }
  }

  /** So does closing it and letting the next one send. */
  lemma FinishCloseSafeExactlyWhen(w: Wire, i: nat, flight: seq<Datagram>)
    requires Safe(w) && i < |w.conns|
    ensures Safe(FinishClose(w, i, flight)) <==> Unwrapped(w, i)
  {
    if Unwrapped(w, i) {
      hide Safe, Pump;
      CloseSafeExactlyWhen(w, i);
      PumpSafe(Close(w, i), i, flight);
    } else {
      hide Kept, NoMore, Distinct;
      var w1 := Close(w, i);
      var c := w1.conns[i].(outQueue := flight, pumped := flight);
      assert [] + flight == flight;
      var w2 := w1.(conns := w1.conns[i := c]);
      assert Counted(w2) && w2.TagOf(i) in w2.kernel;
      CountedPush(w2, i);
      assert FinishClose(w, i, flight) == PushFront(w2, i);
      if flight == [] {
        assert !AtFront(w2) by {
          assert !w2.conns[i].sending && w2.TagOf(i) in w2.kernel;
        }
      }
    }
  }

  lemma BeginCloseSafeExactlyWhen(w: Wire, i: nat, flight: seq<Datagram>)
    requires Safe(w) && i < |w.conns|
    ensures Safe(BeginClose(w, i, flight)) <==> w.conns[i].sending || Unwrapped(w, i)
  {
    hide Distinct, Kept, NoMore, FinishClose;
    var w' := w.(conns := w.conns[i := w.conns[i].(closing := true)]);
    SafeOwners(w);
    SameRetained(w, w');
    assert Safe(w');
    FinishCloseSafeExactlyWhen(w', i, flight);
  }

  /** With its send reaped, a connection's queue is its own again. */
  lemma ReapedSafe(w: Wire, i: nat, c: SendConn, p: nat)
    requires Safe(w) && i < |w.conns| && w.conns[i].sending
    requires !c.sending && c.generation == w.conns[i].generation
    ensures Safe(w.(conns := w.conns[i := c], kernel := w.kernel - {w.TagOf(i)},
                    bytesSent := w.bytesSent + p, reaped := w.reaped + 1, credited := w.credited + p))
  {
    hide Distinct, Kept, NoMore, Counted, AtFront;
    FrontIs(w, i);
    var w' := w.(conns := w.conns[i := c], kernel := w.kernel - {w.TagOf(i)},
                 bytesSent := w.bytesSent + p, reaped := w.reaped + 1, credited := w.credited + p);
    CountedReap(w, w', w.TagOf(i), p);
    SafeOwners(w);
    ReapedAtFront(w, w', i);
    SameRetained(w, w');
  }

  lemma ReapedAtFront(w: Wire, w': Wire, i: nat)
    requires AtFront(w) && i < |w.conns| == |w'.conns|
    requires w'.kernel == w.kernel - {w.TagOf(i)} && w'.conns == w.conns[i := w'.conns[i]]
    requires !w'.conns[i].sending && w'.conns[i].generation == w.conns[i].generation
    ensures AtFront(w')
  {
    assert forall k :: 0 <= k < |w.conns| ==> w'.TagOf(k) == w.TagOf(k);
    assert forall k :: 0 <= k < |w.conns| && k != i ==> w.TagOf(k) != w.TagOf(i);
  }

  lemma {:induction false} FindIs(retired: seq<Retired>, tag: Tag)
    ensures var k := Find(retired, tag);
            if k.Some? then k.value < |retired| && retired[k.value].tag == tag
            else forall j :: 0 <= j < |retired| ==> retired[j].tag != tag
  {
    if retired != [] && retired[0].tag != tag {
      FindIs(retired[1..], tag);
      forall j | 0 <= j < |retired| && Find(retired, tag).None? ensures retired[j].tag != tag {
        if j > 0 {
          assert retired[1..][j - 1] == retired[j];
        }
      }
    }
  }

  lemma SwapRemoveIs(retired: seq<Retired>, k: nat)
    requires k < |retired| && Distinct(retired)
    ensures var r := SwapRemove(retired, k);
            && Distinct(r)
            && (forall j :: 0 <= j < |r| ==> r[j] in retired && r[j].tag != retired[k].tag)
            && (forall tag, s :: tag != retired[k].tag && Holds(retired, tag, s) ==> Holds(r, tag, s))
  {
    var r := SwapRemove(retired, k);
    forall tag, s | tag != retired[k].tag && Holds(retired, tag, s) ensures Holds(r, tag, s) {
      var j :| 0 <= j < |retired| && retired[j].tag == tag && Given(retired[j].datagram, retired[j].box) == s;
      assert r[if j == |retired| - 1 then k else j] == retired[j];
    }
  }

  /** A completion of an older generation is found, is counted once, and
      leaves every connection as it was. */
  lemma StaleSafe(w: Wire, tag: Tag, res: int)
    requires Safe(w) && tag in w.kernel && tag.conn < |w.conns| && tag != w.TagOf(tag.conn)
    ensures var w' := CompleteRetired(Reap(w, tag, res), tag, res);
            Safe(w') && w'.conns == w.conns
  {
    hide Safe, SwapRemove, Find, Positive;
    var k := RetainedIs(w, tag);
    ForgetSafe(w, k, Positive(res));
  }

  lemma RetainedIs(w: Wire, tag: Tag) returns (k: nat)
    requires Safe(w) && tag in w.kernel && tag.conn < |w.conns| && tag != w.TagOf(tag.conn)
    ensures Find(w.retired, tag) == Some(k) && k < |w.retired| && w.retired[k].tag == tag
  {
    hide Distinct, Counted, NoMore, AtFront, Find;
    FindIs(w.retired, tag);
    k := Find(w.retired, tag).value;
  }

  lemma ForgetKept(w: Wire, k: nat, r: seq<Retired>)
    requires Kept(w) && NoMore(w) && k < |w.retired|
    requires forall j :: 0 <= j < |r| ==> r[j] in w.retired && r[j].tag != w.retired[k].tag
    requires forall tag, s :: tag != w.retired[k].tag && Holds(w.retired, tag, s) ==> Holds(r, tag, s)
    ensures var w' := w.(retired := r, kernel := w.kernel - {w.retired[k].tag}); Kept(w') && NoMore(w')
  {
    hide Holds;
    var w' := w.(retired := r, kernel := w.kernel - {w.retired[k].tag});
    forall j | 0 <= j < |r|
      ensures r[j].tag in w'.kernel && r[j].tag.conn < |w.conns| && r[j].tag != w.TagOf(r[j].tag.conn)
      ensures w'.kernel[r[j].tag] == Given(r[j].datagram, r[j].box)
    {
      var i :| 0 <= i < |w.retired| && w.retired[i] == r[j];
    }
  }

  lemma ForgetAtFront(w: Wire, k: nat, r: seq<Retired>)
    requires AtFront(w) && NoMore(w) && k < |w.retired|
    ensures AtFront(w.(retired := r, kernel := w.kernel - {w.retired[k].tag}))
  {
    var tag := w.retired[k].tag;
    assert forall i :: 0 <= i < |w.conns| ==> w.TagOf(i) != tag;
  }

  lemma ForgetSafe(w: Wire, k: nat, p: nat)
    requires Safe(w) && k < |w.retired|
    ensures Safe(w.(retired := SwapRemove(w.retired, k), kernel := w.kernel - {w.retired[k].tag},
                    bytesSent := w.bytesSent + p, reaped := w.reaped + 1, credited := w.credited + p))
  {
    hide Distinct, Holds, SwapRemove, Counted;
    assert w.retired[k].tag in w.kernel;
    SwapRemoveIs(w.retired, k);
    var r := SwapRemove(w.retired, k);
    var w0 := w.(retired := r, kernel := w.kernel - {w.retired[k].tag});
    var w' := w0.(bytesSent := w.bytesSent + p, reaped := w.reaped + 1, credited := w.credited + p);
    CountedReap(w, w', w.retired[k].tag, p);
    ForgetKept(w, k, r);
    ForgetAtFront(w, k, r);
    CarryOver(w0, w');
  }

  /** Where things are does not depend on what was counted. */
  lemma CarryOver(w: Wire, w': Wire)
    requires w'.conns == w.conns && w'.retired == w.retired && w'.kernel == w.kernel
    requires AtFront(w) && Kept(w) && NoMore(w)
    ensures AtFront(w') && Kept(w') && NoMore(w')
  {
    hide Holds;
    assert forall i :: 0 <= i < |w.conns| ==> w'.TagOf(i) == w.TagOf(i);
  }

  /** A completion of the current generation keeps storage safe exactly if it
      does not close the connection onto a generation still in use. */
  lemma CurrentSafeExactlyWhen(w: Wire, i: nat, res: int, flight: seq<Datagram>)
    requires Safe(w) && i < |w.conns| && w.TagOf(i) in w.kernel
    ensures Safe(CompleteCurrent(Reap(w, w.TagOf(i), res), i, res, flight))
       <==> (Closes(w, Completion(w.TagOf(i), res, flight)) ==> Unwrapped(w, i))
  {
    hide BeginClose, PushFront, Safe;
    SendingIs(w, i);
    var c := w.conns[i].(sending := false);
    var w0 := Reap(w, w.TagOf(i), res);
    NewGeneration(c.generation);
    if res < 0 && res != -EMSGSIZE {
      var w1 := w0.(conns := w.conns[i := c]);
      ReapedSafe(w, i, c, Positive(res));
      BeginCloseSafeExactlyWhen(w1, i, flight);
    } else {
      ReapedSafe(w, i, Popped(c), Positive(res));
      var w1 := w0.(conns := w.conns[i := Popped(c)], bytesSent := w.bytesSent + Positive(res));
      PushFrontSafe(w1, i);
      BeginCloseSafeExactlyWhen(w1, i, flight);
      PushFrontKeeps(w1, i);
    }
  }

  lemma SendingIs(w: Wire, i: nat)
    requires Safe(w) && i < |w.conns|
    ensures w.conns[i].sending <==> w.TagOf(i) in w.kernel
    ensures w.conns[i].sending ==> w.conns[i].outQueue != []
  {
    hide Kept, NoMore, Distinct, Counted, AtFront;
    FrontIs(w, i);
  }

  lemma PushFrontKeeps(w: Wire, i: nat)
    requires i < |w.conns|
    ensures |PushFront(w, i).conns| == |w.conns| && PushFront(w, i).conns[i].generation == w.conns[i].generation
    ensures PushFront(w, i).conns[i].closing == w.conns[i].closing
  {
  }

  /** Every step keeps storage safe exactly if it does not close a connection
      onto a generation the kernel is still using. */
  lemma NextSafeExactlyWhen(w: Wire, step: Step)
    requires Safe(w) && Possible(w, step)
    ensures Safe(Next(w, step)) <==> (Closes(w, step) ==> Unwrapped(w, At(step)))
  {
    hide Safe, Pump, BeginClose, FinishClose, CompleteCurrent, CompleteRetired;
    match step {
      case Transmit(i, batch) => PumpSafe(w, i, batch);
      case Completion(tag, res, flight) =>
        if tag == w.TagOf(tag.conn) {
          CurrentSafeExactlyWhen(w, tag.conn, res, flight);
        } else {
          StaleSafe(w, tag, res);
        }
      case GiveUp(i, flight) => BeginCloseSafeExactlyWhen(w, i, flight);
      case GraceOver(i, flight) => FinishCloseSafeExactlyWhen(w, i, flight);
      case FinalCompletion(tag, res) =>
        if tag == w.TagOf(tag.conn) {
          SendingIs(w, tag.conn);
          ReapedSafe(w, tag.conn, Popped(w.conns[tag.conn].(sending := false)), Positive(res));
        } else {
          StaleSafe(w, tag, res);
        }
    }
  }

  // ---- In what order ----

  /** What a connection was given to send is what it handed to the kernel, the
      send in flight last, and then what it has not handed over yet. */
  ghost predicate Delivers(c: SendConn, given: seq<Datagram>) {
    if c.sending && c.outQueue != []
    then given == c.handed + c.outQueue[1..] && c.handed != [] && c.handed[|c.handed| - 1] == c.outQueue[0]
    else given == c.handed + c.outQueue
  }

  ghost predicate InOrder(c: SendConn) {
    Delivers(c, c.pumped)
  }

  ghost predicate AllInOrder(w: Wire) {
    forall i :: 0 <= i < |w.conns| ==> InOrder(w.conns[i])
  }

  lemma PushFrontInOrder(w: Wire, i: nat)
    requires AllInOrder(w) && i < |w.conns| && !w.conns[i].sending
    ensures AllInOrder(PushFront(w, i))
  {
    var c := w.conns[i];
    if c.outQueue != [] {
      assert c.handed + c.outQueue == (c.handed + [c.outQueue[0]]) + c.outQueue[1..];
    }
  }

  lemma PumpInOrder(w: Wire, i: nat, batch: seq<Datagram>)
    requires AllInOrder(w) && i < |w.conns| && (w.conns[i].sending ==> w.conns[i].outQueue != [])
    ensures AllInOrder(Pump(w, i, batch))
  {
    var c := w.conns[i];
    var c' := c.(outQueue := c.outQueue + batch, pumped := c.pumped + batch);
    assert c.sending ==> (c.outQueue + batch)[1..] == c.outQueue[1..] + batch;
    assert InOrder(c');
    if !c.sending {
      PushFrontInOrder(w.(conns := w.conns[i := c']), i);
    }
  }

  /** The next connection starts afresh, whatever the last one left. */
  lemma FinishCloseInOrder(w: Wire, i: nat, flight: seq<Datagram>)
    requires i < |w.conns| && forall k :: 0 <= k < |w.conns| && k != i ==> InOrder(w.conns[k])
    ensures AllInOrder(FinishClose(w, i, flight))
  {
    PumpInOrder(Close(w, i), i, flight);
  }

  lemma BeginCloseInOrder(w: Wire, i: nat, flight: seq<Datagram>)
    requires i < |w.conns| && (w.conns[i].sending ==> InOrder(w.conns[i]))
    requires forall k :: 0 <= k < |w.conns| && k != i ==> InOrder(w.conns[k])
    ensures AllInOrder(BeginClose(w, i, flight))
  {
    hide FinishClose;
    FinishCloseInOrder(w.(conns := w.conns[i := w.conns[i].(closing := true)]), i, flight);
  }

  lemma CurrentInOrder(w: Wire, i: nat, res: int, flight: seq<Datagram>)
    requires AllInOrder(w) && i < |w.conns| && w.conns[i].sending && w.conns[i].outQueue != []
    ensures AllInOrder(CompleteCurrent(w, i, res, flight))
  {
    hide BeginClose, PushFront;
    var c := w.conns[i].(sending := false);
    if res < 0 && res != -EMSGSIZE {
      BeginCloseInOrder(w.(conns := w.conns[i := c]), i, flight);
    } else {
      var w1 := w.(conns := w.conns[i := Popped(c)], bytesSent := w.bytesSent + Positive(res));
      PushFrontInOrder(w1, i);
      PushFrontKeeps(w1, i);
      BeginCloseInOrder(PushFront(w1, i), i, flight);
    }
  }

  lemma StaleInOrder(w: Wire, tag: Tag, res: int)
    requires AllInOrder(w)
    ensures AllInOrder(CompleteRetired(w, tag, res))
  {
  }

  lemma NextInOrder(w: Wire, step: Step)
    requires Safe(w) && AllInOrder(w) && Possible(w, step)
    ensures AllInOrder(Next(w, step))
  {
    hide Safe, Pump, BeginClose, FinishClose, CompleteCurrent, CompleteRetired;
    match step {
      case Transmit(i, batch) =>
        SendingIs(w, i);
        PumpInOrder(w, i, batch);
      case Completion(tag, res, flight) =>
        var w' := Reap(w, tag, res);
        if tag == w.TagOf(tag.conn) {
          SendingIs(w, tag.conn);
          CurrentInOrder(w', tag.conn, res, flight);
        } else {
          StaleInOrder(w', tag, res);
        }
      case GiveUp(i, flight) => BeginCloseInOrder(w, i, flight);
      case GraceOver(i, flight) => FinishCloseInOrder(w, i, flight);
      case FinalCompletion(tag, res) =>
        SendingIs(w, tag.conn);
        StaleInOrder(Reap(w, tag, res), tag, res);
    }
  }

  // ---- When a connection closes ----

  /** What a step leaves of a slot's connection: the same one, or, exactly if it
      closes, the next; a connection that was given up is closing until then. */
  ghost predicate LivesOn(w: Wire, w': Wire, i: nat, closes: bool, givenUp: bool)
    requires i < |w.conns|
  {
    && |w'.conns| == |w.conns|
    && w'.conns[i].generation == (if closes then (w.conns[i].generation + 1) % 0x400_0000_0000 else w.conns[i].generation)
    && (w'.conns[i].closing <==> !closes && (w.conns[i].closing || givenUp))
    && forall k :: 0 <= k < |w.conns| && k != i ==> w'.conns[k] == w.conns[k]
  }

  lemma FinishCloseLives(w: Wire, i: nat, flight: seq<Datagram>)
    requires i < |w.conns|
    ensures LivesOn(w, FinishClose(w, i, flight), i, true, false)
  {
  }

  lemma BeginCloseLives(w: Wire, i: nat, flight: seq<Datagram>)
    requires i < |w.conns|
    ensures LivesOn(w, BeginClose(w, i, flight), i, !w.conns[i].sending, true)
  {
    hide FinishClose;
    FinishCloseLives(w.(conns := w.conns[i := w.conns[i].(closing := true)]), i, flight);
  }

  lemma CurrentLives(w: Wire, i: nat, res: int, flight: seq<Datagram>)
    requires i < |w.conns| && w.conns[i].outQueue != []
    ensures LivesOn(w, CompleteCurrent(w, i, res, flight), i,
                    (res < 0 && res != -90) || (w.conns[i].closing && |w.conns[i].outQueue| <= 1), false)
  {
    hide BeginClose;
    var c := w.conns[i].(sending := false);
    if res < 0 && res != -EMSGSIZE {
      BeginCloseLives(w.(conns := w.conns[i := c]), i, flight);
    } else {
      var w1 := w.(conns := w.conns[i := Popped(c)], bytesSent := w.bytesSent + Positive(res));
      BeginCloseLives(PushFront(w1, i), i, flight);
    }
  }

  /** A step closes a connection exactly if it is the failure of its own send,
      the end of the last one of a connection given up, a giving up with
      nothing out, or the end of its grace. */
  lemma NextLives(w: Wire, step: Step)
    requires Safe(w) && Possible(w, step)
    ensures LivesOn(w, Next(w, step), At(step), Closes(w, step), step.GiveUp?)
    ensures step.Completion? && step.tag == w.TagOf(step.tag.conn) ==>
              (Closes(w, step) <==>
                 (step.res < 0 && step.res != -90)
                 || (w.conns[step.tag.conn].closing && |w.conns[step.tag.conn].outQueue| <= 1))
  {
    hide Safe, BeginClose, FinishClose, CompleteCurrent;
    match step {
      case Transmit(_, _) =>
      case Completion(tag, res, flight) =>
        if tag == w.TagOf(tag.conn) {
          SendingIs(w, tag.conn);
          CurrentLives(Reap(w, tag, res), tag.conn, res, flight);
        }
      case GiveUp(i, flight) => BeginCloseLives(w, i, flight);
      case GraceOver(i, flight) => FinishCloseLives(w, i, flight);
      case FinalCompletion(_, _) =>
    }
  }

  // ---- What was given ----

  /** The first flight of the connection that a step opens, if it opens one. */
  function FlightOf(step: Step): seq<Datagram> {
    match step
    case Completion(_, _, flight) => flight
    case GiveUp(_, flight) => flight
    case GraceOver(_, flight) => flight
    case _ => []
  }

  /** All that a slot's connection has been given to send, after one more step:
      a batch adds to it, and a close starts again with the next one's flight. */
  ghost function Supply(w: Wire, step: Step, i: nat, before: seq<Datagram>): seq<Datagram>
    requires Possible(w, step)
  {
    if At(step) != i then before
    else if step.Transmit? then before + step.batch
    else if Closes(w, step) then FlightOf(step)
    else before
  }

  lemma PumpSupplies(w: Wire, i: nat, batch: seq<Datagram>)
    requires i < |w.conns|
    ensures var w' := Pump(w, i, batch);
            && |w'.conns| == |w.conns| && w'.conns[i].pumped == w.conns[i].pumped + batch
            && forall k :: 0 <= k < |w.conns| && k != i ==> w'.conns[k] == w.conns[k]
  {
  }

  lemma FinishCloseSupplies(w: Wire, i: nat, flight: seq<Datagram>)
    requires i < |w.conns|
    ensures var w' := FinishClose(w, i, flight);
            && |w'.conns| == |w.conns| && w'.conns[i].pumped == flight
            && forall k :: 0 <= k < |w.conns| && k != i ==> w'.conns[k] == w.conns[k]
  {
    hide Pump;
    PumpSupplies(Close(w, i), i, flight);
  }

  lemma BeginCloseSupplies(w: Wire, i: nat, flight: seq<Datagram>)
    requires i < |w.conns|
    ensures var w' := BeginClose(w, i, flight);
            && |w'.conns| == |w.conns|
            && w'.conns[i].pumped == (if w.conns[i].sending then w.conns[i].pumped else flight)
            && forall k :: 0 <= k < |w.conns| && k != i ==> w'.conns[k] == w.conns[k]
  {
    hide FinishClose;
    FinishCloseSupplies(w.(conns := w.conns[i := w.conns[i].(closing := true)]), i, flight);
  }

  lemma CurrentSupplies(w: Wire, i: nat, res: int, flight: seq<Datagram>)
    requires i < |w.conns| && w.conns[i].outQueue != []
    ensures var w', c := CompleteCurrent(w, i, res, flight), w.conns[i];
            && |w'.conns| == |w.conns|
            && w'.conns[i].pumped ==
                 (if (res < 0 && res != -EMSGSIZE) || (c.closing && |c.outQueue| <= 1) then flight else c.pumped)
            && forall k :: 0 <= k < |w.conns| && k != i ==> w'.conns[k] == w.conns[k]
  {
    hide BeginClose;
    var c := w.conns[i].(sending := false);
    if res < 0 && res != -EMSGSIZE {
      BeginCloseSupplies(w.(conns := w.conns[i := c]), i, flight);
    } else {
      var w1 := w.(conns := w.conns[i := Popped(c)], bytesSent := w.bytesSent + Positive(res));
      BeginCloseSupplies(PushFront(w1, i), i, flight);
    }
  }

  /** What a step leaves in a connection's books is what it was given. */
  lemma NextSupplies(w: Wire, step: Step, i: nat)
    requires Safe(w) && Possible(w, step) && i < |w.conns|
    ensures |Next(w, step).conns| == |w.conns|
    ensures Next(w, step).conns[i].pumped == Supply(w, step, i, w.conns[i].pumped)
  {
    hide Safe, Pump, BeginClose, FinishClose, CompleteCurrent;
    match step {
      case Transmit(k, batch) => PumpSupplies(w, k, batch);
      case Completion(tag, res, flight) =>
        if tag == w.TagOf(tag.conn) {
          SendingIs(w, tag.conn);
          CurrentSupplies(Reap(w, tag, res), tag.conn, res, flight);
        }
      case GiveUp(k, flight) => BeginCloseSupplies(w, k, flight);
      case GraceOver(k, flight) => FinishCloseSupplies(w, k, flight);
      case FinalCompletion(_, _) =>
    }
  }

  // ---- In whose boxes ----

  /** Every box in use was allocated, and no two owners share one. */
  ghost predicate Boxed(w: Wire) {
    && (forall i :: 0 <= i < |w.conns| ==> w.conns[i].box < w.boxes)
    && (forall k :: 0 <= k < |w.retired| ==> w.retired[k].box < w.boxes)
    && (forall i, j :: 0 <= i < j < |w.conns| ==> w.conns[i].box != w.conns[j].box)
    && (forall j, k :: 0 <= j < k < |w.retired| ==> w.retired[j].box != w.retired[k].box)
    && (forall i, k :: 0 <= i < |w.conns| && 0 <= k < |w.retired| ==> w.conns[i].box != w.retired[k].box)
  }

  /** Leaving every connection its box, and retaining nothing new, changes
      nothing about who owns what. */
  lemma SameBoxes(w: Wire, w': Wire)
    requires Boxed(w) && w'.boxes == w.boxes && w'.retired == w.retired && |w'.conns| == |w.conns|
    requires forall i :: 0 <= i < |w.conns| ==> w'.conns[i].box == w.conns[i].box
    ensures Boxed(w')
  {
  }

  lemma CloseBoxed(w: Wire, i: nat)
    requires Boxed(w) && i < |w.conns|
    ensures Boxed(Close(w, i))
  {
  }

  lemma PumpBoxed(w: Wire, i: nat, batch: seq<Datagram>)
    requires Boxed(w) && i < |w.conns|
    ensures Boxed(Pump(w, i, batch))
  {
    hide Boxed;
    SameBoxes(w, Pump(w, i, batch));
  }

  lemma FinishCloseBoxed(w: Wire, i: nat, flight: seq<Datagram>)
    requires Boxed(w) && i < |w.conns|
    ensures Boxed(FinishClose(w, i, flight))
  {
    hide Boxed, Pump;
    CloseBoxed(w, i);
    PumpBoxed(Close(w, i), i, flight);
  }

  lemma BeginCloseBoxed(w: Wire, i: nat, flight: seq<Datagram>)
    requires Boxed(w) && i < |w.conns|
    ensures Boxed(BeginClose(w, i, flight))
  {
    hide Boxed, FinishClose;
    var w' := w.(conns := w.conns[i := w.conns[i].(closing := true)]);
    SameBoxes(w, w');
    FinishCloseBoxed(w', i, flight);
  }

  lemma CurrentBoxed(w: Wire, i: nat, res: int, flight: seq<Datagram>)
    requires Boxed(w) && i < |w.conns|
    ensures Boxed(CompleteCurrent(w, i, res, flight))
  {
    hide Boxed, BeginClose;
    var c := w.conns[i].(sending := false);
    if res < 0 && res != -EMSGSIZE {
      var w1 := w.(conns := w.conns[i := c]);
      SameBoxes(w, w1);
      BeginCloseBoxed(w1, i, flight);
    } else {
      var w1 := PushFront(w.(conns := w.conns[i := Popped(c)], bytesSent := w.bytesSent + Positive(res)), i);
      SameBoxes(w, w1);
      BeginCloseBoxed(w1, i, flight);
    }
  }

  lemma StaleBoxed(w: Wire, tag: Tag, res: int)
    requires Boxed(w)
    ensures Boxed(CompleteRetired(w, tag, res))
  {
  }

  lemma NextBoxed(w: Wire, step: Step)
    requires Boxed(w) && Possible(w, step)
    ensures Boxed(Next(w, step))
  {
    hide Boxed, Pump, BeginClose, FinishClose, CompleteCurrent, CompleteRetired;
    match step {
      case Transmit(i, batch) => PumpBoxed(w, i, batch);
      case Completion(tag, res, flight) =>
        SameBoxes(w, Reap(w, tag, res));
        CurrentBoxed(Reap(w, tag, res), tag.conn, res, flight);
        StaleBoxed(Reap(w, tag, res), tag, res);
      case GiveUp(i, flight) => BeginCloseBoxed(w, i, flight);
      case GraceOver(i, flight) => FinishCloseBoxed(w, i, flight);
      case FinalCompletion(tag, res) =>
        var w1 := Reap(w, tag, res);
        SameBoxes(w, w1);
        StaleBoxed(w1, tag, res);
        SameBoxes(w, w1.(conns := w.conns[tag.conn := Popped(w.conns[tag.conn].(sending := false))],
                         bytesSent := w.bytesSent + Positive(res)));
    }
  }

  /** A message header the kernel may still read is in its own connection's box
      if the send is of the current generation, and in no connection's box if
      it is not; and no two sends share one. */
  ghost predicate HeadersKept(w: Wire) {
    && (forall tag, i :: tag in w.kernel && w.kernel[tag].header.Some? && 0 <= i < |w.conns| ==>
          (w.kernel[tag].header.value == w.conns[i].box <==> tag == w.TagOf(i)))
    && (forall s, t :: s in w.kernel && t in w.kernel && s != t && w.kernel[s].header.Some? ==>
          w.kernel[s].header != w.kernel[t].header)
  }

  lemma HeaderOf(w: Wire, tag: Tag) returns (k: nat)
    requires Safe(w) && tag in w.kernel && w.kernel[tag].header.Some?
    ensures tag.conn < |w.conns|
    ensures tag == w.TagOf(tag.conn) ==> w.kernel[tag].header.value == w.conns[tag.conn].box
    ensures tag != w.TagOf(tag.conn) ==>
              k < |w.retired| && w.retired[k].tag == tag && w.kernel[tag].header.value == w.retired[k].box
  {
    hide Distinct, Counted, NoMore;
    k := 0;
    if tag != w.TagOf(tag.conn) {
      assert Holds(w.retired, tag, w.kernel[tag]);
      k :| 0 <= k < |w.retired| && w.retired[k].tag == tag
           && Given(w.retired[k].datagram, w.retired[k].box) == w.kernel[tag];
    }
  }

  lemma HeadersAreKept(w: Wire)
    requires Safe(w) && Boxed(w)
    ensures HeadersKept(w)
  {
    hide Safe;
    forall tag, i | tag in w.kernel && w.kernel[tag].header.Some? && 0 <= i < |w.conns|
      ensures w.kernel[tag].header.value == w.conns[i].box <==> tag == w.TagOf(i)
    {
      var k := HeaderOf(w, tag);
    }
    forall s, t | s in w.kernel && t in w.kernel && s != t && w.kernel[s].header.Some?
      ensures w.kernel[s].header != w.kernel[t].header
    {
      if w.kernel[t].header.Some? {
        var j := HeaderOf(w, s);
        var k := HeaderOf(w, t);
      }
    }
  }

  // ---- Whole runs ----

  ghost function Start(connections: nat): Wire {
    Wire(seq(connections, i requires 0 <= i < connections => QUIET.(box := i)), [], map[], connections, 0, 0, 0, 0)
  }

  lemma StartSafe(connections: nat)
    ensures Safe(Start(connections)) && AllInOrder(Start(connections)) && Boxed(Start(connections))
  {
  }

  /** A run in which no connection closes onto a generation still in use. */
  ghost predicate IsRun(w: Wire, steps: seq<Step>)
    decreases |steps|
  {
    steps == [] ||
    (&& Possible(w, steps[0])
     && (Closes(w, steps[0]) ==> Unwrapped(w, At(steps[0])))
     && IsRun(Next(w, steps[0]), steps[1..]))
  }

  ghost function Run(w: Wire, steps: seq<Step>): Wire
    requires IsRun(w, steps)
    decreases |steps|
  {
    if steps == [] then w else Run(Next(w, steps[0]), steps[1..])
  }

  lemma {:induction false} RunSafe(w: Wire, steps: seq<Step>)
    requires Safe(w) && AllInOrder(w) && Boxed(w) && IsRun(w, steps)
    ensures Safe(Run(w, steps)) && AllInOrder(Run(w, steps)) && Boxed(Run(w, steps))
    decreases |steps|
  {
    hide Safe, AllInOrder, Boxed, Next, Possible, Closes, Unwrapped;
    if steps != [] {
      NextSafeExactlyWhen(w, steps[0]);
      NextInOrder(w, steps[0]);
      NextBoxed(w, steps[0]);
      RunSafe(Next(w, steps[0]), steps[1..]);
    }
  }

  /** All that a slot's present connection was given over a run. */
  ghost function Supplied(w: Wire, steps: seq<Step>, i: nat, before: seq<Datagram>): seq<Datagram>
    requires IsRun(w, steps)
    decreases |steps|
  {
    if steps == [] then before
    else Supplied(Next(w, steps[0]), steps[1..], i, Supply(w, steps[0], i, before))
  }

  lemma {:induction false} RunSupplies(w: Wire, steps: seq<Step>, i: nat)
    requires Safe(w) && IsRun(w, steps) && i < |w.conns|
    ensures |Run(w, steps).conns| == |w.conns|
    ensures Run(w, steps).conns[i].pumped == Supplied(w, steps, i, w.conns[i].pumped)
    decreases |steps|
  {
    hide Safe, Next, Possible, Closes, Unwrapped, Supply;
    if steps != [] {
      NextSafeExactlyWhen(w, steps[0]);
      NextSupplies(w, steps[0], i);
      RunSupplies(Next(w, steps[0]), steps[1..], i);
    }
  }

  lemma SameSlots(w: Wire, steps: seq<Step>)
    requires Safe(w) && IsRun(w, steps)
    ensures |Run(w, steps).conns| == |w.conns|
  {
    hide Safe, IsRun, Run;
    if |w.conns| > 0 {
      RunSupplies(w, steps, 0);
    } else {
      NoSlots(w, steps);
    }
  }

  /** Without slots nothing can happen. */
  lemma NoSlots(w: Wire, steps: seq<Step>)
    requires IsRun(w, steps) && |w.conns| == 0
    ensures steps == [] && Run(w, steps) == w
  {
  }

  /** Every connection delivers, in order, what the steps gave it since it was
      opened. */
  lemma DeliversAll(connections: nat, steps: seq<Step>, i: nat)
    requires IsRun(Start(connections), steps) && i < connections
    ensures var w := Run(Start(connections), steps);
            i < |w.conns| && Delivers(w.conns[i], Supplied(Start(connections), steps, i, []))
  {
    var w := Start(connections);
    StartSafe(connections);
    assert |w.conns| == connections && w.conns[i].pumped == [];
    hide Start, Safe, Run, IsRun, Boxed, Delivers;
    RunSafe(w, steps);
    RunSupplies(w, steps, i);
    assert InOrder(Run(w, steps).conns[i]);
  }

  /** Nothing is sending and nothing is retained exactly when the kernel owns
      nothing, which is when shutdown may free the queues. */
  lemma NothingOutstanding(w: Wire)
    requires Safe(w)
    ensures (forall i :: 0 <= i < |w.conns| ==> !w.conns[i].sending) && w.retired == [] <==> w.kernel == map[]
  {
    hide Distinct;
    if (forall i :: 0 <= i < |w.conns| ==> !w.conns[i].sending) && w.retired == [] {
      forall tag ensures tag !in w.kernel {
        assert !Holds([], tag, Sent(Datagram(0, 0), None));
      }
    }
    if w.retired != [] {
      assert w.retired[0].tag in w.kernel;
    }
    forall i | 0 <= i < |w.conns| && w.conns[i].sending ensures w.kernel != map[] {
      assert w.TagOf(i) in w.kernel;
    }
  }

  /** In every reachable state, what the kernel still owns is where it was
      left, under a tag it was given once; each connection's datagrams were
      given to it in the order the steps supplied them, none left out; and the
      bytes counted are exactly those it reported. */
  lemma SendsSafe(connections: nat, steps: seq<Step>)
    requires IsRun(Start(connections), steps)
    ensures var w := Run(Start(connections), steps);
            && w.bytesSent == w.credited && w.submitted == w.reaped + |w.kernel|
            && (forall tag :: tag in w.kernel ==>
                  && tag.conn < |w.conns|
                  && var c := w.conns[tag.conn];
                     if tag.generation == c.generation
                     then c.sending && c.outQueue != [] && w.kernel[tag] == Given(c.outQueue[0], c.box)
                     else Holds(w.retired, tag, w.kernel[tag]))
            && Distinct(w.retired) && HeadersKept(w)
            && |w.conns| == connections
            && (forall i :: 0 <= i < connections ==> Delivers(w.conns[i], Supplied(Start(connections), steps, i, [])))
            && ((forall i :: 0 <= i < |w.conns| ==> !w.conns[i].sending) && w.retired == [] <==> w.kernel == map[])
  {
    hide IsRun, Run, Distinct, Holds, Delivers, Supplied, Boxed, HeadersKept;
    StartSafe(connections);
    SameSlots(Start(connections), steps);
    RunSafe(Start(connections), steps);
    forall i | 0 <= i < connections
      ensures Delivers(Run(Start(connections), steps).conns[i], Supplied(Start(connections), steps, i, []))
    {
      DeliversAll(connections, steps, i);
    }
    NothingOutstanding(Run(Start(connections), steps));
    HeadersAreKept(Run(Start(connections), steps));
  }
}
