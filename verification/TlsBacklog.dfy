/**
 Plaintext waiting for a TLS session to take it.

 The session (rustls in the program) is an `Engine` that accepts any prefix of
 what it is offered, or fails. What is proved is that whichever of the two
 write paths is used, and however little the engine takes at a time, the bytes
 come out in the order they were written, each once.
 */
module TlsBacklog {
  import opened Wrappers

  type Bytes = seq<bv8>

  /** Ciphertext, as what it carries: nothing of ours, or some of our bytes. */
  datatype Record = Control | Data(plain: Bytes)

  ghost function Plain(records: seq<Record>): Bytes {
    if records == [] then []
    else
      var init, last := records[..|records| - 1], records[|records| - 1];
      Plain(init) + if last.Data? then last.plain else []
  }

  lemma {:induction false} PlainConcat(a: seq<Record>, b: seq<Record>)
    ensures Plain(a + b) == Plain(a) + Plain(b)
  {
    if b == [] {
      assert a + b == a;
    } else {
      assert (a + b)[..|a + b| - 1] == a + b[..|b| - 1];
      PlainConcat(a, b[..|b| - 1]);
    }
  }

  /** A TLS session with a bounded plaintext buffer. */
  class Engine {
    var handshaking: bool
    /** Most plaintext it will hold unencrypted. */
    const limit: nat
    /** Accepted, and not yet in any ciphertext taken out. */
    var buffered: Bytes
    /** Handshake and alert records waiting to be taken out. */
    var control: nat
    /** Everything ever accepted, and every record ever taken out. */
    ghost var accepted: Bytes
    ghost var wire: seq<Record>
    /** How often it has failed. */
    ghost var failures: nat

    ghost predicate Valid()
      reads this
    {
      accepted == Plain(wire) + buffered
    }

    constructor (limit: nat, control: nat)
      ensures Valid() && handshaking && accepted == [] && wire == [] && failures == 0
    {
      handshaking, this.limit, buffered, this.control := true, limit, [], control;
      accepted, wire, failures := [], [], 0;
    }

    /** Accept a prefix of `data`, no more than there is room for and not
        nothing if there is room; or fail, accepting nothing. */
    method Write(data: Bytes) returns (r: Result<nat, ()>)
      requires Valid()
      modifies this`buffered, this`accepted, this`failures
      ensures Valid()
      ensures failures == old(failures) + if r.Err? then 1 else 0
      ensures r.Err? ==> buffered == old(buffered) && accepted == old(accepted)
      ensures r.Ok? ==>
                && r.value <= |data|
                && buffered == old(buffered) + data[..r.value]
                && accepted == old(accepted) + data[..r.value]
                && (r.value == 0 && data != [] ==> limit <= |buffered|)
    {
      var fails: bool := *;
      if fails {
        failures := failures + 1;
        return Err(());
      }
      var room := if |buffered| < limit then limit - |buffered| else 0;
      var most := if |data| < room then |data| else room;
      var n: nat;
      if most == 0 {
        n := 0;
      } else {
        n :| 1 <= n <= most;
      }
      buffered := buffered + data[..n];
      accepted := accepted + data[..n];
      return Ok(n);
    }

    /** The `wants_write`/`write_tls` loop: take out every record there is.
        During a handshake plaintext is only held. */
    method Drain() returns (records: seq<Record>)
      requires Valid()
      modifies this`buffered, this`control, this`wire
      ensures Valid() && wire == old(wire) + records
      ensures control == 0 && buffered == if handshaking then old(buffered) else []
      ensures records == [] <==> old(control) == 0 && (handshaking || old(buffered) == [])
    {
      records := seq(control, _ => Control);
      ControlIsPlainless(records);
      if !handshaking && buffered != [] {
        PlainConcat(records, [Data(buffered)]);
        assert Plain([Data(buffered)]) == buffered by {
          assert [Data(buffered)][..0] == [];
        }
        records := records + [Data(buffered)];
      }
      PlainConcat(wire, records);
      assert handshaking ==> Plain(records) == [];
      assert !handshaking ==> Plain(records) == buffered;
      if !handshaking {
        buffered := [];
      }
      control := 0;
      wire := wire + records;
    }
  }

  lemma {:induction false} ControlIsPlainless(records: seq<Record>)
    requires forall i :: 0 <= i < |records| ==> records[i] == Control
    ensures Plain(records) == []
  {
    if records != [] {
      ControlIsPlainless(records[..|records| - 1]);
    }
  }

  class TlsSession {
    const engine: Engine
    /** Plaintext the engine would not take yet. */
    var pending: Bytes
    /** Prefix of it already accepted. */
    var pos: nat
    /** Everything ever written here; bytes ever accepted out of `pending`;
        and bytes ever moved to reclaim their room. */
    ghost var written: Bytes
    ghost var consumed: nat
    ghost var moved: nat

    ghost predicate Valid()
      reads this, engine
    {
      && engine.Valid()
      && pos <= |pending|
      && (pending != [] ==> pos < |pending|)
      && written == engine.accepted + pending[pos..]
      && moved + pos <= consumed
    }

    constructor (engine: Engine)
      requires engine.Valid() && engine.accepted == []
      ensures Valid() && this.engine == engine && written == [] && moved == 0 && consumed == 0
    {
      this.engine, pending, pos, written, consumed, moved := engine, [], 0, [], 0, 0;
    }

    /** Offer the backlog once. */
    method OfferPending() returns (n: Result<nat, ()>)
      requires Valid() && pending != []
      modifies this`pending, this`pos, this`consumed, engine`buffered, engine`accepted, engine`failures
      ensures Valid()
      ensures engine.failures == old(engine.failures) + if n.Err? then 1 else 0
      ensures n.Err? || n.value == 0 ==>
                pending == old(pending) && pos == old(pos) && engine.buffered == old(engine.buffered)
      ensures n.Ok? && n.value == 0 ==> engine.limit <= |engine.buffered|
      ensures n.Ok? && n.value > 0 ==> |pending| - pos < old(|pending| - pos)
    {
      hide Plain;
      var offered := pending[pos..];
      n := engine.Write(offered);
      if n.Ok? {
        assert offered == offered[..n.value] + offered[n.value..];
        assert pending[pos + n.value..] == offered[n.value..];
        pos := pos + n.value;
        consumed := consumed + n.value;
        if pos == |pending| {
          pending, pos := [], 0;
        }
      }
    }

    /** Offer the backlog until the engine refuses, fails, or has all of it. */
    method PushPlaintext() returns (r: Result<(), ()>)
      requires Valid()
      modifies this`pending, this`pos, this`consumed, engine`buffered, engine`accepted, engine`failures
      ensures Valid()
      ensures engine.failures == old(engine.failures) + if r.Err? then 1 else 0
      ensures |pending[pos..]| <= old(|pending[pos..]|)
      ensures |pending[pos..]| == old(|pending[pos..]|) ==> engine.buffered == old(engine.buffered)
      ensures r.Ok? && pending != [] ==> engine.limit <= |engine.buffered|
    {
      hide Plain;
      while pending != []
        invariant Valid() && engine.failures == old(engine.failures)
        invariant |pending[pos..]| <= old(|pending[pos..]|)
        invariant |pending[pos..]| == old(|pending[pos..]|) ==> engine.buffered == old(engine.buffered)
        decreases |pending| - pos
      {
        var n := OfferPending();
        if n.Err? {
          return Err(());
        }
        if n.value == 0 {
          break;
        }
      }
      return Ok(());
    }

    /** Queue plaintext behind what is waiting. The consumed prefix is
        reclaimed only when the append needs room (`tight`) and at least half
        of the buffer is consumed, so each byte moved is paid for by a byte
        consumed. */
    method WritePlaintext(data: Bytes, tight: bool) returns (r: Result<(), ()>)
      requires Valid()
      modifies this, engine`buffered, engine`accepted, engine`failures
      ensures Valid() && written == old(written) + data
      ensures engine.failures == old(engine.failures) + if r.Err? then 1 else 0
    {
      hide Plain;
      var remaining := |pending| - pos;
      if tight && pos >= remaining {
        moved := moved + remaining;
        pending, pos := pending[pos..], 0;
      }
      assert (pending + data)[pos..] == pending[pos..] + data;
      pending := pending + data;
      written := written + data;
      r := PushPlaintext();
    }

    /** Whether a drain would make ciphertext. */
    ghost predicate Ready()
      reads this, engine
    {
      engine.control > 0 || (!engine.handshaking && engine.buffered != [])
    }

    /** Everything written has left as ciphertext, and nothing else has. */
    ghost predicate AllOut()
      reads this, engine
    {
      pending == [] && engine.buffered == [] && Plain(engine.wire) == written
    }

    /** Drain ciphertext, offering the backlog again as room is freed. */
    method TakeCiphertext() returns (r: Result<(), ()>, out: seq<Record>)
      requires Valid()
      modifies this`pending, this`pos, this`consumed, engine`buffered, engine`accepted, engine`failures, engine`control, engine`wire
      ensures Valid()
      ensures engine.failures == old(engine.failures) + if r.Err? then 1 else 0
      ensures engine.wire == old(engine.wire) + out
      ensures r.Ok? ==> engine.control == 0
      ensures r.Ok? && !engine.handshaking && engine.limit > 0 ==> AllOut()
    {
      hide Plain;
      out := [];
      while true
        invariant Valid() && engine.failures == old(engine.failures)
        invariant engine.wire == old(engine.wire) + out
        decreases |pending| - pos, if Ready() then 1 else 0
      {
        r := PushPlaintext();
        if r.Err? {
          return;
        }
        var records := engine.Drain();
        out := out + records;
        if pending == [] || records == [] {
          break;
        }
      }
    }

    /** Encrypt borrowed plaintext and drain as it goes: an established
        session with no backlog is offered the input itself, and only what it
        will not take is copied. */
    method WritePlaintextAndTakeCiphertext(data: Bytes, tight: bool) returns (r: Result<(), ()>, out: seq<Record>)
      requires Valid()
      modifies this, engine`buffered, engine`accepted, engine`failures, engine`control, engine`wire
      ensures Valid() && written == old(written) + data
      ensures engine.failures == old(engine.failures) + if r.Err? then 1 else 0
      ensures engine.wire == old(engine.wire) + out
      ensures r.Ok? ==> engine.control == 0
      ensures r.Ok? && !engine.handshaking && engine.limit > 0 ==> AllOut()
    {
      if engine.handshaking || pending != [] {
        r := WritePlaintext(data, tight);
        if r.Err? {
          return r, [];
        }
        r, out := TakeCiphertext();
        return;
      }
      r, out := BorrowPlaintext(data);
    }

    /** The borrowing path. */
    method BorrowPlaintext(data: Bytes) returns (r: Result<(), ()>, out: seq<Record>)
      requires Valid() && !engine.handshaking && pending == []
      modifies this, engine`buffered, engine`accepted, engine`failures, engine`control, engine`wire
      ensures Valid() && written == old(written) + data
      ensures engine.failures == old(engine.failures) + if r.Err? then 1 else 0
      ensures engine.wire == old(engine.wire) + out
      ensures r.Ok? ==> engine.control == 0
      ensures r.Ok? && engine.limit > 0 ==> AllOut()
    {
      hide Plain;
      r, out := Ok(()), [];
      var at := 0;
      written := written + data;
      while true
        invariant at <= |data| && pending == [] && pos == 0 && moved <= consumed
        invariant engine.Valid() && written == engine.accepted + data[at..] == old(written) + data
        invariant engine.wire == old(engine.wire) + out && engine.failures == old(engine.failures)
        decreases |data| - at, if Ready() then 1 else 0
      {
        ghost var before := at;
        r, at := OfferBorrowed(data, at);
        assert data[before..] == data[before..at] + data[at..];
        assert data[at..][0..] == data[at..];
        if r.Err? {
          pending := data[at..];
          return;
        }
        var records := engine.Drain();
        out := out + records;
        if at == |data| {
          assert data[at..] == [];
          break;
        }
        if records == [] {
          pending := data[at..];
          break;
        }
      }
    }

    /** Offer the rest of the input until the engine takes no more of it. */
    method OfferBorrowed(data: Bytes, from: nat) returns (r: Result<(), ()>, at: nat)
      requires engine.Valid() && from <= |data|
      modifies engine`buffered, engine`accepted, engine`failures
      ensures engine.Valid() && from <= at <= |data|
      ensures engine.failures == old(engine.failures) + if r.Err? then 1 else 0
      ensures engine.accepted == old(engine.accepted) + data[from..at]
      ensures at == from ==> engine.buffered == old(engine.buffered)
      ensures r.Ok? && at < |data| ==> engine.limit <= |engine.buffered|
    {
      at := from;
      while at < |data|
        invariant engine.Valid() && from <= at <= |data| && engine.failures == old(engine.failures)
        invariant engine.accepted == old(engine.accepted) + data[from..at]
        invariant at == from ==> engine.buffered == old(engine.buffered)
      {
        var n := engine.Write(data[at..]);
        if n.Err? {
          return Err(()), at;
        }
        if n.value == 0 {
          break;
        }
        assert data[from..at + n.value] == data[from..at] + data[at..][..n.value];
        at := at + n.value;
      }
      r := Ok(());
    }
  }

  // ---- Whole sessions ----

  datatype Op =
    | Write(data: Bytes, tight: bool)
    | WriteAndTake(data: Bytes, tight: bool)
    | Take
    /** Input from the peer: records to answer it with, and perhaps the end of
        the handshake. */
    | Feed(control: nat, finished: bool)

  ghost function Written(ops: seq<Op>): Bytes {
    if ops == [] then []
    else
      var last := ops[|ops| - 1];
      Written(ops[..|ops| - 1]) + if last.Write? || last.WriteAndTake? then last.data else []
  }

  method Apply(s: TlsSession, op: Op) returns (r: Result<(), ()>, out: seq<Record>)
    requires s.Valid()
    modifies s, s.engine
    ensures s.Valid()
    ensures s.written == old(s.written) + if op.Write? || op.WriteAndTake? then op.data else []
    ensures s.engine.wire == old(s.engine.wire) + out
    ensures s.engine.failures == old(s.engine.failures) + if r.Err? then 1 else 0
  {
    hide Plain;
    r, out := Ok(()), [];
    match op {
      case Write(data, tight) => r := s.WritePlaintext(data, tight);
      case WriteAndTake(data, tight) => r, out := s.WritePlaintextAndTakeCiphertext(data, tight);
      case Take => r, out := s.TakeCiphertext();
      case Feed(control, finished) =>
        s.engine.control := s.engine.control + control;
        if finished {
          s.engine.handshaking := false;
        }
    }
  }

  /** Any session, up to its end or its first error: what has gone out, what
      the engine holds and what is still waiting are, in that order, exactly
      what was written; and no more bytes were moved than were consumed. */
  method RunSession(limit: nat, ops: seq<Op>) returns (s: TlsSession, out: seq<Record>, done: nat)
    ensures done <= |ops| && s.Valid()
    ensures Plain(out) + s.engine.buffered + s.pending[s.pos..] == Written(ops[..done])
    ensures s.moved <= s.consumed
    ensures done < |ops| ==> s.engine.failures == 1
  {
    hide Plain;
    var engine := new Engine(limit, 1);
    s := new TlsSession(engine);
    out, done := [], 0;
    while done < |ops|
      invariant done <= |ops| && fresh(s) && fresh(s.engine) && s.Valid()
      invariant s.written == Written(ops[..done]) && s.engine.wire == out && s.engine.failures == 0
    {
      assert ops[..done + 1][..done] == ops[..done];
      var r, records := Apply(s, ops[done]);
      out, done := out + records, done + 1;
      if r.Err? {
        break;
      }
    }
  }

  /** Borrowing and queueing put the same bytes on the wire. */
  method PathsAgree(a: TlsSession, b: TlsSession, data: Bytes, tight: bool) returns (ok: bool)
    requires a.Valid() && b.Valid() && a != b && a.engine != b.engine
    requires a.written == b.written && a.pending == [] && !a.engine.handshaking && !b.engine.handshaking
    requires a.engine.limit > 0 && b.engine.limit > 0
    modifies a, b, a.engine, b.engine
    ensures ok <==> a.engine.failures == old(a.engine.failures) && b.engine.failures == old(b.engine.failures)
    ensures ok ==> Plain(a.engine.wire) == Plain(b.engine.wire) == old(a.written) + data
  {
    hide Plain;
    var r, _ := a.WritePlaintextAndTakeCiphertext(data, tight);
    var q := b.WritePlaintext(data, tight);
    var t, _ := b.TakeCiphertext();
    ok := r.Ok? && q.Ok? && t.Ok?;
  }
}
