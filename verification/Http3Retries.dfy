/**
 How many times an HTTP/3 run sends its requests, at most, and when a request
 given back by a connection that answers is not sent again.
 */
module Http3Retries {
  import opened Wrappers
  import opened Budgets
  import Sums
  import opened Ledgers
  import opened Http3Accounting
  import opened Http3Limits

  // ---- A bound on every run ----

  /** A refund is of a request not finished, so not everything was answered. */
  lemma SettleRefunds(c: ConnView, l: Ledger, p: Pass, n: nat, parallel: nat, others: nat, spare: int)
    requires Balanced(c, l, Requests(n), parallel, others, spare) && !c.closing
    ensures var l' := Settle(c, l, p, parallel).1;
            l'.refunded == l.refunded || l'.tally.completed < n
  {
    hide Settle, ConnOk, Having, CutOff;
    GiveBacksSettle(c, l, p, parallel);
    SettleKeeps(c, l, p, Requests(n), parallel, others, spare);
  }

  lemma {:induction false} OpeningLeaves(c: ConnView, l: Ledger, grants: seq<nat>, b: Budget, parallel: nat)
    ensures var l' := OpenStreams(c, l, grants, b, parallel).1; l'.refunded == l.refunded && l'.tally == l.tally
    decreases |grants|
  {
    if grants != [] && |c.streams| < parallel && b.MayStart(l.started) {
      OpeningLeaves(Opened(c, grants[0]), l.Open(), grants[1..], b, parallel);
    }
  }

  lemma DriveRefunds(c: ConnView, l: Ledger, p: Pass, n: nat, parallel: nat, stop: bool, others: nat, spare: int)
    requires Balanced(c, l, Requests(n), parallel, others, spare) && !c.closing
    requires p.connects.Some? ==> !c.ready && !c.settingUp
    ensures var l' := Drive(c, l, p, Requests(n), parallel, stop).0.1;
            l'.refunded == l.refunded || l'.tally.completed < n
  {
    hide Read, Settle, Balanced, OpenStreams;
    if c.up {
      ReadKeeps(c, l, p, Requests(n), parallel, others, spare);
      SettleRefunds(Read(c, p), l, p, n, parallel, others, spare);
      var (c1, l1) := Settle(Read(c, p), l, p, parallel);
      OpeningLeaves(SetUp(c1, p), l1, p.grants, Requests(n), parallel);
    }
  }

  lemma StepRefunds(c: ConnView, l: Ledger, step: Step, n: nat, parallel: nat, stop: bool, others: nat, spare: int)
    requires Balanced(c, l, Requests(n), parallel, others, spare) && !step.Deadline?
    requires Possible(World([c], l, stop), step.(i := 0))
    ensures var l' := StepConn(c, l, step, Requests(n), parallel, stop).1;
            l'.refunded == l.refunded || l'.tally.completed < n
  {
    hide Drive, Balanced;
    if step.Driven? {
      DriveRefunds(c, l, step.pass, n, parallel, stop, others, spare);
    }
  }

  lemma {:induction false} RunRefunds(w: World, steps: seq<Step>, n: nat, parallel: nat)
    requires n >= 1 && WorldOk(w, Requests(n), parallel) && IsRun(w, steps, Requests(n), parallel)
    requires w.ledger.refunded <= parallel * (n - 1)
    ensures Run(w, steps, Requests(n), parallel).ledger.refunded <= parallel * (n - 1)
    decreases |steps|
  {
    hide WorldOk, Possible, StepConn;
    if steps != [] {
      var step, b := steps[0], Requests(n);
      NextKeeps(w, step, b, parallel);
      var w' := Next(w, step, b, parallel);
      if !step.Deadline? {
        PossibleAlone(w, step);
        var others := OthersOwe(w, step.i, b, parallel);
        StepRefunds(w.conns[step.i], w.ledger, step, n, parallel, w.stop, others,
                    Sums.Sum(CreditAll(w.conns, parallel)) - Credit(w.conns[step.i], parallel));
        RetriesBounded(w', b, parallel);
        if w'.ledger.tally.completed < n {
          NoLess(parallel, w'.ledger.tally.completed, n - 1);
        }
      }
      RunRefunds(w', steps[1..], n, parallel);
    }
  }

  /** No run of `n` requests opens more than `n` streams and `parallel` more
      for every request but one. */
  lemma OpensAtMost(connections: nat, n: nat, parallel: nat, steps: seq<Step>)
    requires connections > 0 && n >= 1
    requires IsRun(Start(connections, Requests(n)), steps, Requests(n), parallel)
    ensures Run(Start(connections, Requests(n)), steps, Requests(n), parallel).ledger.begun <= n + parallel * (n - 1)
  {
    hide IsRun, Run, Start, WorldOk;
    var w := Start(connections, Requests(n));
    StartOk(connections, Requests(n), parallel);
    NothingRefunded(connections, Requests(n));
    NoLess(parallel, 0, n - 1);
    RunRefunds(w, steps, n, parallel);
    RunKeeps(w, steps, Requests(n), parallel);
    OpenedWithin(Run(w, steps, Requests(n), parallel), n, parallel, parallel * (n - 1));
  }

  lemma NothingRefunded(connections: nat, b: Budget)
    ensures Start(connections, b).ledger.refunded == 0
  {
  }

  lemma OpenedWithin(w: World, n: nat, parallel: nat, most: int)
    requires WorldOk(w, Requests(n), parallel) && w.ledger.refunded <= most
    ensures w.ledger.begun <= n + most
  {
    hide WorldOk;
    Totals(w, Requests(n), parallel);
  }

  // ---- A run that attains it ----

  /** The first connection is up with one request in flight; so many have been
      answered on it and so many sent again, and nothing else has happened. */
  ghost predicate Serving(w: World, answered: nat, again: nat) {
    && |w.conns| > 0 && !w.stop
    && w.ledger.started == answered + 1 && w.ledger.begun == answered + 1 + again
    && w.ledger.tally.completed == answered && w.ledger.tally.errors == 0
    && var c := w.conns[0];
       && c.up && c.ready && !c.settingUp && !c.closing && c.goaway.None?
       && c.gb == GiveBacks(answered, 0, again)
       && exists id :: c.streams.Keys == {id}
  }

  /** A pass in which one stream ends, and one more can be opened. */
  function OnePass(connects: Option<bool>, feeds: seq<Feed>, finished: seq<Finish>, at: nat): Pass {
    Pass(connects, false, feeds, [], false, finished, false, [at], 0)
  }

  lemma OpenOne(c: ConnView, l: Ledger, at: nat, n: nat, parallel: nat)
    requires c.streams == map[] && parallel > 0 && l.started < n
    ensures OpenStreams(c, l, [at], Requests(n), parallel) == (Opened(c, at), l.Open())
    ensures Opened(c, at).streams.Keys == {c.nextId}
  {
    assert [at][1..] == [];
  }

  lemma OpensFirst(connections: nat, n: nat, parallel: nat) returns (step: Step)
    requires connections >= 1 && n >= 1 && parallel >= 1
    ensures Possible(Start(connections, Requests(n)), step)
    ensures Serving(Next(Start(connections, Requests(n)), step, Requests(n), parallel), 0, 0)
  {
    hide Settle, OpenStreams;
    var p := OnePass(Some(true), [], [], 0);
    step := Driven(0, p, false);
    var w := Start(connections, Requests(n));
    var c := w.conns[0].(ready := true);
    assert Read(w.conns[0], p) == c;
    NothingToSettle(c, w.ledger, p, parallel);
    OpenOne(c, w.ledger, 0, n, parallel);
    assert Next(w, step, Requests(n), parallel).conns[0] == Opened(c, 0);
    assert Next(w, step, Requests(n), parallel).ledger == w.ledger.Open();
    assert Opened(c, 0).streams.Keys == {0};
    assert Possible(w, step);
  }

  /** The only stream in flight ends, and leaves no verdict to wait for. */
  lemma SettlesOne(c: ConnView, l: Ledger, p: Pass, f: Finish, parallel: nat)
    requires c.streams.Keys == {f.id} && p.finished == [f] && c.goaway.None?
    requires c.gb.unjudged == 0 && ApplyFinish(c, l, f, p.now, parallel).0.gb.unjudged == 0
    ensures Settle(c, l, p, parallel) == ApplyFinish(c, l, f, p.now, parallel)
    ensures Settle(c, l, p, parallel).0.streams == map[]
  {
    assert (c.streams - {f.id}).Keys == {} && c.streams - {f.id} == map[];
    assert f.id in c.streams;
    var (c1, l1) := ApplyFinish(c, l, f, p.now, parallel);
    assert c1.streams == map[] && c1.goaway == c.goaway;
    assert ApplyFinishes(c, l, [f], p.now, parallel) == (c1, l1) by {
      hide ApplyFinish;
      assert [f][1..] == [];
      assert ApplyFinishes(c1, l1, [], p.now, parallel) == (c1, l1);
    }
  }

  lemma AnswersNext(w: World, answered: nat, n: nat, parallel: nat) returns (step: Step)
    requires Serving(w, answered, 0) && answered + 2 <= n && parallel >= 1
    ensures Possible(w, step) && Serving(Next(w, step, Requests(n), parallel), answered + 1, 0)
  {
    hide Settle, OpenStreams;
    var c, l := w.conns[0], w.ledger;
    var id :| c.streams.Keys == {id};
    var f := Finish(id, None);
    var p := OnePass(None, [Feed(id, 200)], [f], c.newest);
    step := Driven(0, p, false);
    var read := c.(streams := c.streams[id := c.streams[id].(status := 200)]);
    assert ApplyFeeds(c.streams, p.feeds) == read.streams by {
      assert [Feed(id, 200)][1..] == [];
    }
    assert read.streams.Keys == {id};
    SettlesOne(read, l, p, f, parallel);
    var (c1, l1) := Settle(read, l, p, parallel);
    OpenOne(c1, l1, c.newest, n, parallel);
  }

  /** The pass in which the server turns the request in flight away. */
  ghost function TurnAway(c: ConnView, id: nat): Pass {
    OnePass(None, [], [Finish(id, Some(H3_REQUEST_REJECTED))], c.newest)
  }

  lemma RejectsNext(w: World, answered: nat, again: nat, n: nat, parallel: nat) returns (step: Step)
    requires Serving(w, answered, again) && again < parallel * answered && answered + 1 <= n && parallel >= 1
    ensures Possible(w, step) && Serving(Next(w, step, Requests(n), parallel), answered, again + 1)
  {
    hide Settle, OpenStreams;
    var c, l := w.conns[0], w.ledger;
    var id :| c.streams.Keys == {id};
    var p := TurnAway(c, id);
    step := Driven(0, p, false);
    assert answered > 0 by {
      assert answered == 0 ==> parallel * answered == 0;
    }
    SettlesOne(c, l, p, p.finished[0], parallel);
    var (c1, l1) := Settle(c, l, p, parallel);
    OpenOne(c1, l1, c.newest, n, parallel);
  }

  /** All but one request answered. */
  lemma {:induction false} AnswersMany(connections: nat, n: nat, parallel: nat, answered: nat) returns (steps: seq<Step>)
    requires connections >= 1 && parallel >= 1 && answered + 1 <= n
    ensures IsRun(Start(connections, Requests(n)), steps, Requests(n), parallel)
    ensures Serving(Run(Start(connections, Requests(n)), steps, Requests(n), parallel), answered, 0)
    decreases answered
  {
    var w, b := Start(connections, Requests(n)), Requests(n);
    hide Serving, Next, Possible, Start;
    if answered == 0 {
      var step := OpensFirst(connections, n, parallel);
      RunNothing(w, b, parallel);
      RunSnoc(w, [], step, b, parallel);
      steps := [] + [step];
    } else {
      var before := AnswersMany(connections, n, parallel, answered - 1);
      var step := AnswersNext(Run(w, before, b, parallel), answered - 1, n, parallel);
      RunSnoc(w, before, step, b, parallel);
      steps := before + [step];
    }
  }

  /** The last one turned away, as often as the bound allows. */
  lemma {:induction false} RejectsMany(connections: nat, n: nat, parallel: nat, again: nat) returns (steps: seq<Step>)
    requires connections >= 1 && parallel >= 1 && n >= 1 && again <= parallel * (n - 1)
    ensures IsRun(Start(connections, Requests(n)), steps, Requests(n), parallel)
    ensures Serving(Run(Start(connections, Requests(n)), steps, Requests(n), parallel), n - 1, again)
    decreases again
  {
    var w, b := Start(connections, Requests(n)), Requests(n);
    hide Serving, Next, Possible, Start;
    if again == 0 {
      steps := AnswersMany(connections, n, parallel, n - 1);
    } else {
      var before := RejectsMany(connections, n, parallel, again - 1);
      var step := RejectsNext(Run(w, before, b, parallel), n - 1, again - 1, n, parallel);
      RunSnoc(w, before, step, b, parallel);
      steps := before + [step];
    }
  }

  lemma OpensAsMany(connections: nat, n: nat, parallel: nat) returns (steps: seq<Step>)
    requires connections >= 1 && n >= 1 && parallel >= 1
    ensures IsRun(Start(connections, Requests(n)), steps, Requests(n), parallel)
    ensures Run(Start(connections, Requests(n)), steps, Requests(n), parallel).ledger.begun == n + parallel * (n - 1)
  {
    assert parallel * (n - 1) >= 0;
    steps := RejectsMany(connections, n, parallel, parallel * (n - 1));
  }

  /** The least number that no run of `n` requests opens more streams than. */
  lemma LeastBound(connections: nat, n: nat, parallel: nat, bound: nat)
    requires connections >= 1 && n >= 1 && parallel >= 1
    ensures (forall steps :: IsRun(Start(connections, Requests(n)), steps, Requests(n), parallel) ==>
               Run(Start(connections, Requests(n)), steps, Requests(n), parallel).ledger.begun <= bound)
       <==> n + parallel * (n - 1) <= bound
  {
    hide IsRun, Run, Start;
    if n + parallel * (n - 1) <= bound {
      forall steps | IsRun(Start(connections, Requests(n)), steps, Requests(n), parallel)
        ensures Run(Start(connections, Requests(n)), steps, Requests(n), parallel).ledger.begun <= bound
      {
        OpensAtMost(connections, n, parallel, steps);
      }
    } else {
      var steps := OpensAsMany(connections, n, parallel);
    }
  }

  // ---- When all of them are sent again ----

  /** If the step settles what was given back, and there is an answer to the
      connection's name by then, all of it is sent again. */
  ghost predicate AllAgain(c: ConnView, l: Ledger, step: Step, parallel: nat) {
    step.Driven? && c.up && !step.pass.aborts ==>
      var r := Read(c, step.pass);
      var (c', l') := Settle(r, l, step.pass, parallel);
      c'.gb.completed > 0 ==> l'.refunded - l.refunded == GivenBackIn(r, step.pass.finished)
  }

  ghost predicate AlwaysAgain(w: World, steps: seq<Step>, b: Budget, parallel: nat)
    requires IsRun(w, steps, b, parallel)
    decreases |steps|
  {
    steps == [] ||
    (&& (!steps[0].Deadline? ==> AllAgain(w.conns[steps[0].i], w.ledger, steps[0], parallel))
     && AlwaysAgain(Next(w, steps[0], b, parallel), steps[1..], b, parallel))
  }

  /** With one request at most, an answer leaves nothing to give back; without
      streams there is nothing to give back at all. */
  lemma StepAgain(c: ConnView, l: Ledger, step: Step, n: nat, parallel: nat, stop: bool, others: nat, spare: int)
    requires Balanced(c, l, Requests(n), parallel, others, spare) && Judged(c) && !step.Deadline?
    requires Possible(World([c], l, stop), step.(i := 0)) && (n <= 1 || parallel == 0)
    ensures AllAgain(c, l, step, parallel)
  {
    if step.Driven? && c.up && !step.pass.aborts {
      hide Settle, Read, Having;
      var p := step.pass;
      ReadKeeps(c, l, p, Requests(n), parallel, others, spare);
      ReadLeaves(c, p);
      var r := Read(c, p);
      SettleKeeps(r, l, p, Requests(n), parallel, others, spare);
      GiveBacksSettle(r, l, p, parallel);
      if parallel == 0 {
        assert r.streams == map[];
        NothingToSettle(r, l, p, parallel);
        NoneGivenBack(r, p.finished);
      }
    }
  }

  lemma ReadLeaves(c: ConnView, p: Pass)
    ensures Read(c, p).gb == c.gb
  {
  }

  lemma NoneGivenBack(c: ConnView, fs: seq<Finish>)
    requires c.streams == map[] && c.gb.unjudged == 0
    ensures GivenBackIn(c, fs) == 0
  {
    assert Having(c.streams, fs, c.goaway, GivenBack) == {};
    if c.goaway.Some? {
      assert Unended(c.streams, fs, c.goaway) == map[];
      assert Under(map[], c.goaway.value) == map[];
    }
  }

  lemma {:induction false} RunAgain(w: World, steps: seq<Step>, n: nat, parallel: nat)
    requires WorldOk(w, Requests(n), parallel) && IsRun(w, steps, Requests(n), parallel) && (n <= 1 || parallel == 0)
    ensures AlwaysAgain(w, steps, Requests(n), parallel)
    decreases |steps|
  {
    if steps != [] {
      hide Possible, Next, AllAgain, ConnOk, LedgerOk, Attended;
      var step, b := steps[0], Requests(n);
      NextKeeps(w, step, b, parallel);
      if !step.Deadline? {
        PossibleAlone(w, step);
        var others := OthersOwe(w, step.i, b, parallel);
        StepAgain(w.conns[step.i], w.ledger, step, n, parallel, w.stop, others,
                  Sums.Sum(CreditAll(w.conns, parallel)) - Credit(w.conns[step.i], parallel));
      }
      RunAgain(Next(w, step, b, parallel), steps[1..], n, parallel);
    }
  }

  /** One request too many turned away is an error, although its connection has
      answered everything else. */
  lemma TurnedAwayForGood(w: World, n: nat, parallel: nat) returns (step: Step)
    requires n >= 2 && parallel >= 1 && Serving(w, n - 1, parallel * (n - 1))
    ensures Possible(w, step) && !step.Deadline? && !AllAgain(w.conns[step.i], w.ledger, step, parallel)
    ensures Next(w, step, Requests(n), parallel).ledger.tally.errors == 1
  {
    hide Settle, OpenStreams;
    var c, l := w.conns[0], w.ledger;
    var id :| c.streams.Keys == {id};
    var p := TurnAway(c, id);
    step := Driven(0, p, false);
    SettlesOne(c, l, p, p.finished[0], parallel);
    assert Read(c, p) == c;
    OneGivenBack(c, p, id);
    var (c1, l1) := Settle(c, l, p, parallel);
    OpeningLeaves(c1, l1, p.grants, Requests(n), parallel);
  }

  lemma OneGivenBack(c: ConnView, p: Pass, id: nat)
    requires c.streams.Keys == {id} && p == TurnAway(c, id) && c.goaway.None? && c.gb.unjudged == 0
    ensures GivenBackIn(c, p.finished) == 1
  {
    var fs := p.finished;
    assert id in c.streams;
    assert Having(c.streams, fs, c.goaway, GivenBack) == {id} by {
      assert VerdictFor(id, c.streams[id], fs, c.goaway) == Some(GivenBack);
      assert forall k :: k in c.streams ==> k == id;
    }
  }

  lemma {:induction false} BrokenAtTheEnd(w: World, steps: seq<Step>, last: Step, b: Budget, parallel: nat)
    requires IsRun(w, steps, b, parallel) && Possible(Run(w, steps, b, parallel), last) && !last.Deadline?
    requires !AllAgain(Run(w, steps, b, parallel).conns[last.i], Run(w, steps, b, parallel).ledger, last, parallel)
    ensures IsRun(w, steps + [last], b, parallel) && !AlwaysAgain(w, steps + [last], b, parallel)
    decreases |steps|
  {
    RunSnoc(w, steps, last, b, parallel);
    hide Possible, Next, AllAgain;
    if steps == [] {
      assert steps + [last] == [last];
    } else {
      assert (steps + [last])[1..] == steps[1..] + [last];
      BrokenAtTheEnd(Next(w, steps[0], b, parallel), steps[1..], last, b, parallel);
    }
  }

  /** A run of two requests or more in which a connection that has answered all
      the others has a give-back counted as an error. */
  lemma NotSentAgain(connections: nat, n: nat, parallel: nat) returns (steps: seq<Step>)
    requires connections >= 1 && n >= 2 && parallel >= 1
    ensures IsRun(Start(connections, Requests(n)), steps, Requests(n), parallel)
    ensures !AlwaysAgain(Start(connections, Requests(n)), steps, Requests(n), parallel)
    ensures var t := Run(Start(connections, Requests(n)), steps, Requests(n), parallel).ledger.tally; t.errors == 1
  {
    var w, b := Start(connections, Requests(n)), Requests(n);
    assert parallel * (n - 1) >= 0;
    hide Serving, Next, Possible, Start, AllAgain;
    var before := RejectsMany(connections, n, parallel, parallel * (n - 1));
    var last := TurnedAwayForGood(Run(w, before, b, parallel), n, parallel);
    BrokenAtTheEnd(w, before, last, b, parallel);
    RunSnoc(w, before, last, b, parallel);
    steps := before + [last];
  }

  /** Exactly when every run sends again all that is given back by connections
      that answer: with one request at most, or no streams at all. */
  lemma AlwaysAgainExactlyWhen(connections: nat, n: nat, parallel: nat)
    requires connections > 0
    ensures (forall steps :: IsRun(Start(connections, Requests(n)), steps, Requests(n), parallel) ==>
               AlwaysAgain(Start(connections, Requests(n)), steps, Requests(n), parallel))
       <==> n <= 1 || parallel == 0
  {
    if n <= 1 || parallel == 0 {
      StartOk(connections, Requests(n), parallel);
      hide IsRun, Start, AlwaysAgain, WorldOk;
      forall steps | IsRun(Start(connections, Requests(n)), steps, Requests(n), parallel)
        ensures AlwaysAgain(Start(connections, Requests(n)), steps, Requests(n), parallel)
      {
        RunAgain(Start(connections, Requests(n)), steps, n, parallel);
      }
    } else {
      hide IsRun, Start, AlwaysAgain;
      var steps := NotSentAgain(connections, n, parallel);
    }
  }
}
