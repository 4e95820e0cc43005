/**
 Connection slots waiting to be flushed, one bit each.

 The specification is a plain set of slots. `Mark` adds one; `Drain` visits
 them in ascending order and leaves none, by a run over a full word and by
 clearing the lowest bit of any other.
 */
module PendingFlush {
  /** Bit `k` of a word. */
  predicate Has(w: bv64, k: bv6) {
    (w >> k) & 1 == 1
  }

  /** No bit below `k` is set. */
  predicate LowClear(w: bv64, k: bv6) {
    w & ((1 << k) - 1) == 0
  }

  lemma MarkBit(w: bv64, k: bv6, j: bv6)
    ensures Has(w | (1 << k), j) <==> Has(w, j) || j == k
  {
  }

  lemma FlipBit(w: bv64, k: bv6, j: bv6)
    ensures Has(w ^ (1 << k), j) <==> (Has(w, j) <==> j != k)
  {
  }

  lemma BitSet(w: bv64, k: bv6)
    requires Has(w, k)
    ensures w & (1 << k) == 1 << k
  {
  }

  lemma OneBit(k: bv6)
    ensures var m: bv64 := 1 << k; m != 0 && m & (m - 1) == 0
  {
  }

  /** Subtracting one from a word turns its lowest bit over, and those below. */
  lemma LowestTurns(w: bv64, m: bv64)
    requires m != 0 && m & (m - 1) == 0 && w & m == m && w & (m - 1) == 0
    ensures w & (w - 1) == w ^ m
  {
    assert w - 1 == (w ^ m) | (m - 1);
  }

  lemma LowestFlips(w: bv64, k: bv6)
    requires Has(w, k) && LowClear(w, k)
    ensures w & (w - 1) == w ^ (1 << k)
  {
    BitSet(w, k);
    OneBit(k);
    LowestTurns(w, 1 << k);
  }

  /** `w & (w - 1)` clears the lowest bit and no other. */
  lemma ClearLowest(w: bv64, k: bv6, j: bv6)
    requires Has(w, k) && LowClear(w, k)
    ensures Has(w & (w - 1), j) <==> Has(w, j) && j != k
  {
    LowestFlips(w, k);
    hide Has;
    FlipBit(w, k, j);
  }

  lemma NothingBelow(w: bv64, k: bv6, j: bv6)
    requires LowClear(w, k) && j < k
    ensures !Has(w, j)
  {
  }

  lemma NothingAt(w: bv64, k: bv6)
    requires k < 63 && LowClear(w, k) && !Has(w, k)
    ensures LowClear(w, k + 1)
  {
  }

  lemma OnlyTopLeft(w: bv64)
    requires w != 0 && LowClear(w, 63)
    ensures Has(w, 63)
  {
  }

  lemma Empty(k: bv6)
    ensures !Has(0, k)
  {
  }

  lemma Full(k: bv6)
    ensures Has(0xffff_ffff_ffff_ffff, k)
  {
  }

  /** A bit's position in its word, as a number and back. */
  lemma Position(k: bv6)
    ensures 0 <= k as int < 64 && (k as int) as bv6 == k
  {
  }

  lemma Bit(x: int)
    requires 0 <= x < 64
    ensures (x as bv6) as int == x
  {
  }

  method TrailingZeros(w: bv64) returns (k: bv6)
    requires w != 0
    ensures Has(w, k) && LowClear(w, k)
  {
    k := 0;
    assert LowClear(w, 0);
    hide Has, LowClear;
    while !Has(w, k)
      invariant LowClear(w, k)
      decreases !k
    {
      if k == 63 {
        OnlyTopLeft(w);
        assert false;
      }
      NothingAt(w, k);
      k := k + 1;
    }
  }

  ghost predicate Ascending(s: seq<nat>) {
    forall i, j :: 0 <= i < j < |s| ==> s[i] < s[j]
  }

  lemma AscendingSnoc(s: seq<nat>, last: nat)
    requires Ascending(s) && forall x: nat :: x in s ==> x < last
    ensures Ascending(s + [last])
  {
    assert forall i :: 0 <= i < |s| ==> s[i] in s;
  }

  /** Slot `base + x` is marked in a word whose first slot is `base`. */
  ghost predicate InWord(w: bv64, base: nat, i: nat) {
    base <= i < base + 64 && Has(w, (i - base) as bv6)
  }

  /** Visit the slots of one word, all of them or bit by bit, until `ok` says
      one of them failed. */
  method DrainWord(w: bv64, base: nat, ok: nat -> bool) returns (flushed: seq<nat>, failed: bool)
    ensures Ascending(flushed)
    ensures forall i: nat :: i in flushed ==> InWord(w, base, i)
    ensures !failed ==> forall i: nat :: InWord(w, base, i) ==> i in flushed
    ensures !failed ==> forall i: nat :: i in flushed ==> ok(i)
    ensures failed ==> flushed != [] && !ok(flushed[|flushed| - 1])
    ensures failed ==> forall i: nat :: InWord(w, base, i) && i <= flushed[|flushed| - 1] ==> i in flushed
  {
    if w == 0xffff_ffff_ffff_ffff {
      flushed, failed := DrainFull(base, ok);
      forall i: nat | base <= i < base + 64 ensures InWord(w, base, i) {
        Full((i - base) as bv6);
      }
    } else {
      flushed, failed := DrainBits(w, base, ok);
    }
  }

  method DrainFull(base: nat, ok: nat -> bool) returns (flushed: seq<nat>, failed: bool)
    ensures Ascending(flushed)
    ensures forall i: nat :: i in flushed ==> base <= i < base + 64
    ensures !failed ==> forall i: nat :: base <= i < base + 64 ==> i in flushed && ok(i)
    ensures failed ==> flushed != [] && !ok(flushed[|flushed| - 1])
    ensures failed ==> forall i: nat :: base <= i <= flushed[|flushed| - 1] ==> i in flushed
  {
    flushed := [];
    for i := base to base + 64
      invariant Ascending(flushed)
      invariant forall k: nat :: k in flushed <==> base <= k < i
      invariant forall k: nat :: k in flushed ==> ok(k)
    {
      AscendingSnoc(flushed, i);
      flushed := flushed + [i];
      if !ok(i) {
        return flushed, true;
      }
    }
    failed := false;
  }

  method DrainBits(w: bv64, base: nat, ok: nat -> bool) returns (flushed: seq<nat>, failed: bool)
    ensures Ascending(flushed)
    ensures forall i: nat :: i in flushed ==> InWord(w, base, i)
    ensures !failed ==> forall i: nat :: InWord(w, base, i) ==> i in flushed
    ensures !failed ==> forall i: nat :: i in flushed ==> ok(i)
    ensures failed ==> flushed != [] && !ok(flushed[|flushed| - 1])
    ensures failed ==> forall i: nat :: InWord(w, base, i) && i <= flushed[|flushed| - 1] ==> i in flushed
  {
    hide Has, LowClear;
    flushed := [];
    var ready := w;
    ghost var next := base;
    while ready != 0
      invariant Ascending(flushed) && base <= next <= base + 64
      invariant forall i: nat :: i in flushed <==> InWord(w, base, i) && i < next
      invariant forall i: nat :: InWord(ready, base, i) <==> InWord(w, base, i) && next <= i
      invariant forall i: nat :: i in flushed ==> ok(i)
      decreases base + 64 - next
    {
      var k := TrailingZeros(ready);
      Position(k);
      var i := base + k as int;
      LowestIs(ready, k, base);
      assert InWord(ready, base, i);
      ghost var before := ready;
      ready := ready & (ready - 1);
      forall x: nat ensures InWord(ready, base, x) <==> InWord(w, base, x) && i + 1 <= x {
        assert InWord(ready, base, x) <==> InWord(before, base, x) && x != i;
      }
      AscendingSnoc(flushed, i);
      flushed := flushed + [i];
      next := i + 1;
      if !ok(i) {
        return flushed, true;
      }
    }
    forall i: nat ensures !InWord(ready, base, i) {
      if base <= i < base + 64 {
        Empty((i - base) as bv6);
      }
    }
    failed := false;
  }

  lemma Compared(j: bv6, k: bv6)
    ensures j as int < k as int ==> j < k
    ensures j as int == k as int ==> j == k
  {
  }

  lemma LowestSlot(w: bv64, k: bv6, base: nat, i: nat)
    requires Has(w, k) && LowClear(w, k) && base <= i < base + 64
    ensures InWord(w, base, i) ==> base + k as int <= i
    ensures InWord(w & (w - 1), base, i) <==> InWord(w, base, i) && i != base + k as int
  {
    hide Has, LowClear;
    var j := (i - base) as bv6;
    Bit(i - base);
    Compared(j, k);
    ClearLowest(w, k, j);
    if j < k {
      NothingBelow(w, k, j);
    }
  }

  /** The lowest bit's slot comes first, and clearing it removes only it. */
  lemma LowestIs(w: bv64, k: bv6, base: nat)
    requires Has(w, k) && LowClear(w, k)
    ensures forall i: nat :: InWord(w, base, i) ==> base + k as int <= i
    ensures forall i: nat :: InWord(w & (w - 1), base, i) <==> InWord(w, base, i) && i != base + k as int
    ensures InWord(w, base, base + k as int)
  {
    hide Has, LowClear;
    Position(k);
    forall i: nat | base <= i < base + 64
      ensures InWord(w, base, i) ==> base + k as int <= i
      ensures InWord(w & (w - 1), base, i) <==> InWord(w, base, i) && i != base + k as int
    {
      LowestSlot(w, k, base, i);
    }
  }

  class Pending {
    const words: array<bv64>
    const connections: nat
    /** The slots waiting. */
    ghost var marks: set<nat>

    ghost predicate Valid()
      reads this, words
    {
      && words.Length == (connections + 63) / 64
      && (forall i :: i in marks ==> i < connections && InWord(words[i / 64], 64 * (i / 64), i))
      && (forall i: nat :: i / 64 < words.Length && InWord(words[i / 64], 64 * (i / 64), i) ==> i in marks)
    }

    constructor (connections: nat)
      ensures Valid() && this.connections == connections && marks == {} && fresh(words)
    {
      this.connections := connections;
      words := new bv64[(connections + 63) / 64](_ => 0);
      marks := {};
      new;
      forall i: nat | i / 64 < words.Length ensures !InWord(words[i / 64], 64 * (i / 64), i) {
        Empty((i % 64) as bv6);
      }
    }

    method Mark(conn: nat)
      requires Valid() && conn < connections
      modifies this, words
      ensures Valid() && marks == old(marks) + {conn}
    {
      hide InWord;
      var at := conn / 64;
      SetBit(words[at], conn);
      words[at] := words[at] | (1 << ((conn % 64) as bv6));
      marks := marks + {conn};
    }

    /** Flush every marked slot, oldest index first. If one fails, those before
        it have been flushed and the run is over. */
    method Drain(ok: nat -> bool) returns (flushed: seq<nat>, failed: bool)
      requires Valid()
      modifies this, words
      ensures Ascending(flushed)
      ensures forall i: nat :: i in flushed ==> i in old(marks) && i < connections
      ensures !failed ==> Valid() && marks == {} && forall i: nat :: i in flushed <==> i in old(marks)
      ensures !failed ==> forall i: nat :: i in flushed ==> ok(i)
      ensures failed ==> flushed != [] && !ok(flushed[|flushed| - 1])
      ensures failed ==> forall i: nat :: i in old(marks) && i <= flushed[|flushed| - 1] ==> i in flushed
    {
      hide InWord;
      flushed := [];
      for at := 0 to words.Length
        invariant Ascending(flushed)
        invariant forall i: nat :: i in flushed <==> i in old(marks) && i < 64 * at
        invariant forall i: nat :: i in flushed ==> ok(i)
        invariant forall k :: 0 <= k < at ==> words[k] == 0
        invariant forall k :: at <= k < words.Length ==> words[k] == old(words[k])
        modifies words
      {
        var ready := words[at];
        words[at] := 0;
        var more, fails := DrainWord(ready, 64 * at, ok);
        WordOf(old(words[..]), old(marks), connections, at);
        WordDone(flushed, more, ready, old(marks), at);
        flushed := flushed + more;
        if fails {
          return flushed, true;
        }
      }
      forall i: nat | i / 64 < words.Length ensures !InWord(words[i / 64], 64 * (i / 64), i) {
        NoSlot(64 * (i / 64), i);
      }
      marks := {};
      failed := false;
    }
  }

  lemma SetBit(w: bv64, conn: nat)
    ensures var w' := w | (1 << ((conn % 64) as bv6));
            forall i: nat :: i / 64 == conn / 64 ==>
              (InWord(w', 64 * (i / 64), i) <==> InWord(w, 64 * (i / 64), i) || i == conn)
  {
    hide Has;
    var k := (conn % 64) as bv6;
    forall i: nat | i / 64 == conn / 64
      ensures InWord(w | (1 << k), 64 * (i / 64), i) <==> InWord(w, 64 * (i / 64), i) || i == conn
    {
      assert i - 64 * (i / 64) == i % 64;
      MarkBit(w, k, (i % 64) as bv6);
      Bit(i % 64);
      Bit(conn % 64);
    }
  }

  /** The marks in one word are the marks in its range. */
  lemma WordOf(words: seq<bv64>, marks: set<nat>, connections: nat, at: nat)
    requires at < |words|
    requires forall i :: i in marks ==> i / 64 < |words| && InWord(words[i / 64], 64 * (i / 64), i)
    requires forall i: nat :: i / 64 < |words| && InWord(words[i / 64], 64 * (i / 64), i) ==> i in marks
    ensures forall i: nat :: InWord(words[at], 64 * at, i) <==> i in marks && 64 * at <= i < 64 * (at + 1)
  {
  }

  lemma NoSlot(base: nat, i: nat)
    ensures !InWord(0, base, i)
  {
    if base <= i < base + 64 {
      Empty((i - base) as bv6);
    }
  }

  /** One more word's slots, behind those of the words before. */
  lemma WordDone(flushed: seq<nat>, more: seq<nat>, ready: bv64, marks: set<nat>, at: nat)
    requires Ascending(flushed) && Ascending(more)
    requires forall i: nat :: i in flushed <==> i in marks && i < 64 * at
    requires forall i: nat :: InWord(ready, 64 * at, i) <==> i in marks && 64 * at <= i < 64 * (at + 1)
    requires forall i: nat :: i in more ==> InWord(ready, 64 * at, i)
    ensures Ascending(flushed + more)
    ensures forall i: nat :: i in flushed + more ==> i in marks
    ensures (forall i: nat :: InWord(ready, 64 * at, i) ==> i in more) ==>
              forall i: nat :: i in flushed + more <==> i in marks && i < 64 * (at + 1)
    ensures more != [] && (forall i: nat :: InWord(ready, 64 * at, i) && i <= more[|more| - 1] ==> i in more) ==>
              forall i: nat :: i in marks && i <= more[|more| - 1] ==> i in flushed + more
  {
    hide InWord;
    AscendingConcat(flushed, more, 64 * at);
    if more != [] {
      assert more[|more| - 1] in more;
    }
  }

  lemma AscendingConcat(a: seq<nat>, b: seq<nat>, bound: nat)
    requires Ascending(a) && Ascending(b)
    requires (forall x: nat :: x in a ==> x < bound) && (forall x: nat :: x in b ==> bound <= x)
    ensures Ascending(a + b)
  {
    assert forall i :: 0 <= i < |a| ==> a[i] in a;
    assert forall i :: 0 <= i < |b| ==> b[i] in b;
  }
}
