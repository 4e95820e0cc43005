/**
 The ring of receive buffers shared with the kernel.

 The worker publishes buffer ids at a 16-bit tail that wraps; the kernel takes
 them at a head that wraps the same way. At every moment each id is either
 published and not yet taken, or held by the worker, and never both.
 */
module BufRings {
  import opened Bits

  /** The tail is a `u16`. */
  const WRAP: nat := 65536

  /** The sizes a ring can have: powers of two that fit a `u16`. */
  predicate PowerOfTwo(e: nat) {
    e in {1, 2, 4, 8, 16, 32, 64, 128, 256, 512, 1024, 2048, 4096, 8192, 16384, 32768}
  }

  /** The slot a count of pushes names. */
  function SlotOf(count: nat, entries: nat): (i: nat)
    requires entries > 0
    ensures i < entries
  {
    count % entries
  }

  lemma Exponent(e: nat) returns (k: nat)
    requires PowerOfTwo(e)
    ensures e == Pow2(k)
  {
    assert Pow2(4) == 16 && Pow2(8) == 16 * Pow2(4) && Pow2(12) == 16 * Pow2(8) && Pow2(15) == 8 * Pow2(12);
    k := 0;
    var p := 1;
    while p < e
      invariant p == Pow2(k) && PowerOfTwo(p) && p <= e <= 32768
    {
      k, p := k + 1, 2 * p;
    }
  }

  /** The mask, one less than the size of the ring, finds the slot. */
  lemma MaskFindsSlot(tail: nat, entries: nat)
    requires PowerOfTwo(entries)
    ensures And(tail, entries - 1) == SlotOf(tail, entries)
  {
    var k := Exponent(entries);
    AndMask(tail, k);
  }

  lemma Regroup(e: nat, m: nat, q: nat, k: nat)
    ensures e * m * q + e * k == e * (m * q + k)
  {
    assert e * m * q == e * (m * q);
  }

  /** A tail that has wrapped still masks to the slot the count of pushes
      names. This is what a power of two buys. */
  lemma WrapKeepsSlot(count: nat, entries: nat)
    requires PowerOfTwo(entries)
    ensures SlotOf(count % WRAP, entries) == SlotOf(count, entries)
  {
    var m := WRAP / entries;
    assert WRAP == entries * m;
    Nested(count, entries, m);
  }

  lemma Nested(count: nat, e: nat, m: nat)
    requires e > 0 && e * m > 0
    ensures count % (e * m) % e == count % e
  {
    var r := count % (e * m);
    Division(count, e * m);
    Division(r, e);
    Regroup(e, m, count / (e * m), r / e);
    RemainderIs(count, e, m * (count / (e * m)) + r / e, r % e);
  }

  lemma NextCount(count: nat)
    ensures (count % WRAP + 1) % WRAP == (count + 1) % WRAP
  {
  }

  /** Counts less than a ring apart name different slots. */
  lemma SlotsDiffer(a: nat, b: nat, e: nat)
    requires a < b < a + e
    ensures SlotOf(a, e) != SlotOf(b, e)
  {
    var q, s := a / e, a % e;
    Division(a, e);
    if b - a < e - s {
      RemainderIs(b, e, q, s + (b - a));
    } else {
      assert e * (q + 1) == e * q + e;
      RemainderIs(b, e, q + 1, s + (b - a) - e);
    }
  }

  /** Nothing published is in the slot the next push takes. */
  lemma NextSlotFree(pops: nat, pushes: nat, entries: nat)
    requires pops <= pushes < pops + entries
    ensures forall c: nat :: pops <= c < pushes ==> SlotOf(c, entries) != SlotOf(pushes, entries)
  {
    forall c: nat | pops <= c < pushes ensures SlotOf(c, entries) != SlotOf(pushes, entries) {
      SlotsDiffer(c, pushes, entries);
    }
  }

  /** Every id is in exactly one place. */
  ghost predicate Partition(published: seq<nat>, held: set<nat>, entries: nat) {
    && (forall b :: b in published || b in held <==> 0 <= b < entries)
    && (forall b :: b in published ==> b !in held)
    && (forall i, j :: 0 <= i < j < |published| ==> published[i] != published[j])
    && |published| + |held| == entries
  }

  lemma PartitionTake(published: seq<nat>, held: set<nat>, entries: nat)
    requires Partition(published, held, entries) && published != []
    ensures published[0] !in held
    ensures Partition(published[1..], held + {published[0]}, entries)
  {
    var bid := published[0];
    assert published == [bid] + published[1..];
    assert bid in published && bid !in published[1..];
  }

  lemma PartitionReturn(published: seq<nat>, held: set<nat>, entries: nat, bid: nat)
    requires Partition(published, held, entries) && bid in held
    ensures |published| < entries
    ensures Partition(published + [bid], held - {bid}, entries)
  {
    assert held == held - {bid} + {bid};
  }

  class BufRing {
    const entries: nat
    const mask: nat
    /** The buffer id in each slot. */
    const slots: array<nat>
    var tail: nat
    /** The kernel's end. */
    var head: nat

    /** How many ids were ever published, and how many the kernel took. */
    ghost var pushes: nat
    ghost var pops: nat
    /** Published and not yet taken, in order; and held by the worker. */
    ghost var published: seq<nat>
    ghost var held: set<nat>

    ghost predicate Shape()
      reads this
    {
      && PowerOfTwo(entries) && entries > 0 && slots.Length == entries && mask == entries - 1
      && tail == pushes % WRAP && head == pops % WRAP
      && pushes == pops + |published|
      && |published| <= entries
    }

    /** The kernel finds each published id where it will look for it. */
    ghost predicate InPlace()
      requires Shape()
      reads this, slots
    {
      forall j :: 0 <= j < |published| ==> slots[SlotOf(pops + j, entries)] == published[j]
    }

    ghost predicate Valid()
      reads this, slots
    {
      Shape() && InPlace() && Partition(published, held, entries)
    }

    /** Write an id at the tail and advance it. */
    method PushEntry(bid: nat)
      requires Shape() && InPlace() && |published| < entries
      modifies this, slots
      ensures Shape() && InPlace()
      ensures published == old(published) + [bid] && held == old(held) && pops == old(pops)
    {
      WrapKeepsSlot(pushes, entries);
      MaskFindsSlot(tail, entries);
      NextSlotFree(pops, pushes, entries);
      NextCount(pushes);
      hide SlotOf, PowerOfTwo, And;
      slots[And(tail, mask)] := bid;
      tail := (tail + 1) % WRAP;
      published := published + [bid];
      pushes := pushes + 1;
    }

    /** Every id is published, in order, before the kernel takes any. */
    constructor (entries: nat)
      requires PowerOfTwo(entries)
      ensures Valid() && this.entries == entries && fresh(slots)
      ensures held == {} && published == seq(entries, i => i)
    {
      this.entries, mask := entries, entries - 1;
      slots := new nat[entries];
      tail, head, pushes, pops, published, held := 0, 0, 0, 0, [], {};
      new;
      for bid := 0 to entries
        invariant Shape() && InPlace() && held == {}
        invariant published == seq(bid, i => i)
        modifies this, slots
      {
        PushEntry(bid);
      }
      forall b | 0 <= b < entries ensures b in published {
        assert published[b] == b;
      }
    }

    /** The kernel takes the buffer at its head, which wraps like the tail. */
    method KernelTake() returns (bid: nat)
      requires Valid() && published != []
      modifies this
      ensures Valid()
      ensures bid == old(published)[0] && bid !in old(held)
      ensures published == old(published)[1..] && held == old(held) + {bid}
    {
      WrapKeepsSlot(pops, entries);
      MaskFindsSlot(head, entries);
      PartitionTake(published, held, entries);
      hide SlotOf, PowerOfTwo, Partition, And;
      bid := slots[And(head, mask)];
      assert slots[SlotOf(pops + 0, entries)] == published[0];
      NextCount(pops);
      head := (head + 1) % WRAP;
      pops := pops + 1;
      published := published[1..];
      held := held + {bid};
    }

    /** Return a processed buffer. */
    method Recycle(bid: nat)
      requires Valid() && bid in held
      modifies this, slots
      ensures Valid()
      ensures published == old(published) + [bid] && held == old(held) - {bid}
    {
      PartitionReturn(published, held, entries, bid);
      PushEntry(bid);
      held := held - {bid};
    }
  }

  // ---- Whole runs ----

  /** The kernel fills a buffer if it has one; the worker returns one it holds. */
  datatype Op = Fill | Return(bid: nat)

  /** The same run on a plain queue and a set. */
  datatype Plain = Plain(published: seq<nat>, held: set<nat>, filled: seq<nat>)

  ghost function PlainStep(p: Plain, op: Op): Plain {
    match op
    case Fill =>
      if p.published == [] then p
      else Plain(p.published[1..], p.held + {p.published[0]}, p.filled + [p.published[0]])
    case Return(bid) =>
      if bid in p.held then p.(published := p.published + [bid], held := p.held - {bid}) else p
  }

  ghost function PlainRun(entries: nat, ops: seq<Op>): Plain {
    if ops == [] then Plain(seq(entries, i => i), {}, [])
    else PlainStep(PlainRun(entries, ops[..|ops| - 1]), ops[|ops| - 1])
  }

  /** However long the run, past any number of wraps of the 16-bit counters,
      the kernel is handed the ids in the order they were returned, and every
      id is published or held, never both. `mine` is what the worker holds. */
  method Replay(entries: nat, ops: seq<Op>) returns (ring: BufRing, filled: seq<nat>, mine: set<nat>)
    requires PowerOfTwo(entries)
    ensures ring.Valid()
    ensures Plain(ring.published, mine, filled) == PlainRun(entries, ops)
    ensures Partition(ring.published, mine, entries)
  {
    hide PowerOfTwo, Partition;
    ring := new BufRing(entries);
    filled, mine := [], {};
    var waiting := entries;
    for k := 0 to |ops|
      invariant fresh(ring) && fresh(ring.slots) && ring.Valid() && ring.entries == entries
      invariant mine == ring.held && waiting == |ring.published|
      invariant Plain(ring.published, mine, filled) == PlainRun(entries, ops[..k])
    {
      assert ops[..k + 1][..k] == ops[..k];
      match ops[k] {
        case Fill =>
          if waiting > 0 {
            var bid := ring.KernelTake();
            filled, mine, waiting := filled + [bid], mine + {bid}, waiting - 1;
          }
        case Return(bid) =>
          if bid in mine {
            ring.Recycle(bid);
            mine, waiting := mine - {bid}, waiting + 1;
          }
      }
    }
    assert ops[..|ops|] == ops;
  }
}
