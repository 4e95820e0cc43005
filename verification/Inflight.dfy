/**
 A map from stream id to request, kept in a vector.

 `Ring` is what both multiplexed workers keep their requests in: a vector whose
 front moves, indexed by the distance of an id from the oldest one.
 Its specification is `Live()`, a finite map from stream id to request: every
 operation is proved to do to the vector exactly what the plain map operation
 does. The ghost counters `pushed`, `moved` and `kept` carry the amortised cost
 argument for `Compact`.
 */
module Inflight {
  import opened Wrappers

  /** No compaction before the dead prefix is this long. */
  const COMPACT_FLOOR: nat := 64

  /** The two stream numberings: HTTP/2 ids are 1, 3, 5; HTTP/3 ids are 0, 4, 8. */
  datatype Numbering = H2 | H3 {
    /** Whether an id leaves our offset below the shift. */
    predicate Ours(id: nat) {
      match this
      case H2 => id % 2 == 1
      case H3 => id % 4 == 0
    }

    function NumberOf(id: nat): nat {
      match this
      case H2 => id / 2
      case H3 => id / 4
    }

    function StreamId(n: nat): nat {
      match this
      case H2 => 2 * n + 1
      case H3 => 4 * n
    }

    /** How far apart consecutive ids are. */
    function Gap(): nat {
      match this
      case H2 => 2
      case H3 => 4
    }

    lemma NextIs(id: nat)
      requires Ours(id)
      ensures Ours(id + Gap()) && NumberOf(id + Gap()) == NumberOf(id) + 1
    {
      if H2? {
        NextOfTwo(id);
      } else {
        NextOfFour(id);
      }
    }

    lemma Inverse()
      ensures forall n: nat {:trigger StreamId(n)} :: Ours(StreamId(n)) && NumberOf(StreamId(n)) == n
      ensures forall id: nat {:trigger Ours(id)} :: Ours(id) ==> StreamId(NumberOf(id)) == id
    {
    }

    lemma Monotone(a: nat, b: nat)
      ensures a < b <==> StreamId(a) < StreamId(b)
    {
    }

    /** Requests kept by stream number, as the map from stream id they stand for. */
    ghost function ById<T>(m: map<nat, T>): map<nat, T> {
      Inverse();
      map n | n in m :: StreamId(n) := m[n]
    }

    lemma ByIdAt<T>(m: map<nat, T>, id: nat)
      ensures id in ById(m) <==> Ours(id) && NumberOf(id) in m
      ensures id in ById(m) ==> ById(m)[id] == m[NumberOf(id)]
    {
      Inverse();
    }

    lemma ByIdSet<T>(m: map<nat, T>, n: nat, v: T)
      ensures ById(m[n := v]) == ById(m)[StreamId(n) := v]
    {
      Inverse();
    }

    lemma ByIdRemove<T>(m: map<nat, T>, n: nat)
      ensures ById(m - {n}) == ById(m) - {StreamId(n)}
    {
      Inverse();
    }

    lemma ByIdSize<T>(m: map<nat, T>)
      ensures |ById(m)| == |m|
    {
      if m == map[] {
        assert ById(m) == map[];
      } else {
        var n :| n in m;
        ByIdSize(m - {n});
        ByIdRemove(m, n);
        ByIdAt(m, StreamId(n));
        Inverse();
        RemoveKey(m, n);
        RemoveKey(ById(m), StreamId(n));
      }
    }

    /** The ids of an ascending list of stream numbers. */
    lemma IdsOf<T>(m: map<nat, T>, numbers: seq<nat>, items: seq<T>) returns (ids: seq<nat>)
      requires Ascending(numbers) && Lists(m, numbers, items)
      ensures Ascending(ids) && Lists(ById(m), ids, items)
      ensures |ids| == |numbers| && forall k :: 0 <= k < |ids| ==> ids[k] == StreamId(numbers[k])
      ensures forall id :: id in ids <==> Ours(id) && NumberOf(id) in numbers
      ensures (forall n :: n in numbers <==> n in m) ==> forall id :: id in ids <==> id in ById(m)
    {
      Inverse();
      ids := seq(|numbers|, k requires 0 <= k < |numbers| => StreamId(numbers[k]));
      assert forall id :: id in ids ==> exists k :: 0 <= k < |ids| && ids[k] == id;
      forall id | Ours(id) && NumberOf(id) in numbers
        ensures id in ids
      {
        var k :| 0 <= k < |numbers| && numbers[k] == NumberOf(id);
        assert ids[k] == id;
      }
      forall id ensures id in ById(m) <==> Ours(id) && NumberOf(id) in m {
        ByIdAt(m, id);
      }
    }

    /** Cutting the numbers at `ceil(last / 2)` cuts the ids at `last`. */
    lemma RetiredIds<T>(was: map<nat, T>, now: map<nat, T>, numbers: seq<nat>, last: nat)
      requires H2?
      requires forall n :: n in numbers <==> n in was && (last + 1) / 2 <= n
      requires now == Below(was, (last + 1) / 2)
      ensures ById(now) == UpTo(ById(was), last)
      ensures forall id :: id in ById(was) && last < id <==> Ours(id) && NumberOf(id) in numbers
    {
      hide ById;
      forall id: nat
        ensures id in ById(now) <==> id in UpTo(ById(was), last)
        ensures id in ById(now) ==> ById(now)[id] == ById(was)[id]
        ensures id in ById(was) && last < id <==> Ours(id) && NumberOf(id) in numbers
      {
        ByIdAt(was, id);
        ByIdAt(now, id);
        CutAt(id, last);
      }
    }

    lemma CutAt(id: nat, last: nat)
      requires H2?
      ensures Ours(id) ==> (last < id <==> (last + 1) / 2 <= NumberOf(id))
    {
    }
  }

  lemma NextOfTwo(id: nat)
    ensures (id + 2) % 2 == id % 2 && (id + 2) / 2 == id / 2 + 1
  {
  }

  lemma NextOfFour(id: nat)
    ensures (id + 4) % 4 == id % 4 && (id + 4) / 4 == id / 4 + 1
  {
  }

  ghost predicate Ascending(ids: seq<nat>) {
    forall i, j :: 0 <= i < j < |ids| ==> ids[i] < ids[j]
  }

  /** `items` lists the values of `m` at `ids`, one for one. */
  ghost predicate Lists<T>(m: map<nat, T>, ids: seq<nat>, items: seq<T>) {
    && |items| == |ids|
    && forall k :: 0 <= k < |ids| ==> ids[k] in m && items[k] == m[ids[k]]
  }

  lemma ListsSnoc<T>(m: map<nat, T>, ids: seq<nat>, items: seq<T>, id: nat)
    requires Ascending(ids) && Lists(m, ids, items)
    requires id in m && forall x :: x in ids ==> x < id
    ensures Ascending(ids + [id]) && Lists(m, ids + [id], items + [m[id]])
  {
    assert forall k :: 0 <= k < |ids| ==> ids[k] in ids;
  }

  ghost predicate IsLast<T>(m: map<nat, T>, k: nat) {
    k in m && forall j :: j in m ==> j <= k
  }

  lemma {:induction false} LastExists<T>(m: map<nat, T>)
    requires m != map[]
    ensures exists k :: IsLast(m, k)
    decreases |m|
  {
    var k :| k in m;
    if m - {k} != map[] {
      RemoveKey(m, k);
      LastExists(m - {k});
      var rest :| IsLast(m - {k}, rest);
      assert forall j :: j in m ==> j == k || j in m - {k};
      assert IsLast(m, if rest > k then rest else k);
    } else {
      assert forall j :: j in m && j != k ==> j in m - {k};
      assert IsLast(m, k);
    }
  }

  ghost function Last<T>(m: map<nat, T>): (k: nat)
    requires m != map[]
    ensures IsLast(m, k)
  {
    LastExists(m);
    var k :| IsLast(m, k);
    k
  }

  /** The values of a map in the order of its keys. */
  ghost function InOrder<T>(m: map<nat, T>): seq<T>
    decreases |m|
  {
    if m == map[] then []
    else
      RemoveKey(m, Last(m));
      InOrder(m - {Last(m)}) + [m[Last(m)]]
  }

  /** A list of all of a map in ascending order is that order. */
  lemma {:induction false} ListedInOrder<T>(m: map<nat, T>, ids: seq<nat>, items: seq<T>)
    requires Ascending(ids) && Lists(m, ids, items) && forall id :: id in ids <==> id in m
    ensures items == InOrder(m)
    decreases |ids|
  {
    if ids == [] {
      assert m == map[];
    } else {
      var n := |ids| - 1;
      ListedBut(m, ids, items);
      hide Ascending, Lists;
      assert Last(m) == ids[n];
      ListedInOrder(m - {ids[n]}, ids[..n], items[..n]);
      assert items == items[..n] + [items[n]];
    }
  }

  lemma ListedBut<T>(m: map<nat, T>, ids: seq<nat>, items: seq<T>)
    requires ids != [] && Ascending(ids) && Lists(m, ids, items) && forall id :: id in ids <==> id in m
    ensures var n := |ids| - 1;
            && |items| == |ids| && IsLast(m, ids[n]) && items[n] == m[ids[n]] && m != map[]
            && Ascending(ids[..n]) && Lists(m - {ids[n]}, ids[..n], items[..n])
            && forall id :: id in ids[..n] <==> id in m - {ids[n]}
  {
    hide Lists;
    var n := |ids| - 1;
    LastOfAscending(ids);
    ListsInit(m, ids, items);
  }

  lemma LastOfAscending(ids: seq<nat>)
    requires ids != [] && Ascending(ids)
    ensures var n := |ids| - 1;
            && Ascending(ids[..n]) && ids[n] in ids
            && (forall id :: id in ids ==> id <= ids[n])
            && (forall id :: id in ids[..n] <==> id in ids && id != ids[n])
  {
    var n := |ids| - 1;
    assert ids == ids[..n] + [ids[n]];
    forall id | id in ids[..n] ensures id < ids[n] {
      var k :| 0 <= k < n && ids[k] == id;
    }
  }

  lemma ListsInit<T>(m: map<nat, T>, ids: seq<nat>, items: seq<T>)
    requires ids != [] && Ascending(ids) && Lists(m, ids, items)
    ensures var n := |ids| - 1;
            |items| == |ids| && ids[n] in m && items[n] == m[ids[n]] && Lists(m - {ids[n]}, ids[..n], items[..n])
  {
  }

  /** The requests beyond an id. */
  ghost function Above<T>(m: map<nat, T>, last: nat): map<nat, T> {
    map id | id in m && last < id :: m[id]
  }

  lemma AboveInOrder<T>(m: map<nat, T>, last: nat, ids: seq<nat>, items: seq<T>)
    requires Ascending(ids) && Lists(m, ids, items) && forall id :: id in ids <==> id in m && last < id
    ensures items == InOrder(Above(m, last))
  {
    hide InOrder;
    assert forall k :: 0 <= k < |ids| ==> ids[k] in ids;
    ListedInOrder(Above(m, last), ids, items);
  }

  /** The requests up to an id, itself included. */
  ghost function UpTo<T>(m: map<nat, T>, last: nat): map<nat, T> {
    map id | id in m && id <= last :: m[id]
  }

  ghost function Below<T>(m: map<nat, T>, bound: nat): map<nat, T> {
    map n | n in m && n < bound :: m[n]
  }

  lemma RemoveKey<T>(m: map<nat, T>, id: nat)
    requires id in m
    ensures |m - {id}| == |m| - 1
  {
    assert (m - {id}).Keys == m.Keys - {id};
  }

  /** The requests held by the slots from `head` on, by stream number; slot
      `head` has number `base`. */
  ghost function Window<T>(slots: seq<Option<T>>, head: nat, base: nat): map<nat, T>
    requires head <= |slots|
  {
    map n: nat {:trigger slots[head + n - base]} | base <= n < base + |slots| - head && slots[head + n - base].Some? :: slots[head + n - base].value
  }

  lemma WindowAt<T>(slots: seq<Option<T>>, head: nat, base: nat, i: nat)
    requires head <= i < |slots|
    ensures base + i - head in Window(slots, head, base) <==> slots[i].Some?
    ensures slots[i].Some? ==> Window(slots, head, base)[base + i - head] == slots[i].value
  {
  }

  lemma WindowBounds<T>(slots: seq<Option<T>>, head: nat, base: nat)
    requires head <= |slots|
    ensures forall n :: n in Window(slots, head, base) ==> base <= n < base + |slots| - head
    ensures head == |slots| ==> Window(slots, head, base) == map[]
  {
  }

  lemma WindowPush<T>(slots: seq<Option<T>>, head: nat, base: nat, item: T)
    requires head <= |slots|
    ensures base + |slots| - head !in Window(slots, head, base)
    ensures Window(slots + [Some(item)], head, base) == Window(slots, head, base)[base + |slots| - head := item]
  {
  }

  lemma WindowSet<T>(slots: seq<Option<T>>, head: nat, base: nat, i: nat, item: T)
    requires head <= i < |slots|
    ensures Window(slots[i := Some(item)], head, base) == Window(slots, head, base)[base + i - head := item]
  {
  }

  lemma WindowTake<T>(slots: seq<Option<T>>, head: nat, base: nat, i: nat)
    requires head <= i < |slots| && slots[i].Some?
    ensures Window(slots[i := None], head, base) == Window(slots, head, base) - {base + i - head}
    ensures |Window(slots[i := None], head, base)| == |Window(slots, head, base)| - 1
  {
    WindowAt(slots, head, base, i);
    RemoveKey(Window(slots, head, base), base + i - head);
  }

  /** Stepping the front over a hole loses nothing. */
  lemma WindowStep<T>(slots: seq<Option<T>>, head: nat, base: nat)
    requires head < |slots| && slots[head].None?
    ensures Window(slots, head + 1, base + 1) == Window(slots, head, base)
  {
  }

  /** Moving the window down over the retired prefix loses nothing. */
  lemma WindowDrop<T>(slots: seq<Option<T>>, head: nat, base: nat)
    requires head <= |slots|
    ensures Window(slots[head..], 0, base) == Window(slots, head, base)
  {
  }

  /** `now` is `was` with the slots between `start` and `end` emptied. */
  ghost predicate Emptied<T>(was: seq<Option<T>>, now: seq<Option<T>>, start: nat, end: nat) {
    && |was| == |now|
    && forall j :: 0 <= j < |now| ==> now[j] == if start <= j < end then None else was[j]
  }

  lemma EmptiedNone<T>(s: seq<Option<T>>, start: nat)
    ensures Emptied(s, s, start, start)
  {
  }

  lemma EmptiedNext<T>(was: seq<Option<T>>, now: seq<Option<T>>, start: nat, i: nat)
    requires Emptied(was, now, start, i) && start <= i < |now|
    ensures |was| == |now| && now[i] == was[i]
    ensures Emptied(was, now[i := None], start, i + 1)
    ensures now[i].None? ==> Emptied(was, now, start, i + 1)
  {
  }

  lemma EmptiedKeeps<T>(was: seq<Option<T>>, now: seq<Option<T>>, start: nat, head: nat)
    requires Emptied(was, now, start, |now|) && head < start <= |was|
    ensures |was| == |now| && now[head] == was[head]
    ensures (forall i :: 0 <= i < head ==> was[i].None?) ==> forall i :: 0 <= i < head ==> now[i].None?
  {
  }

  /** Emptying the slots from `start` on leaves the requests before it. */
  lemma WindowCut<T>(was: seq<Option<T>>, now: seq<Option<T>>, head: nat, base: nat, start: nat)
    requires head <= start <= |was| && Emptied(was, now, start, |now|)
    ensures Window(now, head, base) == Below(Window(was, head, base), base + start - head)
  {
  }

  class Ring<T> {
    const numbering: Numbering

    /** In stream order, oldest first, behind a retired prefix. */
    var slots: seq<Option<T>>
    /** The index of the oldest request; below it is only what is gone. */
    var head: nat
    /** Stream number of `slots[head]`. */
    var base: nat
    /** The number of requests, as distinct from slots. */
    var open: nat
    /** The length of dead prefix that triggers a compaction. */
    var compactAt: nat

    /** The stream number that follows the newest request pushed. */
    ghost var next: nat
    /** Requests ever pushed, slots ever moved by compaction, and slots the
        last compaction left. */
    ghost var pushed: nat
    ghost var moved: nat
    ghost var kept: nat

    /** The requests in flight, by stream number. */
    ghost function Requests(): map<nat, T>
      reads this
    {
      if head <= |slots| then Window(slots, head, base) else map[]
    }

    /** The requests in flight, by stream id. */
    ghost function Live(): map<nat, T>
      reads this
    {
      numbering.ById(Requests())
    }

    /** Everything but `slots[head]` being a request. */
    ghost predicate Loose()
      reads this
    {
      && head <= |slots|
      && (forall i :: 0 <= i < head ==> slots[i].None?)
      && open == |Requests()|
      && (slots != [] ==> base + |slots| - head == next)
      && kept <= compactAt
      && kept <= |slots|
      && COMPACT_FLOOR <= compactAt
      && moved + |slots| <= pushed + kept
    }

    ghost predicate Valid()
      reads this
    {
      && Loose()
      && (slots != [] ==> head < |slots| && slots[head].Some?)
      && head < compactAt
    }

    constructor (numbering: Numbering)
      ensures Valid()
      ensures this.numbering == numbering
      ensures Live() == map[] && pushed == 0 && moved == 0
    {
      this.numbering := numbering;
      slots, head, base, open, compactAt := [], 0, 0, 0, COMPACT_FLOOR;
      next, pushed, moved, kept := 0, 0, 0, 0;
    }

    /** `open` counts the map, and the vector is empty just when the map is. */
    lemma Counted()
      requires Valid()
      ensures open == |Live()|
      ensures open == 0 <==> Live() == map[]
      ensures open == 0 <==> Requests() == map[]
      ensures open == 0 <==> slots == []
    {
      numbering.ByIdSize(Requests());
      if slots != [] {
        WindowAt(slots, head, base, head);
      }
    }

    function Len(): (n: nat)
      requires Valid()
      reads this
      ensures n == |Live()|
    {
      Counted();
      open
    }

    predicate IsEmpty()
      requires Valid()
      reads this
      ensures IsEmpty() <==> Live() == map[]
    {
      Counted();
      open == 0
    }

    method Clear()
      requires Valid()
      modifies this
      ensures Valid()
      ensures Live() == map[] && slots == []
      ensures pushed == old(pushed) && moved == old(moved)
    {
      slots, head, base, open, compactAt := [], 0, 0, 0, COMPACT_FLOOR;
      kept := 0;
    }

    /** The next id in order goes at the end; an empty ring takes any id of
        ours and starts from there. */
    method Push(id: nat, item: T)
      requires Valid()
      requires numbering.Ours(id)
      requires Live() != map[] ==> numbering.NumberOf(id) == next
      modifies this
      ensures Valid()
      ensures id !in old(Live())
      ensures Live() == old(Live())[id := item]
      ensures next == numbering.NumberOf(id) + 1
      ensures pushed == old(pushed) + 1 && moved == old(moved)
    {
      hide Window, Numbering.ById;
      Counted();
      numbering.ByIdAt(Requests(), id);
      numbering.Inverse();
      var n := numbering.NumberOf(id);
      numbering.ByIdSet(Requests(), n, item);
      if slots == [] {
        base := n;
        WindowBounds(slots, head, base);
      }
      WindowPush(slots, head, base, item);
      slots := slots + [Some(item)];
      open := open + 1;
      next, pushed := n + 1, pushed + 1;
    }

    /** An id is live exactly if it is ours, its number is in the window, and
        its slot holds a request. */
    lemma InSlot(id: nat)
      requires Valid()
      ensures var n := numbering.NumberOf(id);
              && (numbering.Ours(id) ==> numbering.StreamId(n) == id)
              && (id in Live() <==> numbering.Ours(id) && base <= n < base + |slots| - head && slots[head + n - base].Some?)
              && (id in Live() ==> Live()[id] == slots[head + n - base].value)
    {
      hide Window, Numbering.ById;
      numbering.ByIdAt(Requests(), id);
      numbering.Inverse();
      WindowBounds(slots, head, base);
      var n := numbering.NumberOf(id);
      if base <= n < base + |slots| - head {
        WindowAt(slots, head, base, head + n - base);
      }
    }

    /** Where an id's slot is, if it has one: ids of the peer's, of the
        connection, below the base and beyond the newest have none. */
    function Index(id: nat): (r: Option<nat>)
      requires Valid()
      reads this
      ensures r.Some? ==> head <= r.value < |slots|
      ensures r.Some? ==> id == numbering.StreamId(base + r.value - head)
      ensures id in Live() <==> r.Some? && slots[r.value].Some?
      ensures id in Live() ==> slots[r.value].value == Live()[id]
    {
      InSlot(id);
      if !numbering.Ours(id) || numbering.NumberOf(id) < base then None
      else
        var i := numbering.NumberOf(id) - base;
        if i < |slots| - head then Some(head + i) else None
    }

    /** `get_mut`, read side. */
    function Get(id: nat): (r: Option<T>)
      requires Valid()
      reads this
      ensures r == if id in Live() then Some(Live()[id]) else None
    {
      var i := Index(id);
      if i.None? then None else slots[i.value]
    }

    /** `get_mut`, write side: replace a request that is in flight. */
    method Update(id: nat, item: T) returns (found: bool)
      requires Valid()
      modifies this`slots
      ensures Valid()
      ensures found == (id in old(Live()))
      ensures Live() == if found then old(Live())[id := item] else old(Live())
    {
      hide Window, Numbering.ById;
      var i := Index(id);
      found := i.Some? && slots[i.value].Some?;
      if found {
        ghost var n := base + i.value - head;
        WindowAt(slots, head, base, i.value);
        WindowSet(slots, head, base, i.value, item);
        numbering.ByIdSet(Requests(), n, item);
        assert (Requests()[n := item]).Keys == Requests().Keys;
        slots := slots[i.value := Some(item)];
      }
    }

    method Take(id: nat) returns (taken: Option<T>)
      requires Valid()
      modifies this
      ensures Valid()
      ensures taken == if id in old(Live()) then Some(old(Live())[id]) else None
      ensures Live() == old(Live()) - {id}
      ensures taken.None? ==> Live() == old(Live())
      ensures next == old(next) && pushed == old(pushed)
    {
      hide Window, Numbering.ById;
      var i := Index(id);
      if i.None? || slots[i.value].None? {
        return None;
      }
      taken := slots[i.value];
      numbering.ByIdRemove(Requests(), base + i.value - head);
      TakeSlot(i.value);
    }

    /** The vector half of `Take`. */
    method TakeSlot(i: nat)
      requires Valid()
      requires head <= i < |slots| && slots[i].Some?
      modifies this
      ensures Valid()
      ensures Requests() == old(Requests()) - {old(base) + i - old(head)}
      ensures next == old(next) && pushed == old(pushed)
    {
      hide Window;
      WindowTake(slots, head, base, i);
      slots := slots[i := None];
      open := open - 1;
      if i == head {
        WindowStep(slots, head, base);
        head := head + 1;
        base := base + 1;
        if head == |slots| || slots[head].None? {
          Settle();
        } else if head >= compactAt {
          Compact();
        }
      }
    }

    /** From a window that may start with holes to one that starts with a
        request or is empty, with the same requests in it. */
    method Settle()
      requires Loose()
      modifies this
      ensures Valid()
      ensures Requests() == old(Requests()) && next == old(next) && pushed == old(pushed)
    {
      while head < |slots| && slots[head].None?
        invariant Loose()
        invariant Requests() == old(Requests()) && next == old(next) && pushed == old(pushed)
        decreases |slots| - head
      {
        WindowStep(slots, head, base);
        head := head + 1;
        base := base + 1;
      }
      if head == |slots| {
        slots, head, compactAt := [], 0, COMPACT_FLOOR;
        kept := 0;
      } else if head >= compactAt {
        Compact();
      }
    }

    /** The window moves to index zero, and the slots it has are charged. */
    method Compact()
      requires Loose()
      requires compactAt <= head < |slots| && slots[head].Some?
      modifies this
      ensures Valid()
      ensures Requests() == old(Requests()) && next == old(next) && pushed == old(pushed)
      ensures head == 0 && |slots| == old(|slots| - head)
      ensures moved == old(moved) + |slots|
    {
      WindowDrop(slots, head, base);
      slots := slots[head..];
      head := 0;
      compactAt := if |slots| > COMPACT_FLOOR then |slots| else COMPACT_FLOOR;
      moved, kept := moved + |slots|, |slots|;
    }

    /** A request by position. */
    function Slot(i: nat): Option<T>
      requires Valid()
      reads this
    {
      if head + i < |slots| then slots[head + i] else None
    }

    /** The oldest request, when there is one, is in slot zero. */
    lemma Oldest()
      requires Valid()
      ensures Slot(0).Some? <==> Live() != map[]
      ensures Slot(0).Some? ==>
                var id := numbering.StreamId(base);
                && id in Live() && Live()[id] == Slot(0).value
                && forall other :: other in Live() ==> id <= other
    {
      Counted();
      LeastId();
      if slots != [] {
        hide Window, Numbering.ById;
        WindowAt(slots, head, base, head);
        numbering.ByIdAt(Requests(), numbering.StreamId(base));
        numbering.Inverse();
      }
    }

    lemma LeastId()
      requires Valid()
      ensures forall id :: id in Live() ==> numbering.StreamId(base) <= id
    {
      hide Window, Numbering.ById;
      WindowBounds(slots, head, base);
      forall id | id in Live() ensures numbering.StreamId(base) <= id {
        numbering.ByIdAt(Requests(), id);
        numbering.Inverse();
        numbering.Monotone(numbering.NumberOf(id), base);
      }
    }

    /** The requests from slot `start` on, oldest first. */
    method ItemsFrom(start: nat) returns (items: seq<T>, ghost numbers: seq<nat>)
      requires Valid()
      requires head <= start <= |slots|
      ensures Ascending(numbers) && Lists(Requests(), numbers, items)
      ensures forall n :: n in numbers <==> n in Requests() && base + start - head <= n
    {
      items, numbers := [], [];
      var i := start;
      while i < |slots|
        invariant start <= i <= |slots|
        invariant Ascending(numbers) && Lists(Requests(), numbers, items)
        invariant forall n :: n in numbers <==> n in Requests() && base + start - head <= n < base + i - head
      {
        WindowAt(slots, head, base, i);
        if slots[i].Some? {
          items, numbers := items + [slots[i].value], numbers + [base + i - head];
        }
        i := i + 1;
      }
    }

    /** `iter`: the requests in flight, oldest first. */
    method Items() returns (items: seq<T>, ghost ids: seq<nat>)
      requires Valid()
      ensures Ascending(ids) && Lists(Live(), ids, items)
      ensures forall id :: id in ids <==> id in Live()
      ensures items == InOrder(Live())
    {
      ghost var numbers;
      items, numbers := ItemsFrom(head);
      ids := numbering.IdsOf(Requests(), numbers, items);
      ListedInOrder(Live(), ids, items);
    }

    /** Hand back, in order, exactly the requests beyond an id, which need not
        be one of ours. If any request is left, so are the slots of those
        handed back, and the next id still fits behind them. */
    method RetireAfter(last: nat) returns (retired: seq<T>, ghost ids: seq<nat>)
      requires Valid()
      requires numbering.H2?
      modifies this
      ensures Valid()
      ensures Live() == UpTo(old(Live()), last)
      ensures Ascending(ids) && Lists(old(Live()), ids, retired)
      ensures forall id :: id in ids <==> id in old(Live()) && last < id
      ensures retired == InOrder(Above(old(Live()), last))
      ensures pushed == old(pushed) && moved == old(moved)
      ensures Live() != map[] ==> next == old(next)
    {
      hide Window, Numbering.ById, InOrder;
      var first := (last + 1) / 2;
      var gap := if first > base then first - base else 0;
      var offset := if gap < |slots| - head then gap else |slots| - head;
      WindowBounds(slots, head, base);
      ghost var numbers;
      if offset == 0 {
        retired, numbers := RetireAll();
      } else {
        retired, numbers := RetireSuffix(head + offset);
      }
      assert Requests() == Below(old(Requests()), first);
      ids := numbering.IdsOf(old(Requests()), numbers, retired);
      numbering.RetiredIds(old(Requests()), Requests(), numbers, last);
      AboveInOrder(old(Live()), last, ids, retired);
    }

    /** Nothing survives: visit the live suffix, then keep only the storage. */
    method RetireAll() returns (retired: seq<T>, ghost numbers: seq<nat>)
      requires Valid()
      modifies this
      ensures Valid()
      ensures Requests() == map[]
      ensures Ascending(numbers) && Lists(old(Requests()), numbers, retired)
      ensures forall n :: n in numbers <==> n in old(Requests())
      ensures pushed == old(pushed) && moved == old(moved)
    {
      retired, numbers := ItemsFrom(head);
      base := base + (|slots| - head);
      slots, head, open, compactAt := [], 0, 0, COMPACT_FLOOR;
      kept := 0;
    }

    /** Some request is left in front, so the window needs no other change. */
    method RetireSuffix(start: nat) returns (retired: seq<T>, ghost numbers: seq<nat>)
      requires Valid()
      requires head < start <= |slots|
      modifies this`slots, this`open
      ensures Valid()
      ensures Requests() == Below(old(Requests()), base + start - head)
      ensures Ascending(numbers) && Lists(old(Requests()), numbers, retired)
      ensures forall n :: n in numbers <==> n in old(Requests()) && base + start - head <= n
    {
      hide Window, Emptied;
      ghost var before := slots;
      WindowBounds(slots, head, base);
      retired, numbers := EmptySlots(start);
      WindowCut(before, slots, head, base, start);
      EmptiedKeeps(before, slots, start, head);
    }

    /** Take everything from slot `start` on. */
    method EmptySlots(start: nat) returns (retired: seq<T>, ghost numbers: seq<nat>)
      requires head <= start <= |slots| && open == |Requests()|
      modifies this`slots, this`open
      ensures Emptied(old(slots), slots, start, |slots|) && |slots| == old(|slots|)
      ensures open == |Requests()|
      ensures Ascending(numbers) && Lists(old(Requests()), numbers, retired)
      ensures forall n :: n in numbers <==> n in old(Requests()) && base + start - head <= n < base + |slots| - head
    {
      hide Window, Emptied;
      retired, numbers := [], [];
      var i := start;
      ghost var was, before := Requests(), slots;
      EmptiedNone(slots, start);
      while i < |slots|
        invariant start <= i <= |slots| == |before| && open == |Requests()|
        invariant Emptied(before, slots, start, i)
        invariant Ascending(numbers) && Lists(was, numbers, retired)
        invariant forall n :: n in numbers <==> n in was && base + start - head <= n < base + i - head
      {
        EmptiedNext(before, slots, start, i);
        WindowAt(before, head, base, i);
        if slots[i].Some? {
          WindowTake(slots, head, base, i);
          ListsSnoc(was, numbers, retired, base + i - head);
          retired, numbers := retired + [slots[i].value], numbers + [base + i - head];
          slots := slots[i := None];
          open := open - 1;
        }
        i := i + 1;
      }
    }
  }

  /** What a connection does with its requests over its life. */
  datatype Op<T> =
    | Open(item: T)
    | Rewrite(id: nat, item: T)
    | Finish(id: nat)
    | Iterate
    /** HTTP/2 only: retire everything above an id. */
    | Goaway(last: nat)
    | Reset

  /** The same life on a plain map: the next id to open, the requests in
      flight, what each `Finish` handed back, and what each `Iterate` and
      `Goaway` listed. */
  datatype Plain<T> = Plain(nextId: nat, live: map<nat, T>, finished: seq<Option<T>>, listed: seq<seq<T>>, opens: nat)

  ghost function PlainStep<T>(p: Plain<T>, op: Op<T>, numbering: Numbering): Plain<T> {
    match op
    case Open(item) =>
      p.(nextId := p.nextId + numbering.Gap(), live := p.live[p.nextId := item], opens := p.opens + 1)
    case Rewrite(id, item) => if id in p.live then p.(live := p.live[id := item]) else p
    case Finish(id) =>
      p.(live := p.live - {id}, finished := p.finished + [if id in p.live then Some(p.live[id]) else None])
    case Iterate => p.(listed := p.listed + [InOrder(p.live)])
    case Goaway(last) => p.(live := UpTo(p.live, last), listed := p.listed + [InOrder(Above(p.live, last))])
    case Reset => p.(nextId := numbering.StreamId(0), live := map[])
  }

  ghost function PlainRun<T>(ops: seq<Op<T>>, numbering: Numbering): Plain<T> {
    if ops == [] then Plain(numbering.StreamId(0), map[], [], [], 0)
    else PlainStep(PlainRun(ops[..|ops| - 1], numbering), ops[|ops| - 1], numbering)
  }

  /** The next id is ours, and follows the newest request in flight. */
  ghost predicate Follows<T>(ring: Ring<T>, id: nat)
    reads ring
  {
    ring.numbering.Ours(id) && (ring.Live() != map[] ==> ring.next == ring.numbering.NumberOf(id))
  }

  /** One operation, on the ring. */
  method ReplayOp<T>(ring: Ring<T>, op: Op<T>, id: nat, done: seq<Option<T>>, lists: seq<seq<T>>)
      returns (nextId: nat, finished: seq<Option<T>>, listed: seq<seq<T>>)
    requires ring.Valid() && Follows(ring, id) && (op.Goaway? ==> ring.numbering.H2?)
    modifies ring
    ensures ring.Valid() && Follows(ring, nextId)
    ensures Plain(nextId, ring.Live(), finished, listed, ring.pushed)
         == PlainStep(Plain(id, old(ring.Live()), done, lists, old(ring.pushed)), op, ring.numbering)
  {
    hide Window, Numbering.ById, Numbering.Ours, Numbering.NumberOf, Numbering.StreamId, InOrder;
    nextId, finished, listed := id, done, lists;
    match op {
      case Open(item) =>
        ring.Push(id, item);
        ring.numbering.NextIs(id);
        nextId := id + ring.numbering.Gap();
      case Rewrite(at, item) =>
        var _ := ring.Update(at, item);
      case Finish(at) =>
        var taken := ring.Take(at);
        finished := done + [taken];
      case Iterate =>
        var items, _ := ring.Items();
        listed := lists + [items];
      case Goaway(last) =>
        var retired, _ := ring.RetireAfter(last);
        listed := lists + [retired];
      case Reset =>
        ring.Clear();
        ring.numbering.Inverse();
        nextId := ring.numbering.StreamId(0);
    }
  }

  /** Whatever is opened, rewritten, finished, listed, retired or cleared, in
      whatever order and with whatever ids, in either numbering, the ring holds
      and hands back exactly what the plain map does, and all its compactions
      together moved no more slots than there were requests. */
  method Replay<T>(ops: seq<Op<T>>, numbering: Numbering)
      returns (ring: Ring<T>, finished: seq<Option<T>>, listed: seq<seq<T>>)
    requires numbering.H2? || forall op :: op in ops ==> !op.Goaway?
    ensures ring.Valid()
    ensures ring.Live() == PlainRun(ops, numbering).live
    ensures finished == PlainRun(ops, numbering).finished
    ensures listed == PlainRun(ops, numbering).listed
    ensures ring.moved <= ring.pushed == PlainRun(ops, numbering).opens
    ensures ring.head < ring.compactAt
  {
    hide Window, Numbering.ById, PlainStep;
    ring := new Ring(numbering);
    finished, listed := [], [];
    var nextId := numbering.StreamId(0);
    for k := 0 to |ops|
      invariant fresh(ring) && ring.Valid() && ring.numbering == numbering && Follows(ring, nextId)
      invariant PlainRun(ops[..k], numbering) == Plain(nextId, ring.Live(), finished, listed, ring.pushed)
    {
      assert ops[..k + 1][..k] == ops[..k];
      nextId, finished, listed := ReplayOp(ring, ops[k], nextId, finished, listed);
    }
    assert ops[..|ops|] == ops;
  }
}
