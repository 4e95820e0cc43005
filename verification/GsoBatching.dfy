/**
 UDP segmentation offload: several QUIC datagrams in one send.

 The worker joins datagrams and names a segment size; the kernel cuts what it is
 given at that size. What is proved is
 that the cuts fall exactly where the datagrams met, whatever sizes QUIC
 produced.
 */
module GsoBatching {
  import opened Wrappers

  type Bytes = seq<bv8>

  /** Below this a datagram is taken to be the last there is to say. */
  const NEARLY_FULL: nat := 1200 - 64

  const GSO_SEGMENTS: nat := 64

  /** The most bytes a send of several segments may hold. */
  const GSO_MAX_PAYLOAD: nat := 65507

  /** One send: a datagram by itself (`segmentSize == 0`), or several joined, of
      which only the last may be smaller than the rest. */
  datatype Entry = Entry(buf: Bytes, segmentSize: nat)

  // ---- The kernel's side ----

  /** Cut a buffer every `size` bytes. */
  ghost function Segments(buf: Bytes, size: nat): seq<Bytes>
    requires size > 0
    decreases |buf|
  {
    if |buf| <= size then [buf] else [buf[..size]] + Segments(buf[size..], size)
  }

  ghost function Cut(e: Entry): seq<Bytes> {
    if e.segmentSize == 0 then [e.buf] else Segments(e.buf, e.segmentSize)
  }

  ghost function CutAll(entries: seq<Entry>): seq<Bytes> {
    if entries == [] then [] else Cut(entries[0]) + CutAll(entries[1..])
  }

  ghost function Joined(ds: seq<Bytes>): Bytes {
    if ds == [] then [] else ds[0] + Joined(ds[1..])
  }

  /** All but the last are of one size, and the last is no larger. */
  ghost predicate Even(ds: seq<Bytes>, size: nat) {
    && (forall i :: 0 <= i < |ds| - 1 ==> |ds[i]| == size)
    && (ds != [] ==> 0 < |ds[|ds| - 1]| <= size)
  }

  /** Cutting what was joined gives back what was joined. */
  lemma {:induction false} CutsWhereJoined(ds: seq<Bytes>, size: nat)
    requires ds != [] && size > 0 && Even(ds, size)
    ensures Segments(Joined(ds), size) == ds
    ensures size * (|ds| - 1) < |Joined(ds)| <= size * |ds|
    decreases |ds|
  {
    if |ds| == 1 {
      assert ds[1..] == [] && Joined(ds) == ds[0];
      assert ds == [ds[0]];
    } else {
      var rest := ds[1..];
      assert Even(rest, size) by {
        assert rest[|rest| - 1] == ds[|ds| - 1];
      }
      CutsWhereJoined(rest, size);
      var buf := Joined(ds);
      assert size * (|rest| - 1) + size == size * (|ds| - 1);
      assert size * |rest| + size == size * |ds|;
      assert size * (|rest| - 1) >= 0;
      assert buf[..size] == ds[0] && buf[size..] == Joined(rest);
      assert ds == [ds[0]] + rest;
    }
  }

  lemma {:induction false} JoinedSnoc(ds: seq<Bytes>, d: Bytes)
    ensures Joined(ds + [d]) == Joined(ds) + d
    decreases |ds|
  {
    if ds == [] {
      assert [d][1..] == [];
    } else {
      assert (ds + [d])[1..] == ds[1..] + [d];
      JoinedSnoc(ds[1..], d);
    }
  }

  // ---- The worker's side ----

  /** How many segments a batch may have before its first one is known. */
  function Limit(gso: bool, probing: bool): nat {
    if probing then 2 else if gso then GSO_SEGMENTS else 1
  }

  /** Why a batch ends while there is more to send: it is full, its first
      datagram was not, or its last is of another size than its first. */
  ghost predicate Ended(ds: seq<Bytes>, gso: bool, probing: bool)
    requires forall i :: 0 <= i < |ds| ==> ds[i] != []
  {
    && ds != []
    && (|| |ds| >= Limit(gso, probing)
        || |ds| >= GSO_MAX_PAYLOAD / |ds[0]|
        || |ds[0]| < NEARLY_FULL
        || |ds[|ds| - 1]| != |ds[0]|)
  }

  /** Fill one buffer: datagrams of the first one's size, and perhaps a
      shorter last one. A larger one is handed back separately, for a send to
      itself after this one. */
  method FillBuffer(gso: bool, probing: bool, polled: seq<Bytes>)
      returns (buf: Bytes, segmentSize: nat, count: nat, oversize: Option<Bytes>)
    requires forall i :: 0 <= i < |polled| ==> polled[i] != []
    ensures count <= |polled| && (polled != [] ==> count > 0)
    ensures buf == Joined(polled[..count])
    ensures count > 0 ==> segmentSize > 0 && Even(polled[..count], segmentSize)
    ensures count > 1 ==> count <= Limit(gso, probing) && count <= GSO_MAX_PAYLOAD / segmentSize
    ensures oversize.Some? ==> 0 < count < |polled| && oversize.value == polled[count] && Limit(gso, probing) > 1
    ensures oversize.Some? ==> segmentSize < |polled[count]|
    ensures oversize.None? && count < |polled| ==> Ended(polled[..count], gso, probing)
    ensures count > 0 ==> segmentSize == |polled[0]|
    ensures count > 1 ==> NEARLY_FULL <= segmentSize
  {
    var max := Limit(gso, probing);
    buf, segmentSize, count, oversize := [], 0, 0, None;
    while count < max
      invariant count <= |polled| && max <= Limit(gso, probing)
      invariant (count == 0 ==> max == Limit(gso, probing)) && (count <= 1 || count <= max)
      invariant count > 0 ==> segmentSize == |polled[0]| && (max == Limit(gso, probing) || max == GSO_MAX_PAYLOAD / segmentSize)
      invariant count > 0 ==> NEARLY_FULL <= segmentSize
      invariant buf == Joined(polled[..count])
      invariant count > 0 ==> 0 < segmentSize && max <= GSO_MAX_PAYLOAD / segmentSize
      invariant forall i :: 0 <= i < count ==> |polled[i]| == segmentSize
      invariant oversize == None
      decreases |polled| - count
    {
      if count == |polled| {
        break;
      }
      var datagram := polled[count];
      var before := |buf|;
      JoinedSnoc(polled[..count], datagram);
      assert polled[..count + 1] == polled[..count] + [datagram];
      buf := buf + datagram;
      if count == 0 {
        segmentSize := |datagram|;
        max := if GSO_MAX_PAYLOAD / segmentSize < max then GSO_MAX_PAYLOAD / segmentSize else max;
        if |datagram| < NEARLY_FULL {
          count := 1;
          break;
        }
      } else if |datagram| < segmentSize {
        count := count + 1;
        break;
      } else if |datagram| > segmentSize {
        oversize := Some(buf[before..]);
        buf := buf[..before];
        break;
      }
      count := count + 1;
    }
  }

  /** The batching half of `pump_transmits`. `polled` is what QUIC has to say,
      datagram by datagram; the first `taken` of them are in `entries`. */
  method BuildBatch(gso: bool, probing: bool, polled: seq<Bytes>) returns (entries: seq<Entry>, taken: nat)
    requires forall i :: 0 <= i < |polled| ==> polled[i] != []
    ensures taken <= |polled| && (polled != [] ==> taken > 0)
    ensures CutAll(entries) == polled[..taken]
    ensures forall e :: e in entries && e.segmentSize > 0 ==>
              && 1 < |Cut(e)| <= Limit(gso, probing)
              && Even(Cut(e), e.segmentSize)
              && |e.buf| <= GSO_MAX_PAYLOAD
    ensures taken < |polled| ==> Ended(polled[..taken], gso, probing)
    ensures !gso && !probing ==> taken <= 1 && forall e :: e in entries ==> e.segmentSize == 0
  {
    entries, taken := [], 0;
    var buf, segmentSize, count, oversize := FillBuffer(gso, probing, polled);
    if count > 0 {
      CutsWhereJoined(polled[..count], segmentSize);
      var e := Entry(buf, if count > 1 then segmentSize else 0);
      if count > 1 {
        assert segmentSize * count <= GSO_MAX_PAYLOAD by {
          Fits(segmentSize, count);
        }
      } else {
        assert polled[..1] == [polled[0]] && polled[..1][1..] == [] && Joined(polled[..1]) == polled[0];
      }
      assert Cut(e) == polled[..count];
      entries := [e];
      assert CutAll(entries) == polled[..count] by {
        assert entries[1..] == [];
      }
    }
    taken := count;
    if oversize.Some? {
      var e := Entry(oversize.value, 0);
      CutAllSnoc(entries, e);
      entries := entries + [e];
      taken := count + 1;
      assert polled[..taken] == polled[..count] + [polled[count]];
    }
  }

  lemma Fits(size: nat, count: nat)
    requires size > 0 && count <= GSO_MAX_PAYLOAD / size
    ensures size * count <= GSO_MAX_PAYLOAD
  {
    assert size * count <= size * (GSO_MAX_PAYLOAD / size);
  }

  lemma {:induction false} CutAllSnoc(entries: seq<Entry>, e: Entry)
    ensures CutAll(entries + [e]) == CutAll(entries) + Cut(e)
    decreases |entries|
  {
    if entries == [] {
      assert [e][1..] == [];
    } else {
      assert (entries + [e])[1..] == entries[1..] + [e];
      CutAllSnoc(entries[1..], e);
    }
  }
}
