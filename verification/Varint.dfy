/**
 QUIC variable-length integers (section 16 of RFC 9000).

 The two leading bits of the first byte give the width. Bytes are numbers below
 256, and the bitwise operations are those of `Bits`.
 */
module Varint {
  import opened Wrappers
  import opened Bits

  newtype Byte = b: int | 0 <= b < 256

  type Bytes = seq<Byte>

  const TWO_TO_62: nat := 0x4000_0000_0000_0000
  const TWO_TO_64: nat := 0x1_0000_0000_0000_0000

  ghost function Power(n: nat): nat {
    if n == 0 then 1 else 256 * Power(n - 1)
  }

  /** The big-endian value of some bytes. */
  ghost function Value(s: Bytes): nat {
    if s == [] then 0 else 256 * Value(s[..|s| - 1]) + s[|s| - 1] as nat
  }

  /** `to_be_bytes`, at a given width: the low bytes of `v`. */
  function BigEndian(v: nat, width: nat): (s: Bytes)
    ensures |s| == width
  {
    if width == 0 then [] else BigEndian(v / 256, width - 1) + [(v % 256) as Byte]
  }

  lemma {:induction false} BigEndianValue(v: nat, width: nat)
    requires v < Power(width)
    ensures Value(BigEndian(v, width)) == v
    decreases width
  {
    if width > 0 {
      BigEndianValue(v / 256, width - 1);
      assert BigEndian(v, width)[..width - 1] == BigEndian(v / 256, width - 1);
    }
  }

  lemma {:induction false} ValueOfRest(s: Bytes)
    requires s != []
    ensures Value(s) == s[0] as nat * Power(|s| - 1) + Value(s[1..])
    ensures Value(s[1..]) < Power(|s| - 1)
  {
    if |s| > 1 {
      var init := s[..|s| - 1];
      ValueOfRest(init);
      assert s[1..][..|s| - 2] == init[1..];
      assert init[0] as nat * Power(|s| - 1) == 256 * (init[0] as nat * Power(|s| - 2));
    } else {
      assert s[..0] == [];
    }
  }

  /** The shortest width a value fits, and the tag that names it. */
  function Width(v: nat): nat {
    if v <= 0x3f then 1 else if v <= 0x3fff then 2 else if v <= 0x3fff_ffff then 4 else 8
  }

  function Tag(width: nat): nat {
    if width == 1 then 0 else if width == 2 then 1 else if width == 4 then 2 else 3
  }

  /** Values of 62 bits and more lose what the tag overwrites. */
  function Carried(v: nat): nat {
    v % TWO_TO_62
  }

  function Encode(v: nat): Bytes
    requires v < TWO_TO_64
  {
    if v <= 0x3f then BigEndian(v, 1)
    else if v <= 0x3fff then BigEndian(Or(v, 0x4000), 2)
    else if v <= 0x3fff_ffff then BigEndian(Or(v, 0x8000_0000), 4)
    else BigEndian(Or(v, 0xc000_0000_0000_0000), 8)
  }

  lemma Shifts()
    ensures Shl(1, 14) == 0x4000 == Pow2(14)
    ensures Shl(2, 30) == 0x8000_0000 && Pow2(30) == 0x4000_0000
    ensures Shl(3, 62) == 0xc000_0000_0000_0000 && Pow2(62) == TWO_TO_62
  {
    assert Pow2(6) == 64 && Shl(1, 6) == 64 && Shl(2, 6) == 128 && Shl(3, 6) == 192;
    hide Shl, Pow2;
    EightMore(1, 6);
    EightMore(2, 6);
    EightMore(2, 14);
    EightMore(2, 22);
    EightMore(3, 6);
    EightMore(3, 14);
    EightMore(3, 22);
    EightMore(3, 30);
    EightMore(3, 38);
    EightMore(3, 46);
    EightMore(3, 54);
  }

  lemma EightMore(a: nat, k: nat)
    ensures Shl(a, k + 8) == 256 * Shl(a, k)
    ensures Pow2(k + 8) == 256 * Pow2(k)
  {
    TwoMore(a, k);
    TwoMore(a, k + 2);
    TwoMore(a, k + 4);
    TwoMore(a, k + 6);
  }

  lemma TwoMore(a: nat, k: nat)
    ensures Shl(a, k + 2) == 4 * Shl(a, k)
    ensures Pow2(k + 2) == 4 * Pow2(k)
  {
    assert Shl(a, k + 1) == 2 * Shl(a, k) && Pow2(k + 1) == 2 * Pow2(k);
  }

  lemma {:induction false} ShlIs(a: nat, k: nat)
    ensures Shl(a, k) == a * Pow2(k)
  {
    if k > 0 {
      ShlIs(a, k - 1);
      assert a * (2 * Pow2(k - 1)) == 2 * (a * Pow2(k - 1));
    }
  }

  lemma OrThree(x: nat)
    requires x < 4
    ensures Or(x, 3) == 3
  {
    OrUnfolds(x, 3);
    OrUnfolds(x / 2, 1);
  }

  /** Setting the tag's bits adds the tag to what fits below it. */
  lemma TagIsSet(v: nat)
    requires v < TWO_TO_64
    ensures v <= 0x3fff ==> Or(v, 0x4000) == v + 0x4000
    ensures v <= 0x3fff_ffff ==> Or(v, 0x8000_0000) == v + 0x8000_0000
    ensures Or(v, 0xc000_0000_0000_0000) == Carried(v) + 0xc000_0000_0000_0000
  {
    hide Or, Shl, Pow2;
    Shifts();
    if v <= 0x3fff {
      OrAbove(v, 1, 14);
    }
    if v <= 0x3fff_ffff {
      OrAbove(v, 2, 30);
    }
    var high := v / TWO_TO_62;
    ShlIs(high, 62);
    OrThree(high);
    OrShifted(Carried(v), high, 3, 62);
  }

  /** How many bytes a first byte announces. */
  function Announced(first: Byte): (n: nat)
    ensures n == if first < 64 then 1 else if first < 128 then 2 else if first < 192 then 4 else 8
  {
    assert Shl(1, 1) == 2 && Shl(1, 2) == 4 && Shl(1, 3) == 8;
    Shl(1, first as nat / 64)
  }

  /** The bytes of an integer with its tag taken off. */
  ghost function Untagged(buf: Bytes): Bytes
    requires buf != []
  {
    [buf[0] % 64] + buf[1..]
  }

  ghost function Decode(buf: Bytes): Option<(nat, nat)> {
    if buf == [] || |buf| < Announced(buf[0]) then None
    else
      var len := Announced(buf[0]);
      Some((Value(Untagged(buf[..len])), len))
  }

  lemma LowBits(first: Byte)
    ensures And(first as nat, 0x3f) == (first % 64) as nat
  {
    assert Pow2(6) == 64;
    AndMask(first as nat, 6);
  }

  lemma NextByte(value: nat, byte: Byte)
    ensures Or(Shl(value, 8), byte as nat) == 256 * value + byte as nat
  {
    assert Pow2(8) == 256;
    ShlIs(value, 8);
    OrAbove(byte as nat, value, 8);
    OrSwaps(Shl(value, 8), byte as nat);
  }

  /** Read one integer and its length, if all its bytes are there. */
  method GetVarint(buf: Bytes) returns (r: Option<(nat, nat)>)
    ensures r == Decode(buf)
  {
    if buf == [] {
      return None;
    }
    var first := buf[0];
    var len := Announced(first);
    if |buf| < len {
      return None;
    }
    LowBits(first);
    var value := And(first as nat, 0x3f);
    ghost var seen := [first % 64];
    assert seen[..0] == [];
    for i := 1 to len
      invariant seen == [first % 64] + buf[1..i]
      invariant value == Value(seen)
    {
      assert (seen + [buf[i]])[..|seen|] == seen;
      NextByte(value, buf[i]);
      value := Or(Shl(value, 8), buf[i] as nat);
      seen := seen + [buf[i]];
    }
    assert seen == Untagged(buf[..len]);
    r := Some((value, len));
  }

  lemma Powers()
    ensures Power(0) == 1 && Power(1) == 0x100 && Power(3) == 0x100_0000 && Power(7) == 0x100_0000_0000_0000
    ensures Power(2) == 0x1_0000 && Power(4) == 0x1_0000_0000 && Power(8) == TWO_TO_64
  {
    assert Power(2) == 256 * Power(1);
    assert Power(3) == 256 * Power(2);
    assert Power(4) == 256 * Power(3);
    assert Power(5) == 256 * Power(4);
    assert Power(6) == 256 * Power(5);
    assert Power(7) == 256 * Power(6);
    assert Power(8) == 256 * Power(7);
  }

  predicate IsWidth(w: nat) {
    w == 1 || w == 2 || w == 4 || w == 8
  }

  /** Tagged big-endian bytes announce their width and carry their value. */
  lemma TagIsSplit(w: nat, c: nat)
    requires IsWidth(w) && c < 64 * Power(w - 1)
    ensures var s := BigEndian(Tag(w) * 64 * Power(w - 1) + c, w);
            Announced(s[0]) == w && Value(Untagged(s)) == c
  {
    Powers();
    var p := Power(w - 1);
    var v := Tag(w) * 64 * p + c;
    var s := BigEndian(v, w);
    BigEndianValue(v, w);
    ValueOfRest(s);
    ValueOfRest(Untagged(s));
    assert Untagged(s)[1..] == s[1..];
    hide Value, Power, BigEndian;
    var first, rest := s[0] as nat, Value(s[1..]);
    TakeOff(Tag(w), p, c, first, rest);
    assert (s[0] % 64) as nat == first - 64 * Tag(w);
    assert Value(Untagged(s)) == (first - 64 * Tag(w)) * p + rest;
  }

  /** The arithmetic of it: the tag is what 64 divides out of the first byte. */
  lemma TakeOff(tag: nat, p: nat, c: nat, first: nat, rest: nat)
    requires p > 0 && c < 64 * p && rest < p
    requires first * p + rest == tag * 64 * p + c
    ensures 64 * tag <= first < 64 * tag + 64
    ensures (first - 64 * tag) * p + rest == c
  {
    assert (first - 64 * tag) * p + rest == c;
    if first < 64 * tag {
      Multiple(p, 64 * tag - first);
    } else if first >= 64 * tag + 64 {
      AtLeast64(p, first - 64 * tag);
    }
  }

  lemma AtLeast64(p: nat, d: nat)
    requires d >= 64
    ensures d * p >= 64 * p
  {
    var e: nat := d - 64;
    assert d * p == 64 * p + e * p;
  }

  lemma Multiple(p: nat, d: nat)
    requires d >= 1
    ensures d * p >= p
  {
    var e: nat := d - 1;
    assert d * p == p + e * p;
  }

  /** Decoding what was encoded, whatever follows it, gives back the low 62
      bits and the length. */
  lemma DecodeEncode(v: nat, rest: Bytes)
    requires v < TWO_TO_64
    ensures Decode(Encode(v) + rest) == Some((Carried(v), |Encode(v)|))
    ensures |Encode(v)| == Width(v) && Announced(Encode(v)[0]) == Width(v)
  {
    hide Or, Shl, Value, BigEndian;
    Powers();
    TagIsSet(v);
    TagIsSplit(Width(v), Carried(v));
    var buf := Encode(v) + rest;
    assert buf[..Width(v)] == Encode(v) && buf[0] == Encode(v)[0];
  }

  /** Append a variable-length integer: what is appended decodes to the value,
      but for bits the tag overwrites, and is all of what was appended. */
  method PutVarint(out: Bytes, value: nat) returns (r: Bytes)
    requires value < TWO_TO_64
    ensures r == out + Encode(value)
    ensures Decode(r[|out|..]) == Some((value % TWO_TO_62, |r| - |out|))
  {
    hide Decode, Or;
    if value <= 0x3f {
      r := out + BigEndian(value, 1);
    } else if value <= 0x3fff {
      r := out + BigEndian(Or(value, 0x4000), 2);
    } else if value <= 0x3fff_ffff {
      r := out + BigEndian(Or(value, 0x8000_0000), 4);
    } else {
      r := out + BigEndian(Or(value, 0xc000_0000_0000_0000), 8);
    }
    DecodeEncode(value, []);
    assert r[|out|..] == Encode(value) == Encode(value) + [];
  }

  /** So an integer survives exactly if it is below 2^62. */
  lemma RoundTripExactlyWhen(v: nat, rest: Bytes)
    requires v < TWO_TO_64
    ensures Decode(Encode(v) + rest) == Some((v, |Encode(v)|)) <==> v < TWO_TO_62
  {
    DecodeEncode(v, rest);
  }

  /** No proper prefix of an encoding decodes. */
  lemma PrefixIsIncomplete(v: nat, n: nat)
    requires v < TWO_TO_64 && n < |Encode(v)|
    ensures Decode(Encode(v)[..n]) == None
  {
    DecodeEncode(v, []);
  }

  /** No bytes that decode to a value are fewer than the encoder's. */
  lemma EncodingIsShortest(buf: Bytes)
    requires Decode(buf).Some?
    ensures var (v, n) := Decode(buf).value;
            v < TWO_TO_62 && |Encode(v)| <= n <= |buf|
  {
    Powers();
    var len := Announced(buf[0]);
    var s := Untagged(buf[..len]);
    ValueOfRest(s);
    var p := Power(len - 1);
    assert s[0] as nat * p <= 63 * p;
    assert Value(s) < 64 * p;
  }

  ghost function EncodeAll(vs: seq<nat>): Bytes
    requires forall i :: 0 <= i < |vs| ==> vs[i] < TWO_TO_62
  {
    if vs == [] then [] else Encode(vs[0]) + EncodeAll(vs[1..])
  }

  ghost function DecodeAll(buf: Bytes): seq<nat>
    decreases |buf|
  {
    match Decode(buf)
    case None => []
    case Some((v, n)) => [v] + DecodeAll(buf[n..])
  }

  lemma DecodeOneMore(v: nat, rest: Bytes)
    requires v < TWO_TO_62
    ensures DecodeAll(Encode(v) + rest) == [v] + DecodeAll(rest)
  {
    hide Encode, Decode;
    DecodeEncode(v, rest);
    assert (Encode(v) + rest)[|Encode(v)|..] == rest;
  }

  /** A stream of integers needs no separators. */
  lemma {:induction false} StreamRoundTrip(vs: seq<nat>)
    requires forall i :: 0 <= i < |vs| ==> vs[i] < TWO_TO_62
    ensures DecodeAll(EncodeAll(vs)) == vs
    decreases |vs|
  {
    if vs != [] {
      hide Encode, DecodeAll;
      DecodeOneMore(vs[0], EncodeAll(vs[1..]));
      StreamRoundTrip(vs[1..]);
    }
  }
}
