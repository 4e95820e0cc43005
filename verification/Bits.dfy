/**
 Bitwise operations on numbers, bit by bit, and the arithmetic they come to
 when one operand is a mask or a tag above the other.
 */
module Bits {
  function And(a: nat, b: nat): nat {
    if a == 0 || b == 0 then 0
    else 2 * And(a / 2, b / 2) + if a % 2 == 1 && b % 2 == 1 then 1 else 0
  }

  function Or(a: nat, b: nat): nat {
    if a == 0 then b
    else if b == 0 then a
    else 2 * Or(a / 2, b / 2) + if a % 2 == 1 || b % 2 == 1 then 1 else 0
  }

  function Pow2(k: nat): (p: nat)
    ensures p > 0
  {
    if k == 0 then 1 else 2 * Pow2(k - 1)
  }

  function Shl(a: nat, k: nat): nat {
    if k == 0 then a else 2 * Shl(a, k - 1)
  }

  // ---- Division ----

  lemma NextMultiple(e: nat, k: nat, q: nat)
    requires k > q
    ensures e * k >= e * q + e
  {
    var d: nat := k - q - 1;
    assert e * k == e * q + e + e * d;
  }

  lemma OneRemainder(e: nat, k: nat, s: nat, q: nat, t: nat)
    requires s < e && t < e && e * k + s == e * q + t
    ensures s == t && k == q
  {
    if k > q {
      NextMultiple(e, k, q);
    } else if q > k {
      NextMultiple(e, q, k);
    }
  }

  lemma Division(x: nat, e: nat)
    requires e > 0
    ensures x == e * (x / e) + x % e && x % e < e
  {
  }

  lemma RemainderIs(x: nat, e: nat, k: nat, s: nat)
    requires x == e * k + s && s < e
    ensures x % e == s && x / e == k
  {
    Division(x, e);
    OneRemainder(e, k, s, x / e, x % e);
  }

  /** Dividing by twice as much is halving first. */
  lemma HalveFirst(x: nat, p: nat)
    requires p > 0
    ensures x % (2 * p) == 2 * (x / 2 % p) + x % 2
    ensures x / (2 * p) == x / 2 / p
  {
    var q, r := x / 2 / p, x / 2 % p;
    Division(x / 2, p);
    assert 2 * p * q == 2 * (p * q);
    RemainderIs(x, 2 * p, q, 2 * r + x % 2);
  }

  // ---- Masks and tags ----

  lemma AndUnfolds(a: nat, b: nat)
    ensures And(a, b) == 2 * And(a / 2, b / 2) + if a % 2 == 1 && b % 2 == 1 then 1 else 0
  {
  }

  lemma OrUnfolds(a: nat, b: nat)
    ensures Or(a, b) == 2 * Or(a / 2, b / 2) + if a % 2 == 1 || b % 2 == 1 then 1 else 0
  {
  }

  /** Masking with one less than a power of two leaves the remainder. */
  lemma {:induction false} AndMask(x: nat, k: nat)
    ensures And(x, Pow2(k) - 1) == x % Pow2(k)
  {
    if k > 0 {
      var p := Pow2(k - 1);
      AndUnfolds(x, 2 * p - 1);
      assert (2 * p - 1) / 2 == p - 1;
      hide And;
      AndMask(x / 2, k - 1);
      HalveFirst(x, p);
    }
  }

  /** Setting bits from the `k`th up leaves the bits below. */
  lemma {:induction false} OrShifted(low: nat, high: nat, tag: nat, k: nat)
    requires low < Pow2(k)
    ensures Or(low + Shl(high, k), Shl(tag, k)) == low + Shl(Or(high, tag), k)
    decreases k
  {
    if k > 0 {
      OrUnfolds(low + Shl(high, k), Shl(tag, k));
      hide Or;
      OrShifted(low / 2, high, tag, k - 1);
    }
  }

  lemma {:induction false} ShlZero(k: nat)
    ensures Shl(0, k) == 0
  {
    if k > 0 {
      ShlZero(k - 1);
    }
  }

  /** A value below the tag's place is added to it. */
  lemma OrAbove(v: nat, tag: nat, k: nat)
    requires v < Pow2(k)
    ensures Or(v, Shl(tag, k)) == v + Shl(tag, k)
  {
    ShlZero(k);
    OrShifted(v, 0, tag, k);
  }

  lemma {:induction false} OrSwaps(a: nat, b: nat)
    ensures Or(a, b) == Or(b, a)
  {
    if a > 0 && b > 0 {
      OrSwaps(a / 2, b / 2);
    }
  }
}
