/** The part of binary64 arithmetic that the device-set count uses: conversion of an integer and division by
    four, both rounding to nearest, ties to even (section 4.3.1 of IEEE 754-2019). Overflow is
    out of reach of 64-bit integers and is not modelled. */
module Float64 {

  const PRECISION_LIMIT: int := 0x20_0000_0000_0000   // 2^53
  const HALF_LIMIT: int := 0x10_0000_0000_0000        // 2^52

  /** significand * 2^exponent. */
  function Value(significand: int, exponent: int): real
    decreases if exponent < 0 then -exponent else exponent
  {
    if exponent == 0 then significand as real
    else if exponent > 0 then 2.0 * Value(significand, exponent - 1)
    else Value(significand, exponent + 1) / 2.0
  }

  /** x is written with a significand of at most 53 bits. */
  ghost predicate Encodes(x: real, significand: int, exponent: int) {
    -PRECISION_LIMIT < significand < PRECISION_LIMIT && -1074 <= exponent && x == Value(significand, exponent)
  }

  ghost predicate Representable(x: real) {
    exists significand, exponent :: Encodes(x, significand, exponent)
  }

  /** Representable without a fraction. */
  ghost predicate Whole(x: real)
    ensures Whole(x) ==> Representable(x)
  {
    exists significand, exponent :: Encodes(x, significand, exponent) && exponent >= 0
  }

  /** The significand, with all 53 bits in use, is even. */
  ghost predicate EvenSignificand(x: real) {
    exists significand, exponent ::
      Encodes(x, significand, exponent) && significand % 2 == 0 && (significand >= HALF_LIMIT ||
        -significand >= HALF_LIMIT)
  }

  function Distance(x: real, y: real): real {
    if x <= y then y - x else x - y
  }

  /** r is x rounded to nearest, ties to even. */
  ghost predicate RoundsTo(x: real, r: real) {
    && Representable(r)
    && (forall y :: Representable(y) ==> Distance(x, r) <= Distance(x, y))
    && ((exists y :: Representable(y) && y != r && Distance(x, y) == Distance(x, r)) ==> EvenSignificand(r))
  }

  lemma RepresentableIsExact(x: real, r: real)
    requires Representable(x) && RoundsTo(x, r)
    ensures r == x
  {
    assert Distance(x, r) <= Distance(x, x);
  }

  // ----- significands and exponents -----

  lemma {:induction false} Shift(m: int, e: int)
    ensures Value(m, e + 1) == Value(2 * m, e)
    ensures Value(m, e + 1) == 2.0 * Value(m, e)
    decreases if e < 0 then -e else e
  {
    if e > 0 {
      Shift(m, e - 1);
    } else if e < 0 {
      Shift(m, e + 1);
      Double(m, e + 1);
    }
  }

  lemma {:induction false} Double(m: int, e: int)
    ensures Value(2 * m, e) == 2.0 * Value(m, e)
    decreases if e < 0 then -e else e
  {
    if e > 0 {
      Double(m, e - 1);
    } else if e < 0 {
      Double(m, e + 1);
    }
  }

  lemma {:induction false} Additive(m: int, n: int, e: int)
    ensures Value(m + n, e) == Value(m, e) + Value(n, e)
    ensures n > 0 ==> Value(n, e) > 0.0
    decreases if e < 0 then -e else e
  {
    if e > 0 {
      Additive(m, n, e - 1);
    } else if e < 0 {
      Additive(m, n, e + 1);
    }
  }

  /** A number with a larger exponent can be written with a smaller one. */
  lemma {:induction false} Coarser(m: int, e: int, k: int) returns (t: int)
    requires e >= k
    ensures Value(m, e) == Value(t, k)
    decreases e - k
  {
    if e == k {
      t := m;
    } else {
      Shift(m, e - 1);
      t := Coarser(2 * m, e - 1, k);
    }
  }

  /** 53 bits below the spacing 2^k stay below the binade with that spacing. */
  lemma {:induction false} Below(m: int, e: int, k: int)
    requires m < PRECISION_LIMIT && e < k
    ensures Value(m, e) < Value(HALF_LIMIT, k)
    decreases k - e
  {
    Shift(HALF_LIMIT, e);
    Additive(m, PRECISION_LIMIT - m, e);
    if e + 1 < k {
      Below(HALF_LIMIT, e + 1, k);
    }
  }

  // ----- conversion of a natural number: keep the 53 leading bits -----

  function Exponent(c: nat): nat {
    if c < PRECISION_LIMIT then 0 else 1 + Exponent(c / 2)
  }

  function Leading(c: nat): (q: nat)
    ensures q < PRECISION_LIMIT && (c >= PRECISION_LIMIT ==> q >= HALF_LIMIT)
  {
    if c < PRECISION_LIMIT then c else Leading(c / 2)
  }

  function Spacing(c: nat): nat {
    if c < PRECISION_LIMIT then 1 else 2 * Spacing(c / 2)
  }

  function Rest(c: nat): (rest: nat)
    ensures rest < Spacing(c)
  {
    if c < PRECISION_LIMIT then 0 else c % 2 + 2 * Rest(c / 2)
  }

  /** The lower neighbour lo of lo + rest, or the upper one. */
  function Nearer(lo: int, u: nat, rest: nat, evenLow: bool): int {
    if 2 * rest < u || (2 * rest == u && evenLow) then lo else lo + u
  }

  function RoundNat(c: nat): int {
    Nearer(c - Rest(c), Spacing(c), Rest(c), Leading(c) % 2 == 0)
  }

  lemma {:induction false} BitsAddUp(c: nat)
    ensures Spacing(c) as real == Value(1, Exponent(c))
    ensures (c - Rest(c)) as real == Value(Leading(c), Exponent(c))
  {
    if c >= PRECISION_LIMIT {
      BitsAddUp(c / 2);
    }
  }

  lemma {:induction false} NothingBetween(y: real, k: nat, q: int, lo: int, u: nat)
    requires Representable(y) && HALF_LIMIT <= q && u as real == Value(1, k) && lo as real == Value(q, k)
    ensures y <= lo as real || y >= (lo + u) as real
  {
    var m: int, e: int :| Encodes(y, m, e);
    if e >= k {
      var t := Coarser(m, e, k);
      Additive(q, 1, k);
      if t < q { Additive(t, q - t, k); }
      if t > q + 1 { Additive(q + 1, t - (q + 1), k); }
    } else {
      Below(m, e, k);
      if q > HALF_LIMIT { Additive(HALF_LIMIT, q - HALF_LIMIT, k); }
    }
  }

  lemma {:induction false} NeighboursWhole(k: nat, q: int, lo: int, u: nat)
    requires HALF_LIMIT <= q < PRECISION_LIMIT && u as real == Value(1, k) && lo as real == Value(q, k)
    ensures Whole(lo as real) && Whole((lo + u) as real)
    ensures EvenSignificand(if q % 2 == 0 then lo as real else (lo + u) as real)
  {
    assert Encodes(lo as real, q, k);
    Additive(q, 1, k);
    if q + 1 < PRECISION_LIMIT {
      assert Encodes((lo + u) as real, q + 1, k);
    } else {
      Shift(HALF_LIMIT, k);
      assert Encodes((lo + u) as real, HALF_LIMIT, k + 1);
    }
  }

  /** Rounding between two neighbours with nothing representable between them. */
  lemma NearestNeighbour(c: nat, lo: int, u: nat, rest: nat, evenLow: bool)
    requires c == lo + rest && rest < u && Representable(lo as real) && Representable((lo + u) as real)
    requires EvenSignificand(if evenLow then lo as real else (lo + u) as real)
    requires forall y :: Representable(y) ==> y <= lo as real || y >= (lo + u) as real
    ensures RoundsTo(c as real, Nearer(lo, u, rest, evenLow) as real)
  {
  }

  /** Conversion of a natural number to binary64 is RoundNat. */
  lemma ConversionRounds(c: nat)
    ensures RoundsTo(c as real, RoundNat(c) as real) && Whole(RoundNat(c) as real)
  {
    if c < PRECISION_LIMIT {
      assert Encodes(c as real, c, 0);
    } else {
      BitsAddUp(c);
      var lo, u, q, k := c - Rest(c), Spacing(c), Leading(c), Exponent(c);
      NeighboursWhole(k, q, lo, u);
      forall y | Representable(y) ensures y <= lo as real || y >= (lo + u) as real {
        NothingBetween(y, k, q, lo, u);
      }
      NearestNeighbour(c, lo, u, Rest(c), q % 2 == 0);
    }
  }

  /** With all 53 bits in use, significand and exponent are determined by the value. */
  lemma {:induction false} NormalIsUnique(q: int, k: int, m: int, e: int)
    requires HALF_LIMIT <= q < PRECISION_LIMIT && -PRECISION_LIMIT < m < PRECISION_LIMIT
    requires (m >= HALF_LIMIT || -m >= HALF_LIMIT)
    requires Value(q, k) == Value(m, e)
    ensures m == q
  {
    Additive(0, q, k);
    if m < 0 {
      Additive(m, -m, e);
      Additive(0, 0, e);
      Additive(0, 0, k);
    } else if e < k {
      Below(m, e, k);
      if q > HALF_LIMIT { Additive(HALF_LIMIT, q - HALF_LIMIT, k); }
    } else if e > k {
      Below(q, k, e);
      if m > HALF_LIMIT { Additive(HALF_LIMIT, m - HALF_LIMIT, e); }
    } else if m < q {
      Additive(m, q - m, k);
    } else if m > q {
      Additive(q, m - q, k);
    }
  }

  lemma OddIsNotEven(q: int, k: int, x: real)
    requires HALF_LIMIT <= q < PRECISION_LIMIT && q % 2 == 1 && x == Value(q, k)
    ensures !EvenSignificand(x)
  {
    if EvenSignificand(x) {
      var m: int, e: int :| Encodes(x, m, e) && m % 2 == 0 && (m >= HALF_LIMIT || -m >= HALF_LIMIT);
      NormalIsUnique(q, k, m, e);
    }
  }

  /** Only one of two neighbours is even, so a tie has one answer. */
  lemma OnlyNeighbour(c: nat, lo: int, u: nat, rest: nat, evenLow: bool, r: real)
    requires c == lo + rest && rest < u && Representable(lo as real) && Representable((lo + u) as real)
    requires !EvenSignificand(if evenLow then (lo + u) as real else lo as real)
    requires forall y :: Representable(y) ==> y <= lo as real || y >= (lo + u) as real
    requires RoundsTo(c as real, r)
    ensures r == Nearer(lo, u, rest, evenLow) as real
  {
    var below, above := lo as real, (lo + u) as real;
    assert Distance(c as real, r) <= Distance(c as real, below);
    assert Distance(c as real, r) <= Distance(c as real, above);
    assert r == below || r == above;
    if 2 * rest == u {
      assert Distance(c as real, below) == Distance(c as real, above);
    }
  }

  /** And RoundNat is its only result. */
  lemma ConversionIsUnique(c: nat, r: real)
    requires RoundsTo(c as real, r)
    ensures r == RoundNat(c) as real
  {
    if c < PRECISION_LIMIT {
      assert Encodes(c as real, c, 0);
      RepresentableIsExact(c as real, r);
    } else {
      BitsAddUp(c);
      var lo, u, q, k := c - Rest(c), Spacing(c), Leading(c), Exponent(c);
      NeighboursWhole(k, q, lo, u);
      forall y | Representable(y) ensures y <= lo as real || y >= (lo + u) as real {
        NothingBetween(y, k, q, lo, u);
      }
      Additive(q, 1, k);
      if q % 2 == 0 {
        OddIsNotEven(q + 1, k, (lo + u) as real);
      } else {
        OddIsNotEven(q, k, lo as real);
      }
      OnlyNeighbour(c, lo, u, Rest(c), q % 2 == 0, r);
    }
  }

  /** Up to 2^53 the conversion is exact. */
  lemma ConversionIsExact(c: nat)
    requires c <= PRECISION_LIMIT
    ensures RoundNat(c) == c
  {
    if c == PRECISION_LIMIT {
      assert Rest(c) == 0;
    }
  }

  /** A positive number is not rounded down to nothing. */
  lemma ConversionIsPositive(c: nat)
    requires c > 0
    ensures RoundNat(c) > 0
  {
    RestIsLess(c);
  }

  lemma {:induction false} RestIsLess(c: nat)
    requires c > 0
    ensures Rest(c) < c
  {
    if c >= PRECISION_LIMIT {
      RestIsLess(c / 2);
    }
  }

  lemma QuarterRepresentable(x: real)
    requires Whole(x)
    ensures Representable(x / 4.0)
  {
    var m: int, e: int :| Encodes(x, m, e) && e >= 0;
    Shift(m, e - 2);
    Shift(m, e - 1);
    assert Encodes(x / 4.0, m, e - 2);
  }

  /** Dividing a converted natural number by four is exact. */
  lemma QuarterIsExact(c: nat, r: real)
    requires RoundsTo(RoundNat(c) as real / 4.0, r)
    ensures r == RoundNat(c) as real / 4.0
  {
    ConversionRounds(c);
    QuarterRepresentable(RoundNat(c) as real);
    RepresentableIsExact(RoundNat(c) as real / 4.0, r);
  }
}
