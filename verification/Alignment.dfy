/** Multiples of a unit, by repeated subtraction, so that alignment proofs stay linear. */
module Alignment {

  predicate Multiple(a: nat, unit: nat)
    requires unit > 0
  {
    a == 0 || (a >= unit && Multiple(a - unit, unit))
  }

  /** The largest multiple of the unit not above a. */
  function RoundDown(a: nat, unit: nat): (r: nat)
    requires unit > 0
    ensures r <= a < r + unit && Multiple(r, unit)
  {
    if a < unit then 0 else unit + RoundDown(a - unit, unit)
  }

  lemma ScaleMonotone(unit: nat, m: nat, n: nat)
    requires m <= n
    ensures unit * m <= unit * n
  {
    assert unit * n == unit * m + unit * (n - m);
  }

  lemma ModStep(a: nat, unit: nat)
    requires unit > 0 && a >= unit
    ensures a % unit == (a - unit) % unit
  {
    var q, r := (a - unit) / unit, (a - unit) % unit;
    var q', r' := a / unit, a % unit;
    assert a == unit * q + unit + r && a == unit * q' + r';
    if q' <= q {
      ScaleMonotone(unit, q', q);
    } else if q + 2 <= q' {
      ScaleMonotone(unit, q + 2, q');
    }
  }

  lemma {:induction false} RoundDownIsRemainder(a: nat, unit: nat)
    requires unit > 0
    ensures RoundDown(a, unit) == a - a % unit
    ensures Multiple(a, unit) <==> a % unit == 0
  {
    if a >= unit {
      ModStep(a, unit);
      RoundDownIsRemainder(a - unit, unit);
    }
  }

  /** Two multiples of a unit are a whole unit apart, or equal. */
  lemma {:induction false} NextMultiple(a: nat, b: nat, unit: nat)
    requires unit > 0 && Multiple(a, unit) && Multiple(b, unit) && a < b
    ensures a + unit <= b
  {
    if a > 0 { NextMultiple(a - unit, b - unit, unit); }
  }

  lemma {:induction false} SumOfMultiples(a: nat, b: nat, unit: nat)
    requires unit > 0 && Multiple(a, unit) && Multiple(b, unit)
    ensures Multiple(a + b, unit)
  {
    if a > 0 { SumOfMultiples(a - unit, b, unit); }
  }

  lemma {:induction false} DifferenceOfMultiples(a: nat, b: nat, unit: nat)
    requires unit > 0 && Multiple(a, unit) && Multiple(b, unit) && a <= b
    ensures Multiple(b - a, unit)
  {
    if a > 0 { DifferenceOfMultiples(a - unit, b - unit, unit); }
  }

  lemma {:induction false} MultipleOfMultiple(a: nat, b: nat, unit: nat)
    requires unit > 0 && b > 0 && Multiple(a, b) && Multiple(b, unit)
    ensures Multiple(a, unit)
  {
    if a > 0 {
      MultipleOfMultiple(a - b, b, unit);
      SumOfMultiples(a - b, b, unit);
    }
  }

  function Pow2(n: nat): (r: nat)
    ensures r > 0
  {
    if n == 0 then 1 else 2 * Pow2(n - 1)
  }

  lemma {:induction false} Pow2Divides(m: nat, n: nat)
    requires m <= n
    ensures Multiple(Pow2(n), Pow2(m)) && (m < n ==> Pow2(m) < Pow2(n))
    decreases n - m
  {
    if m < n {
      Pow2Divides(m, n - 1);
      SumOfMultiples(Pow2(n - 1), Pow2(n - 1), Pow2(m));
    }
  }

  /** A number with its k low bits cleared, bit by bit. */
  function ClearLow(a: nat, k: nat): nat
    decreases k
  {
    if k == 0 then a else 2 * ClearLow(a / 2, k - 1)
  }

  lemma {:induction false} DoubleMultiple(a: nat, unit: nat)
    requires unit > 0 && Multiple(a, unit)
    ensures Multiple(2 * a, 2 * unit)
  {
    if a > 0 { DoubleMultiple(a - unit, unit); }
  }

  lemma {:induction false} ClearLowFacts(a: nat, k: nat)
    ensures ClearLow(a, k) <= a < ClearLow(a, k) + Pow2(k) && Multiple(ClearLow(a, k), Pow2(k))
    decreases k
  {
    if k > 0 {
      ClearLowFacts(a / 2, k - 1);
      DoubleMultiple(ClearLow(a / 2, k - 1), Pow2(k - 1));
    } else {
      EveryMultiple(a);
    }
  }

  lemma {:induction false} EveryMultiple(a: nat)
    ensures Multiple(a, 1)
  {
    if a > 0 { EveryMultiple(a - 1); }
  }

  /** Masking with the complement of a power of two less one clears the low bits; that is rounding
      down, or subtracting the remainder. */
  lemma RoundDownIsMask(a: nat, k: nat)
    ensures ClearLow(a, k) == RoundDown(a, Pow2(k)) == a - a % Pow2(k)
  {
    RoundDownIsRemainder(a, Pow2(k));
    ClearLowFacts(a, k);
    var x, y := ClearLow(a, k), RoundDown(a, Pow2(k));
    if x < y { NextMultiple(x, y, Pow2(k)); }
    if y < x { NextMultiple(y, x, Pow2(k)); }
  }
}
