// Binary64 magnitudes and the decimals that round to them.
module Doubles {

  // `v` times 2^k.
  function Shift(v: real, k: int): real
    decreases if k < 0 then -k else k
  {
    if k == 0 then v else if k > 0 then 2.0 * Shift(v, k - 1) else Shift(v, k + 1) / 2.0
  }

  // A positive double: m * 2^e, with 53 bits, or fewer at the smallest exponent.
  datatype Double = Double(m: int, e: int)

  predicate WellFormed(d: Double) {
    && 0 < d.m < 0x20_0000_0000_0000 && -1074 <= d.e <= 971
    && (d.m >= 0x10_0000_0000_0000 || d.e == -1074)
  }

  function Exact(d: Double): real { Shift(d.m as real, d.e) }

  // The bounds of what rounds to `d`, in quarters of its unit. Below a power of two the
  // next double is half as far away.
  function Low(d: Double): int { 4 * d.m - (if d.m == 0x10_0000_0000_0000 && d.e > -1074 then 1 else 2) }

  function High(d: Double): int { 4 * d.m + 2 }

  // Round half to even takes `x` to `d`.
  predicate Rounds(x: real, d: Double) {
    if d.m % 2 == 0 then Shift(Low(d) as real, d.e - 2) <= x <= Shift(High(d) as real, d.e - 2)
    else Shift(Low(d) as real, d.e - 2) < x < Shift(High(d) as real, d.e - 2)
  }

  // The order of doubles: by exponent, then by significand.
  predicate Before(c: Double, d: Double) { c.e < d.e || (c.e == d.e && c.m < d.m) }

  // ---- Shifts ------------------------------------------------------------------------

  lemma ShiftStep(v: real, k: int)
    ensures Shift(v, k + 1) == 2.0 * Shift(v, k)
  {
  }

  lemma {:induction false} ShiftOrder(v: real, w: real, k: int)
    ensures v < w <==> Shift(v, k) < Shift(w, k)
    ensures v <= w <==> Shift(v, k) <= Shift(w, k)
    decreases if k < 0 then -k else k
  {
    if k > 0 { ShiftOrder(v, w, k - 1); } else if k < 0 { ShiftOrder(v, w, k + 1); }
  }

  lemma {:induction false} ShiftDouble(v: real, k: int)
    ensures Shift(2.0 * v, k) == Shift(v, k + 1)
    decreases if k < 0 then -k else k
  {
    if k > 0 {
      ShiftDouble(v, k - 1);
    } else if k < 0 {
      ShiftDouble(v, k + 1);
      ShiftStep(v, k + 1);
    }
  }

  lemma {:induction false} ShiftAdd(v: real, w: real, k: int)
    ensures Shift(v + w, k) == Shift(v, k) + Shift(w, k)
    decreases if k < 0 then -k else k
  {
    if k > 0 { ShiftAdd(v, w, k - 1); } else if k < 0 { ShiftAdd(v, w, k + 1); }
  }

  lemma {:induction false} ShiftZero(k: int)
    ensures Shift(0.0, k) == 0.0
    decreases if k < 0 then -k else k
  {
    if k > 0 { ShiftZero(k - 1); } else if k < 0 { ShiftZero(k + 1); }
  }

  // A positive number shifted further is larger.
  lemma {:induction false} ShiftFurther(v: real, j: int, k: int)
    requires v > 0.0 && j <= k
    ensures 0.0 < Shift(v, j) <= Shift(v, k)
    decreases k - j
  {
    ShiftZero(j);
    ShiftOrder(0.0, v, j);
    if j < k {
      ShiftFurther(v, j, k - 1);
      ShiftStep(v, k - 1);
    }
  }

  // ---- Rounding keeps order -------------------------------------------------------------

  lemma QuarterUnits(d: Double)
    ensures Exact(d) == Shift(4.0 * (d.m as real), d.e - 2)
  {
    ShiftDouble(2.0 * (d.m as real), d.e - 2);
    ShiftDouble(d.m as real, d.e - 1);
  }

  // A double rounds to itself.
  lemma ExactRounds(d: Double)
    requires WellFormed(d)
    ensures Rounds(Exact(d), d) && Exact(d) > 0.0
  {
    hide Shift;
    QuarterUnits(d);
    ShiftOrder(Low(d) as real, 4.0 * (d.m as real), d.e - 2);
    ShiftOrder(4.0 * (d.m as real), High(d) as real, d.e - 2);
    ShiftFurther(d.m as real, d.e, d.e);
  }

  // The upper bound of one double is at most the lower bound of a later one, and when they
  // meet, only one of the two may be reached.
  lemma BoundsMeet(c: Double, d: Double)
    requires WellFormed(c) && WellFormed(d) && Before(c, d)
    ensures Shift(High(c) as real, c.e - 2) <= Shift(Low(d) as real, d.e - 2)
    ensures c.m % 2 == 0 && d.m % 2 == 0 ==> Shift(High(c) as real, c.e - 2) < Shift(Low(d) as real, d.e - 2)
  {
    hide Shift;
    if c.e == d.e {
      ShiftOrder(High(c) as real, Low(d) as real, c.e - 2);
    } else {
      ShiftOrder(High(c) as real, 2.0 * (Low(d) as real), c.e - 2);
      ShiftDouble(Low(d) as real, c.e - 2);
      ShiftFurther(Low(d) as real, c.e - 1, d.e - 2);
    }
  }

  lemma RoundsInOrder(x: real, c: Double, y: real, d: Double)
    requires WellFormed(c) && WellFormed(d) && Rounds(x, c) && Rounds(y, d) && Before(c, d)
    ensures x < y
  {
    hide Shift;
    BoundsMeet(c, d);
  }

  // Decimals that round to two doubles are ordered as those doubles are, and a decimal
  // rounds to one double only.
  lemma RoundingKeepsOrder(x: real, c: Double, y: real, d: Double)
    requires WellFormed(c) && WellFormed(d) && Rounds(x, c) && Rounds(y, d)
    ensures Exact(c) < Exact(d) ==> x < y
    ensures Exact(c) == Exact(d) <==> c == d
    ensures x == y ==> c == d
    ensures x < y && c != d ==> Exact(c) < Exact(d)
  {
    hide Shift, Rounds, Exact, WellFormed;
    ExactRounds(c);
    ExactRounds(d);
    if Before(c, d) {
      RoundsInOrder(x, c, y, d);
      RoundsInOrder(Exact(c), c, Exact(d), d);
    } else if Before(d, c) {
      RoundsInOrder(y, d, x, c);
      RoundsInOrder(Exact(d), d, Exact(c), c);
    }
  }

  // ---- Powers of two as numbers -----------------------------------------------------------

  lemma Ten(v: real, k: int)
    ensures Shift(v, k + 10) == 1024.0 * Shift(v, k)
  {
    ShiftStep(v, k);
    ShiftStep(v, k + 1);
    ShiftStep(v, k + 2);
    ShiftStep(v, k + 3);
    ShiftStep(v, k + 4);
    ShiftStep(v, k + 5);
    ShiftStep(v, k + 6);
    ShiftStep(v, k + 7);
    ShiftStep(v, k + 8);
    ShiftStep(v, k + 9);
    hide Shift;
  }
}
