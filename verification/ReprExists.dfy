// Every finite double has a `repr`: there is a shortest decimal that rounds to it, a
// closest one of those, and at a tie exactly one that ends in an even digit.
module ReprExists {
  import opened Text
  import opened Doubles
  import opened JsNumbers
  import opened JsNumberValues

  // A decimal that reads back as the double.
  predicate Reads(d: string, p: int, x: Double) { d != "" && Shortest(d) && Rounds(Magnitude(d, p), x) }

  // ---- A double is a decimal ------------------------------------------------------------

  lemma {:induction false} ShiftWhole(n: int, k: nat) returns (m: int)
    ensures Shift(n as real, k) == m as real && (n > 0 ==> m > 0) && (n % 5 != 0 ==> m % 5 != 0)
  {
    if k == 0 {
      m := n;
    } else {
      var l := ShiftWhole(n, k - 1);
      m := 2 * l;
    }
  }

  // Halving is the shift by a decimal place of five times as much.
  lemma {:induction false} HalvesAreDecimals(n: nat, k: int) returns (m: nat)
    requires n > 0 && k <= 0
    ensures Shift(n as real, k) == Scale(m as real, k) && m > 0
    decreases -k
  {
    if k == 0 {
      m := n;
    } else {
      var l := HalvesAreDecimals(n, k + 1);
      m := 5 * l;
      FiveOfTen(l, k);
    }
  }

  lemma FiveOfTen(l: nat, k: int)
    ensures Scale((5 * l) as real, k) == Scale(l as real, k + 1) / 2.0
  {
    hide Scale;
    ScaleLinear((5 * l) as real, (5 * l) as real, k);
    assert (5 * l) as real + (5 * l) as real == 10.0 * (l as real);
    TenIn(l as real, k);
  }

  lemma TenIn(v: real, k: int)
    ensures Scale(10.0 * v, k) == Scale(v, k + 1)
  {
    ScaleScale(v, 1, k);
    assert Scale(v, 1) == 10.0 * v;
  }

  lemma ExactIsDecimal(x: Double) returns (n: nat, k: int)
    requires WellFormed(x)
    ensures n > 0 && Exact(x) == Scale(n as real, k)
  {
    hide Shift;
    if x.e >= 0 {
      n := ShiftWhole(x.m, x.e);
      k := 0;
      assert Scale(n as real, 0) == n as real;
    } else {
      n := HalvesAreDecimals(x.m, x.e);
      k := x.e;
    }
  }

  // ---- A decimal in its shortest digits ----------------------------------------------------

  lemma {:induction false} NatTextLength(n: nat, l: nat)
    requires (n as real) < Scale(1.0, l) && l > 0
    ensures |NatText(n)| <= l
  {
    ScaleStep(1.0, l - 1);
    assert l == 1 ==> Scale(1.0, l) == 10.0;
    if n >= 10 {
      assert (10 * (n / 10)) as real <= n as real;
      NatTextLength(n / 10, l - 1);
    }
  }

  lemma NatTextEnd(n: nat)
    ensures var t := NatText(n); t[|t| - 1] as int - '0' as int == n % 10
  {
    assert "0123456789"[n % 10] as int - '0' as int == n % 10;
  }

  // With the zeros at its end moved into the exponent.
  lemma {:induction false} Canonical(n: nat, k: int, l: nat) returns (d: string, p: int)
    requires 0 < n && l > 0 && (n as real) < Scale(1.0, l)
    ensures Shortest(d) && Magnitude(d, p) == Scale(n as real, k) && |d| <= l
    decreases n
  {
    if n % 10 == 0 {
      var m := n / 10;
      assert n == 10 * m;
      assert (m as real) < n as real;
      d, p := Canonical(m, k + 1, l);
      TenIn(m as real, k);
    } else {
      d := NatText(n);
      p := k + |d|;
      NatTextLength(n, l);
      NatTextEnd(n);
      DigitsOfNat(n);
    }
  }

  lemma {:induction false} SomePower(n: nat) returns (l: nat)
    ensures l > 0 && (n as real) < Scale(1.0, l)
  {
    if n < 10 {
      l := 1;
      assert Scale(1.0, 1) == 10.0;
    } else {
      var j := SomePower(n / 10);
      l := j + 1;
      ScaleStep(1.0, j);
      var m := ScaleWhole(1, j);
      assert n / 10 + 1 <= m;
    }
  }

  lemma SomeReads(x: Double) returns (d: string, p: int)
    requires WellFormed(x)
    ensures Reads(d, p, x)
  {
    hide Shift, Scale, Rounds, Exact, Magnitude, Shortest;
    var n, k := ExactIsDecimal(x);
    var l := SomePower(n);
    d, p := Canonical(n, k, l);
    ExactRounds(x);
  }

  // ---- The shortest ------------------------------------------------------------------------

  // No decimal of fewer digits reads back.
  ghost predicate Least(l: nat, x: Double) { forall d, p | Reads(d, p, x) :: |d| >= l }

  lemma {:induction false} LeastLength(d: string, p: int, x: Double) returns (c: string, q: int)
    requires Reads(d, p, x)
    ensures Reads(c, q, x) && Least(|c|, x)
    decreases |d|
  {
    hide Reads;
    if Least(|d|, x) {
      c, q := d, p;
    } else {
      var d', p' :| Reads(d', p', x) && |d'| < |d|;
      c, q := LeastLength(d', p', x);
    }
  }

  // ---- The closest --------------------------------------------------------------------------

  function TextsOf(l: nat): (r: set<string>)
    ensures forall s | |s| == l && AllDigits(s) :: s in r
  {
    if l == 0 then {""}
    else
      var r := set s, k | s in TextsOf(l - 1) && k in {'0', '1', '2', '3', '4', '5', '6', '7', '8', '9'} :: s + [k];
      assert forall s | |s| == l && AllDigits(s) :: s in r by {
        forall s | |s| == l && AllDigits(s) ensures s in r { assert s == s[..l - 1] + [s[l - 1]]; }
      }
      r
  }

  // What rounds to one double is within a factor of three.
  lemma Spread(y: real, z: real, x: Double)
    requires WellFormed(x) && Rounds(y, x) && Rounds(z, x)
    ensures y <= 3.0 * z
  {
    hide Shift;
    var (low, high) := (Low(x) as real, High(x) as real);
    ShiftOrder(high, 3.0 * low, x.e - 2);
    ShiftAdd(low, low, x.e - 2);
    ShiftAdd(low + low, low, x.e - 2);
    assert low + low + low == 3.0 * low;
  }

  lemma NearPlace(d: string, p: int, d': string, p': int, x: Double)
    requires WellFormed(x) && Reads(d, p, x) && Reads(d', p', x)
    ensures p' <= p + 1
  {
    hide Rounds, Magnitude, Scale, Shortest;
    Spread(Magnitude(d', p'), Magnitude(d, p), x);
    MagnitudeBounds(d, p);
    MagnitudeBounds(d', p');
    TenTimes(p);
    UnitPositive(p);
    if p' > p + 1 { UnitMonotone(p + 1, p' - 1); }
  }

  lemma {:induction false} Closest(all: set<(string, int)>, x: Double) returns (c: (string, int))
    requires all != {}
    ensures c in all && forall e | e in all :: Distance(c.0, c.1, x) <= Distance(e.0, e.1, x)
  {
    hide Distance;
    var a :| a in all;
    var rest := all - {a};
    assert forall e | e in all && e != a :: e in rest;
    if rest == {} {
      c := a;
    } else {
      var b := Closest(rest, x);
      c := if Distance(a.0, a.1, x) <= Distance(b.0, b.1, x) then a else b;
    }
  }

  // Of the shortest decimals, none closer.
  ghost predicate Nearest(d: string, p: int, x: Double) {
    && Reads(d, p, x) && Least(|d|, x)
    && forall d', p' | Reads(d', p', x) && |d'| == |d| :: Distance(d, p, x) <= Distance(d', p', x)
  }

  lemma NearestExists(d: string, p: int, x: Double) returns (c: string, q: int)
    requires WellFormed(x) && Reads(d, p, x) && Least(|d|, x)
    ensures Nearest(c, q, x)
  {
    hide Distance, Rounds, Magnitude, WellFormed;
    var all := set s, r | s in TextsOf(|d|) && p - 1 <= r <= p + 1 && Reads(s, r, x) && |s| == |d| :: (s, r);
    forall d', p' | Reads(d', p', x) && |d'| == |d| ensures (d', p') in all {
      NearPlace(d, p, d', p', x);
      NearPlace(d', p', d, p, x);
    }
    assert (d, p) in all;
    var best := Closest(all, x);
    c, q := best.0, best.1;
    forall d', p' | Reads(d', p', x) && |d'| == |c| ensures Distance(c, q, x) <= Distance(d', p', x) {
      assert (d', p') in all;
    }
  }

  // ---- Ties ------------------------------------------------------------------------------------

  lemma ReadsBetween(y: real, z: real, x: Double, c: string, q: int)
    requires Rounds(y, x) && Rounds(z, x) && y <= Magnitude(c, q) <= z && Shortest(c)
    ensures Reads(c, q, x)
  {
    hide Shift, Magnitude, AllDigits;
  }

  lemma BetweenIsCloser(d: string, p: int, d': string, p': int, x: Double, c: string, q: int)
    requires Magnitude(d, p) < Magnitude(c, q) < Magnitude(d', p')
    requires Exact(x) - Magnitude(d, p) == Magnitude(d', p') - Exact(x)
    ensures Distance(c, q, x) < Distance(d, p, x)
  {
    hide Magnitude, Exact;
  }

  // Two decimals as near as can be, one on either side of the double.
  ghost predicate Tied(d: string, p: int, d': string, p': int, x: Double) {
    && Nearest(d, p, x) && Reads(d', p', x) && |d'| == |d|
    && Magnitude(d, p) < Magnitude(d', p') && Exact(x) - Magnitude(d, p) == Magnitude(d', p') - Exact(x)
  }

  lemma TiedTexts(d: string, p: int, d': string, p': int, x: Double)
    requires Tied(d, p, d', p', x)
    ensures Shortest(d) && Shortest(d') && |d| == |d'| && d != "" && Magnitude(d, p) < Magnitude(d', p')
    ensures Rounds(Magnitude(d, p), x) && Exact(x) + Exact(x) == Magnitude(d, p) + Magnitude(d', p')
  {
    hide Shortest, Rounds, Magnitude, Exact, Distance, Least;
  }

  // No decimal as short lies between them.
  lemma NoneBetween(d: string, p: int, d': string, p': int, x: Double, c: string, q: int)
    requires Tied(d, p, d', p', x) && Shortest(c) && |c| <= |d|
    ensures !(Magnitude(d, p) < Magnitude(c, q) < Magnitude(d', p'))
  {
    hide Magnitude, Rounds, Shortest, Exact, Distance;
    if Magnitude(d, p) < Magnitude(c, q) < Magnitude(d', p') {
      BetweenIsCloser(d, p, d', p', x, c, q);
      ReadsBetween(Magnitude(d, p), Magnitude(d', p'), x, c, q);
    }
  }

  lemma EvenValue(d: string)
    requires Shortest(d)
    ensures EndsEven(d) <==> DigitsValue(d) % 2 == 0
  {
    hide EndsEven;
    EvenEnd(d);
    TensAreEven(DigitsValue(d[..|d| - 1]), d[|d| - 1] as int - '0' as int);
  }

  lemma EvenEnd(d: string)
    requires d != "" && Digit(d[|d| - 1])
    ensures EndsEven(d) <==> (d[|d| - 1] as int - '0' as int) % 2 == 0
  {
    LastIsEven(d[|d| - 1]);
  }

  lemma TensAreEven(front: int, last: int)
    ensures (10 * front + last) % 2 == last % 2
  {
  }

  lemma LastIsEven(k: char)
    requires Digit(k)
    ensures k in "02468" <==> (k as int - '0' as int) % 2 == 0
  {
  }

  // At one place, tied decimals are neighbours.
  lemma TiedAtOnePlace(d: string, p: int, d': string, x: Double)
    requires Tied(d, p, d', p, x)
    ensures DigitsValue(d') == DigitsValue(d) + 1
  {
    hide Rounds, Scale, Least, Exact;
    var (n, n', s) := (DigitsValue(d), DigitsValue(d'), p - |d|);
    DigitsBounds(d);
    DigitsBounds(d');
    ScaleLinear(n as real, n' as real, s);
    if n' > n + 1 {
      var c, q := Canonical(n + 1, s, |d|);
      ScaleLinear(n as real, (n + 1) as real, s);
      ScaleLinear((n + 1) as real, n' as real, s);
      NoneBetween(d, p, d', p, x, c, q);
    }
  }

  // At two places they would be nine and ten of one unit.
  lemma TiedAtTwoPlaces(d: string, p: int, d': string, p': int, x: Double)
    requires Tied(d, p, d', p', x) && p != p'
    ensures Magnitude(d, p) == Scale(9.0, p - 1) && Magnitude(d', p') == Scale(10.0, p - 1)
  {
    hide Rounds, Scale, Least, Exact, Magnitude, Nearest, Tied;
    TiedTexts(d, p, d', p', x);
    MagnitudeBounds(d, p);
    MagnitudeBounds(d', p');
    if p' < p { UnitMonotone(p', p - 1); }
    UnitMonotone(p, p' - 1);
    OneAt(p + 1);
    assert Shortest("1");
    NoneBetween(d, p, d', p', x, "1", p + 1);
    assert Magnitude(d', p') == Magnitude("1", p + 1);
    MagnitudeInjective(d', p', "1", p + 1);
    TenIn(1.0, p - 1);
    NineAt(d, p);
    assert Shortest("9");
    NoneBetween(d, p, d', p', x, "9", p);
  }

  lemma NineAt(d: string, p: int)
    requires Shortest(d) && |d| == 1
    ensures Magnitude(d, p) <= Magnitude("9", p) == Scale(9.0, p - 1) < Scale(10.0, p - 1)
  {
    hide Scale;
    OneDigitMagnitude(d, p);
    OneDigitMagnitude("9", p);
    assert "9"[..0] == "" && DigitsValue("9") == 9;
    assert d[..0] == "" && DigitsValue(d) <= 9;
    ScaleLinear(9.0, 10.0, p - 1);
    ScaleLinear(DigitsValue(d) as real, 9.0, p - 1);
  }

  // ---- But no double is nine and a half of a unit it can be as far from as that ---------------

  lemma {:induction false} ScaleShifted(v: real, j: int, k: int)
    ensures Scale(Shift(v, k), j) == Shift(Scale(v, j), k)
    decreases if j < 0 then -j else j
  {
    if j > 0 {
      ScaleShifted(v, j - 1, k);
      TenShifted(Scale(v, j - 1), k);
    } else if j < 0 {
      ScaleShifted(v, j + 1, k);
      TenShifted(Scale(v, j), k);
    }
  }

  lemma {:induction false} TenShifted(v: real, k: int)
    ensures Shift(10.0 * v, k) == 10.0 * Shift(v, k)
    decreases if k < 0 then -k else k
  {
    if k > 0 { TenShifted(v, k - 1); } else if k < 0 { TenShifted(v, k + 1); }
  }

  lemma {:induction false} ShiftShift(v: real, a: int, b: nat)
    ensures Shift(Shift(v, a), b) == Shift(v, a + b)
  {
    if b > 0 {
      ShiftShift(v, a, b - 1);
      ShiftStep(v, a + b - 1);
    }
  }

  lemma HalfUnit(x: Double, k: int)
    requires WellFormed(x) && Rounds(Scale(9.0, k), x) && Exact(x) == Scale(9.5, k)
    ensures x.m <= 9 && x.e == -1074
  {
    hide Scale, Shift;
    var (u, s) := (Scale(0.5, k), x.e - 2);
    ScaleLinear(9.0, 0.5, k);
    QuarterUnits(x);
    ShiftOrder(4.0 * (x.m as real) - 2.0, Low(x) as real, s);
    ShiftAdd(4.0 * (x.m as real) - 2.0, 2.0, s);
    assert u <= Shift(2.0, s);
    NineteenHalves(k);
    NineteenPairs(s);
    assert Shift(4.0 * (x.m as real), s) <= Shift(38.0, s);
    ShiftOrder(38.0, 4.0 * (x.m as real), s);
  }

  lemma NineteenHalves(k: int)
    ensures Scale(9.5, k) == 19.0 * Scale(0.5, k)
  {
    NineteenTimes(0.5, k);
  }

  lemma {:induction false} NineteenTimes(v: real, k: int)
    ensures Scale(19.0 * v, k) == 19.0 * Scale(v, k)
    decreases if k < 0 then -k else k
  {
    if k > 0 { NineteenTimes(v, k - 1); } else if k < 0 { NineteenTimes(v, k + 1); }
  }

  lemma {:induction false} NineteenPairs(k: int)
    ensures Shift(38.0, k) == 19.0 * Shift(2.0, k)
    decreases if k < 0 then -k else k
  {
    if k > 0 { NineteenPairs(k - 1); } else if k < 0 { NineteenPairs(k + 1); }
  }

  lemma NoNineAndAHalf(x: Double, k: int)
    requires WellFormed(x) && Rounds(Scale(9.0, k), x)
    ensures Exact(x) != Scale(9.5, k)
  {
    hide Scale, Shift, Rounds, Exact;
    if Exact(x) == Scale(9.5, k) {
      HalfUnit(x, k);
      if k >= 0 { UnitsBelow(x, k); } else { TenthsNever(x, k); }
    }
  }

  lemma UnitsBelow(x: Double, k: nat)
    requires 0 < x.m <= 9 && x.e == -1074
    ensures Exact(x) < Scale(9.5, k)
  {
    hide Scale, Shift;
    ShiftFurther(x.m as real, x.e, 0);
    ShiftNone(x.m as real);
    NineteenHalves(k);
    UnitMonotone(0, k);
    HalfOfUnit(k);
    ScaleNone(1.0);
  }

  lemma HalfOfUnit(k: int)
    ensures Scale(0.5, k) + Scale(0.5, k) == Scale(1.0, k)
  {
    ScaleLinear(0.5, 0.5, k);
  }

  lemma ShiftNone(v: real)
    ensures Shift(v, 0) == v
  {
  }

  lemma ScaleNone(v: real)
    ensures Scale(v, 0) == v
  {
  }

  lemma TenthsNever(x: Double, k: int)
    requires k < 0 && x.m > 0 && x.e == -1074
    ensures Exact(x) != Scale(9.5, k)
  {
    hide Scale, Shift;
    if Exact(x) == Scale(9.5, k) {
      var n := TenthsAreWhole(x.m, x.e, k);
      NineteenIsNoTen(n, -x.e);
    }
  }

  lemma TenthsAreWhole(m: int, e: int, k: int) returns (n: int)
    requires k < 0 && e < 0 && Shift(m as real, e) == Scale(9.5, k)
    ensures n % 10 == 0 && Shift(9.5, -e) == n as real
  {
    hide Scale, Shift;
    n := ScaleWhole(m, -k);
    ScaleShifted(m as real, -k, e);
    ScaleScale(9.5, k, -k);
    ScaleNone(9.5);
    ShiftShift(n as real, e, -e);
    ShiftNone(n as real);
  }

  lemma NineteenIsNoTen(n: int, e: nat)
    requires e > 0 && Shift(9.5, e) == n as real
    ensures n % 10 != 0
  {
    hide Shift;
    ShiftDouble(9.5, e - 1);
    assert 2.0 * 9.5 == 19.0;
    var m := ShiftWhole(19, e - 1);
    assert m as real == n as real;
    NoTen(m);
  }

  lemma NoTen(n: int)
    requires n % 5 != 0
    ensures n % 10 != 0
  {
    TensAreFives(n / 10);
    assert n == 10 * (n / 10) + n % 10;
  }

  lemma TensAreFives(q: int)
    ensures 10 * q % 5 == 0
  {
    assert 10 * q == 5 * (2 * q);
  }

  // ---- One of them ends even ----------------------------------------------------------------------

  lemma TiedParity(d: string, p: int, d': string, p': int, x: Double)
    requires WellFormed(x) && Tied(d, p, d', p', x)
    ensures EndsEven(d) != EndsEven(d')
  {
    hide Rounds, Scale, Least, Exact, Magnitude, WellFormed, Tied, Shortest;
    TiedTexts(d, p, d', p', x);
    if p == p' {
      TiedAtOnePlace(d, p, d', x);
      EvenValue(d);
      EvenValue(d');
    } else {
      TiedAtTwoPlaces(d, p, d', p', x);
      ScaleLinear(9.5, 9.5, p - 1);
      ScaleLinear(9.0, 10.0, p - 1);
      NoNineAndAHalf(x, p - 1);
    }
  }

  lemma TieIsTied(d: string, p: int, d': string, p': int, x: Double)
    requires WellFormed(x) && Nearest(d, p, x) && Nearest(d', p', x) && (d != d' || p != p')
    ensures EndsEven(d) != EndsEven(d')
  {
    hide Rounds, Exact, Magnitude, WellFormed, Shortest, EndsEven;
    assert |d| == |d'|;
    assert Distance(d, p, x) == Distance(d', p', x);
    if Magnitude(d, p) == Magnitude(d', p') { MagnitudeInjective(d, p, d', p'); }
    if Magnitude(d, p) < Magnitude(d', p') { TiedParity(d, p, d', p', x); } else { TiedParity(d', p', d, p, x); }
  }

  // ---- Every double has a `repr` ---------------------------------------------------------------------

  lemma NearestIsRepr(d: string, p: int, x: Double)
    requires WellFormed(x) && Nearest(d, p, x)
    requires EndsEven(d) || forall d', p' | Nearest(d', p', x) :: (d' == d && p' == p) || !EndsEven(d')
    ensures IsRepr(d, p, x)
  {
    hide Rounds, Magnitude, WellFormed, AllDigits, EndsEven, Distance;
    forall d', p' | Shortest(d') && Rounds(Magnitude(d', p'), x) ensures (d' == d && p' == p) || Better(d, p, d', p', x) {
      assert Reads(d', p', x);
      if |d'| == |d| && Distance(d', p', x) == Distance(d, p, x) && (d' != d || p' != p) {
        assert Nearest(d', p', x);
        TieIsTied(d, p, d', p', x);
      }
    }
  }

  lemma ReprExists(x: Double) returns (d: string, p: int)
    requires WellFormed(x)
    ensures IsRepr(d, p, x)
  {
    hide Rounds, Magnitude, Shortest, WellFormed, EndsEven, IsRepr, Least, Distance;
    d, p := SomeReads(x);
    d, p := LeastLength(d, p, x);
    d, p := NearestExists(d, p, x);
    if !EndsEven(d) {
      if d', p' :| Nearest(d', p', x) && EndsEven(d') { d, p := d', p'; }
    }
    NearestIsRepr(d, p, x);
  }

  // So the floats are the doubles: each with either sign is one of them, and only one.
  lemma EveryDoubleIsOneFloat(negative: bool, x: Double) returns (f: Float)
    requires WellFormed(x)
    ensures f.Finite? && f.negative == negative && f.double == x
    ensures forall g: Float | g.Finite? && g.negative == negative && g.double == x :: g == f
  {
    hide IsRepr, WellFormed;
    var d, p := ReprExists(x);
    f := Finite(negative, d, p, x);
    forall g: Float | g.Finite? && g.negative == negative && g.double == x ensures g == f {
      ReprUnique(d, p, g.digits, g.point, x);
    }
  }
}
