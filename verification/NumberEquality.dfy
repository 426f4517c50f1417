// When Python's `==` and the canonical text agree on two numbers: a float compares by the
// double it is, and prints as the decimal that `repr` gives it.
module NumberEquality {
  import opened Text
  import opened Doubles
  import opened JsNumbers
  import opened CanonicalJson
  import opened JsNumberValues

  // A float that prints as exactly what it is.
  predicate Plain(f: Float) { Decimal(Float(f)) == Value(Float(f)) }

  // An integer and a float that are told apart by only one of the two.
  predicate Clash(i: int, f: Float) {
    if i as real == Value(Float(f)) then !Plain(f) || Beyond(Int(i))
    else i as real == Decimal(Float(f)) && !Beyond(Int(i))
  }

  predicate Clashes(x: Number, y: Number) {
    match (x, y)
    case (Int(i), Float(f)) => Clash(i, f)
    case (Float(f), Int(i)) => Clash(i, f)
    case _ => false
  }

  lemma TextsOfFloats(f: Float, g: Float)
    requires !f.NonFinite? && !g.NonFinite?
    ensures TextOf(Float(f)) == TextOf(Float(g)) <==> Value(Float(f)) == Value(Float(g))
  {
    SameText(Float(f), Float(g));
    hide TextOf, Value, Decimal, IsRepr;
    if Value(Float(f)) == Value(Float(g)) {
      ValueNamesFloat(f, g);
      if f.Zero? && g.Zero? { ZerosAlike(f, g); }
    }
    if Decimal(Float(f)) == Decimal(Float(g)) {
      DecimalNamesFloat(f, g);
      if f.Zero? && g.Zero? { ZerosAlike(f, g); }
    }
  }

  lemma ZerosAlike(f: Float, g: Float)
    requires f.Zero? && g.Zero?
    ensures Value(Float(f)) == Value(Float(g)) && Decimal(Float(f)) == Decimal(Float(g))
  {
  }

  // Equal numbers have one text, and one text means equal numbers, exactly for the pairs
  // that do not clash: two integers, two floats, an integer and a float that prints as
  // exactly what it is, or an integer that is neither what a float is nor what it prints.
  lemma TextIsEqualityUnlessClash(x: Number, y: Number)
    requires Valid(x) && Valid(y)
    ensures (TextOf(x) == TextOf(y) <==> Value(x) == Value(y)) <==> !Clashes(x, y)
  {
    SameText(x, y);
    hide TextOf, Decimal, IsRepr, Exact, Magnitude;
    match (x, y)
    case (Int(i), Int(j)) => IntKept(i); IntKept(j);
    case (Float(f), Float(g)) => TextsOfFloats(f, g);
    case (Int(i), Float(f)) => IntKept(i);
    case (Float(f), Int(i)) => IntKept(i);
  }

  lemma IntKept(i: int)
    ensures Decimal(Int(i)) == Value(Int(i)) == i as real
  {
  }

  // ---- Inputs on which they part ----------------------------------------------------------

  lemma Multiple(d: string, p: int, k: nat) returns (n: int)
    requires Shortest(d) && p - |d| >= k
    ensures Magnitude(d, p) == Scale(n as real, k)
  {
    ScaleScale(DigitsValue(d) as real, p - |d| - k, k);
    n := ScaleWhole(DigitsValue(d), p - |d| - k);
  }

  const TEN22 := Double(4768371582031250, 21)

  lemma Shift19(v: real)
    ensures Shift(v, 19) == 524288.0 * v
  {
    Ten(v, 9);
    assert Shift(v, 4) == 16.0 * v;
    assert Shift(v, 9) == 512.0 * v;
    hide Shift;
  }

  lemma Ten22Unit()
    ensures Scale(1.0, 22) == 10_000_000_000_000_000_000_000.0
  {
    Unit21();
    ScaleStep(1.0, 21);
  }

  lemma Ten22Rounds()
    ensures WellFormed(TEN22) && Rounds(Magnitude("1", 23), TEN22) && Exact(TEN22) == 10_000_000_000_000_000_000_000.0
  {
    hide Shift, Scale, DigitsValue, Magnitude;
    OneAt(23);
    Ten22Unit();
    Shift19(Low(TEN22) as real);
    Shift19(High(TEN22) as real);
    Shift19(4.0 * (TEN22.m as real));
    QuarterUnits(TEN22);
  }

  lemma Ten22IsRepr()
    ensures IsRepr("1", 23, TEN22)
  {
    hide Shift, Scale, DigitsValue, Magnitude;
    Ten22Rounds();
    Ten22Unit();
    Shift19(Low(TEN22) as real);
    Shift19(High(TEN22) as real);
    assert Shortest("1");
    forall d, p | Shortest(d) && Rounds(Magnitude(d, p), TEN22) && !(d == "1" && p == 23)
      ensures Better("1", 23, d, p, TEN22)
    {
      if |d| == 1 { OneDigit(d, p, 23); }
    }
  }

  // At 10^22 an integer and a float are one number with two texts.
  lemma LargeIntegerDiffers() returns (f: Float)
    ensures f == Finite(false, "1", 23, TEN22)
    ensures var (x, y) := (Int(10_000_000_000_000_000_000_000), Float(f));
      Value(x) == Value(y) && TextOf(x) != TextOf(y)
  {
    hide Shift, Scale, DigitsValue, Magnitude, Exact, TextOf, IsRepr, Rounds;
    Ten22Rounds();
    Ten22IsRepr();
    f := Finite(false, "1", 23, TEN22);
    TextIsEqualityUnlessClash(Int(10_000_000_000_000_000_000_000), Float(f));
  }

  // 2^60, and the digits that `repr` prints of it.
  const TWO60 := Double(4503599627370496, 8)
  const DIGITS60 := NatText(1_152_921_504_606_847)

  lemma Shift6(v: real)
    ensures Shift(v, 6) == 64.0 * v
  {
    assert Shift(v, 3) == 8.0 * v;
  }

  lemma Units1819()
    ensures Scale(1.0, 15) == 1_000_000_000_000_000.0 && Scale(1.0, 16) == 10_000_000_000_000_000.0
    ensures Scale(1.0, 18) == 1_000_000_000_000_000_000.0 && Scale(1.0, 19) == 10_000_000_000_000_000_000.0
  {
    Shift7(1.0);
    Shift7(Scale(1.0, 7));
    ScaleScale(1.0, 7, 7);
    ScaleStep(1.0, 14);
    ScaleStep(1.0, 15);
    ScaleStep(1.0, 16);
    ScaleStep(1.0, 17);
    ScaleStep(1.0, 18);
    hide Scale;
  }

  lemma TextShortest(n: nat)
    requires n % 10 != 0
    ensures Shortest(NatText(n))
  {
    DigitsOfNat(n);
    var d := NatText(n);
    assert DigitsValue(d) == 10 * DigitsValue(d[..|d| - 1]) + (d[|d| - 1] as int - '0' as int);
  }

  lemma TextLength(n: nat, k: nat)
    requires n > 0 && Scale(1.0, k - 1) <= n as real < Scale(1.0, k)
    ensures |NatText(n)| == k
  {
    hide NatText, Scale, DigitsValue;
    DigitsOfNat(n);
    var d := NatText(n);
    assert d[0] != '0';
    DigitsBounds(d);
    if |d| < k { UnitMonotone(|d|, k - 1); }
    if |d| > k { UnitMonotone(k, |d| - 1); }
  }

  lemma Digits60()
    ensures Shortest(DIGITS60) && |DIGITS60| == 16
    ensures Magnitude(DIGITS60, 19) == 1_152_921_504_606_847_000.0
  {
    hide NatText, Scale, DigitsValue, Shortest;
    var n := 1_152_921_504_606_847;
    TextShortest(n);
    Units1819();
    TextLength(n, 16);
    DigitsOfNat(n);
    Thousand(n as real);
  }

  lemma Thousand(v: real)
    ensures Scale(v, 3) == 1000.0 * v
  {
  }

  lemma Two60Bounds()
    ensures WellFormed(TWO60) && Exact(TWO60) == 1_152_921_504_606_846_976.0
    ensures Shift(Low(TWO60) as real, TWO60.e - 2) == 1_152_921_504_606_846_912.0
    ensures Shift(High(TWO60) as real, TWO60.e - 2) == 1_152_921_504_606_847_104.0
  {
    hide Shift;
    Shift6(Low(TWO60) as real);
    Shift6(High(TWO60) as real);
    Shift6(4.0 * (TWO60.m as real));
    QuarterUnits(TWO60);
  }

  // The only decimal of at most sixteen digits that rounds to 2^60.
  lemma Two60Prints(d: string, p: int)
    requires Shortest(d) && Rounds(Magnitude(d, p), TWO60) && |d| <= 16
    ensures d == DIGITS60 && p == 19
  {
    hide Shift, Scale, DigitsValue, Magnitude, Shortest, NatText;
    Two60Bounds();
    Units1819();
    MagnitudeBounds(d, p);
    if p < 19 { UnitMonotone(p, 18); }
    if p > 19 { UnitMonotone(19, p - 1); }
    var n := Multiple(d, p, 3);
    Thousand(n as real);
    assert n == 1_152_921_504_606_847;
    Digits60();
    MagnitudeInjective(d, p, DIGITS60, 19);
  }

  lemma Two60IsRepr()
    ensures IsRepr(DIGITS60, 19, TWO60)
  {
    hide Shift, Scale, DigitsValue, Magnitude, Distance, NatText;
    Two60Bounds();
    Digits60();
    forall d, p | Shortest(d) && Rounds(Magnitude(d, p), TWO60) && !(d == DIGITS60 && p == 19)
      ensures Better(DIGITS60, 19, d, p, TWO60)
    {
      if |d| <= 16 { Two60Prints(d, p); }
    }
  }

  // Far below 10^21 too: of the float 2^60 the equal integer has another text, and the
  // integer of the same text is another number.
  lemma LargeFloatDiffers() returns (f: Float)
    ensures f == Finite(false, DIGITS60, 19, TWO60)
    ensures var (x, y, z) := (Int(1_152_921_504_606_846_976), Float(f), Int(1_152_921_504_606_847_000));
      && Value(x) == Value(y) && TextOf(x) != TextOf(y)
      && Value(z) != Value(y) && TextOf(z) == TextOf(y)
  {
    hide Shift, Scale, DigitsValue, Magnitude, Exact, TextOf, IsRepr, Rounds, NatText;
    Two60Bounds();
    Digits60();
    Two60IsRepr();
    f := Finite(false, DIGITS60, 19, TWO60);
    TextIsEqualityUnlessClash(Int(1_152_921_504_606_846_976), Float(f));
    SameText(Int(1_152_921_504_606_847_000), Float(f));
  }

  // ---- Up to 2^53 they always agree ---------------------------------------------------------

  const TWO53 := 9_007_199_254_740_992

  function TwoTo(j: nat): nat { if j == 0 then 1 else 2 * TwoTo(j - 1) }

  lemma TwoTo52()
    ensures TwoTo(52) == 0x10_0000_0000_0000
  {
    Thirteen(0);
    Thirteen(13);
    Thirteen(26);
    Thirteen(39);
  }

  lemma Thirteen(j: nat)
    ensures TwoTo(j + 13) == 8192 * TwoTo(j)
  {
    Four(j);
    Four(j + 4);
    Four(j + 8);
  }

  lemma Four(j: nat)
    ensures TwoTo(j + 4) == 16 * TwoTo(j)
  {
    assert TwoTo(j + 2) == 4 * TwoTo(j);
    assert TwoTo(j + 4) == 4 * TwoTo(j + 2);
  }

  // The double that a whole number m * 2^-j is.
  function Normal(m: int, j: int): (x: Double)
    requires 0 <= j <= 52 && TwoTo(j) <= m < TWO53
    ensures WellFormed(x) && x.e <= 0 && Exact(x) == Shift(m as real, -j)
    decreases 52 - j
  {
    TwoTo52();
    if m >= 0x10_0000_0000_0000 then Double(m, -j)
    else
      ShiftDouble(m as real, -j - 1);
      Normal(2 * m, j + 1)
  }

  function DoubleOf(n: nat): (x: Double)
    requires 1 <= n <= TWO53
    ensures WellFormed(x) && Exact(x) == n as real && (if n == TWO53 then x == Double(0x10_0000_0000_0000, 1) else x.e <= 0)
  {
    if n == TWO53 then Double(0x10_0000_0000_0000, 1) else Normal(n, 0)
  }

  // What rounds to a small whole number lies within a half of it, or, above 2^53, within one.
  lemma Near(n: nat, v: real)
    requires 1 <= n <= TWO53 && Rounds(v, DoubleOf(n))
    ensures n as real - 0.5 <= v <= n as real + (if n == TWO53 then 1.0 else 0.5)
  {
    hide Shift, Exact, Normal;
    var x := DoubleOf(n);
    QuarterUnits(x);
    var quarter := 4.0 * (x.m as real);
    ShiftAdd(quarter, -2.0, x.e - 2);
    ShiftAdd(quarter, 2.0, x.e - 2);
    ShiftAdd(2.0, -2.0, x.e - 2);
    ShiftZero(x.e - 2);
    ShiftOrder(quarter - 2.0, Low(x) as real, x.e - 2);
    if n == TWO53 {
      Halved(Low(x) as real);
      Halved(High(x) as real);
    } else {
      ShiftFurther(2.0, x.e - 2, -2);
      Quartered(2.0);
    }
  }

  lemma Halved(v: real)
    ensures Shift(v, -1) == v / 2.0
  {
  }

  lemma Quartered(v: real)
    ensures Shift(v, -2) == v / 4.0
  {
    assert Shift(v, -1) == v / 2.0;
  }

  // The decimal of a whole number, without the zeros it ends in.
  lemma {:induction false} Stripped(n: nat) returns (d: string, p: int)
    requires n > 0
    ensures Shortest(d) && |d| <= p && Magnitude(d, p) == n as real
  {
    if n % 10 != 0 {
      d, p := NatText(n), |NatText(n)|;
      TextShortest(n);
      DigitsOfNat(n);
    } else {
      d, p := Stripped(n / 10);
      ScaleStep(DigitsValue(d) as real, p - |d|);
      p := p + 1;
    }
  }

  // No decimal with fewer digits than a small whole number comes near it.
  lemma TooShort(d: string, p: int, c: string, q: int, n: nat)
    requires Shortest(d) && Shortest(c) && |d| < |c| <= q && Magnitude(c, q) == n as real && n <= TWO53
    ensures !(n as real - 0.5 <= Magnitude(d, p) <= n as real + (if n == TWO53 then 1.0 else 0.5))
  {
    if p < q { ShortBelow(d, p, c, q, n); } else { ShortAbove(d, p, c, q, n); }
  }

  // With its point further left it misses at least the unit that `c` starts in.
  lemma ShortBelow(d: string, p: int, c: string, q: int, n: nat)
    requires Shortest(d) && Shortest(c) && |d| < |c| <= q && p < q && Magnitude(c, q) == n as real
    ensures Magnitude(d, p) <= n as real - 1.0
  {
    hide Magnitude, Scale, DigitsValue;
    LeadingUnit(c, q, n);
    MagnitudeBounds(d, p);
    UnitMonotone(p, q - 1);
  }

  lemma LeadingUnit(c: string, q: int, n: nat)
    requires Shortest(c) && 1 < |c| <= q && Magnitude(c, q) == n as real
    ensures Scale(1.0, q - 1) <= n as real - 1.0
  {
    hide Scale, DigitsValue;
    MagnitudeBounds(c, q);
    var m := ScaleWhole(1, q - 1);
    OneAt(q);
    assert Shortest("1");
    if m == n { MagnitudeInjective(c, q, "1", q); }
  }

  lemma ShortAbove(d: string, p: int, c: string, q: int, n: nat)
    requires Shortest(d) && Shortest(c) && |d| < |c| <= q <= p && Magnitude(c, q) == n as real && n <= TWO53
    ensures !(n as real - 0.5 <= Magnitude(d, p) <= n as real + (if n == TWO53 then 1.0 else 0.5))
  {
    var (k, v) := (q - |c|, DigitsValue(c));
    LastDigit(c);
    assert n as real == Scale(v as real, k);
    var m := Multiple(d, p, k + 1);
    hide Magnitude, Scale, DigitsValue;
    TenfoldInside(m, k);
    UnitPositive(k);
    UnitMonotone(0, k);
    ScaleAtZero(1.0);
    if 10 * m > v {
      Gap(v, 10 * m, k);
      if n == TWO53 { GapAtTop(v, m, k); }
    } else {
      Gap(10 * m, v, k);
    }
  }

  // 2^53 ends in a 2, so the next number that ends in a zero is further than one away.
  lemma GapAtTop(v: int, m: int, k: nat)
    requires 10 * m > v && Scale(v as real, k) == TWO53 as real
    ensures Scale((10 * m) as real, k) > TWO53 as real + 1.0
  {
    var w := ScaleWhole(v, k);
    assert k == 0;
  }

  lemma ScaleAtZero(v: real)
    ensures Scale(v, 0) == v
  {
  }

  lemma TenfoldInside(m: int, k: int)
    ensures Scale(m as real, k + 1) == Scale((10 * m) as real, k)
  {
    ScaleScale(m as real, 1, k);
    assert Scale(m as real, 1) == 10.0 * (m as real) == (10 * m) as real;
  }

  lemma Gap(a: int, b: int, k: int)
    requires a < b
    ensures Scale(b as real, k) >= Scale(a as real, k) + Scale(1.0, k)
  {
    hide Scale;
    ScaleLinear(a as real, 1.0, k);
    if a + 1 < b { ScaleLinear((a + 1) as real, b as real, k); }
  }

  // A whole double up to 2^53 prints as itself.
  lemma SmallWholePrints(d: string, p: int, n: nat)
    requires 1 <= n <= TWO53 && IsRepr(d, p, DoubleOf(n))
    ensures Magnitude(d, p) == n as real
  {
    hide Magnitude, Shortest, Rounds, DoubleOf;
    var x := DoubleOf(n);
    var c, q := Stripped(n);
    ExactRounds(x);
    if |d| < |c| {
      Near(n, Magnitude(d, p));
      TooShort(d, p, c, q, n);
    }
  }

  lemma SmallFloatPrints(f: Float, i: int)
    requires !f.NonFinite? && Value(Float(f)) == i as real && -TWO53 <= i <= TWO53
    ensures Plain(f)
  {
    hide Magnitude, Rounds, DoubleOf, Better, Exact, Shortest;
    if f.Finite? {
      ExactRounds(f.double);
      var n := if i < 0 then -i else i;
      ExactRounds(DoubleOf(n));
      RoundingKeepsOrder(Exact(f.double), f.double, Exact(DoubleOf(n)), DoubleOf(n));
      SmallWholePrints(f.digits, f.point, n);
    }
  }

  // A float whose decimal is a whole number up to 2^53 is that number.
  lemma SmallDecimalIs(f: Float, i: int)
    requires f.Finite? && Decimal(Float(f)) == i as real && -TWO53 <= i <= TWO53
    ensures Value(Float(f)) == i as real
  {
    hide Magnitude, Rounds, DoubleOf, Better, Exact, Shortest;
    MagnitudePositive(f.digits, f.point);
    var n := if i < 0 then -i else i;
    ExactRounds(DoubleOf(n));
    RoundingKeepsOrder(Magnitude(f.digits, f.point), f.double, Exact(DoubleOf(n)), DoubleOf(n));
  }

  lemma LargeDecimalIs(f: Float, i: int)
    requires f.Finite? && Decimal(Float(f)) == i as real && !(-TWO53 <= i <= TWO53)
    ensures !(-TWO53 as real <= Value(Float(f)) <= TWO53 as real)
  {
    hide Magnitude, Rounds, DoubleOf, Better, Exact, Shortest;
    MagnitudePositive(f.digits, f.point);
    ExactRounds(f.double);
    var x := DoubleOf(TWO53);
    ExactRounds(x);
    if f.double == x { SmallWholePrints(f.digits, f.point, TWO53); }
    RoundingKeepsOrder(Magnitude(f.digits, f.point), f.double, Exact(x), x);
  }

  // So no float up to 2^53 clashes with any integer.
  lemma SmallFloatsNeverClash(f: Float, i: int)
    requires !f.NonFinite? && -TWO53 as real <= Value(Float(f)) <= TWO53 as real
    ensures !Clash(i, f)
  {
    hide IsRepr, Exact, Magnitude;
    if i as real == Value(Float(f)) {
      SmallFloatPrints(f, i);
    } else if i as real == Decimal(Float(f)) && f.Finite? {
      if -TWO53 <= i <= TWO53 { SmallDecimalIs(f, i); } else { LargeDecimalIs(f, i); }
    }
  }

  // ---- Whole documents ------------------------------------------------------------------------

  ghost predicate Tame(n: Number) { n.Float? ==> forall i: int :: !Clash(i, n.f) }

  ghost predicate TameDocument(v: Json<Number>) {
    match v
    case Num(n) => Tame(n)
    case Arr(items) => forall i | 0 <= i < |items| :: TameDocument(items[i])
    case Obj(fields) => forall k | k in fields :: TameDocument(fields[k])
    case _ => true
  }

  lemma {:induction false} TameValues(a: Json<Number>, b: Json<Number>)
    requires Serializable(a) && Serializable(b) && TameDocument(a) && TameDocument(b)
    ensures MapNumbers(a, Spell) == MapNumbers(b, Spell) <==> MapNumbers(a, Value) == MapNumbers(b, Value)
  {
    hide Spell, Value, TextOf, Clash;
    match (a, b)
    case (Num(x), Num(y)) =>
      TextIsEqualityUnlessClash(x, y);
      SpellIsText(x);
      SpellIsText(y);
    case (Arr(xs), Arr(ys)) =>
      var (p, q) := (MapNumbers(a, Spell).items, MapNumbers(b, Spell).items);
      var (r, s) := (MapNumbers(a, Value).items, MapNumbers(b, Value).items);
      forall i | 0 <= i < |xs| && i < |ys| ensures p[i] == q[i] <==> r[i] == s[i] { TameValues(xs[i], ys[i]); }
      SeqsAgree(p, q, r, s);
    case (Obj(xs), Obj(ys)) =>
      var (p, q) := (MapNumbers(a, Spell).fields, MapNumbers(b, Spell).fields);
      var (r, s) := (MapNumbers(a, Value).fields, MapNumbers(b, Value).fields);
      assert p.Keys == r.Keys == xs.Keys && q.Keys == s.Keys == ys.Keys;
      forall k | k in xs && k in ys ensures p[k] == q[k] <==> r[k] == s[k] { TameValues(xs[k], ys[k]); }
      MapsAgree(p, q, r, s);
    case _ =>
  }

  // Two snapshots whose floats clash with no integer (all those up to 2^53, for instance)
  // have one text exactly when they are equal up to key order and Python's `==` on numbers.
  lemma SnapshotTextIsEquality(a: Json<Number>, b: Json<Number>)
    requires Serializable(a) && Serializable(b) && TameDocument(a) && TameDocument(b)
    ensures DevspaceText(a) == DevspaceText(b) <==> MapNumbers(a, Value) == MapNumbers(b, Value)
  {
    SerializableSpells(a);
    SerializableSpells(b);
    SameTextSameTokens(a, b, Spell);
    TameValues(a, b);
  }
}
