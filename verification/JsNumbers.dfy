// Number spelling: Python's `repr` of a float, the rewriting that
// `_javascript_number` performs on that text, and Number::toString of
// section 6.1.6.1.20 of ECMA-262, which the rewriting is meant to reproduce.
module JsNumbers {
  import opened Text
  import opened Doubles

  // A float: the double itself, and the decimal its `repr` prints, which is
  // (-1)^negative * 0.digits * 10^point.
  datatype RawFloat =
    | Zero(negative: bool)
    | Finite(negative: bool, digits: string, point: int, double: Double)
    | NonFinite(kind: Special)

  datatype Special = NotANumber | Infinity | NegativeInfinity

  ghost predicate Genuine(f: RawFloat) { f.Finite? ==> IsRepr(f.digits, f.point, f.double) }

  type Float = f: RawFloat | Genuine(f) witness Zero(false)

  datatype Number = Int(i: int) | Float(f: Float)

  // What JSON can carry.
  predicate Valid(n: Number) { n.Float? ==> !n.f.NonFinite? }

  predicate Digit(c: char) { '0' <= c <= '9' }

  predicate AllDigits(s: string) { forall i | 0 <= i < |s| :: Digit(s[i]) }

  predicate Shortest(digits: string) {
    digits != "" && AllDigits(digits) && digits[0] != '0' && digits[|digits| - 1] != '0'
  }

  // `repr` prints the shortest decimal that rounds back to the double; of those the
  // closest one; and at a tie the one that ends in an even digit.
  ghost predicate IsRepr(d: string, p: int, x: Double) {
    && Shortest(d) && WellFormed(x) && Rounds(Magnitude(d, p), x)
    && forall d', p' | Shortest(d') && Rounds(Magnitude(d', p'), x) :: (d' == d && p' == p) || Better(d, p, d', p', x)
  }

  ghost predicate Better(d: string, p: int, d': string, p': int, x: Double)
    requires d != "" && d' != ""
  {
    || |d| < |d'|
    || (|d| == |d'| && Distance(d, p, x) < Distance(d', p', x))
    || (|d| == |d'| && Distance(d, p, x) == Distance(d', p', x) && EndsEven(d) && !EndsEven(d'))
  }

  function Distance(d: string, p: int, x: Double): real {
    var gap := Magnitude(d, p) - Exact(x);
    if gap < 0.0 then -gap else gap
  }

  predicate EndsEven(d: string)
    requires d != ""
  {
    d[|d| - 1] in "02468"
  }

  // One double has one `repr`.
  lemma ReprUnique(d: string, p: int, d': string, p': int, x: Double)
    requires IsRepr(d, p, x) && IsRepr(d', p', x)
    ensures d == d' && p == p'
  {
    hide Magnitude, Rounds, Distance, WellFormed;
  }

  // ---- Values ----------------------------------------------------------------

  // `v` with its decimal point moved `k` places: v * 10^k.
  function Scale(v: real, k: int): real
    decreases if k < 0 then -k else k
  {
    if k == 0 then v else if k > 0 then 10.0 * Scale(v, k - 1) else Scale(v, k + 1) / 10.0
  }

  function DigitsValue(s: string): int {
    if s == "" then 0 else 10 * DigitsValue(s[..|s| - 1]) + (s[|s| - 1] as int - '0' as int)
  }

  function Signed(negative: bool, v: real): real { if negative then -v else v }

  function Magnitude(digits: string, point: int): real {
    Scale(DigitsValue(digits) as real, point - |digits|)
  }

  // The number itself, which Python's `==` compares.
  function Value(n: Number): real {
    match n
    case Int(i) => i as real
    case Float(Finite(negative, _, _, double)) => Signed(negative, Exact(double))
    case Float(_) => 0.0
  }

  // The number that is printed: of a float, its `repr`'s decimal.
  function Decimal(n: Number): real {
    match n
    case Int(i) => i as real
    case Float(Finite(negative, digits, point, _)) => Signed(negative, Magnitude(digits, point))
    case Float(_) => 0.0
  }

  // ---- Python text -------------------------------------------------------------

  function NatText(n: nat): (s: string)
    ensures s != "" && AllDigits(s) && (s[0] == '0' ==> n == 0 && s == "0")
  {
    if n < 10 then ["0123456789"[n]] else NatText(n / 10) + ["0123456789"[n % 10]]
  }

  function IntText(i: int): string { if i < 0 then "-" + NatText(-i) else NatText(i) }

  function Minus(negative: bool): string { if negative then "-" else "" }

  // One digit, and the rest after a point: the mantissa of an exponent form.
  function Mantissa(d: string): string
    requires d != ""
  {
    [d[0]] + (if |d| == 1 then "" else "." + d[1..])
  }

  // `repr(f)`: positional for 10^-4 <= |f| < 10^16, else with a two-digit exponent.
  function PyRepr(f: Float): string
    requires f.Finite?
  {
    Minus(f.negative) + PyUnsigned(f.digits, f.point)
  }

  function PyUnsigned(d: string, p: int): string
    requires d != ""
  {
    if -4 < p <= 0 then "0." + Zeros(-p) + d
    else if |d| <= p <= 16 then d + Zeros(p - |d|) + ".0"
    else if 0 < p <= 16 then d[..p] + "." + d[p..]
    else Mantissa(d) + ("e" + PyExponent(p - 1))
  }

  function PyExponent(e: int): string {
    var m := NatText(if e < 0 then -e else e);
    (if e < 0 then "-" else "+") + (if |m| < 2 then "0" + m else m)
  }

  // ---- `_javascript_number` ----------------------------------------------------

  function IndexOf(s: string, c: char): (n: nat)
    ensures n <= |s| && (forall i | 0 <= i < n :: s[i] != c) && (n < |s| ==> s[n] == c)
  {
    if s == "" || s[0] == c then 0 else 1 + IndexOf(s[1..], c)
  }

  // `int(text)` on an exponent: an optional sign, then digits.
  function ParseExponent(s: string): int {
    if Starts(s, '-') then -DigitsValue(s[1..])
    else if Starts(s, '+') then DigitsValue(s[1..])
    else DigitsValue(s)
  }

  function DropPointZero(s: string): string {
    if |s| >= 2 && s[|s| - 2..] == ".0" then s[..|s| - 2] else s
  }

  // The text of a number, or nothing where the source refuses a non-finite one.
  function JavascriptNumber(n: Number): Option<string> {
    match n
    case Int(i) => Some(IntText(i))
    case Float(NonFinite(_)) => None
    case Float(Zero(_)) => Some("0")
    case Float(f) => Some(RewriteRepr(PyRepr(f), PositionalMagnitude(Exact(f.double))))
  }

  function RewriteRepr(text: string, positional: bool): string {
    var e := IndexOf(text, 'e');
    if e == |text| then DropPointZero(text)
    else Rewrite(text[..e], ParseExponent(text[e + 1..]), positional)
  }

  // The doubles written `1e-6` and `1e21`.
  const MICRO := Double(4722366482869645, -72)
  const ZETTA := Double(7629394531250000, 17)

  // `1e-6 <= absolute < 1e21`
  predicate PositionalMagnitude(absolute: real) { Exact(MICRO) <= absolute < Exact(ZETTA) }

  function Rewrite(mantissa: string, exponent: int, positional: bool): string {
    if positional then
      if Starts(mantissa, '-') then "-" + Unpack(mantissa[1..], exponent) else Unpack(mantissa, exponent)
    else
      DropPointZero(mantissa) + RewriteExponent(exponent)
  }

  function RewriteExponent(e: int): string { "e" + (if e >= 0 then "+" + IntText(e) else IntText(e)) }

  function Unpack(mantissa: string, exponent: int): string {
    var dot := IndexOf(mantissa, '.');
    var digits := mantissa[..dot] + (if dot < |mantissa| then mantissa[dot + 1..] else "");
    var position := dot + exponent;
    if position <= 0 then "0." + Zeros(-position) + digits
    else if position >= |digits| then digits + Zeros(position - |digits|)
    else digits[..position] + "." + digits[position..]
  }

  // ---- Number::toString, section 6.1.6.1.20 of ECMA-262 --------------------------

  function EcmaToString(f: Float): string
    requires f.Finite?
  {
    Minus(f.negative) + EcmaUnsigned(f.digits, f.point)
  }

  function EcmaUnsigned(d: string, n: int): string
    requires d != ""
  {
    if |d| <= n <= 21 then d + Zeros(n - |d|)
    else if 0 < n <= 21 then d[..n] + "." + d[n..]
    else if -6 < n <= 0 then "0." + Zeros(-n) + d
    else Mantissa(d) + EcmaExponent(n - 1)
  }

  function EcmaExponent(e: int): string { "e" + (if e < 0 then "-" + NatText(-e) else "+" + NatText(e)) }

  // ---- Shifts and digit strings --------------------------------------------------

  lemma ScaleStep(v: real, k: int)
    ensures Scale(v, k + 1) == 10.0 * Scale(v, k)
  {
  }

  lemma {:induction false} ScaleScale(v: real, a: int, b: int)
    ensures Scale(Scale(v, a), b) == Scale(v, a + b)
    decreases if b < 0 then -b else b
  {
    if b > 0 {
      ScaleScale(v, a, b - 1);
      ScaleStep(v, a + b - 1);
    } else if b < 0 {
      ScaleScale(v, a, b + 1);
      ScaleStep(v, a + b);
    }
  }

  lemma {:induction false} ScaleLinear(v: real, w: real, k: int)
    ensures Scale(v + w, k) == Scale(v, k) + Scale(w, k)
    ensures v < w <==> Scale(v, k) < Scale(w, k)
    decreases if k < 0 then -k else k
  {
    if k > 0 { ScaleLinear(v, w, k - 1); } else if k < 0 { ScaleLinear(v, w, k + 1); }
  }

  lemma {:induction false} ScaleZero(k: int)
    ensures Scale(0.0, k) == 0.0
    decreases if k < 0 then -k else k
  {
    if k > 0 { ScaleZero(k - 1); } else if k < 0 { ScaleZero(k + 1); }
  }

  lemma {:induction false} UnitMonotone(a: int, b: int)
    requires a <= b
    ensures Scale(1.0, a) <= Scale(1.0, b)
    decreases b - a
  {
    if a < b {
      UnitMonotone(a, b - 1);
      ScaleStep(1.0, b - 1);
      ScaleLinear(0.0, 1.0, b - 1);
      ScaleZero(b - 1);
    }
  }

  // A whole number shifted left stays whole, and ends in zero.
  lemma {:induction false} ScaleWhole(n: int, k: nat) returns (m: int)
    ensures Scale(n as real, k) == m as real && (k > 0 ==> m % 10 == 0)
    ensures n >= 0 ==> m >= 0
  {
    if k == 0 {
      m := n;
    } else {
      var l := ScaleWhole(n, k - 1);
      m := 10 * l;
    }
  }

  lemma {:induction false} DigitsAppend(s: string, t: string)
    ensures DigitsValue(s + t) as real == Scale(DigitsValue(s) as real, |t|) + DigitsValue(t) as real
  {
    if t == "" {
      assert s + t == s;
    } else {
      var u := t[..|t| - 1];
      DigitsAppend(s, u);
      assert (s + t)[..|s + t| - 1] == s + u;
    }
  }

  lemma {:induction false} DigitsOfZeros(n: nat)
    ensures DigitsValue(Zeros(n)) == 0
  {
    if n > 0 {
      DigitsOfZeros(n - 1);
      assert Zeros(n)[..n - 1] == Zeros(n - 1);
    }
  }

  lemma {:induction false} DigitsBounds(s: string)
    requires AllDigits(s)
    ensures 0 <= DigitsValue(s) && DigitsValue(s) as real < Scale(1.0, |s|)
    ensures s != "" && s[0] != '0' ==> Scale(1.0, |s| - 1) <= DigitsValue(s) as real
  {
    if s != "" {
      var u := s[..|s| - 1];
      DigitsBounds(u);
      ScaleStep(1.0, |u|);
      var m := ScaleWhole(1, |u|);
      assert DigitsValue(u) + 1 <= m;
      if |u| > 0 { ScaleStep(1.0, |u| - 1); }
    }
  }

  lemma {:induction false} DigitsOfNat(n: nat)
    ensures DigitsValue(NatText(n)) == n
  {
    if n >= 10 { DigitsOfNat(n / 10); }
  }

  // Digit strings of one length, or without leading zeros, are determined by their value.
  lemma {:induction false} DigitsInjective(s: string, t: string)
    requires AllDigits(s) && AllDigits(t) && |s| == |t| && DigitsValue(s) == DigitsValue(t)
    ensures s == t
  {
    if s != "" {
      DigitsInjective(s[..|s| - 1], t[..|t| - 1]);
      assert s == s[..|s| - 1] + [s[|s| - 1]] && t == t[..|t| - 1] + [t[|t| - 1]];
    }
  }

  lemma CanonicalDigits(s: string, t: string)
    requires AllDigits(s) && AllDigits(t) && s != "" && t != "" && s[0] != '0' && t[0] != '0'
    requires DigitsValue(s) == DigitsValue(t)
    ensures s == t
  {
    DigitsBounds(s);
    DigitsBounds(t);
    if |s| < |t| { UnitMonotone(|s|, |t| - 1); }
    if |t| < |s| { UnitMonotone(|t|, |s| - 1); }
    DigitsInjective(s, t);
  }

  lemma MagnitudeBounds(digits: string, point: int)
    requires Shortest(digits)
    ensures Scale(1.0, point - 1) <= Magnitude(digits, point) < Scale(1.0, point)
  {
    DigitsBounds(digits);
    var (k, v) := (|digits|, DigitsValue(digits) as real);
    ScaleScale(1.0, k, point - k);
    ScaleScale(1.0, k - 1, point - k);
    ScaleLinear(v, Scale(1.0, k), point - k);
    ScaleLinear(v, Scale(1.0, k - 1), point - k);
  }

  lemma OneAt(p: int)
    ensures Magnitude("1", p) == Scale(1.0, p - 1)
  {
    assert "1"[..0] == "" && DigitsValue("1") == 1;
  }

  lemma MicroUnit()
    ensures Scale(1.0, -6) == 0.000001
  {
    assert Scale(1.0, -1) == 0.1;
    assert Scale(1.0, -2) == 0.01;
    assert Scale(1.0, -3) == 0.001;
    assert Scale(1.0, -4) == 0.0001;
    assert Scale(1.0, -5) == 0.00001;
  }

  lemma MicroRounds()
    ensures WellFormed(MICRO) && Rounds(Magnitude("1", -5), MICRO)
  {
    hide Shift, Scale, DigitsValue, Magnitude;
    OneAt(-5);
    MicroUnit();
    assert Low(MICRO) == 18_889_465_931_478_578 && High(MICRO) == 18_889_465_931_478_582;
    TwentiethPart(18_889_465_931_478_578.0);
    TwentiethPart(18_889_465_931_478_582.0);
  }

  lemma TwentiethPart(v: real)
    ensures Shift(v, -74) == v / 18_889_465_931_478_580_854_784.0
  {
    Ten(v, -10);
    Ten(v, -20);
    Ten(v, -30);
    Ten(v, -40);
    Ten(v, -50);
    Ten(v, -60);
    Ten(v, -70);
    ShiftStep(v, -71);
    ShiftStep(v, -72);
    ShiftStep(v, -73);
    ShiftStep(v, -74);
    assert Shift(v, 0) == v;
    hide Shift;
  }

  lemma ZettaRounds()
    ensures WellFormed(ZETTA) && Rounds(Magnitude("1", 22), ZETTA)
  {
    hide Shift, Scale, DigitsValue, Magnitude;
    OneAt(22);
    Unit21();
    Fifteen(Low(ZETTA) as real);
    Fifteen(High(ZETTA) as real);
  }

  lemma Fifteen(v: real)
    ensures Shift(v, 15) == 32768.0 * v
  {
    Ten(v, 5);
    assert Shift(v, 5) == 32.0 * v;
    hide Shift;
  }

  lemma Shift7(v: real)
    ensures Scale(v, 7) == 10_000_000.0 * v
  {
    assert Scale(v, 3) == 1000.0 * v;
    assert Scale(v, 5) == 100_000.0 * v;
  }

  lemma Unit21()
    ensures Scale(1.0, 21) == 1_000_000_000_000_000_000_000.0
  {
    Shift7(1.0);
    Shift7(Scale(1.0, 7));
    Shift7(Scale(1.0, 14));
    ScaleScale(1.0, 7, 7);
    ScaleScale(1.0, 14, 7);
  }

  lemma Between(k: int, e: int)
    requires 1 <= k <= 9
    ensures Scale(1.0, e) <= Scale(k as real, e) <= 9.0 * Scale(1.0, e)
    ensures k >= 2 ==> Scale(k as real, e) >= 2.0 * Scale(1.0, e)
  {
    hide Scale;
    DigitTimes(9, e);
    DigitTimes(2, e);
    if 1 < k { ScaleLinear(1.0, k as real, e); }
    if 2 < k { ScaleLinear(2.0, k as real, e); }
    if k < 9 { ScaleLinear(k as real, 9.0, e); }
    UnitPositive(e);
  }

  lemma OneDigitPlace(k: int, p: int, q: int)
    requires 1 <= k <= 9 && 0.9 * Scale(1.0, q - 1) < Scale(k as real, p - 1) && Scale(k as real, p - 1) < 2.0 * Scale(1.0, q - 1)
    ensures k == 1 && p == q
  {
    hide Scale;
    UnitPositive(p - 1);
    UnitPositive(q - 1);
    Between(k, p - 1);
    if p < q {
      TenTimes(p - 1);
      UnitMonotone(p, q - 1);
    } else if q < p {
      TenTimes(q - 1);
      UnitMonotone(q, p - 1);
    }
  }

  lemma TenTimes(k: int)
    ensures Scale(1.0, k + 1) == 10.0 * Scale(1.0, k)
  {
    ScaleStep(1.0, k);
  }

  // Only "1" itself is a one-digit decimal near a power of ten.
  lemma OneDigit(d: string, p: int, q: int)
    requires Shortest(d) && |d| == 1 && 0.9 * Scale(1.0, q - 1) < Magnitude(d, p) < 2.0 * Scale(1.0, q - 1)
    ensures d == "1" && p == q
  {
    hide Scale;
    var k := d[0] as int - '0' as int;
    assert d[..0] == "" && DigitsValue(d) == k && 1 <= k <= 9;
    OneDigitMagnitude(d, p);
    OneDigitPlace(k, p, q);
    assert d == [d[0]] && d[0] == '1';
  }

  lemma OneDigitMagnitude(d: string, p: int)
    requires |d| == 1
    ensures Magnitude(d, p) == Scale(DigitsValue(d) as real, p - 1)
  {
  }

  lemma UnitPositive(k: int)
    ensures Scale(1.0, k) > 0.0
  {
    ScaleLinear(0.0, 1.0, k);
    ScaleZero(k);
  }

  lemma {:induction false} DigitTimes(k: int, e: int)
    requires k >= 0
    ensures Scale(k as real, e) == (k as real) * Scale(1.0, e)
  {
    if k == 0 {
      ScaleZero(e);
    } else {
      DigitTimes(k - 1, e);
      ScaleLinear((k - 1) as real, 1.0, e);
    }
  }

  // The two bounds of the window print as powers of ten.
  lemma MicroPrints(d: string, p: int)
    requires IsRepr(d, p, MICRO)
    ensures d == "1" && p == -5
  {
    MicroRounds();
    MicroUnit();
    TwentiethPart(18_889_465_931_478_578.0);
    TwentiethPart(18_889_465_931_478_582.0);
    assert Low(MICRO) == 18_889_465_931_478_578 && High(MICRO) == 18_889_465_931_478_582;
    assert Shortest("1");
    hide Shift, Scale, DigitsValue, Magnitude, Distance, Shortest;
    if |d| == 1 { OneDigit(d, p, -5); }
  }

  lemma ZettaPrints(d: string, p: int)
    requires IsRepr(d, p, ZETTA)
    ensures d == "1" && p == 22
  {
    ZettaRounds();
    Unit21();
    Fifteen(Low(ZETTA) as real);
    Fifteen(High(ZETTA) as real);
    assert Shortest("1");
    hide Shift, Scale, DigitsValue, Magnitude, Distance, Shortest;
    if |d| == 1 { OneDigit(d, p, 22); }
  }

  // The window is tested on the double, and is the place of the printed decimal's point:
  // printing never carries a number across either bound.
  lemma PositionalWindow(f: Float)
    requires f.Finite?
    ensures PositionalMagnitude(Exact(f.double)) <==> -6 < f.point <= 21
  {
    hide Exact, Rounds, WellFormed, Scale, DigitsValue, Better, Shortest, Magnitude;
    MicroRounds();
    ZettaRounds();
    if f.double == MICRO { MicroPrints(f.digits, f.point); }
    if f.double == ZETTA { ZettaPrints(f.digits, f.point); }
    RoundingKeepsOrder(Magnitude(f.digits, f.point), f.double, Magnitude("1", -5), MICRO);
    RoundingKeepsOrder(Magnitude(f.digits, f.point), f.double, Magnitude("1", 22), ZETTA);
    PlaceAndUnit(f.digits, f.point, -5);
    PlaceAndUnit(f.digits, f.point, 22);
    MicroBelowZetta();
  }

  lemma MicroBelowZetta()
    ensures Exact(MICRO) < Exact(ZETTA)
  {
    hide Exact, Rounds, Scale, DigitsValue, Magnitude;
    MicroRounds();
    ZettaRounds();
    ExactRounds(MICRO);
    ExactRounds(ZETTA);
    RoundsInOrder(Exact(MICRO), MICRO, Exact(ZETTA), ZETTA);
  }

  // A decimal reaches a power of ten exactly when its point lies at or past that power's.
  lemma PlaceAndUnit(digits: string, point: int, p: int)
    requires Shortest(digits)
    ensures Magnitude(digits, point) < Magnitude("1", p) <==> point < p
  {
    hide Magnitude, Scale;
    OneAt(p);
    MagnitudeBounds(digits, point);
    if point < p { UnitMonotone(point, p - 1); } else { UnitMonotone(p - 1, point - 1); }
  }

  // ---- The rewriting is Number::toString ------------------------------------------

  lemma IndexIs(s: string, c: char, n: nat)
    requires n <= |s| && (forall i | 0 <= i < n :: s[i] != c) && (n < |s| ==> s[n] == c)
    ensures IndexOf(s, c) == n
  {
    var m := IndexOf(s, c);
    assert n == |s| || s[n] == c;
    assert m == |s| || s[m] == c;
  }

  lemma ExponentReads(e: int)
    ensures ParseExponent(PyExponent(e)) == e
    ensures forall i | 0 <= i < |PyExponent(e)| :: PyExponent(e)[i] != 'e'
  {
    var n := if e < 0 then -e else e;
    DigitsOfNat(n);
    var m := NatText(n);
    var padded := if |m| < 2 then "0" + m else m;
    assert PyExponent(e)[1..] == padded;
    if |m| < 2 {
      assert m == [m[0]] && padded[..1] == "0";
      assert DigitsValue(m) == m[0] as int - '0' as int;
      assert DigitsValue("0") == 0;
      assert DigitsValue(padded) == 10 * DigitsValue(padded[..1]) + (m[0] as int - '0' as int);
    }
  }

  lemma MantissaReads(d: string)
    requires Shortest(d)
    ensures var m := Mantissa(d);
      && IndexOf(m, '.') == 1 && m[..1] + (if 1 < |m| then m[2..] else "") == d
      && !Starts(m, '-') && m[|m| - 1] != '0' && 'e' !in m
  {
    var m := Mantissa(d);
    IndexIs(m, '.', 1);
    assert m[|m| - 1] == d[|d| - 1];
    if |d| > 1 { assert m[2..] == d[1..]; }
    assert d == [d[0]] + d[1..];
  }

  lemma MantissaEnds(d: string)
    requires Shortest(d)
    ensures var m := Mantissa(d); m != "" && m[0] != '-' && m[|m| - 1] != '0'
  {
    assert Mantissa(d)[|Mantissa(d)| - 1] == d[|d| - 1];
  }

  lemma UnpackIsEcma(d: string, p: int)
    requires Shortest(d) && -6 < p <= 21
    ensures Unpack(Mantissa(d), p - 1) == EcmaUnsigned(d, p)
  {
    MantissaReads(d);
  }

  lemma ExponentIsEcma(e: int)
    ensures RewriteExponent(e) == EcmaExponent(e)
  {
  }

  lemma DropAfterSign(sign: string, t: string)
    requires |t| >= 2
    ensures DropPointZero(sign + t) == sign + DropPointZero(t)
  {
    var s := sign + t;
    assert s[|s| - 2..] == t[|t| - 2..];
    assert s[..|s| - 2] == sign + t[..|t| - 2];
  }

  lemma KeepsLastDigit(s: string)
    requires s != "" && s[|s| - 1] != '0'
    ensures DropPointZero(s) == s
  {
  }

  lemma Associate(a: string, b: string, c: string)
    ensures a + b + c == a + (b + c)
  {
  }

  lemma RewriteUnpacks(negative: bool, m: string, e: int)
    requires m != "" && m[0] != '-'
    ensures Rewrite(Minus(negative) + m, e, true) == Minus(negative) + Unpack(m, e)
  {
    assert ("-" + m)[1..] == m && "" + m == m;
  }

  lemma RewriteKeepsExponent(negative: bool, m: string, e: int)
    requires m != "" && m[|m| - 1] != '0'
    ensures Rewrite(Minus(negative) + m, e, false)
      == Minus(negative) + (m + RewriteExponent(e))
  {
    KeepsLastDigit(Minus(negative) + m);
    Associate(Minus(negative), m, RewriteExponent(e));
  }

  lemma RewriteIsEcma(negative: bool, d: string, p: int, positional: bool)
    requires Shortest(d) && positional == (-6 < p <= 21)
    ensures Rewrite(Minus(negative) + Mantissa(d), p - 1, positional) == Minus(negative) + EcmaUnsigned(d, p)
  {
    MantissaEnds(d);
    if positional {
      RewriteUnpacks(negative, Mantissa(d), p - 1);
      UnpackIsEcma(d, p);
    } else {
      RewriteKeepsExponent(negative, Mantissa(d), p - 1);
      ExponentIsEcma(p - 1);
    }
  }

  lemma PlainReprIsEcma(d: string, p: int)
    requires Shortest(d) && -4 < p <= 16
    ensures 'e' !in PyUnsigned(d, p) && |PyUnsigned(d, p)| >= 2
    ensures DropPointZero(PyUnsigned(d, p)) == EcmaUnsigned(d, p)
  {
    var text := PyUnsigned(d, p);
    if p <= 0 || p < |d| {
      assert text[|text| - 1] == d[|d| - 1];
      KeepsLastDigit(text);
    } else {
      assert text[..|text| - 2] == d + Zeros(p - |d|);
    }
  }

  lemma ScientificSplits(negative: bool, d: string, p: int)
    requires Shortest(d) && !(-4 < p <= 16)
    ensures var text := Minus(negative) + PyUnsigned(d, p);
      var e := IndexOf(text, 'e');
      e < |text| && text[..e] == Minus(negative) + Mantissa(d) && text[e + 1..] == PyExponent(p - 1)
  {
    MantissaReads(d);
    var (m, x) := (Minus(negative) + Mantissa(d), PyExponent(p - 1));
    var text := m + ("e" + x);
    Associate(Minus(negative), Mantissa(d), "e" + x);
    assert text[|m|] == 'e' && text[|m| + 1..] == x && text[..|m|] == m;
    assert forall i | 0 <= i < |m| :: text[i] != 'e';
    IndexIs(text, 'e', |m|);
  }

  // Text without an exponent only loses its ".0".
  lemma PlainRewrite(text: string, positional: bool)
    requires 'e' !in text
    ensures RewriteRepr(text, positional) == DropPointZero(text)
  {
    hide DropPointZero, Rewrite, ParseExponent;
    assert forall i | 0 <= i < |text| :: text[i] in text;
    IndexIs(text, 'e', |text|);
  }

  lemma PlainReprRewrites(negative: bool, d: string, p: int, positional: bool)
    requires Shortest(d) && -4 < p <= 16
    ensures RewriteRepr(Minus(negative) + PyUnsigned(d, p), positional) == Minus(negative) + EcmaUnsigned(d, p)
  {
    hide RewriteRepr, PyUnsigned, EcmaUnsigned, DropPointZero;
    PlainReprIsEcma(d, p);
    assert 'e' !in Minus(negative) + PyUnsigned(d, p);
    PlainRewrite(Minus(negative) + PyUnsigned(d, p), positional);
    DropAfterSign(Minus(negative), PyUnsigned(d, p));
  }

  lemma RewriteReprIsEcma(negative: bool, d: string, p: int, positional: bool)
    requires Shortest(d) && positional == (-6 < p <= 21)
    ensures RewriteRepr(Minus(negative) + PyUnsigned(d, p), positional) == Minus(negative) + EcmaUnsigned(d, p)
  {
    hide IndexOf, PyUnsigned, EcmaUnsigned, Minus, ParseExponent, PyExponent, DropPointZero, Rewrite, Mantissa;
    if -4 < p <= 16 {
      PlainReprRewrites(negative, d, p, positional);
    } else {
      ScientificSplits(negative, d, p);
      ExponentReads(p - 1);
      RewriteIsEcma(negative, d, p, positional);
    }
  }

  // For every float, the rewriting of Python's text is exactly Number::toString.
  lemma JavascriptNumberIsEcma(f: Float)
    requires f.Finite?
    ensures JavascriptNumber(Float(f)) == Some(EcmaToString(f))
  {
    hide PositionalMagnitude, RewriteRepr, Rounds, WellFormed, Magnitude, Better;
    PositionalWindow(f);
    RewriteReprIsEcma(f.negative, f.digits, f.point, PositionalMagnitude(Exact(f.double)));
  }
}
