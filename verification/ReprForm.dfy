// The form of Python's spelling of values: of a float, which with its decimal determines the
// text, and of a whole document.
module ReprForm {
  import opened Text
  import opened JsNumbers
  import opened JsNumberValues
  import opened CanonicalJson
  import opened AsciiText
  import opened CanonicalForm
  import opened CanonicalText

  // No zeros in front, and none behind a point, but for a single one.
  predicate WholePart(a: string) { a != "" && AllDigits(a) && (a[0] == '0' ==> a == "0") }

  predicate FractionPart(b: string) { b != "" && AllDigits(b) && (b[|b| - 1] == '0' ==> b == "0") }

  // One digit, and a fraction if there are more.
  predicate ShortMantissa(m: string) {
    && m != "" && Digit(m[0]) && m[0] != '0'
    && (|m| > 1 ==> |m| > 2 && m[1] == '.' && AllDigits(m[2..]) && m[|m| - 1] != '0')
  }

  // A sign and at least two digits.
  predicate SignedExponent(x: string) {
    |x| >= 3 && x[0] in "+-" && AllDigits(x[1..]) && (x[1] == '0' ==> |x| == 3)
  }

  ghost predicate Positional(u: string) {
    exists a, b :: WholePart(a) && FractionPart(b) && u == a + "." + b
  }

  ghost predicate Scientific(u: string) {
    exists m, x :: ShortMantissa(m) && SignedExponent(x) && u == m + "e" + x
  }

  lemma PlainForm(d: string, p: int)
    requires Shortest(d) && -4 < p <= 16
    ensures Positional(PyUnsigned(d, p))
  {
    var u := PyUnsigned(d, p);
    if p <= 0 {
      var b := Zeros(-p) + d;
      assert b[|b| - 1] == d[|d| - 1];
      assert WholePart("0") && FractionPart(b) && u == "0" + "." + b;
    } else if |d| <= p {
      var a := d + Zeros(p - |d|);
      assert WholePart(a) && FractionPart("0") && u == a + "." + "0";
    } else {
      var (a, b) := (d[..p], d[p..]);
      assert b[|b| - 1] == d[|d| - 1];
      assert WholePart(a) && FractionPart(b) && u == a + "." + b;
    }
  }

  lemma ExponentForm(e: int)
    ensures SignedExponent(PyExponent(e))
  {
    var m := NatText(if e < 0 then -e else e);
    var x := PyExponent(e);
    if |m| < 2 { assert x[1..] == "0" + m; } else { assert x[1..] == m; }
  }

  lemma MantissaForm(d: string)
    requires Shortest(d)
    ensures ShortMantissa(Mantissa(d))
  {
    var m := Mantissa(d);
    if |d| > 1 { assert m[2..] == d[1..] && m[|m| - 1] == d[|d| - 1]; }
  }

  lemma ScientificForm(d: string, p: int)
    requires Shortest(d) && !(-4 < p <= 16)
    ensures Scientific(PyUnsigned(d, p))
  {
    hide PyExponent, SignedExponent, ShortMantissa, Mantissa;
    var (m, x) := (Mantissa(d), PyExponent(p - 1));
    ExponentForm(p - 1);
    MantissaForm(d);
    assert ShortMantissa(m) && PyUnsigned(d, p) == m + "e" + x;
  }

  lemma WindowIs(d: string, p: int)
    requires Shortest(d)
    ensures -4 < p <= 16 <==> Scale(1.0, -4) <= Magnitude(d, p) < Scale(1.0, 16)
  {
    hide Scale, Magnitude;
    MagnitudeBounds(d, p);
    if p <= -4 { UnitMonotone(p, -4); } else { UnitMonotone(-4, p - 1); }
    if p <= 16 { UnitMonotone(p, 16); } else { UnitMonotone(16, p - 1); }
  }

  lemma WindowBounds()
    ensures Scale(1.0, -4) == 0.0001 && Scale(1.0, 16) == 10000000000000000.0
  {
    assert Scale(1.0, -2) == 0.01;
    assert Scale(1.0, 2) == 100.0 && Scale(1.0, 4) == 10000.0;
    ScaleScale(1.0, 4, 4);
    assert Scale(10000.0, 2) == 1000000.0 && Scale(10000.0, 4) == 100000000.0;
    ScaleScale(1.0, 8, 4);
    assert Scale(100000000.0, 2) == 10000000000.0 && Scale(100000000.0, 4) == 1000000000000.0;
    ScaleScale(1.0, 12, 4);
    assert Scale(1000000000000.0, 2) == 100000000000000.0;
  }

  ghost predicate HasForm(u: string, positional: bool) { if positional then Positional(u) else Scientific(u) }

  // A float is spelled with a point where its decimal is at least 0.0001 and below 10^16,
  // and else with an exponent.
  lemma ReprHasForm(f: Float)
    requires f.Finite?
    ensures var v := if f.negative then -Decimal(Float(f)) else Decimal(Float(f));
      exists u :: PyRepr(f) == Minus(f.negative) + u && HasForm(u, 0.0001 <= v < 10000000000000000.0)
  {
    hide Positional, Scientific, Scale, Magnitude;
    var (d, p) := (f.digits, f.point);
    assert PyRepr(f) == Minus(f.negative) + PyUnsigned(d, p);
    WindowIs(d, p);
    WindowBounds();
    if -4 < p <= 16 { PlainForm(d, p); } else { ScientificForm(d, p); }
    assert HasForm(PyUnsigned(d, p), -4 < p <= 16);
  }

  // ---- Documents ------------------------------------------------------------------------

  // A canonical text is printable ASCII throughout.
  lemma DumpsPrintable(v: Json<Number>)
    ensures Printable(DumpsText(v))
  {
    hide Printable, Ascii, Stringify, Spellable;
    DumpsSpells(v);
    StringifyBare(v, DumpNumber);
    AsciiPrintable(Stringify(v, DumpNumber));
  }

  // ---- Values as `str` and truth take them -------------------------------------------------

  const FALSY: seq<Json<Number>> := [
    Null, Bool(false), Num(Int(0)), Num(Float(Zero(false))), Num(Float(Zero(true))), Str(""), Arr([]), Obj(map[])]

  // Eight values count as false.
  lemma FalsyValues(v: Json<Number>)
    ensures Falsy(v) <==> v in FALSY
  {
    var f := FALSY;
    assert f[0] == Null && f[1] == Bool(false) && f[2] == Num(Int(0)) && f[3] == Num(Float(Zero(false)));
    assert f[4] == Num(Float(Zero(true))) && f[5] == Str("") && f[6] == Arr([]) && f[7] == Obj(map[]);
    match v
    case Num(Float(Zero(negative))) => assert v == if negative then f[4] else f[3];
    case _ =>
  }

  // `str` names the constants as Python does, `json.dumps` as JSON does and as its extension for
  // the non-finite floats.
  lemma ConstantsShown(shown: string)
    ensures PyStr(Null, shown) == "None" && PyStr(Bool(true), shown) == "True" && PyStr(Bool(false), shown) == "False"
    ensures PyStr(Num(Float(Zero(false))), shown) == "0.0" && PyStr(Num(Float(Zero(true))), shown) == "-0.0"
    ensures PyStr(Num(Float(NonFinite(NotANumber))), shown) == "nan" && PyStr(Num(Float(NonFinite(Infinity))), shown) == "inf"
    ensures PyStr(Num(Float(NonFinite(NegativeInfinity))), shown) == "-inf"
  {
  }

  lemma WordStays(v: Json<Number>)
    requires Printable(Stringify(v, DumpNumber))
    ensures DumpsText(v) == Stringify(v, DumpNumber)
  {
    AsciiPrintable(Stringify(v, DumpNumber));
  }

  lemma ConstantsDumped()
    ensures DumpsText(Null) == "null" && DumpsText(Bool(true)) == "true" && DumpsText(Bool(false)) == "false"
  {
    hide DumpsText;
    WordStays(Null);
    WordStays(Bool(true));
    WordStays(Bool(false));
  }

  lemma SpecialsDumped()
    ensures DumpsText(Num(Float(NonFinite(NotANumber)))) == "NaN"
    ensures DumpsText(Num(Float(NonFinite(Infinity)))) == "Infinity"
    ensures DumpsText(Num(Float(NonFinite(NegativeInfinity)))) == "-Infinity"
  {
    hide DumpsText;
    WordStays(Num(Float(NonFinite(NotANumber))));
    WordStays(Num(Float(NonFinite(Infinity))));
    WordStays(Num(Float(NonFinite(NegativeInfinity))));
  }
}
