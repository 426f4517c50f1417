// `json.dumps(value, sort_keys=True, separators=(",", ":"))`: the text that the
// program's own content hashes are taken over. It never confuses two documents.
module CanonicalText {
  import opened Text
  import opened AsciiText
  import opened JsNumbers
  import opened JsNumberValues
  import opened CanonicalJson

  // Python's spelling of a number: `str` of an int, `repr` of a float.
  function PySpell(n: Number): string {
    match n
    case Int(i) => IntText(i)
    case Float(Zero(negative)) => Minus(negative) + "0.0"
    case Float(NonFinite(kind)) => (match kind case NotANumber => "nan" case Infinity => "inf" case NegativeInfinity => "-inf")
    case Float(f) => PyRepr(f)
  }

  // `json`'s spelling of a number: the same but for the non-finite ones.
  function DumpNumber(n: Number): string {
    match n
    case Float(NonFinite(kind)) =>
      (match kind case NotANumber => "NaN" case Infinity => "Infinity" case NegativeInfinity => "-Infinity")
    case _ => PySpell(n)
  }

  function DumpsText(v: Json<Number>): string { Ascii(Stringify(v, DumpNumber)) }

  lemma PlainReprDenotes(d: string, p: int)
    requires Shortest(d) && |d| <= p <= 16
    ensures DenoteUnsigned(d + Zeros(p - |d|) + ".0") == Magnitude(d, p)
  {
    var whole := d + Zeros(p - |d|);
    PlainMantissa(whole, "0");
    assert whole + "." + "0" == whole + ".0";
    DigitsAppend(whole, "0");
    assert DigitsValue("0") == 0;
    ScaleScale(DigitsValue(whole) as real, 1, -1);
    PaddedValue(d, p - |d|);
  }

  // A mantissa and an exponent, joined by "e", denote what the two parts do.
  lemma ExponentFormDenotes(m: string, x: string)
    requires forall i | 0 <= i < |m| :: m[i] != 'e'
    ensures DenoteUnsigned(m + ("e" + x)) == DenoteMantissa(m, ParseExponent(x))
  {
    hide DenoteMantissa, ParseExponent, IndexOf;
    var u := m + ("e" + x);
    IndexIs(u, 'e', |m|);
    assert u[..|m|] == m && u[|m| + 1..] == x;
  }

  lemma ScientificReprDenotes(d: string, p: int)
    requires Shortest(d)
    ensures DenoteUnsigned(Mantissa(d) + ("e" + PyExponent(p - 1))) == Magnitude(d, p)
  {
    hide DenoteUnsigned, DenoteMantissa, ParseExponent, PyExponent, Scale, DigitsValue, Mantissa, IndexOf;
    MantissaReads(d);
    ExponentReads(p - 1);
    ExponentFormDenotes(Mantissa(d), PyExponent(p - 1));
    MantissaDenotes(d, p - 1);
  }

  lemma PyUnsignedDenotes(d: string, p: int)
    requires Shortest(d)
    ensures DenoteUnsigned(PyUnsigned(d, p)) == Magnitude(d, p)
  {
    if -4 < p <= 0 {
      FractionDenotes(d, p);
    } else if |d| <= p <= 16 {
      PlainReprDenotes(d, p);
    } else if 0 < p <= 16 {
      PointInsideDenotes(d, p);
    } else {
      ScientificReprDenotes(d, p);
    }
  }

  lemma PyUnsignedShape(d: string, p: int)
    requires Shortest(d)
    ensures var u := PyUnsigned(d, p);
      u != "" && Digit(u[0]) && ('e' in u || '.' in u) && forall i | 0 <= i < |u| :: TokenChar(u[i])
  {
    var u := PyUnsigned(d, p);
    if -4 < p <= 0 {
      assert u[1] == '.';
    } else if |d| <= p <= 16 {
      assert u[|u| - 2] == '.';
    } else if 0 < p <= 16 {
      assert u[p] == '.';
    } else {
      assert u[|Mantissa(d)|] == 'e';
    }
  }

  predicate LeadsWithDigit(t: string) { t != "" && (Digit(t[0]) || (t[0] == '-' && |t| > 1 && Digit(t[1]))) }

  lemma SignKeepsChars(negative: bool, u: string)
    ensures 'e' in Minus(negative) + u || '.' in Minus(negative) + u <==> 'e' in u || '.' in u
    ensures (forall i | 0 <= i < |u| :: TokenChar(u[i])) && u != "" && Digit(u[0]) ==>
      IsToken(Minus(negative) + u) && LeadsWithDigit(Minus(negative) + u)
  {
    assert "" + u == u;
    assert forall i | 0 <= i < |u| :: ("-" + u)[i + 1] == u[i];
  }

  lemma ZeroDenotes()
    ensures DenoteUnsigned("0.0") == 0.0 && '.' in "0.0"
  {
    hide DenoteUnsigned, Scale;
    PlainMantissa("0", "0");
    assert "0" + "." + "0" == "0.0";
    assert ("0" + "0")[..1] == "0" && DigitsValue("0") == 0;
    assert DigitsValue("0" + "0") == 0;
    ScaleZero(-1);
    assert "0.0"[1] == '.';
  }

  lemma FloatReprDenotes(f: Float)
    requires f.Finite?
    ensures var t := PyRepr(f);
      IsToken(t) && LeadsWithDigit(t) && Denote(t) == Decimal(Float(f)) && ('e' in t || '.' in t)
  {
    PyUnsignedDenotes(f.digits, f.point);
    PyUnsignedShape(f.digits, f.point);
    SignDenotes(f.negative, PyUnsigned(f.digits, f.point));
    SignKeepsChars(f.negative, PyUnsigned(f.digits, f.point));
  }

  lemma PySpellDenotes(n: Number)
    requires Valid(n)
    ensures IsToken(PySpell(n)) && LeadsWithDigit(PySpell(n)) && Denote(PySpell(n)) == Decimal(n)
    ensures n.Float? <==> 'e' in PySpell(n) || '.' in PySpell(n)
  {
    hide IsToken, Denote, PyRepr, NatText, LeadsWithDigit;
    match n
    case Int(i) =>
      TextDenotesDecimal(n);
      WholeTextPlain(i);
    case Float(Zero(negative)) => ZeroReprDenotes(negative);
    case Float(f) => FloatReprDenotes(f);
  }

  lemma WholeTextPlain(i: int)
    ensures TextOf(Int(i)) == IntText(i) && 'e' !in IntText(i) && '.' !in IntText(i) && LeadsWithDigit(IntText(i))
  {
    hide NatText;
  }

  lemma ZeroReprDenotes(negative: bool)
    ensures var t := Minus(negative) + "0.0"; IsToken(t) && LeadsWithDigit(t) && Denote(t) == 0.0 && '.' in t
  {
    hide DenoteUnsigned;
    ZeroDenotes();
    SignDenotes(negative, "0.0");
    SignKeepsChars(negative, "0.0");
    assert (Minus(negative) + "0.0")[|Minus(negative)| + 1] == '.';
  }

  // Python never spells two numbers alike: not 1 and 1.0, not 0.0 and -0.0.
  lemma PySpellInjective(x: Number, y: Number)
    requires Valid(x) && Valid(y) && PySpell(x) == PySpell(y)
    ensures x == y
  {
    PySpellDenotes(x);
    PySpellDenotes(y);
    if x.Float? {
      DecimalNamesFloat(x.f, y.f);
      if x.f.Zero? && y.f.Zero? {
        assert ("-" + "0.0")[0] == '-' && ("" + "0.0")[0] == '0';
      }
    }
  }

  // Nor does `json`, whose three special words begin like no other number.
  lemma SpecialWords(k: Special)
    ensures var t := DumpNumber(Float(NonFinite(k))); IsToken(t) && !LeadsWithDigit(t)
  {
  }

  lemma DumpNumberInjective(x: Number, y: Number)
    requires DumpNumber(x) == DumpNumber(y)
    ensures x == y
  {
    hide IsToken, LeadsWithDigit, Denote, PySpell;
    if Valid(x) { PySpellDenotes(x); } else { SpecialWords(x.f.kind); }
    if Valid(y) { PySpellDenotes(y); } else { SpecialWords(y.f.kind); }
    if Valid(x) && Valid(y) { PySpellInjective(x, y); }
  }

  lemma DumpNumberIsToken(n: Number)
    ensures IsToken(DumpNumber(n))
  {
    hide IsToken, LeadsWithDigit, Denote, PySpell;
    if Valid(n) { PySpellDenotes(n); } else { SpecialWords(n.f.kind); }
  }

  lemma {:induction false} DumpsSpells(v: Json<Number>)
    ensures Spellable(v, DumpNumber)
  {
    hide DumpNumber, IsToken;
    match v
    case Num(n) => DumpNumberIsToken(n);
    case Arr(items) => forall i | 0 <= i < |items| { DumpsSpells(items[i]); }
    case Obj(fields) => forall k | k in fields { DumpsSpells(fields[k]); }
    case _ =>
  }

  lemma {:induction false} DumpTokensInjective(a: Json<Number>, b: Json<Number>)
    requires MapNumbers(a, DumpNumber) == MapNumbers(b, DumpNumber)
    ensures a == b
  {
    hide DumpNumber;
    match (a, b)
    case (Num(x), Num(y)) => DumpNumberInjective(x, y);
    case (Arr(xs), Arr(ys)) =>
      var (p, q) := (MapNumbers(a, DumpNumber).items, MapNumbers(b, DumpNumber).items);
      assert |p| == |xs| && |q| == |ys|;
      forall i | 0 <= i < |xs| ensures xs[i] == ys[i] {
        assert p[i] == q[i];
        DumpTokensInjective(xs[i], ys[i]);
      }
    case (Obj(xs), Obj(ys)) =>
      var (p, q) := (MapNumbers(a, DumpNumber).fields, MapNumbers(b, DumpNumber).fields);
      assert p.Keys == xs.Keys && q.Keys == ys.Keys;
      forall k | k in xs ensures xs[k] == ys[k] {
        assert p[k] == q[k];
        DumpTokensInjective(xs[k], ys[k]);
      }
    case _ =>
  }

  // Two documents have one canonical text only if they are the same document.
  lemma DumpsInjective(a: Json<Number>, b: Json<Number>)
    ensures DumpsText(a) == DumpsText(b) <==> a == b
  {
    hide DumpNumber;
    DumpsSpells(a);
    DumpsSpells(b);
    AsciiKeepsDocuments(a, b, DumpNumber);
    SameTextSameTokens(a, b, DumpNumber);
    if DumpsText(a) == DumpsText(b) { DumpTokensInjective(a, b); }
  }

  // ---- Python's view of a decoded value ---------------------------------------------

  predicate Falsy(v: Json<Number>) {
    match v
    case Null => true
    case Bool(b) => !b
    case Num(Int(i)) => i == 0
    case Num(Float(f)) => f.Zero?
    case Str(s) => s == ""
    case Arr(items) => items == []
    case Obj(fields) => fields == map[]
  }

  // `str(value)`, where `shown` is what it makes of a list or an object.
  function PyStr(v: Json<Number>, shown: string): string {
    match v
    case Null => "None"
    case Bool(b) => if b then "True" else "False"
    case Num(n) => PySpell(n)
    case Str(s) => s
    case _ => shown
  }

  // `str(data.get(key) or default)`
  function TextOr(fields: map<string, Json<Number>>, key: string, default: string, shown: Json<Number> -> string): string {
    if key in fields && !Falsy(fields[key]) then PyStr(fields[key], shown(fields[key])) else default
  }
}
