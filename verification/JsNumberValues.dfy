// What a number's text denotes, and when two numbers share their text.
module JsNumberValues {
  import opened Text
  import opened Doubles
  import opened JsNumbers
  import opened CanonicalJson

  // The number a JSON text denotes (section 6 of RFC 8259): digits, fraction, exponent.
  function Denote(t: string): real {
    if Starts(t, '-') then -DenoteUnsigned(t[1..]) else DenoteUnsigned(t)
  }

  function DenoteUnsigned(u: string): real {
    var e := IndexOf(u, 'e');
    DenoteMantissa(u[..e], if e == |u| then 0 else ParseExponent(u[e + 1..]))
  }

  function DenoteMantissa(m: string, exponent: int): real {
    var dot := IndexOf(m, '.');
    var fraction := if dot < |m| then m[dot + 1..] else "";
    Scale(DigitsValue(m[..dot] + fraction) as real, exponent - |fraction|)
  }

  function TextOf(n: Number): string
    requires Valid(n)
  {
    JavascriptNumber(n).value
  }

  // Spelling as a total function: a non-finite number has no text of its own.
  function Spell(n: Number): string { if Valid(n) then TextOf(n) else "" }

  // ---- The text denotes the value -------------------------------------------------

  lemma PlainMantissa(whole: string, fraction: string)
    requires AllDigits(whole) && AllDigits(fraction)
    ensures DenoteUnsigned(whole + "." + fraction)
      == Scale(DigitsValue(whole + fraction) as real, -|fraction|)
  {
    hide IndexOf, Scale, DigitsValue;
    var u := whole + "." + fraction;
    IndexIs(u, 'e', |u|);
    IndexIs(u, '.', |whole|);
    assert u[..|u|] == u && u[..|whole|] == whole && u[|whole| + 1..] == fraction;
  }

  lemma WholeDenotes(d: string)
    requires AllDigits(d)
    ensures DenoteUnsigned(d) == DigitsValue(d) as real
  {
    hide IndexOf, DigitsValue;
    IndexIs(d, 'e', |d|);
    IndexIs(d, '.', |d|);
    assert d[..|d|] == d && d + "" == d;
  }

  lemma PaddedValue(d: string, n: nat)
    ensures DigitsValue(d + Zeros(n)) as real == Scale(DigitsValue(d) as real, n)
    ensures DigitsValue("0" + (Zeros(n) + d)) == DigitsValue(d)
  {
    DigitsOfZeros(n);
    DigitsOfZeros(n + 1);
    DigitsAppend(d, Zeros(n));
    DigitsAppend(Zeros(n + 1), d);
    ScaleZero(|d|);
    assert "0" + (Zeros(n) + d) == Zeros(n + 1) + d;
  }

  lemma ExponentDenotes(e: int)
    ensures ParseExponent(EcmaExponent(e)[1..]) == e && EcmaExponent(e)[0] == 'e'
  {
    var n := if e < 0 then -e else e;
    DigitsOfNat(n);
    assert EcmaExponent(e)[1..][1..] == NatText(n);
  }

  lemma MantissaDenotes(d: string, exponent: int)
    requires Shortest(d)
    ensures DenoteMantissa(Mantissa(d), exponent) == Scale(DigitsValue(d) as real, exponent + 1 - |d|)
  {
    var m := Mantissa(d);
    MantissaReads(d);
    if |d| > 1 { assert m[2..] == d[1..]; }
  }

  lemma ScientificDenotes(m: string, e: int)
    requires 'e' !in m
    ensures DenoteUnsigned(m + EcmaExponent(e)) == DenoteMantissa(m, e)
  {
    var x := EcmaExponent(e);
    var u := m + x;
    ExponentDenotes(e);
    assert forall i | 0 <= i < |m| :: u[i] != 'e';
    IndexIs(u, 'e', |m|);
    assert u[..|m|] == m && u[|m| + 1..] == x[1..];
  }

  lemma FractionDenotes(d: string, p: int)
    requires Shortest(d) && -6 < p <= 0
    ensures DenoteUnsigned("0." + Zeros(-p) + d) == Magnitude(d, p)
  {
    hide DenoteUnsigned, Scale, DigitsValue;
    PaddedValue(d, -p);
    PlainMantissa("0", Zeros(-p) + d);
    assert "0" + "." + (Zeros(-p) + d) == "0." + Zeros(-p) + d;
  }

  lemma PaddedDenotes(d: string, p: int)
    requires Shortest(d) && |d| <= p
    ensures DenoteUnsigned(d + Zeros(p - |d|)) == Magnitude(d, p)
  {
    hide DenoteUnsigned, Scale, DigitsValue;
    PaddedValue(d, p - |d|);
    WholeDenotes(d + Zeros(p - |d|));
  }

  lemma PointInsideDenotes(d: string, p: int)
    requires Shortest(d) && 0 < p < |d|
    ensures DenoteUnsigned(d[..p] + "." + d[p..]) == Magnitude(d, p)
  {
    hide DenoteUnsigned, Scale, DigitsValue;
    PlainMantissa(d[..p], d[p..]);
    assert d[..p] + d[p..] == d;
  }

  lemma ExponentFormDenotes(d: string, p: int)
    requires Shortest(d)
    ensures DenoteUnsigned(Mantissa(d) + EcmaExponent(p - 1)) == Magnitude(d, p)
  {
    hide DenoteUnsigned, DenoteMantissa, Scale, DigitsValue, EcmaExponent, Mantissa;
    MantissaReads(d);
    ScientificDenotes(Mantissa(d), p - 1);
    MantissaDenotes(d, p - 1);
  }

  lemma UnsignedDenotes(d: string, p: int)
    requires Shortest(d)
    ensures DenoteUnsigned(EcmaUnsigned(d, p)) == Magnitude(d, p)
  {
    if |d| <= p <= 21 {
      PaddedDenotes(d, p);
    } else if 0 < p <= 21 {
      PointInsideDenotes(d, p);
    } else if -6 < p <= 0 {
      FractionDenotes(d, p);
    } else {
      ExponentFormDenotes(d, p);
    }
  }

  lemma SignDenotes(negative: bool, u: string)
    requires u != "" && u[0] != '-'
    ensures Denote(Minus(negative) + u) == Signed(negative, DenoteUnsigned(u))
    ensures negative ==> (Minus(negative) + u)[1..] == u
    ensures 'e' in Minus(negative) + u <==> 'e' in u
  {
    assert "" + u == u;
    assert ("-" + u)[1..] == u;
  }

  lemma UnsignedStarts(d: string, p: int)
    requires Shortest(d)
    ensures var u := EcmaUnsigned(d, p);
      u != "" && Digit(u[0]) && ('e' in u <==> !(-6 < p <= 21)) && forall i | 0 <= i < |u| :: TokenChar(u[i])
  {
    hide Scale, DigitsValue, NatText;
    var u := EcmaUnsigned(d, p);
    if |d| <= p <= 21 {
      assert u == d + Zeros(p - |d|);
    } else if 0 < p <= 21 {
      assert u == d[..p] + "." + d[p..];
    } else if -6 < p <= 0 {
      assert u == "0." + Zeros(-p) + d;
    } else {
      assert u[|Mantissa(d)|] == 'e';
    }
  }

  // The text of every finite number denotes exactly its decimal, which of an integer is its value.
  lemma TextDenotesDecimal(n: Number)
    requires Valid(n)
    ensures Denote(TextOf(n)) == Decimal(n) && IsToken(TextOf(n))
    ensures n.Int? ==> Denote(TextOf(n)) == Value(n)
    ensures n.Float? && n.f.Finite? ==> ('e' in TextOf(n) <==> !PositionalMagnitude(Exact(n.f.double)))
  {
    hide IsRepr, Exact, Magnitude, PositionalMagnitude, DenoteUnsigned, NatText, EcmaUnsigned, RewriteRepr, PyRepr, IsToken;
    match n
    case Int(i) => IntDenotes(i);
    case Float(Zero(_)) => ZeroDenotesZero();
    case Float(f) => FloatDenotes(f);
  }

  // Of a float it denotes a number that rounds to that float and to no other, so a reader
  // that rounds to nearest gets the very same float back.
  lemma TextReadsBack(f: Float, x: Double)
    requires f.Finite? && WellFormed(x)
    ensures Rounds(Signed(f.negative, Denote(TextOf(Float(f)))), x) <==> x == f.double
  {
    hide IsRepr, Rounds, WellFormed, Magnitude, TextOf, Denote;
    FloatDenotes(f);
    OneDoubleOnly(f, x);
  }

  lemma IntDenotes(i: int)
    ensures Denote(TextOf(Int(i))) == i as real && IsToken(TextOf(Int(i)))
  {
    hide DenoteUnsigned;
    var m := if i < 0 then -i else i;
    DigitsOfNat(m);
    WholeDenotes(NatText(m));
    SignDenotes(i < 0, NatText(m));
  }

  lemma ZeroDenotesZero()
    ensures Denote("0") == 0.0 && IsToken("0")
  {
    WholeDenotes("0");
    assert "0"[..0] == "" && DigitsValue("0") == 0;
  }

  lemma OneDoubleOnly(f: Float, x: Double)
    requires f.Finite? && WellFormed(x)
    ensures Rounds(Magnitude(f.digits, f.point), x) <==> x == f.double
  {
    hide Rounds, WellFormed, Exact, Magnitude;
    if Rounds(Magnitude(f.digits, f.point), x) {
      RoundingKeepsOrder(Magnitude(f.digits, f.point), x, Magnitude(f.digits, f.point), f.double);
    }
  }

  lemma FloatDenotes(f: Float)
    requires f.Finite?
    ensures var t := TextOf(Float(f));
      && t == EcmaToString(f) && Denote(t) == Decimal(Float(f)) && IsToken(t)
      && ('e' in t <==> !PositionalMagnitude(Exact(f.double)))
  {
    hide Rounds, WellFormed, Exact, Magnitude, PositionalMagnitude, EcmaUnsigned, RewriteRepr, PyRepr, DenoteUnsigned;
    JavascriptNumberIsEcma(f);
    PositionalWindow(f);
    UnsignedDenotes(f.digits, f.point);
    UnsignedStarts(f.digits, f.point);
    SignDenotes(f.negative, EcmaUnsigned(f.digits, f.point));
    SignedToken(f.negative, EcmaUnsigned(f.digits, f.point));
  }

  lemma SignedToken(negative: bool, u: string)
    requires u != "" && Digit(u[0]) && forall i | 0 <= i < |u| :: TokenChar(u[i])
    ensures IsToken(Minus(negative) + u)
  {
    assert "" + u == u;
    assert forall i | 0 <= i < |u| :: ("-" + u)[i + 1] == u[i];
  }

  // ---- When two numbers share their text --------------------------------------------

  lemma LastDigit(d: string)
    requires Shortest(d)
    ensures DigitsValue(d) % 10 != 0
  {
    var (front, last) := (DigitsValue(d[..|d| - 1]), d[|d| - 1] as int - '0' as int);
    assert DigitsValue(d) == 10 * front + last && 0 < last < 10;
    hide *;
  }

  lemma LengthFromValue(d1: string, d2: string, p: int)
    requires Shortest(d1) && Shortest(d2) && Magnitude(d1, p) == Magnitude(d2, p)
    ensures |d1| >= |d2|
  {
    var k := |d2| - |d1|;
    if k > 0 {
      ScaleScale(DigitsValue(d1) as real, k, p - |d2|);
      ScaleLinear(Scale(DigitsValue(d1) as real, k), DigitsValue(d2) as real, p - |d2|);
      ScaleLinear(DigitsValue(d2) as real, Scale(DigitsValue(d1) as real, k), p - |d2|);
      var m := ScaleWhole(DigitsValue(d1), k);
      LastDigit(d2);
    }
  }

  // The shortest decimal of a value is unique.
  lemma MagnitudeInjective(d1: string, p1: int, d2: string, p2: int)
    requires Shortest(d1) && Shortest(d2) && Magnitude(d1, p1) == Magnitude(d2, p2)
    ensures d1 == d2 && p1 == p2
  {
    MagnitudeBounds(d1, p1);
    MagnitudeBounds(d2, p2);
    if p1 < p2 { UnitMonotone(p1, p2 - 1); }
    if p2 < p1 { UnitMonotone(p2, p1 - 1); }
    LengthFromValue(d1, d2, p1);
    LengthFromValue(d2, d1, p1);
    ScaleLinear(DigitsValue(d1) as real, DigitsValue(d2) as real, p1 - |d1|);
    ScaleLinear(DigitsValue(d2) as real, DigitsValue(d1) as real, p1 - |d1|);
    DigitsInjective(d1, d2);
  }

  lemma WholeFloatBound(n: nat, d: string, p: int)
    requires Shortest(d) && Magnitude(d, p) == n as real
    ensures n > 0 && (p <= 21 <==> n < 1_000_000_000_000_000_000_000)
  {
    MagnitudeBounds(d, p);
    Unit21();
    if p <= 21 { UnitMonotone(p, 21); } else { UnitMonotone(21, p - 1); }
    ScaleZero(p - 1);
    ScaleLinear(0.0, 1.0, p - 1);
  }

  lemma WholeFloatDigits(n: nat, d: string, p: int)
    requires Shortest(d) && Magnitude(d, p) == n as real
    ensures |d| <= p && NatText(n) == d + Zeros(p - |d|)
  {
    WholeFloatBound(n, d, p);
    if p < |d| {
      ScaleScale(DigitsValue(d) as real, p - |d|, |d| - p);
      var m := ScaleWhole(n, |d| - p);
      LastDigit(d);
    }
    PaddedValue(d, p - |d|);
    DigitsOfNat(n);
    CanonicalDigits(d + Zeros(p - |d|), NatText(n));
  }

  // A whole-valued float is spelled like the integer exactly below 10^21.
  lemma WholeFloatText(n: nat, d: string, p: int)
    requires Shortest(d) && Magnitude(d, p) == n as real
    ensures EcmaUnsigned(d, p) == NatText(n) <==> n < 1_000_000_000_000_000_000_000
  {
    WholeFloatBound(n, d, p);
    WholeFloatDigits(n, d, p);
    UnsignedStarts(d, p);
    assert 'e' !in d + Zeros(p - |d|);
  }

  predicate Beyond(n: Number) {
    n.Int? && (n.i <= -1_000_000_000_000_000_000_000 || n.i >= 1_000_000_000_000_000_000_000)
  }

  // What the text of a number keeps: its decimal, and whether it is an integer too large
  // for the positional window that floats are held to.
  function Kept(n: Number): (real, bool) { (Decimal(n), Beyond(n)) }

  lemma SameAfterSign(negative: bool, u: string, v: string)
    ensures Minus(negative) + u == Minus(negative) + v <==> u == v
  {
    assert ("-" + u)[1..] == u && ("-" + v)[1..] == v && "" + u == u && "" + v == v;
  }

  lemma MagnitudePositive(d: string, p: int)
    requires Shortest(d)
    ensures Magnitude(d, p) > 0.0
  {
    MagnitudeBounds(d, p);
    UnitPositive(p - 1);
  }

  lemma SignOfWhole(i: int, f: Float)
    requires f.Finite? && Decimal(Float(f)) == i as real
    ensures f.negative == (i < 0) && Magnitude(f.digits, f.point) == (if i < 0 then -i else i) as real
  {
    hide Magnitude, Scale, Rounds, Better;
    MagnitudePositive(f.digits, f.point);
  }

  lemma SignedText(n: Number)
    requires Valid(n)
    ensures n.Int? ==> TextOf(n) == Minus(n.i < 0) + NatText(if n.i < 0 then -n.i else n.i)
    ensures n.Float? && n.f.Finite? ==> TextOf(n) == Minus(n.f.negative) + EcmaUnsigned(n.f.digits, n.f.point)
  {
    hide NatText, EcmaUnsigned, RewriteRepr, PyRepr, PositionalMagnitude, Better, Rounds, Magnitude;
    if n.Int? {
      assert "" + NatText(if n.i < 0 then -n.i else n.i) == NatText(if n.i < 0 then -n.i else n.i);
    } else if n.f.Finite? {
      JavascriptNumberIsEcma(n.f);
    }
  }

  lemma IntAgainstFloat(i: int, f: Float)
    requires f.Finite? && Decimal(Float(f)) == i as real
    ensures TextOf(Int(i)) == TextOf(Float(f)) <==> !Beyond(Int(i))
  {
    hide TextOf, Decimal, Magnitude, NatText, EcmaUnsigned, Minus, Better, Rounds;
    var n := if i < 0 then -i else i;
    SignOfWhole(i, f);
    SignedText(Int(i));
    SignedText(Float(f));
    WholeFloatText(n, f.digits, f.point);
    SameAfterSign(i < 0, EcmaUnsigned(f.digits, f.point), NatText(n));
  }

  // One decimal belongs to one float, up to the sign of zero.
  lemma DecimalNamesFloat(f: Float, g: Float)
    requires !f.NonFinite? && !g.NonFinite? && Decimal(Float(f)) == Decimal(Float(g))
    ensures f == g || (f.Zero? && g.Zero?)
  {
    hide Magnitude, Rounds, Better, Exact, WellFormed, Shortest;
    if f.Finite? { MagnitudePositive(f.digits, f.point); }
    if g.Finite? { MagnitudePositive(g.digits, g.point); }
    if f.Finite? && g.Finite? {
      MagnitudeInjective(f.digits, f.point, g.digits, g.point);
      OneDoubleOnly(f, g.double);
    }
  }

  // And so does one value.
  lemma ValueNamesFloat(f: Float, g: Float)
    requires !f.NonFinite? && !g.NonFinite? && Value(Float(f)) == Value(Float(g))
    ensures f == g || (f.Zero? && g.Zero?)
  {
    hide Magnitude, Rounds, Better, Exact, WellFormed;
    if f.Finite? { ExactRounds(f.double); }
    if g.Finite? { ExactRounds(g.double); }
    if f.Finite? && g.Finite? {
      RoundingKeepsOrder(Exact(f.double), f.double, Exact(g.double), g.double);
      ReprUnique(f.digits, f.point, g.digits, g.point, f.double);
    }
  }

  // Two numbers have one text exactly when they print as one decimal, and an integer at
  // or beyond 10^21 is never confused with a float.
  lemma SameText(x: Number, y: Number)
    requires Valid(x) && Valid(y)
    ensures TextOf(x) == TextOf(y) <==> Kept(x) == Kept(y)
  {
    hide TextOf, Decimal, Rounds, WellFormed, Exact, Beyond, Denote, IsToken, PositionalMagnitude, IsRepr;
    TextDenotesDecimal(x);
    TextDenotesDecimal(y);
    if Decimal(x) == Decimal(y) {
      match (x, y)
      case (Int(i), Int(j)) => IntDecimal(i); IntDecimal(j);
      case (Float(f), Float(g)) => FloatsSharePrint(f, g);
      case (Int(i), Float(g)) => MixedText(i, g);
      case (Float(f), Int(j)) => MixedText(j, f);
    }
  }

  lemma IntDecimal(i: int)
    ensures Decimal(Int(i)) == i as real
  {
  }

  lemma FloatsSharePrint(f: Float, g: Float)
    requires !f.NonFinite? && !g.NonFinite? && Decimal(Float(f)) == Decimal(Float(g))
    ensures TextOf(Float(f)) == TextOf(Float(g)) && !Beyond(Float(f)) && !Beyond(Float(g))
  {
    hide Decimal, RewriteRepr, PyRepr, PositionalMagnitude, IsRepr;
    DecimalNamesFloat(f, g);
  }

  lemma MixedText(i: int, g: Float)
    requires !g.NonFinite? && Decimal(Int(i)) == Decimal(Float(g))
    ensures TextOf(Int(i)) == TextOf(Float(g)) <==> !Beyond(Int(i))
    ensures !Beyond(Float(g))
  {
    hide RewriteRepr, PyRepr, PositionalMagnitude, IsRepr, Magnitude;
    if g.Finite? { IntAgainstFloat(i, g); }
  }

  // ---- Whole documents --------------------------------------------------------------

  predicate Serializable(v: Json<Number>) {
    match v
    case Num(n) => Valid(n)
    case Arr(items) => forall i | 0 <= i < |items| :: Serializable(items[i])
    case Obj(fields) => forall k | k in fields :: Serializable(fields[k])
    case _ => true
  }

  // `_devspace_json_stringify` on a document whose numbers are all finite.
  function DevspaceText(v: Json<Number>): string
    requires Serializable(v)
  {
    Stringify(v, Spell)
  }

  lemma {:induction false} SerializableSpells(v: Json<Number>)
    requires Serializable(v)
    ensures Spellable(v, Spell)
  {
    match v
    case Num(n) => TextDenotesDecimal(n);
    case Arr(items) => forall i | 0 <= i < |items| { SerializableSpells(items[i]); }
    case Obj(fields) => forall k | k in fields { SerializableSpells(fields[k]); }
    case _ =>
  }

  lemma SeqsAgree<T, U>(p: seq<T>, q: seq<T>, r: seq<U>, s: seq<U>)
    requires |p| == |r| && |q| == |s| && forall i | 0 <= i < |p| && i < |q| :: p[i] == q[i] <==> r[i] == s[i]
    ensures p == q <==> r == s
  {
    if p == q { assert r == s; }
  }

  lemma MapsAgree<T, U>(p: map<string, T>, q: map<string, T>, r: map<string, U>, s: map<string, U>)
    requires p.Keys == r.Keys && q.Keys == s.Keys && forall k | k in p && k in q :: p[k] == q[k] <==> r[k] == s[k]
    ensures p == q <==> r == s
  {
    assert p == q <==> p.Keys == q.Keys && forall k | k in p && k in q :: p[k] == q[k];
    assert r == s <==> r.Keys == s.Keys && forall k | k in r && k in s :: r[k] == s[k];
  }

  // Documents agree under two readings of their numbers where the numbers do.
  lemma {:induction false} TokensAgree(a: Json<Number>, b: Json<Number>)
    requires Serializable(a) && Serializable(b)
    ensures MapNumbers(a, Spell) == MapNumbers(b, Spell) <==> MapNumbers(a, Kept) == MapNumbers(b, Kept)
  {
    hide Spell, Kept, TextOf;
    match (a, b)
    case (Num(x), Num(y)) =>
      SameText(x, y);
      SpellIsText(x);
      SpellIsText(y);
    case (Arr(xs), Arr(ys)) =>
      var (p, q) := (MapNumbers(a, Spell).items, MapNumbers(b, Spell).items);
      var (r, s) := (MapNumbers(a, Kept).items, MapNumbers(b, Kept).items);
      forall i | 0 <= i < |xs| && i < |ys| ensures p[i] == q[i] <==> r[i] == s[i] { TokensAgree(xs[i], ys[i]); }
      SeqsAgree(p, q, r, s);
    case (Obj(xs), Obj(ys)) =>
      var (p, q) := (MapNumbers(a, Spell).fields, MapNumbers(b, Spell).fields);
      var (r, s) := (MapNumbers(a, Kept).fields, MapNumbers(b, Kept).fields);
      assert p.Keys == r.Keys == xs.Keys && q.Keys == s.Keys == ys.Keys;
      forall k | k in xs && k in ys ensures p[k] == q[k] <==> r[k] == s[k] { TokensAgree(xs[k], ys[k]); }
      MapsAgree(p, q, r, s);
    case _ =>
  }

  lemma SpellIsText(n: Number)
    requires Valid(n)
    ensures Spell(n) == TextOf(n)
  {
  }

  // Two snapshots have one text exactly when they agree up to key order and
  // the equality of numbers that `Kept` describes.
  lemma SnapshotTextIdentity(a: Json<Number>, b: Json<Number>)
    requires Serializable(a) && Serializable(b)
    ensures DevspaceText(a) == DevspaceText(b) <==> MapNumbers(a, Kept) == MapNumbers(b, Kept)
  {
    SerializableSpells(a);
    SerializableSpells(b);
    SameTextSameTokens(a, b, Spell);
    TokensAgree(a, b);
  }

  // Reading the text back gives the document with each number as its decimal.
  lemma SnapshotRoundTrip(v: Json<Number>)
    requires Serializable(v)
    ensures var r := Parse(DevspaceText(v));
      r.Some? && r.value.1 == "" && MapNumbers(r.value.0, Denote) == MapNumbers(v, Decimal)
  {
    SerializableSpells(v);
    ParseUndoesStringify(v, Spell, "");
    assert DevspaceText(v) + "" == DevspaceText(v);
    SpellThenDenote(v);
  }

  lemma {:induction false} SpellThenDenote(v: Json<Number>)
    requires Serializable(v)
    ensures MapNumbers(MapNumbers(v, Spell), Denote) == MapNumbers(v, Decimal)
  {
    match v
    case Num(n) => TextDenotesDecimal(n);
    case Arr(items) =>
      forall i | 0 <= i < |items| { SpellThenDenote(items[i]); }
      assert MapNumbers(MapNumbers(v, Spell), Denote).items == MapNumbers(v, Decimal).items;
    case Obj(fields) =>
      forall k | k in fields { SpellThenDenote(fields[k]); }
      assert MapNumbers(MapNumbers(v, Spell), Denote).fields == MapNumbers(v, Decimal).fields;
    case _ =>
  }
}
