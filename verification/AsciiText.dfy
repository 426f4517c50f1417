// `ensure_ascii`: every character past '~' as one or two `\u` escapes. Nothing of a
// printed document is lost by it.
module AsciiText {
  import opened Text
  import opened CanonicalJson

  function Unit(n: nat): string
    requires n < 0x1_0000
  {
    "\\u" + [HEX[n / 4096], HEX[n / 256 % 16], HEX[n / 16 % 16], HEX[n % 16]]
  }

  function AsciiChar(c: char): string {
    if c as int < 127 then [c]
    else if c as int < 0x1_0000 then Unit(c as int)
    else
      var n := c as int - 0x1_0000;
      Unit(0xd800 + n / 1024) + Unit(0xdc00 + n % 1024)
  }

  function Ascii(s: string): string { if s == "" then "" else AsciiChar(s[0]) + Ascii(s[1..]) }

  // ---- Reading it back -------------------------------------------------------------

  function ReadUnit(s: string): Option<int> {
    if |s| < 6 || s[..2] != "\\u" then None
    else match (HexValue(s[2]), HexValue(s[3]), HexValue(s[4]), HexValue(s[5]))
      case (Some(a), Some(b), Some(c), Some(d)) => Some(4096 * a + 256 * b + 16 * c + d)
      case _ => None
  }

  function ReadPair(n: int, s: string): Option<char> {
    match ReadUnit(s)
    case Some(m) =>
      if 0xd800 <= n < 0xdc00 <= m < 0xe000 then Some((0x1_0000 + 1024 * (n - 0xd800) + m - 0xdc00) as char) else None
    case None => None
  }

  // The escapes of U+007F and later taken back; all others stay as they are.
  function Plain(s: string): string {
    if s == "" then ""
    else if s[0] != '\\' then [s[0]] + Plain(s[1..])
    else match ReadUnit(s)
      case None => if |s| < 2 then s else s[..2] + Plain(s[2..])
      case Some(n) =>
        if n < 127 then s[..6] + Plain(s[6..])
        else if n < 0xd800 || 0xe000 <= n < 0x1_0000 then [n as char] + Plain(s[6..])
        else match ReadPair(n, s[6..])
          case Some(c) => if |s| < 12 then s else [c] + Plain(s[12..])
          case None => s
  }

  lemma HexReads(k: nat)
    requires k < 16
    ensures HexValue(HEX[k]) == Some(k)
  {
    var all := "0123456789abcdef";
    assert HEX == all;
  }

  lemma Nibbles(n: nat)
    requires n < 0x1_0000
    ensures n / 4096 < 16 && 4096 * (n / 4096) + 256 * (n / 256 % 16) + 16 * (n / 16 % 16) + n % 16 == n
  {
    assert n / 256 == n / 16 / 16;
    assert n / 4096 == n / 256 / 16;
  }

  lemma UnitReads(n: nat, tail: string)
    requires n < 0x1_0000
    ensures ReadUnit(Unit(n) + tail) == Some(n) && |Unit(n)| == 6
    ensures (Unit(n) + tail)[0] == '\\' && (Unit(n) + tail)[..6] == Unit(n) && (Unit(n) + tail)[6..] == tail
  {
    hide HexValue;
    Nibbles(n);
    HexReads(n / 4096);
    HexReads(n / 256 % 16);
    HexReads(n / 16 % 16);
    HexReads(n % 16);
    var s := Unit(n) + tail;
    assert s[..2] == "\\u";
    assert s[2] == HEX[n / 4096] && s[3] == HEX[n / 256 % 16] && s[4] == HEX[n / 16 % 16] && s[5] == HEX[n % 16];
  }

  // A text that comes back from its escaped form, whatever follows it.
  ghost predicate Returns(t: string) {
    forall tail: string :: Plain(Ascii(t) + tail) == t + Plain(tail)
  }

  lemma AsciiSteps(s: string)
    ensures Ascii(s) == if s == "" then "" else AsciiChar(s[0]) + Ascii(s[1..])
  {
    hide AsciiChar;
  }

  lemma Joined(a: string, b: string, c: string)
    ensures a + (b + c) == a + b + c
  {
  }

  lemma {:induction false} AsciiAppend(s: string, t: string)
    ensures Ascii(s + t) == Ascii(s) + Ascii(t)
  {
    hide Ascii, AsciiChar;
    AsciiSteps(s);
    AsciiSteps(s + t);
    if s == "" {
      assert s + t == t;
    } else {
      AsciiAppend(s[1..], t);
      assert (s + t)[1..] == s[1..] + t;
      Joined(AsciiChar(s[0]), Ascii(s[1..]), Ascii(t));
    }
  }

  lemma ReturnsAppend(s: string, t: string)
    requires Returns(s) && Returns(t)
    ensures Returns(s + t)
  {
    hide Plain, Ascii;
    AsciiAppend(s, t);
    forall tail: string ensures Plain(Ascii(s + t) + tail) == s + t + Plain(tail) {
      assert Ascii(s + t) + tail == Ascii(s) + (Ascii(t) + tail);
      assert s + (t + Plain(tail)) == s + t + Plain(tail);
    }
  }

  lemma UnitReturns(n: nat, tail: string)
    requires 127 <= n < 0xd800 || 0xe000 <= n < 0x1_0000
    ensures Plain(Unit(n) + tail) == [n as char] + Plain(tail)
  {
    hide ReadUnit, Unit, ReadPair;
    UnitReads(n, tail);
  }

  lemma PairReads(n: nat, tail: string)
    requires n < 0x10_0000
    ensures ReadPair(0xd800 + n / 1024, Unit(0xdc00 + n % 1024) + tail) == Some((0x1_0000 + n) as char)
  {
    hide ReadUnit, Unit;
    UnitReads(0xdc00 + n % 1024, tail);
  }

  lemma PairReturns(n: nat, tail: string)
    requires n < 0x10_0000
    ensures Plain(Unit(0xd800 + n / 1024) + Unit(0xdc00 + n % 1024) + tail) == [(0x1_0000 + n) as char] + Plain(tail)
  {
    hide ReadUnit, Unit, ReadPair;
    var (a, b) := (0xd800 + n / 1024, 0xdc00 + n % 1024);
    var s := Unit(a) + Unit(b) + tail;
    assert s == Unit(a) + (Unit(b) + tail);
    UnitReads(a, Unit(b) + tail);
    UnitReads(b, tail);
    PairReads(n, tail);
    assert s[12..] == s[6..][6..];
  }

  lemma WideReturns(c: char, tail: string)
    requires c as int >= 127
    ensures Plain(AsciiChar(c) + tail) == [c] + Plain(tail)
  {
    hide Plain, Unit;
    if c as int < 0x1_0000 { UnitReturns(c as int, tail); } else { PairReturns(c as int - 0x1_0000, tail); }
  }

  lemma NarrowReturns(c: char, tail: string)
    requires c != '\\'
    ensures Plain([c] + tail) == [c] + Plain(tail)
  {
    hide ReadUnit, ReadPair;
    assert ([c] + tail)[1..] == tail;
  }

  lemma OneChar(c: char)
    ensures Ascii([c]) == AsciiChar(c)
  {
    hide AsciiChar;
  }

  lemma CharReturns(c: char)
    requires c != '\\'
    ensures Returns([c])
  {
    hide Plain, Ascii;
    OneChar(c);
    forall tail: string ensures Plain(Ascii([c]) + tail) == [c] + Plain(tail) {
      if c as int < 127 { NarrowReturns(c, tail); } else { WideReturns(c, tail); }
    }
  }

  lemma {:induction false} PlainTextReturns(t: string)
    requires '\\' !in t
    ensures Returns(t)
  {
    if t == "" {
      assert forall tail: string :: Ascii(t) + tail == tail && t + Plain(tail) == Plain(tail);
    } else {
      PlainTextReturns(t[1..]);
      CharReturns(t[0]);
      ReturnsAppend([t[0]], t[1..]);
      assert t == [t[0]] + t[1..];
    }
  }

  lemma {:induction false} NarrowStays(t: string)
    requires forall i | 0 <= i < |t| :: t[i] as int < 127
    ensures Ascii(t) == t
  {
    if t != "" { NarrowStays(t[1..]); }
  }

  lemma ShortEscapeReturns(x: char)
    requires x as int < 127 && x != 'u'
    ensures Returns(['\\', x])
  {
    var e := ['\\', x];
    NarrowStays(e);
    forall tail: string ensures Plain(Ascii(e) + tail) == e + Plain(tail) {
      var s := e + tail;
      assert s[..2] == e && s[2..] == tail;
      assert s[..2] != "\\u" by { assert "\\u"[1] == 'u'; }
    }
  }

  lemma HexEscapeReturns(n: nat)
    requires n < 32
    ensures Returns("\\u00" + [HEX[n / 16], HEX[n % 16]])
  {
    var e := "\\u00" + [HEX[n / 16], HEX[n % 16]];
    assert e == Unit(n);
    NarrowStays(e);
    hide Ascii, ReadUnit, ReadPair;
    forall tail: string ensures Plain(Ascii(e) + tail) == e + Plain(tail) { UnitReads(n, tail); }
  }

  lemma EscapedCharReturns(c: char)
    ensures Returns(EscapeChar(c))
  {
    hide Returns;
    EscapeCharShape(c);
    var e := EscapeChar(c);
    if e == [c] {
      CharReturns(c);
    } else if |e| == 2 {
      assert e == ['\\', e[1]];
      ShortEscapeReturns(e[1]);
    } else {
      HexEscapeReturns(c as int);
    }
  }

  lemma {:induction false} EscapedReturns(t: string)
    ensures Returns(Escape(t))
  {
    hide Returns, EscapeChar;
    if t == "" {
      PlainTextReturns("");
    } else {
      EscapedCharReturns(t[0]);
      EscapedReturns(t[1..]);
      ReturnsAppend(EscapeChar(t[0]), Escape(t[1..]));
    }
  }

  lemma QuotedReturns(t: string)
    ensures Returns(Quote(t))
  {
    hide Returns, Escape;
    EscapedReturns(t);
    CharReturns('\"');
    ReturnsAppend("\"", Escape(t));
    ReturnsAppend("\"" + Escape(t), "\"");
  }

  lemma {:induction false} DocumentReturns<N>(v: Json<N>, spell: N -> string)
    requires Spellable(v, spell)
    ensures Returns(Stringify(v, spell))
    decreases v, 1
  {
    hide Returns, Quote;
    match v
    case Null => PlainTextReturns("null");
    case Bool(b) => PlainTextReturns(if b then "true" else "false");
    case Num(n) => PlainTextReturns(spell(n));
    case Str(s) => QuotedReturns(s);
    case Arr(items) =>
      ItemsReturn(v, 0, spell);
      Bracketed("[", StringifyItems(v, 0, spell), "]");
    case Obj(fields) =>
      MembersReturn(v, Sorted(fields.Keys), spell);
      Bracketed("{", StringifyMembers(v, Sorted(fields.Keys), spell), "}");
  }

  lemma Bracketed(left: string, t: string, right: string)
    requires Returns(t) && '\\' !in left && '\\' !in right
    ensures Returns(left + t + right)
  {
    hide Returns;
    PlainTextReturns(left);
    PlainTextReturns(right);
    ReturnsAppend(left, t);
    ReturnsAppend(left + t, right);
  }

  lemma {:induction false} ItemsReturn<N>(v: Json<N>, i: nat, spell: N -> string)
    requires v.Arr? && i <= |v.items| && Spellable(v, spell)
    ensures Returns(StringifyItems(v, i, spell))
    decreases v, 0, |v.items| - i
  {
    hide Returns, Stringify;
    PlainTextReturns("");
    if i < |v.items| {
      DocumentReturns(v.items[i], spell);
      ItemsReturn(v, i + 1, spell);
      Bracketed("", Stringify(v.items[i], spell), ",");
      assert "" + Stringify(v.items[i], spell) == Stringify(v.items[i], spell);
      ReturnsAppend(Stringify(v.items[i], spell) + ",", StringifyItems(v, i + 1, spell));
    }
  }

  lemma MemberReturns(key: string, t: string)
    requires Returns(t)
    ensures Returns(Quote(key) + ":" + t)
  {
    hide Returns, Quote;
    QuotedReturns(key);
    PlainTextReturns(":");
    ReturnsAppend(Quote(key), ":");
    ReturnsAppend(Quote(key) + ":", t);
  }

  lemma {:induction false} MembersReturn<N>(v: Json<N>, keys: seq<string>, spell: N -> string)
    requires v.Obj? && Spellable(v, spell) && forall k | k in keys :: k in v.fields
    ensures Returns(StringifyMembers(v, keys, spell))
    decreases v, 0, |keys|
  {
    hide Returns, Stringify, Quote;
    PlainTextReturns("");
    if keys != [] {
      var t := Stringify(v.fields[keys[0]], spell);
      DocumentReturns(v.fields[keys[0]], spell);
      MembersReturn(v, keys[1..], spell);
      MemberReturns(keys[0], t);
      PlainTextReturns(",");
      ReturnsAppend(Quote(keys[0]) + ":" + t, ",");
      ReturnsAppend(Quote(keys[0]) + ":" + t + ",", StringifyMembers(v, keys[1..], spell));
    }
  }

  // Escaped or not, printed documents are told apart.
  lemma AsciiKeepsDocuments<N>(a: Json<N>, b: Json<N>, spell: N -> string)
    requires Spellable(a, spell) && Spellable(b, spell)
    ensures Ascii(Stringify(a, spell)) == Ascii(Stringify(b, spell)) <==> Stringify(a, spell) == Stringify(b, spell)
  {
    DocumentReturns(a, spell);
    DocumentReturns(b, spell);
    var (s, t) := (Stringify(a, spell), Stringify(b, spell));
    assert Plain(Ascii(s) + "") == s + Plain("") && Plain(Ascii(t) + "") == t + Plain("");
    assert s + "" == s && t + "" == t;
  }
}
