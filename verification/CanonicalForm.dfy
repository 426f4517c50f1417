// The canonical text itself: which of the texts that read back as a document is printed.
module CanonicalForm {
  import opened Text
  import opened CanonicalJson
  import opened AsciiText

  // ---- Texts are spelled as shortly as they can be ------------------------------------

  // `t` is the inside of a quoted text that reads as `s`.
  ghost predicate Spelling(t: string, s: string) { ParseChars(t + "\"") == Some((s, "")) }

  // `u` stands for `c` alone.
  predicate OneSpelled(u: string, c: char) {
    || (u == [c] && c != '\"' && c != '\\' && c as int >= 32)
    || (|u| == 2 && u[0] == '\\' && Unescape(u[1]) == Some(c))
    || (|u| == 6 && HexSpelled(u[4], u[5], c) && u[..4] == "\\u00")
  }

  predicate HexSpelled(x: char, y: char, c: char) {
    HexValue(x).Some? && HexValue(y).Some? && c as int == 16 * HexValue(x).value + HexValue(y).value
  }

  lemma PlainStep(t: string, s: string)
    requires Spelling(t, s) && t != "" && t[0] != '\\'
    ensures s != "" && Spelling(t[1..], s[1..]) && OneSpelled(t[..1], s[0])
  {
    hide Unescape, HexValue;
    assert (t + "\"")[1..] == t[1..] + "\"";
    assert t[..1] == [t[0]];
  }

  lemma ShortStep(t: string, s: string)
    requires Spelling(t, s) && |t| >= 2 && t[0] == '\\' && t[1] != 'u'
    ensures s != "" && Spelling(t[2..], s[1..]) && OneSpelled(t[..2], s[0])
  {
    hide Unescape, HexValue;
    assert (t + "\"")[2..] == t[2..] + "\"";
  }

  lemma HexStep(t: string, s: string)
    requires Spelling(t, s) && |t| >= 2 && t[0] == '\\' && t[1] == 'u'
    ensures |t| >= 6 && s != "" && Spelling(t[6..], s[1..]) && OneSpelled(t[..6], s[0])
  {
    hide Unescape, HexValue;
    var u := t + "\"";
    assert |u| >= 6 && u[2..4] == "00";
    NoQuoteDigit();
    assert u[|t|] == '\"';
    assert |t| >= 6;
    assert u[6..] == t[6..] + "\"" && u[4] == t[4] && u[5] == t[5];
    assert t[..6][..4] == "\\u" + t[2..4] && t[2..4] == u[2..4] && t[..6][4] == u[4] && t[..6][5] == u[5];
    HexDigit(u[4]);
    HexDigit(u[5]);
  }

  lemma NoQuoteDigit()
    ensures HexValue('\"') == None
  {
  }

  lemma SpelledSome(t: string, s: string)
    requires Spelling(t, s)
    ensures t == "" <==> s == ""
    ensures !(|t| == 1 && t[0] == '\\')
  {
    var u := t + "\"";
    assert u[|t|] == '\"' && (|u| == 2 ==> u[2..] == "");
  }

  lemma OneShortest(u: string, c: char)
    requires OneSpelled(u, c)
    ensures |EscapeChar(c)| <= |u| && (|EscapeChar(c)| == |u| ==> u == EscapeChar(c))
  {
    if |u| == 2 {
      assert u == [u[0], u[1]];
    } else if |u| == 6 {
      HexOf(u[4], u[5], c);
      assert u == u[..4] + [u[4], u[5]];
    }
  }

  lemma HexOf(x: char, y: char, c: char)
    requires HexSpelled(x, y, c)
    ensures c as int < 256 && HEX[c as int / 16] == x && HEX[c as int % 16] == y
  {
    hide HexValue, EscapeChar, Unescape, OneSpelled;
    HexDigit(x);
    HexDigit(y);
    Sixteens(HexValue(x).value, HexValue(y).value);
  }

  lemma Sixteens(a: int, b: int)
    requires 0 <= a < 16 && 0 <= b < 16
    ensures (16 * a + b) / 16 == a && (16 * a + b) % 16 == b
  {
  }

  lemma HexDigit(x: char)
    ensures HexValue(x).Some? ==> 0 <= HexValue(x).value < 16 && HEX[HexValue(x).value] == x
  {
    var n := x as int;
    if '0' <= x <= '9' {
      assert HEX[..10] == "0123456789";
      assert HEX[n - '0' as int] == HEX[..10][n - '0' as int];
    } else if 'a' <= x <= 'f' {
      assert HEX[10..] == "abcdef";
      assert HEX[n - 'a' as int + 10] == HEX[10..][n - 'a' as int];
    }
  }

  // No other spelling of a text is as short as the one that is printed.
  lemma {:induction false} PrintedShortest(t: string, s: string)
    requires Spelling(t, s)
    ensures |Escape(s)| <= |t| && (|Escape(s)| == |t| ==> t == Escape(s))
    decreases |t|
  {
    hide Spelling, OneSpelled, EscapeChar;
    SpelledSome(t, s);
    if t != "" {
      var n := if t[0] != '\\' then 1 else if t[1] == 'u' then 6 else 2;
      if n == 1 { PlainStep(t, s); } else if n == 6 { HexStep(t, s); } else { ShortStep(t, s); }
      OneShortest(t[..n], s[0]);
      PrintedShortest(t[n..], s[1..]);
      assert t == t[..n] + t[n..];
    }
  }

  lemma PrintedReads(s: string)
    ensures Spelling(Escape(s), s)
  {
    ParseCharsUndoesEscape(s, "");
    assert Escape(s) + "\"" + "" == Escape(s) + "\"";
  }

  // ---- Lists and objects are spelled item by item --------------------------------------

  function Joined(parts: seq<string>): string {
    if parts == [] then "" else if |parts| == 1 then parts[0] else parts[0] + "," + Joined(parts[1..])
  }

  function Entry<N>(v: Json<N>, k: string, spell: N -> string): string
    requires v.Obj? && k in v.fields
  {
    "\"" + Escape(k) + "\":" + Stringify(v.fields[k], spell)
  }

  lemma {:induction false} ItemsJoined<N>(v: Json<N>, i: nat, spell: N -> string, parts: seq<string>)
    requires v.Arr? && i <= |v.items| && |parts| == |v.items| - i
    requires forall j | 0 <= j < |parts| :: parts[j] == Stringify(v.items[i + j], spell)
    ensures StringifyItems(v, i, spell) == Joined(parts)
    decreases |parts|
  {
    hide Stringify;
    if parts != [] { ItemsJoined(v, i + 1, spell, parts[1..]); }
  }

  lemma {:induction false} MembersJoined<N>(v: Json<N>, keys: seq<string>, spell: N -> string, parts: seq<string>)
    requires v.Obj? && (forall k | k in keys :: k in v.fields) && |parts| == |keys|
    requires forall j | 0 <= j < |keys| :: parts[j] == Entry(v, keys[j], spell)
    ensures StringifyMembers(v, keys, spell) == Joined(parts)
  {
    hide Stringify, Escape;
    if keys != [] {
      assert keys[0] in keys && parts[0] == Entry(v, keys[0], spell);
      assert "\"" + Escape(keys[0]) + "\":" == Quote(keys[0]) + ":";
      MembersJoined(v, keys[1..], spell, parts[1..]);
    }
  }

  ghost predicate ItemTexts<N>(v: Json<N>, spell: N -> string, parts: seq<string>) {
    v.Arr? && |parts| == |v.items| && forall j | 0 <= j < |parts| :: parts[j] == Stringify(v.items[j], spell)
  }

  // The members in the order of their names.
  ghost predicate MemberTexts<N>(v: Json<N>, spell: N -> string, keys: seq<string>, parts: seq<string>) {
    && v.Obj? && Increasing(keys) && (forall k :: k in keys <==> k in v.fields) && |parts| == |keys|
    && forall j | 0 <= j < |keys| :: keys[j] in keys && parts[j] == Entry(v, keys[j], spell)
  }

  // A list is printed as its items in order, an object as its members in the order of their
  // names, with nothing but commas between them.
  lemma PrintedInOrder<N>(v: Json<N>, spell: N -> string, keys: seq<string>, parts: seq<string>)
    ensures ItemTexts(v, spell, parts) ==> Stringify(v, spell) == "[" + Joined(parts) + "]"
    ensures MemberTexts(v, spell, keys, parts) ==> Stringify(v, spell) == "{" + Joined(parts) + "}"
  {
    hide StringifyItems, StringifyMembers, Joined, Entry, Sorted;
    if ItemTexts(v, spell, parts) {
      ItemsJoined(v, 0, spell, parts);
    } else if MemberTexts(v, spell, keys, parts) {
      IncreasingUnique(keys, Sorted(v.fields.Keys));
      MembersJoined(v, keys, spell, parts);
    }
  }

  // ---- Only printable ASCII is printed -----------------------------------------------------

  predicate Bare(s: string) { forall i | 0 <= i < |s| :: ' ' <= s[i] }

  predicate Printable(s: string) { forall i | 0 <= i < |s| :: ' ' <= s[i] <= '~' }

  lemma UnitPrintable(n: nat)
    requires n < 0x1_0000
    ensures Printable(Unit(n))
  {
    HexPrintable(n / 4096);
    HexPrintable(n / 256 % 16);
    HexPrintable(n / 16 % 16);
    HexPrintable(n % 16);
  }

  lemma HexPrintable(k: nat)
    requires k < 16
    ensures ' ' <= HEX[k] <= '~'
  {
    HexReads(k);
  }

  lemma AsciiCharPrintable(c: char)
    requires ' ' <= c
    ensures Printable(AsciiChar(c)) && (c <= '~' ==> AsciiChar(c) == [c])
  {
    hide Unit;
    var k := c as int;
    if 127 <= k < 0x1_0000 {
      UnitPrintable(k);
    } else if k >= 0x1_0000 {
      var n := k - 0x1_0000;
      UnitPrintable(0xd800 + n / 1024);
      UnitPrintable(0xdc00 + n % 1024);
    }
  }

  // Escaping leaves printable ASCII as it is, and makes all else printable ASCII.
  lemma {:induction false} AsciiPrintable(s: string)
    requires Bare(s)
    ensures Printable(Ascii(s)) && (Printable(s) ==> Ascii(s) == s)
  {
    hide AsciiChar;
    if s != "" {
      AsciiCharPrintable(s[0]);
      AsciiPrintable(s[1..]);
      assert s == [s[0]] + s[1..];
    }
  }

  lemma {:induction false} EscapeBare(s: string)
    ensures Bare(Escape(s))
  {
    hide EscapeChar;
    if s != "" {
      EscapeCharBare(s[0]);
      EscapeBare(s[1..]);
    }
  }

  lemma EscapeCharBare(c: char)
    ensures Bare(EscapeChar(c))
  {
    if c as int < 32 {
      HexPrintable(c as int / 16);
      HexPrintable(c as int % 16);
    }
  }

  lemma TokenBare(t: string)
    requires IsToken(t)
    ensures Bare(t)
  {
  }

  lemma {:induction false} JoinedBare(parts: seq<string>)
    requires forall i | 0 <= i < |parts| :: Bare(parts[i])
    ensures Bare(Joined(parts))
  {
    if |parts| > 1 { JoinedBare(parts[1..]); }
  }

  lemma EntryBare<N>(v: Json<N>, k: string, spell: N -> string)
    requires v.Obj? && k in v.fields && Bare(Stringify(v.fields[k], spell))
    ensures Bare(Entry(v, k, spell))
  {
    hide Stringify, Escape;
    EscapeBare(k);
  }

  lemma Bracketed(s: string)
    requires Bare(s)
    ensures Bare("[" + s + "]") && Bare("{" + s + "}")
  {
  }

  lemma ListBare<N>(v: Json<N>, spell: N -> string)
    requires v.Arr? && forall i | 0 <= i < |v.items| :: Bare(Stringify(v.items[i], spell))
    ensures Bare(Stringify(v, spell))
  {
    hide Stringify, Joined, Bare;
    var parts := seq(|v.items|, i requires 0 <= i < |v.items| => Stringify(v.items[i], spell));
    PrintedInOrder(v, spell, [], parts);
    JoinedBare(parts);
    Bracketed(Joined(parts));
  }

  lemma ObjectBare<N>(v: Json<N>, spell: N -> string)
    requires v.Obj? && forall k | k in v.fields :: Bare(Stringify(v.fields[k], spell))
    ensures Bare(Stringify(v, spell))
  {
    hide Stringify, Joined, Bare, Entry;
    var keys := Sorted(v.fields.Keys);
    assert forall i | 0 <= i < |keys| :: keys[i] in keys;
    var parts := seq(|keys|, i requires 0 <= i < |keys| => Entry(v, keys[i], spell));
    forall i | 0 <= i < |parts| ensures Bare(parts[i]) { EntryBare(v, keys[i], spell); }
    PrintedInOrder(v, spell, keys, parts);
    JoinedBare(parts);
    Bracketed(Joined(parts));
  }

  lemma QuoteBare(s: string)
    ensures Bare(Quote(s))
  {
    hide Escape;
    EscapeBare(s);
  }

  lemma {:induction false} StringifyBare<N>(v: Json<N>, spell: N -> string)
    requires Spellable(v, spell)
    ensures Bare(Stringify(v, spell))
  {
    hide StringifyItems, StringifyMembers, IsToken, Quote;
    match v
    case Num(n) => TokenBare(spell(n));
    case Str(s) => QuoteBare(s);
    case Arr(items) =>
      forall i | 0 <= i < |items| ensures Bare(Stringify(v.items[i], spell)) { StringifyBare(items[i], spell); }
      ListBare(v, spell);
    case Obj(fields) =>
      forall k | k in fields ensures Bare(Stringify(v.fields[k], spell)) { StringifyBare(fields[k], spell); }
      ObjectBare(v, spell);
    case _ =>
  }
}
