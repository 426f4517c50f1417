// The key-sorted, whitespace-free JSON spelling that every digest is taken over,
// and a parser that undoes it. A value is generic in its numbers: the program
// spells the same values with JavaScript numbers (`_devspace_json_stringify`)
// and with Python numbers (`json.dumps`).
module CanonicalJson {
  import opened Text

  // A decoded JSON document. An object is a map: key order carries no meaning.
  datatype Json<N> =
    | Null
    | Bool(b: bool)
    | Num(n: N)
    | Str(s: string)
    | Arr(items: seq<Json<N>>)
    | Obj(fields: map<string, Json<N>>)

  // The same document with every number `n` replaced by `f(n)`.
  function MapNumbers<A, B>(v: Json<A>, f: A -> B): (r: Json<B>) {
    match v
    case Null => Null
    case Bool(b) => Bool(b)
    case Num(n) => Num(f(n))
    case Str(s) => Str(s)
    case Arr(items) => Arr(seq(|items|, i requires 0 <= i < |items| => MapNumbers(items[i], f)))
    case Obj(fields) => Obj(map k | k in fields :: MapNumbers(fields[k], f))
  }

  // ---- Printer ---------------------------------------------------------------

  const HEX := "0123456789abcdef"

  // Section 7 of RFC 8259: quote, backslash and U+0000..U+001F are escaped.
  function EscapeChar(c: char): (r: string) {
    if c == '\"' then "\\\""
    else if c == '\\' then "\\\\"
    else if c == '\n' then "\\n"
    else if c == '\r' then "\\r"
    else if c == '\t' then "\\t"
    else if c as int == 8 then "\\b"
    else if c as int == 12 then "\\f"
    else if c as int < 32 then "\\u00" + [HEX[c as int / 16], HEX[c as int % 16]]
    else [c]
  }

  function Escape(s: string): string {
    if s == "" then "" else EscapeChar(s[0]) + Escape(s[1..])
  }

  function Quote(s: string): string { "\"" + Escape(s) + "\"" }

  function Stringify<N>(v: Json<N>, spell: N -> string): string
    decreases v, 1
  {
    match v
    case Null => "null"
    case Bool(b) => if b then "true" else "false"
    case Num(n) => spell(n)
    case Str(s) => Quote(s)
    case Arr(items) => "[" + StringifyItems(v, 0, spell) + "]"
    case Obj(fields) => "{" + StringifyMembers(v, Sorted(fields.Keys), spell) + "}"
  }

  function StringifyItems<N>(v: Json<N>, i: nat, spell: N -> string): string
    requires v.Arr? && i <= |v.items|
    decreases v, 0, |v.items| - i
  {
    if i == |v.items| then ""
    else if i + 1 == |v.items| then Stringify(v.items[i], spell)
    else Stringify(v.items[i], spell) + "," + StringifyItems(v, i + 1, spell)
  }

  function StringifyMembers<N>(v: Json<N>, keys: seq<string>, spell: N -> string): string
    requires v.Obj? && forall k | k in keys :: k in v.fields
    decreases v, 0, |keys|
  {
    if keys == [] then ""
    else if |keys| == 1 then Quote(keys[0]) + ":" + Stringify(v.fields[keys[0]], spell)
    else Quote(keys[0]) + ":" + Stringify(v.fields[keys[0]], spell) + "," + StringifyMembers(v, keys[1..], spell)
  }

  // ---- Parser ----------------------------------------------------------------

  // The characters of numbers; Python writes non-finite ones as `NaN`, `Infinity` and `-Infinity`.
  predicate TokenChar(c: char) { '0' <= c <= '9' || c in "+-.eENaInfity" }

  predicate TokenStart(c: char) { '0' <= c <= '9' || c == '-' || c == 'N' || c == 'I' }

  // What a number's spelling must look like for the parser to find its end.
  ghost predicate IsToken(t: string) {
    t != "" && TokenStart(t[0]) && forall i | 0 <= i < |t| :: TokenChar(t[i])
  }

  ghost predicate Spellable<N>(v: Json<N>, spell: N -> string) {
    match v
    case Num(n) => IsToken(spell(n))
    case Arr(items) => forall i | 0 <= i < |items| :: Spellable(items[i], spell)
    case Obj(fields) => forall k | k in fields :: Spellable(fields[k], spell)
    case _ => true
  }

  function TokenEnd(s: string): (n: nat)
    ensures n <= |s| && forall i | 0 <= i < n :: TokenChar(s[i])
    ensures n < |s| ==> !TokenChar(s[n])
  {
    if s != "" && TokenChar(s[0]) then 1 + TokenEnd(s[1..]) else 0
  }

  function HexValue(c: char): Option<int> {
    if '0' <= c <= '9' then Some(c as int - '0' as int)
    else if 'a' <= c <= 'f' then Some(c as int - 'a' as int + 10)
    else None
  }

  // Text up to the closing quote, and what follows the quote. Section 7 of RFC 8259 allows
  // no bare control characters in it.
  function ParseChars(s: string): (r: Option<(string, string)>)
    ensures r.Some? ==> |r.value.1| < |s|
  {
    if s == "" then None
    else if s[0] == '\"' then Some(("", s[1..]))
    else if s[0] != '\\' then if s[0] as int < 32 then None else Prepend(s[0], ParseChars(s[1..]))
    else if |s| < 2 then None
    else if s[1] == 'u' then
      if |s| < 6 || s[2..4] != "00" then None
      else match (HexValue(s[4]), HexValue(s[5]))
        case (Some(hi), Some(lo)) => Prepend((16 * hi + lo) as char, ParseChars(s[6..]))
        case _ => None
    else match Unescape(s[1])
      case Some(c) => Prepend(c, ParseChars(s[2..]))
      case None => None
  }

  function Prepend(c: char, r: Option<(string, string)>): Option<(string, string)> {
    match r case None => None case Some(p) => Some(([c] + p.0, p.1))
  }

  function Unescape(c: char): Option<char> {
    match c
    case '\"' => Some('\"')
    case '\\' => Some('\\')
    case 'n' => Some('\n')
    case 'r' => Some('\r')
    case 't' => Some('\t')
    case 'b' => Some(8 as char)
    case 'f' => Some(12 as char)
    case _ => None
  }

  // A document read off the front of the text; numbers stay as their tokens.
  function Parse(s: string): (r: Option<(Json<string>, string)>)
    ensures r.Some? ==> |r.value.1| < |s|
    decreases |s|, 1
  {
    if s == "" then None
    else if s[0] == 'n' then if "null" <= s then Some((Null, s[4..])) else None
    else if s[0] == 't' then if "true" <= s then Some((Bool(true), s[4..])) else None
    else if s[0] == 'f' then if "false" <= s then Some((Bool(false), s[5..])) else None
    else if s[0] == '\"' then
      match ParseChars(s[1..]) case None => None case Some(p) => Some((Str(p.0), p.1))
    else if s[0] == '[' then
      if Starts(s[1..], ']') then Some((Arr([]), s[2..]))
      else match ParseItems(s[1..]) case None => None case Some(p) => Some((Arr(p.0), p.1))
    else if s[0] == '{' then
      if Starts(s[1..], '}') then Some((Obj(map[]), s[2..]))
      else match ParseMembers(s[1..]) case None => None case Some(p) => Some((Obj(p.0), p.1))
    else if TokenStart(s[0]) then
      Some((Num(s[..TokenEnd(s)]), s[TokenEnd(s)..]))
    else None
  }

  function ParseItems(s: string): (r: Option<(seq<Json<string>>, string)>)
    ensures r.Some? ==> |r.value.1| < |s|
    decreases |s|, 2
  {
    match Parse(s)
    case None => None
    case Some((v, rest)) =>
      if Starts(rest, ']') then Some(([v], rest[1..]))
      else if Starts(rest, ',') then
        match ParseItems(rest[1..]) case None => None case Some(p) => Some(([v] + p.0, p.1))
      else None
  }

  function ParseMembers(s: string): (r: Option<(map<string, Json<string>>, string)>)
    ensures r.Some? ==> |r.value.1| < |s|
    decreases |s|, 2
  {
    if !(Starts(s, '\"')) then None
    else match ParseChars(s[1..])
      case None => None
      case Some((key, afterKey)) =>
        if !(Starts(afterKey, ':')) then None
        else match Parse(afterKey[1..])
          case None => None
          case Some((v, rest)) =>
            if Starts(rest, '}') then Some((map[key := v], rest[1..]))
            else if Starts(rest, ',') then
              match ParseMembers(rest[1..])
              case None => None
              case Some(p) => Some((map[key := v] + p.0, p.1))
            else None
  }

  // ---- The parser undoes the printer -------------------------------------------

  lemma ParseShortEscape(x: char, tail: string)
    requires Unescape(x).Some?
    ensures ParseChars(['\\', x] + tail) == Prepend(Unescape(x).value, ParseChars(tail))
  {
    var s := ['\\', x] + tail;
    assert s[0] == '\\' && s[1] == x && s[2..] == tail && x != 'u';
    hide Unescape, HexValue, Prepend;
  }

  lemma ParseHexEscape(n: nat, tail: string)
    requires n < 32
    ensures ParseChars("\\u00" + [HEX[n / 16], HEX[n % 16]] + tail) == Prepend(n as char, ParseChars(tail))
  {
    var s := "\\u00" + [HEX[n / 16], HEX[n % 16]] + tail;
    assert s[1] == 'u' && s[2..4] == "00" && s[6..] == tail && s[4] == HEX[n / 16] && s[5] == HEX[n % 16];
    assert HexValue(HEX[n / 16]) == Some(n / 16) && HexValue(HEX[n % 16]) == Some(n % 16);
  }

  lemma ParsePlainChar(c: char, tail: string)
    requires c != '\"' && c != '\\' && c as int >= 32
    ensures ParseChars([c] + tail) == Prepend(c, ParseChars(tail))
  {
    assert ([c] + tail)[1..] == tail;
  }

  lemma EscapeCharShape(c: char)
    ensures var e := EscapeChar(c);
      || (e == [c] && c != '\"' && c != '\\' && c as int >= 32)
      || (|e| == 2 && e[0] == '\\' && Unescape(e[1]) == Some(c))
      || (c as int < 32 && e == "\\u00" + [HEX[c as int / 16], HEX[c as int % 16]])
  {
  }

  lemma ParseEscapedChar(c: char, tail: string)
    ensures ParseChars(EscapeChar(c) + tail) == Prepend(c, ParseChars(tail))
  {
    EscapeCharShape(c);
    var e := EscapeChar(c);
    if e == [c] {
      ParsePlainChar(c, tail);
    } else if |e| == 2 {
      assert e == ['\\', e[1]];
      ParseShortEscape(e[1], tail);
    } else {
      ParseHexEscape(c as int, tail);
    }
  }

  lemma {:induction false} ParseCharsUndoesEscape(s: string, rest: string)
    ensures ParseChars(Escape(s) + "\"" + rest) == Some((s, rest))
  {
    if s == "" {
      assert Escape(s) + "\"" + rest == "\"" + rest;
    } else {
      ParseCharsUndoesEscape(s[1..], rest);
      ParseEscapedChar(s[0], Escape(s[1..]) + "\"" + rest);
      assert Escape(s) + "\"" + rest == EscapeChar(s[0]) + (Escape(s[1..]) + "\"" + rest);
      assert s == [s[0]] + s[1..];
    }
  }

  // What may follow a value inside a document.
  ghost predicate Delimited(rest: string) { rest == "" || !TokenChar(rest[0]) }

  lemma ParseToken(t: string, rest: string)
    requires IsToken(t) && Delimited(rest)
    ensures Parse(t + rest) == Some((Num(t), rest))
  {
    var s := t + rest;
    var n := TokenEnd(s);
    assert n == |s| || !TokenChar(s[n]);
    assert |t| == |s| || !TokenChar(s[|t|]);
    assert n == |t|;
    assert s[..n] == t && s[n..] == rest;
  }

  lemma ParseQuoted(t: string, rest: string)
    ensures Parse(Quote(t) + rest) == Some((Str(t), rest))
  {
    hide ParseChars, Escape, ParseItems, ParseMembers, TokenEnd;
    ParseCharsUndoesEscape(t, rest);
    var s := Quote(t) + rest;
    assert s[1..] == Escape(t) + "\"" + rest && s[0] == '\"';
  }

  lemma ParseItemsThen(v: Json<string>, first: string, tail: string)
    requires Parse(first + tail) == Some((v, tail))
    ensures Starts(tail, ']') ==> ParseItems(first + tail) == Some(([v], tail[1..]))
    ensures Starts(tail, ',') && ParseItems(tail[1..]).Some? ==>
      ParseItems(first + tail) == Some(([v] + ParseItems(tail[1..]).value.0, ParseItems(tail[1..]).value.1))
  {
  }

  // The key of a member, and where its value begins.
  lemma ParseKey(k: string, valueText: string)
    ensures var s := Quote(k) + ":" + valueText;
      && Starts(s, '\"') && ParseChars(s[1..]) == Some((k, ":" + valueText))
      && Starts(":" + valueText, ':') && (":" + valueText)[1..] == valueText
  {
    hide ParseChars, Escape;
    var s := Quote(k) + ":" + valueText;
    assert s[1..] == Escape(k) + "\"" + (":" + valueText);
    ParseCharsUndoesEscape(k, ":" + valueText);
  }

  lemma ParseMembersThen(k: string, v: Json<string>, first: string, tail: string)
    requires Parse(first + tail) == Some((v, tail))
    ensures Starts(tail, '}') ==> ParseMembers(Quote(k) + ":" + (first + tail)) == Some((map[k := v], tail[1..]))
    ensures Starts(tail, ',') && ParseMembers(tail[1..]).Some? ==>
      ParseMembers(Quote(k) + ":" + (first + tail))
        == Some((map[k := v] + ParseMembers(tail[1..]).value.0, ParseMembers(tail[1..]).value.1))
  {
    hide ParseChars, Escape, Quote, Parse;
    ParseKey(k, first + tail);
  }

  lemma StringifyStarts<N>(v: Json<N>, spell: N -> string)
    requires Spellable(v, spell)
    ensures var s := Stringify(v, spell); s != "" && s[0] != ']'
  {
  }

  // Parsing a printed document gives the document back, up to the spelling of its numbers.
  lemma {:induction false} ParseUndoesStringify<N>(v: Json<N>, spell: N -> string, rest: string)
    requires Spellable(v, spell) && Delimited(rest)
    ensures Parse(Stringify(v, spell) + rest) == Some((MapNumbers(v, spell), rest))
    decreases v, 1
  {
    match v
    case Null => assert ("null" + rest)[4..] == rest;
    case Bool(b) =>
      assert ("true" + rest)[4..] == rest && ("false" + rest)[5..] == rest;
    case Num(n) => ParseToken(spell(n), rest);
    case Str(t) => ParseQuoted(t, rest);
    case Arr(items) => ArrayUndone(v, spell, rest);
    case Obj(fields) => ObjectUndone(v, spell, rest);
  }

  lemma {:induction false} ArrayUndone<N>(v: Json<N>, spell: N -> string, rest: string)
    requires v.Arr? && Spellable(v, spell)
    ensures Parse(Stringify(v, spell) + rest) == Some((MapNumbers(v, spell), rest))
    decreases v, 0, |v.items| + 1
  {
    var s := Stringify(v, spell) + rest;
    var body := StringifyItems(v, 0, spell);
    assert s[1..] == body + "]" + rest;
    if v.items == [] {
      assert s[1..] == "]" + rest && s[2..] == rest;
      assert MapNumbers(v, spell).items == [];
    } else {
      StringifyStarts(v.items[0], spell);
      assert body[0] == Stringify(v.items[0], spell)[0] && s[1..][0] == body[0];
      ItemsUndone(v, 0, spell, rest);
      assert MapNumbers(v, spell).items[0..] == MapNumbers(v, spell).items;
    }
  }

  // What follows item `i` in the text of an array.
  function AfterItem<N>(v: Json<N>, i: nat, spell: N -> string, rest: string): (tail: string)
    requires v.Arr? && i < |v.items|
    ensures Delimited(tail)
  {
    if i + 1 == |v.items| then "]" + rest else "," + (StringifyItems(v, i + 1, spell) + "]" + rest)
  }

  lemma ItemsText<N>(v: Json<N>, i: nat, spell: N -> string, rest: string)
    requires v.Arr? && i < |v.items|
    ensures StringifyItems(v, i, spell) + "]" + rest == Stringify(v.items[i], spell) + AfterItem(v, i, spell, rest)
    ensures var tail := AfterItem(v, i, spell, rest);
      if i + 1 == |v.items| then Starts(tail, ']') && tail[1..] == rest
      else Starts(tail, ',') && tail[1..] == StringifyItems(v, i + 1, spell) + "]" + rest
  {
    hide Stringify;
  }

  lemma {:induction false} ItemsUndone<N>(v: Json<N>, i: nat, spell: N -> string, rest: string)
    requires v.Arr? && i < |v.items| && Spellable(v, spell)
    ensures ParseItems(StringifyItems(v, i, spell) + "]" + rest) == Some((MapNumbers(v, spell).items[i..], rest))
    decreases v, 0, |v.items| - i
  {
    hide Parse, ParseItems, Stringify, StringifyItems, AfterItem, Starts, Delimited;
    var (r, tail) := (MapNumbers(v, spell).items, AfterItem(v, i, spell, rest));
    ItemsText(v, i, spell, rest);
    ParseUndoesStringify(v.items[i], spell, tail);
    ParseItemsThen(r[i], Stringify(v.items[i], spell), tail);
    assert r[i..] == [r[i]] + r[i + 1..] && |r| == |v.items|;
    if i + 1 < |v.items| { ItemsUndone(v, i + 1, spell, rest); } else { assert r[i..] == [r[i]]; }
  }

  function Submap<T>(m: map<string, T>, keys: seq<string>): map<string, T>
    requires forall k | k in keys :: k in m
  {
    map k | k in keys :: m[k]
  }

  lemma SubmapSplit<T>(m: map<string, T>, keys: seq<string>)
    requires keys != [] && forall k | k in keys :: k in m
    ensures |keys| == 1 ==> Submap(m, keys) == map[keys[0] := m[keys[0]]]
    ensures Submap(m, keys) == map[keys[0] := m[keys[0]]] + Submap(m, keys[1..])
  {
    assert keys == [keys[0]] + keys[1..];
  }

  lemma SubmapAll<T>(m: map<string, T>)
    ensures Submap(m, Sorted(m.Keys)) == m
    ensures Sorted(m.Keys) == [] ==> m == map[]
  {
    var keys := Sorted(m.Keys);
    assert forall k | k in m.Keys :: k in keys;
  }

  lemma ParseObject(body: string, rest: string)
    ensures Parse("{}" + rest) == Some((Obj(map[]), rest))
    ensures Starts(body, '\"') && ParseMembers(body).Some? ==>
      Parse("{" + body) == Some((Obj(ParseMembers(body).value.0), ParseMembers(body).value.1))
  {
    assert ("{}" + rest)[1..] == "}" + rest && ("{}" + rest)[2..] == rest;
    assert ("{" + body)[1..] == body;
  }

  lemma ObjectText<N>(v: Json<N>, spell: N -> string, rest: string)
    requires v.Obj?
    ensures var keys := Sorted(v.fields.Keys);
      var body := StringifyMembers(v, keys, spell) + "}" + rest;
      && Stringify(v, spell) + rest == "{" + body
      && (keys != [] ==> Starts(body, '\"'))
      && (keys == [] ==> Stringify(v, spell) + rest == "{}" + rest)
  {
    hide StringifyMembers, Sorted;
    var keys := Sorted(v.fields.Keys);
    var members := StringifyMembers(v, keys, spell);
    assert Stringify(v, spell) == "{" + members + "}";
    assert "{" + members + "}" + rest == "{" + (members + "}" + rest);
    if keys != [] { MembersStart(v, keys, spell); } else { NoMembers(v, spell); }
  }

  lemma NoMembers<N>(v: Json<N>, spell: N -> string)
    requires v.Obj?
    ensures StringifyMembers(v, [], spell) == ""
  {
  }

  lemma MembersStart<N>(v: Json<N>, keys: seq<string>, spell: N -> string)
    requires v.Obj? && keys != [] && forall k | k in keys :: k in v.fields
    ensures Starts(StringifyMembers(v, keys, spell), '\"')
  {
    hide Stringify, Escape;
  }

  lemma {:induction false} ObjectUndone<N>(v: Json<N>, spell: N -> string, rest: string)
    requires v.Obj? && Spellable(v, spell)
    ensures Parse(Stringify(v, spell) + rest) == Some((MapNumbers(v, spell), rest))
    decreases v, 0, |v.fields.Keys| + 1
  {
    var keys := Sorted(v.fields.Keys);
    var r := MapNumbers(v, spell).fields;
    assert r.Keys == v.fields.Keys;
    SubmapAll(r);
    var body := StringifyMembers(v, keys, spell) + "}" + rest;
    ParseObject(body, rest);
    ObjectText(v, spell, rest);
    if keys != [] {
      MembersUndone(v, r, keys, spell, rest);
    }
  }

  // What follows the first of `keys` in the text of an object.
  function AfterMember<N>(v: Json<N>, keys: seq<string>, spell: N -> string, rest: string): (tail: string)
    requires v.Obj? && keys != [] && forall k | k in keys :: k in v.fields
    ensures Delimited(tail)
  {
    if |keys| == 1 then "}" + rest else "," + (StringifyMembers(v, keys[1..], spell) + "}" + rest)
  }

  lemma MembersText<N>(v: Json<N>, keys: seq<string>, spell: N -> string, rest: string)
    requires v.Obj? && keys != [] && forall k | k in keys :: k in v.fields
    ensures StringifyMembers(v, keys, spell) + "}" + rest
      == Quote(keys[0]) + ":" + (Stringify(v.fields[keys[0]], spell) + AfterMember(v, keys, spell, rest))
    ensures var tail := AfterMember(v, keys, spell, rest);
      if |keys| == 1 then Starts(tail, '}') && tail[1..] == rest
      else Starts(tail, ',') && tail[1..] == StringifyMembers(v, keys[1..], spell) + "}" + rest
  {
    hide Stringify, Quote;
  }

  lemma {:induction false} MembersUndone<N>(
    v: Json<N>, r: map<string, Json<string>>, keys: seq<string>, spell: N -> string, rest: string)
    requires v.Obj? && Spellable(v, spell) && r == MapNumbers(v, spell).fields
    requires keys != [] && forall k | k in keys :: k in v.fields
    ensures ParseMembers(StringifyMembers(v, keys, spell) + "}" + rest) == Some((Submap(r, keys), rest))
    decreases v, 0, |keys|
  {
    hide Parse, ParseMembers, Stringify, StringifyMembers, AfterMember, Submap, Quote, Starts, Delimited;
    var (k, tail) := (keys[0], AfterMember(v, keys, spell, rest));
    SubmapSplit(r, keys);
    MembersText(v, keys, spell, rest);
    ParseUndoesStringify(v.fields[k], spell, tail);
    ParseMembersThen(k, r[k], Stringify(v.fields[k], spell), tail);
    if |keys| > 1 { MembersUndone(v, r, keys[1..], spell, rest); }
  }

  // Two documents with one text are one document, up to numbers spelled alike.
  lemma SameTextSameTokens<N>(a: Json<N>, b: Json<N>, spell: N -> string)
    requires Spellable(a, spell) && Spellable(b, spell)
    ensures Stringify(a, spell) == Stringify(b, spell) <==> MapNumbers(a, spell) == MapNumbers(b, spell)
  {
    ParseUndoesStringify(a, spell, "");
    ParseUndoesStringify(b, spell, "");
    assert Stringify(a, spell) + "" == Stringify(a, spell) && Stringify(b, spell) + "" == Stringify(b, spell);
    if MapNumbers(a, spell) == MapNumbers(b, spell) {
      TextOfTokens(a, spell);
      TextOfTokens(b, spell);
    }
  }

  // The text depends on the numbers only through their spelling.
  lemma {:induction false} TextOfTokens<N>(v: Json<N>, spell: N -> string)
    ensures Stringify(v, spell) == Stringify(MapNumbers(v, spell), t => t)
    decreases v, 1
  {
    match v
    case Arr(items) => TextOfItems(v, 0, spell);
    case Obj(fields) =>
      assert MapNumbers(v, spell).fields.Keys == fields.Keys;
      TextOfMembers(v, Sorted(fields.Keys), spell);
    case _ =>
  }

  lemma {:induction false} TextOfItems<N>(v: Json<N>, i: nat, spell: N -> string)
    requires v.Arr? && i <= |v.items|
    ensures StringifyItems(v, i, spell) == StringifyItems(MapNumbers(v, spell), i, t => t)
    decreases v, 0, |v.items| - i
  {
    if i < |v.items| {
      TextOfTokens(v.items[i], spell);
      TextOfItems(v, i + 1, spell);
    }
  }

  lemma {:induction false} TextOfMembers<N>(v: Json<N>, keys: seq<string>, spell: N -> string)
    requires v.Obj? && forall k | k in keys :: k in v.fields
    ensures StringifyMembers(v, keys, spell) == StringifyMembers(MapNumbers(v, spell), keys, t => t)
    decreases v, 0, |keys|
  {
    if keys != [] {
      TextOfTokens(v.fields[keys[0]], spell);
      TextOfMembers(v, keys[1..], spell);
    }
  }
}
