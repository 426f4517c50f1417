// The bytes that decode as UTF-8 are those that some text of scalar values encodes to.
module Utf8Text {
  import opened ContextStore

  // A Unicode scalar value.
  type Scalar = c: nat | c <= 0x10FFFF && !(0xD800 <= c <= 0xDFFF)

  // Section 3 of RFC 3629: the high bits lead, and each byte after carries six more.
  function Encoded(c: Scalar): Bytes {
    if c <= 0x7F then [c]
    else if c <= 0x7FF then [0xC0 + c / 64, Low(c)]
    else if c <= 0xFFFF then [0xE0 + c / 4096, Low(c / 64), Low(c)]
    else [0xF0 + c / 262144, Low(c / 4096), Low(c / 64), Low(c)]
  }

  function Low(c: nat): Byte { 0x80 + c % 64 }

  function EncodedText(cs: seq<Scalar>): Bytes {
    if cs == [] then [] else Encoded(cs[0]) + EncodedText(cs[1..])
  }

  lemma EncodedForm(c: Scalar)
    ensures var e := Encoded(c);
      && (|e| == 1 ==> e[0] <= 0x7F)
      && (|e| == 2 ==> 0xC2 <= e[0] <= 0xDF)
      && (|e| == 3 ==> 0xE0 <= e[0] <= 0xEF && SecondOfThree(e[0], e[1]))
      && (|e| == 4 ==> 0xF0 <= e[0] <= 0xF4 && SecondOfFour(e[0], e[1]))
      && 1 <= |e| <= 4 && Tails(e, |e|)
  {
  }

  lemma LeadOf(c: Scalar, rest: Bytes)
    ensures CharLength(Encoded(c) + rest) == |Encoded(c)|
  {
    hide Encoded;
    var (b, e) := (Encoded(c) + rest, Encoded(c));
    EncodedForm(c);
    assert forall i | 0 <= i < |e| :: b[i] == e[i];
  }

  lemma TextDecodes(cs: seq<Scalar>)
    ensures Utf8(EncodedText(cs))
  {
    if cs != [] {
      var (e, rest) := (Encoded(cs[0]), EncodedText(cs[1..]));
      LeadOf(cs[0], rest);
      TextDecodes(cs[1..]);
      assert (e + rest)[|e|..] == rest;
    }
  }

  lemma TwoBytes(x: nat, y: nat) returns (c: Scalar)
    requires 0xC2 <= x <= 0xDF && 0x80 <= y <= 0xBF
    ensures Encoded(c) == [x, y]
  {
    c := (x - 0xC0) * 64 + (y - 0x80);
  }

  lemma ThreeBytes(x: nat, y: nat, z: nat) returns (c: Scalar)
    requires 0xE0 <= x <= 0xEF && 0x80 <= y <= 0xBF && 0x80 <= z <= 0xBF && SecondOfThree(x, y)
    ensures Encoded(c) == [x, y, z]
  {
    var high := (x - 0xE0) * 64 + (y - 0x80);
    c := high * 64 + (z - 0x80);
    assert c / 64 == high && c / 4096 == x - 0xE0;
  }

  lemma FourBytes(x: nat, y: nat, z: nat, w: nat) returns (c: Scalar)
    requires 0xF0 <= x <= 0xF4 && 0x80 <= y <= 0xBF && 0x80 <= z <= 0xBF && 0x80 <= w <= 0xBF && SecondOfFour(x, y)
    ensures Encoded(c) == [x, y, z, w]
  {
    var top := (x - 0xF0) * 64 + (y - 0x80);
    var high := top * 64 + (z - 0x80);
    c := high * 64 + (w - 0x80);
    assert c / 64 == high && c / 4096 == top && c / 262144 == x - 0xF0;
  }

  lemma FirstCharacter(b: Bytes) returns (c: Scalar)
    requires b != [] && CharLength(b) > 0
    ensures b[..CharLength(b)] == Encoded(c)
  {
    hide Encoded;
    var n := CharLength(b);
    if n == 1 {
      c := b[0];
      OneByte(c);
      assert b[..1] == [b[0]];
    } else if n == 2 {
      c := TwoBytes(b[0], b[1]);
      assert b[..2] == [b[0], b[1]];
    } else if n == 3 {
      c := ThreeBytes(b[0], b[1], b[2]);
      assert b[..3] == [b[0], b[1], b[2]];
    } else {
      c := FourBytes(b[0], b[1], b[2], b[3]);
      assert b[..4] == [b[0], b[1], b[2], b[3]];
    }
  }

  lemma OneByte(c: Scalar)
    requires c <= 0x7F
    ensures Encoded(c) == [c]
  {
  }

  lemma DecodedText(b: Bytes) returns (cs: seq<Scalar>)
    requires Utf8(b)
    ensures EncodedText(cs) == b
  {
    hide Encoded, CharLength;
    if b == [] {
      cs := [];
    } else {
      var n := CharLength(b);
      var c := FirstCharacter(b);
      var rest := DecodedText(b[n..]);
      cs := [c] + rest;
      assert cs[1..] == rest;
      assert b == b[..n] + b[n..];
    }
  }

  // A payload is accepted as UTF-8 exactly when it is the encoding of some text.
  lemma Utf8IffText(b: Bytes)
    ensures Utf8(b) <==> exists cs: seq<Scalar> :: EncodedText(cs) == b
  {
    if Utf8(b) { var cs := DecodedText(b); }
    if cs: seq<Scalar> :| EncodedText(cs) == b { TextDecodes(cs); }
  }

  lemma Sixes(c: nat)
    ensures c == (c / 262144) * 262144 + (c / 4096) % 64 * 4096 + (c / 64) % 64 * 64 + c % 64
    ensures c == (c / 4096) * 4096 + (c / 64) % 64 * 64 + c % 64
    ensures c == (c / 64) * 64 + c % 64
  {
  }

  // The scalar value the bytes of one character spell.
  function Spelled(e: Bytes): int
    requires 1 <= |e| <= 4
  {
    if |e| == 1 then e[0]
    else if |e| == 2 then (e[0] as int - 0xC0) * 64 + (e[1] as int - 0x80)
    else if |e| == 3 then (e[0] as int - 0xE0) * 4096 + (e[1] as int - 0x80) * 64 + (e[2] as int - 0x80)
    else (e[0] as int - 0xF0) * 262144 + (e[1] as int - 0x80) * 4096 + (e[2] as int - 0x80) * 64 + (e[3] as int - 0x80)
  }

  lemma EncodedSpells(c: Scalar)
    ensures 1 <= |Encoded(c)| <= 4 && Spelled(Encoded(c)) == c
  {
    Sixes(c);
  }

  // No two texts share an encoding.
  lemma {:induction false} EncodingTells(cs: seq<Scalar>, ds: seq<Scalar>)
    requires EncodedText(cs) == EncodedText(ds)
    ensures cs == ds
  {
    hide Encoded, Spelled;
    if cs != [] && ds != [] {
      var (e, f) := (Encoded(cs[0]), Encoded(ds[0]));
      LeadOf(cs[0], EncodedText(cs[1..]));
      LeadOf(ds[0], EncodedText(ds[1..]));
      assert e == EncodedText(cs)[..|e|] && f == EncodedText(ds)[..|f|];
      EncodedSpells(cs[0]);
      EncodedSpells(ds[0]);
      assert EncodedText(cs[1..]) == EncodedText(cs)[|e|..] && EncodedText(ds[1..]) == EncodedText(ds)[|f|..];
      EncodingTells(cs[1..], ds[1..]);
    } else {
      EncodedSome(cs);
      EncodedSome(ds);
    }
  }

  lemma EncodedSome(cs: seq<Scalar>)
    ensures EncodedText(cs) == [] <==> cs == []
  {
  }
}
