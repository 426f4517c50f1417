// In which order `history()` lists revisions: file names are compared as text, so the
// digits that two revisions both have decide, and at a tie the shorter name comes first.
module HistoryOrder {
  import opened Text
  import opened StoreFiles
  import JsNumbers

  // How many digits a file name spends on its revision.
  function Width(revision: nat): (w: nat)
    ensures w >= 8
  {
    if revision < 100_000_000 then 8 else 1 + Width(revision / 10)
  }

  // The first `w` of those digits.
  function Leading(revision: nat, w: nat): nat
    requires w >= 8
  {
    if Width(revision) <= w then revision else Leading(revision / 10, w)
  }

  // The order of the listing, in numbers.
  predicate Sooner(r: nat, s: nat) {
    var w := if Width(r) < Width(s) then Width(r) else Width(s);
    Leading(r, w) < Leading(s, w) || (Leading(r, w) == Leading(s, w) && Width(r) < Width(s))
  }

  // ---- The digits of a file name -------------------------------------------------------

  lemma PaddedReads(revision: nat)
    ensures JsNumbers.DigitsValue(Padded(revision)) == revision && JsNumbers.AllDigits(Padded(revision))
  {
    hide JsNumbers.Scale, JsNumbers.DigitsValue, JsNumbers.NatText;
    var t := JsNumbers.NatText(revision);
    JsNumbers.DigitsOfNat(revision);
    if |t| < 8 {
      JsNumbers.DigitsAppend(Zeros(8 - |t|), t);
      JsNumbers.DigitsOfZeros(8 - |t|);
      JsNumbers.ScaleZero(|t|);
    }
  }

  lemma Unit8()
    ensures JsNumbers.Scale(1.0, 8) == 100_000_000.0
  {
    assert JsNumbers.Scale(1.0, 3) == 1000.0;
    assert JsNumbers.Scale(1.0, 6) == 1_000_000.0;
  }

  // A revision has more than eight digits from 10^8 on.
  lemma NineDigits(revision: nat)
    ensures |JsNumbers.NatText(revision)| > 8 <==> revision >= 100_000_000
  {
    hide JsNumbers.Scale, JsNumbers.DigitsValue, JsNumbers.NatText;
    var t := JsNumbers.NatText(revision);
    JsNumbers.DigitsOfNat(revision);
    JsNumbers.DigitsBounds(t);
    Unit8();
    if |t| > 8 { JsNumbers.UnitMonotone(8, |t| - 1); } else { JsNumbers.UnitMonotone(|t|, 8); }
  }

  lemma PaddedStep(revision: nat)
    requires revision >= 100_000_000
    ensures var p := Padded(revision); p != "" && p[..|p| - 1] == Padded(revision / 10)
  {
    NineDigits(revision);
    var t := JsNumbers.NatText(revision);
    assert t[..|t| - 1] == JsNumbers.NatText(revision / 10);
  }

  lemma {:induction false} PaddedWidth(revision: nat)
    ensures |Padded(revision)| == Width(revision)
  {
    hide Padded;
    if revision < 100_000_000 {
      ShortWidth(revision);
    } else {
      PaddedStep(revision);
      PaddedWidth(revision / 10);
    }
  }

  lemma ShortWidth(revision: nat)
    requires revision < 100_000_000
    ensures |Padded(revision)| == 8
  {
    NineDigits(revision);
  }

  lemma {:induction false} PaddedPrefix(revision: nat, w: nat)
    requires 8 <= w <= Width(revision)
    ensures |Padded(revision)| >= w && Padded(revision)[..w] == Padded(Leading(revision, w))
    ensures |Padded(Leading(revision, w))| == w
  {
    hide Padded;
    PaddedWidth(revision);
    var p := Padded(revision);
    if w == |p| {
      assert p[..w] == p;
    } else {
      PaddedStep(revision);
      PaddedPrefix(revision / 10, w);
      assert p[..w] == p[..|p| - 1][..w];
    }
  }

  // A file name gives its revision back.
  lemma FileNameInjective(r: nat, s: nat)
    ensures FileName(r) == FileName(s) ==> r == s
  {
    PaddedReads(r);
    PaddedReads(s);
    assert FileName(r)[..|FileName(r)| - 5] == Padded(r) && FileName(s)[..|FileName(s)| - 5] == Padded(s);
  }

  // ---- Digits sort like numbers ----------------------------------------------------------

  // Of digit strings of one length the value decides; at a tie, what follows.
  lemma {:induction false} DigitsOrder(s: string, t: string, u: string, v: string)
    requires JsNumbers.AllDigits(s) && JsNumbers.AllDigits(t) && |s| == |t|
    ensures Less(s + u, t + v) <==>
      var (a, b) := (JsNumbers.DigitsValue(s), JsNumbers.DigitsValue(t)); a < b || (a == b && Less(u, v))
  {
    if s == "" {
      assert s + u == u && t + v == v;
    } else {
      DigitsOrder(s[1..], t[1..], u, v);
      assert (s + u)[1..] == s[1..] + u && (t + v)[1..] == t[1..] + v;
      LeadingDigitDecides(s, t);
      LeadingDigitDecides(t, s);
    }
  }

  lemma LeadingDigitDecides(s: string, t: string)
    requires JsNumbers.AllDigits(s) && JsNumbers.AllDigits(t) && |s| == |t| && s != ""
    ensures s[0] < t[0] ==> JsNumbers.DigitsValue(s) < JsNumbers.DigitsValue(t)
    ensures s[0] == t[0] ==>
      JsNumbers.DigitsValue(s) - JsNumbers.DigitsValue(t) == JsNumbers.DigitsValue(s[1..]) - JsNumbers.DigitsValue(t[1..])
  {
    hide JsNumbers.DigitsValue, JsNumbers.Scale;
    LeadingDigitValue(s);
    LeadingDigitValue(t);
    JsNumbers.DigitsBounds(s[1..]);
    JsNumbers.DigitsBounds(t[1..]);
    if s[0] < t[0] { NextDigitAbove(s[0] as int - '0' as int, t[0] as int - '0' as int, |s| - 1); }
  }

  lemma NextDigitAbove(a: int, b: int, k: nat)
    requires a < b
    ensures JsNumbers.Scale(a as real, k) + JsNumbers.Scale(1.0, k) <= JsNumbers.Scale(b as real, k)
  {
    JsNumbers.ScaleLinear(a as real, 1.0, k);
    JsNumbers.ScaleLinear(b as real, a as real + 1.0, k);
  }

  lemma LeadingDigitValue(s: string)
    requires JsNumbers.AllDigits(s) && s != ""
    ensures JsNumbers.DigitsValue(s) as real
      == JsNumbers.Scale((s[0] as int - '0' as int) as real, |s| - 1) + JsNumbers.DigitsValue(s[1..]) as real
  {
    hide JsNumbers.Scale, JsNumbers.DigitsValue;
    JsNumbers.DigitsAppend([s[0]], s[1..]);
    assert s == [s[0]] + s[1..];
    OneDigitValue(s[0]);
  }

  lemma OneDigitValue(c: char)
    ensures JsNumbers.DigitsValue([c]) == c as int - '0' as int
  {
    assert [c][..0] == "";
  }

  // ---- The order of the listing ------------------------------------------------------------

  // '.' sorts before every digit.
  lemma SuffixOrder(x: string, y: string)
    requires JsNumbers.AllDigits(x) && JsNumbers.AllDigits(y) && (x == "" || y == "")
    ensures Less(x + ".json", y + ".json") <==> x == "" && y != ""
  {
    if x == "" && y == "" { LessTotal(".json", ".json"); }
    assert "" + ".json" == ".json";
  }

  // Any two revisions: one file name comes before the other exactly when `Sooner` says so.
  lemma FileNameOrder(r: nat, s: nat)
    ensures Less(FileName(r), FileName(s)) <==> Sooner(r, s)
  {
    hide Less, Leading, JsNumbers.DigitsValue, Padded;
    var w := if Width(r) < Width(s) then Width(r) else Width(s);
    PaddedWidth(r);
    PaddedWidth(s);
    PaddedPrefix(r, w);
    PaddedPrefix(s, w);
    PaddedReads(r);
    PaddedReads(s);
    PaddedReads(Leading(r, w));
    PaddedReads(Leading(s, w));
    var (p, q) := (Padded(r), Padded(s));
    assert p + ".json" == p[..w] + (p[w..] + ".json") && q + ".json" == q[..w] + (q[w..] + ".json");
    DigitsOrder(p[..w], q[..w], p[w..] + ".json", q[w..] + ".json");
    SuffixOrder(p[w..], q[w..]);
  }

  // Hence revisions of as many digits are listed in order, and all those below 10^8.
  lemma SameWidthInOrder(r: nat, s: nat)
    requires Width(r) == Width(s)
    ensures Less(FileName(r), FileName(s)) <==> r < s
  {
    FileNameOrder(r, s);
    hide Less, FileName;
  }

  // A longer revision is listed after a shorter one exactly when its leading digits are no
  // fewer: 10000000 before 100000000, but 10000001 after it.
  lemma LongerRevision(r: nat, s: nat)
    requires Width(r) < Width(s)
    ensures Less(FileName(r), FileName(s)) <==> r <= Leading(s, Width(r))
    ensures Less(FileName(10_000_000), FileName(100_000_000)) && Less(FileName(100_000_000), FileName(10_000_001))
  {
    FileNameOrder(r, s);
    FileNameOrder(10_000_000, 100_000_000);
    FileNameOrder(100_000_000, 10_000_001);
    hide Less, FileName;
    assert Width(100_000_000) == 9 && Leading(100_000_000, 8) == 10_000_000;
  }

  lemma LastOfEightDigits()
    ensures Sooner(100_000_000, 99_999_999) && !Sooner(99_999_999, 100_000_000)
  {
    assert Width(100_000_000) == 9 && Leading(100_000_000, 8) == 10_000_000;
  }
}
