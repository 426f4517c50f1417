// Where the store's files lie, and which of them share a path.
module StorePaths {
  import opened Text
  import opened StoreFiles
  import opened HistoryOrder

  // One file of the store.
  datatype Cell =
    | CurrentOf(task: string, attempt: string)
    | HistoryOf(task: string, attempt: string, revision: nat)
    | HandoffTo(task: string, successor: string)

  // The names on its path, from the root down.
  function Names(c: Cell): (ns: seq<string>)
    ensures |ns| >= 3
  {
    match c
    case CurrentOf(task, attempt) => [task, attempt, "current.json"]
    case HistoryOf(task, attempt, revision) => [task, attempt, "history", FileName(revision)]
    case HandoffTo(task, successor) => [task, "handoffs", successor + ".json"]
  }

  function Joined(names: seq<string>): string
    requires names != []
  {
    if |names| == 1 then names[0] else names[0] + "/" + Joined(names[1..])
  }

  // Below the store's root.
  function Path(c: Cell): string { Joined(Names(c)) }

  predicate Segments(c: Cell) {
    SafeSegment(c.task) && match c case HandoffTo(_, successor) => SafeSegment(successor) case _ => SafeSegment(c.attempt)
  }

  // A name that is one step down wherever it stands.
  predicate PlainName(n: string) { n !in {"", ".", ".."} && '/' !in n && '\\' !in n && '\0' !in n }

  lemma SegmentIsPlain(s: string)
    ensures SafeSegment(s) <==> PlainName(s) && NonBlank(s) && Trimmed(s)
  {
    assert s == "" ==> !NonBlank(s);
  }

  lemma {:induction false} JoinedTells(ps: seq<string>, qs: seq<string>)
    requires ps != [] && qs != [] && Joined(ps) == Joined(qs)
    requires forall i | 0 <= i < |ps| :: '/' !in ps[i]
    requires forall i | 0 <= i < |qs| :: '/' !in qs[i]
    ensures ps == qs
  {
    SlashAt(ps);
    SlashAt(qs);
    if |ps| > 1 && |qs| > 1 {
      var s := Joined(ps);
      assert s[|ps[0]|] == '/' && s[|qs[0]|] == '/';
      assert |ps[0]| == |qs[0]|;
      assert ps[0] == s[..|ps[0]|] == qs[0];
      assert Joined(ps[1..]) == s[|ps[0]| + 1..] == Joined(qs[1..]);
      JoinedTells(ps[1..], qs[1..]);
      assert ps == [ps[0]] + ps[1..] && qs == [qs[0]] + qs[1..];
    }
  }

  // The first slash comes after the first name.
  lemma SlashAt(ps: seq<string>)
    requires ps != [] && '/' !in ps[0]
    ensures var s := Joined(ps);
      if |ps| == 1 then '/' !in s && s == ps[0]
      else (
        && |ps[0]| < |s| && s[|ps[0]|] == '/' && s[..|ps[0]|] == ps[0] && s[|ps[0]| + 1..] == Joined(ps[1..])
        && forall i | 0 <= i < |ps[0]| :: s[i] != '/')
  {
    hide Joined;
    if |ps| > 1 {
      var rest := Joined(ps[1..]);
      assert Joined(ps) == ps[0] + "/" + rest by { JoinedStep(ps); }
    } else {
      JoinedStep(ps);
    }
  }

  lemma JoinedStep(ps: seq<string>)
    requires ps != []
    ensures Joined(ps) == if |ps| == 1 then ps[0] else ps[0] + "/" + Joined(ps[1..])
  {
  }

  lemma FileIsPlain(revision: nat)
    ensures PlainName(FileName(revision))
  {
    hide JsNumbers.NatText;
    var t := Padded(revision);
    assert forall i | 0 <= i < |t| :: '0' <= t[i] <= '9';
    var n := t + ".json";
    assert n[|n| - 1] == 'n';
    assert forall i | 0 <= i < |n| :: n[i] != '/' && n[i] != '\\' && n[i] != '\0';
  }

  lemma SuffixIsPlain(s: string)
    requires PlainName(s)
    ensures PlainName(s + ".json")
  {
    var n := s + ".json";
    assert n[|n| - 1] == 'n';
    assert forall i | 0 <= i < |n| :: n[i] != '/' && n[i] != '\\' && n[i] != '\0';
  }

  // Every path leads straight down, name by name.
  lemma PathsStay(c: Cell)
    requires Segments(c)
    ensures forall i | 0 <= i < |Names(c)| :: PlainName(Names(c)[i])
  {
    hide SafeSegment, FileName;
    SegmentIsPlain(c.task);
    match c
    case CurrentOf(_, attempt) => SegmentIsPlain(attempt);
    case HistoryOf(_, attempt, revision) =>
      SegmentIsPlain(attempt);
      FileIsPlain(revision);
    case HandoffTo(_, successor) =>
      SegmentIsPlain(successor);
      SuffixIsPlain(successor);
  }

  lemma SuffixTells(s: string, t: string)
    requires s + ".json" == t + ".json"
    ensures s == t
  {
    assert s == (s + ".json")[..|s|] && t == (t + ".json")[..|t|];
  }

  ghost predicate Clash(x: Cell, y: Cell) {
    x.CurrentOf? && y.HandoffTo? && x.task == y.task && x.attempt == "handoffs" && y.successor == "current"
  }

  // No two files share a path, but for one pair: the checkpoint of an attempt named
  // "handoffs" and the handoff to an attempt named "current".
  lemma PathsApart(x: Cell, y: Cell)
    requires Segments(x) && Segments(y)
    ensures Path(x) == Path(y) <==> x == y || Clash(x, y) || Clash(y, x)
  {
    hide SafeSegment, FileName, PlainName, Joined;
    if Path(x) == Path(y) {
      PathsStay(x);
      PathsStay(y);
      assert (forall i | 0 <= i < |Names(x)| :: '/' !in Names(x)[i]) && forall i | 0 <= i < |Names(y)| :: '/' !in Names(y)[i] by {
        forall n: string ensures PlainName(n) ==> '/' !in n { NoSlash(n); }
      }
      JoinedTells(Names(x), Names(y));
      NamesTell(x, y);
    }
    if Clash(x, y) || Clash(y, x) { assert "current" + ".json" == "current.json"; }
  }

  lemma NoSlash(n: string)
    ensures PlainName(n) ==> '/' !in n
  {
  }

  lemma NamesTell(x: Cell, y: Cell)
    requires Names(x) == Names(y)
    ensures x == y || Clash(x, y) || Clash(y, x)
  {
    hide FileName;
    var (ns, ms) := (Names(x), Names(y));
    assert |ns| == |ms| && ns[0] == ms[0] && ns[1] == ms[1] && ns[2] == ms[2];
    match (x, y)
    case (HistoryOf(_, _, m), HistoryOf(_, _, n)) =>
      assert ns[3] == ms[3];
      FileNameInjective(m, n);
    case (HandoffTo(_, s), HandoffTo(_, t)) => SuffixTells(s, t);
    case (CurrentOf(_, _), HandoffTo(_, t)) =>
      assert "current.json" == "current" + ".json";
      SuffixTells("current", t);
    case (HandoffTo(_, s), CurrentOf(_, _)) =>
      assert "current.json" == "current" + ".json";
      SuffixTells(s, "current");
    case _ =>
  }
}
