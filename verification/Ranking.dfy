// Which host a placement chooses, told on the hosts' own fields.
module Ranking {
  import opened Text
  import JsNumbers
  import opened Placement
  import opened PlacementTheorems

  // The list names `a` before it first names `b`, or names `a` only.
  predicate Earlier(ids: seq<string>, a: string, b: string) {
    exists i | 0 <= i < |ids| :: ids[i] == a && b !in ids[..i + 1]
  }

  // By this criterion `g` comes before `h`.
  predicate Prefers(c: Criterion, p: Preferences, g: Host, h: Host) {
    match c
    case HostOrder => Earlier(p.preferred, g.id, h.id)
    case MoreMemory => g.availableMemory > h.availableMemory
    case LowerLoad => JsNumbers.Value(JsNumbers.Float(g.load)) < JsNumbers.Value(JsNumbers.Float(h.load))
  }

  predicate Indifferent(c: Criterion, p: Preferences, g: Host, h: Host) { !Prefers(c, p, g, h) && !Prefers(c, p, h, g) }

  // The first criterion by which the two differ puts `g` before `h`.
  predicate Leads(p: Preferences, g: Host, h: Host) {
    exists i | 0 <= i < |p.criteria| ::
      Prefers(p.criteria[i], p, g, h) && forall j | 0 <= j < i :: Indifferent(p.criteria[j], p, g, h)
  }

  lemma PositionOrder(ids: seq<string>, a: string, b: string)
    ensures Position(ids, a) < Position(ids, b) <==> Earlier(ids, a, b)
  {
    var (m, n) := (Position(ids, a), Position(ids, b));
    if m < n { assert ids[m] == a && b !in ids[..m + 1]; }
    if i :| 0 <= i < |ids| && ids[i] == a && b !in ids[..i + 1] {
      NotNamed(ids, b, i + 1);
      assert m <= i;
    }
  }

  lemma NotNamed(ids: seq<string>, b: string, n: nat)
    requires n <= |ids| && b !in ids[..n]
    ensures Position(ids, b) >= n
  {
    forall k | 0 <= k < n ensures ids[k] != b { assert ids[..n][k] == ids[k]; }
  }

  lemma AmountPrefers(c: Criterion, p: Preferences, g: Host, h: Host)
    ensures Amount(RankBy(c, p, h)) < Amount(RankBy(c, p, g)) <==> Prefers(c, p, g, h)
  {
    PositionOrder(p.preferred, g.id, h.id);
    hide Earlier, Position, JsNumbers.Value;
  }

  lemma AmountIndifferent(c: Criterion, p: Preferences, g: Host, h: Host)
    ensures Amount(RankBy(c, p, h)) == Amount(RankBy(c, p, g)) <==> Indifferent(c, p, g, h)
  {
    hide Amount, RankBy, Prefers;
    AmountPrefers(c, p, g, h);
    AmountPrefers(c, p, h, g);
  }

  // The first difference of two scores decides.
  lemma {:induction false} BelowIff(a: seq<Rank>, b: seq<Rank>)
    requires |a| == |b|
    ensures Below(a, b) <==>
      exists i | 0 <= i < |a| :: Amount(a[i]) < Amount(b[i]) && forall j | 0 <= j < i :: Amount(a[j]) == Amount(b[j])
  {
    hide Amount;
    if a != [] {
      var (c, d) := (a[1..], b[1..]);
      BelowIff(c, d);
      if i :| 0 <= i < |c| && Amount(c[i]) < Amount(d[i]) && forall j | 0 <= j < i :: Amount(c[j]) == Amount(d[j]) {
        if Amount(a[0]) == Amount(b[0]) {
          assert Amount(a[i + 1]) < Amount(b[i + 1]);
          forall j | 0 <= j < i + 1 ensures Amount(a[j]) == Amount(b[j]) { if j > 0 { assert c[j - 1] == a[j] && d[j - 1] == b[j]; } }
        }
      }
      if i :| 0 <= i < |a| && Amount(a[i]) < Amount(b[i]) && forall j | 0 <= j < i :: Amount(a[j]) == Amount(b[j]) {
        if i > 0 {
          assert c[i - 1] == a[i] && d[i - 1] == b[i];
          forall j | 0 <= j < i - 1 ensures Amount(c[j]) == Amount(d[j]) { assert c[j] == a[j + 1] && d[j] == b[j + 1]; }
        }
      }
    }
  }

  lemma BelowLeads(p: Preferences, g: Host, h: Host)
    ensures Below(Score(p, h), Score(p, g)) <==> Leads(p, g, h)
  {
    hide Below, Amount, RankBy, Prefers;
    var (a, b) := (Score(p, h), Score(p, g));
    BelowIff(a, b);
    forall i | 0 <= i < |p.criteria|
      ensures Amount(a[i]) < Amount(b[i]) <==> Prefers(p.criteria[i], p, g, h)
      ensures Amount(a[i]) == Amount(b[i]) <==> Indifferent(p.criteria[i], p, g, h)
    {
      AmountPrefers(p.criteria[i], p, g, h);
      AmountIndifferent(p.criteria[i], p, g, h);
    }
  }

  // Against every other eligible host the one chosen comes first by the first criterion on
  // which the two differ, and where they differ on none, by its id.
  lemma ChosenLeads(q: Request, hosts: seq<Host>, digest: Core -> string, h: Host, g: Host)
    requires Evaluate(q, hosts, digest).Ok? && h == Evaluate(q, hosts, digest).value.1
    requires g in hosts && Eligible(q.requirements, g) && g != h
    ensures h in hosts && Eligible(q.requirements, h)
    ensures Leads(q.preferences, h, g)
      || ((forall c | c in q.preferences.criteria :: Indifferent(c, q.preferences, h, g)) && Less(h.id, g.id))
    ensures !Leads(q.preferences, g, h)
  {
    hide Evaluate, Below, Score, Eligible, Leads, Indifferent, Less;
    var p := q.preferences;
    ChosenIsBest(q, hosts, digest, h, g);
    BelowLeads(p, h, g);
    BelowLeads(p, g, h);
    BelowTransitive(Score(p, g), Score(p, h), Score(p, g));
    if !Leads(p, h, g) { NoneLeads(p, h, g); }
  }

  lemma NoneLeads(p: Preferences, g: Host, h: Host)
    requires !Leads(p, g, h) && !Leads(p, h, g)
    ensures forall c | c in p.criteria :: Indifferent(c, p, g, h)
  {
    hide Prefers;
    forall i | 0 <= i < |p.criteria| ensures Indifferent(p.criteria[i], p, g, h) { NoneLeadsAt(p, g, h, i); }
  }

  lemma {:induction false} NoneLeadsAt(p: Preferences, g: Host, h: Host, i: nat)
    requires !Leads(p, g, h) && !Leads(p, h, g) && i < |p.criteria|
    ensures Indifferent(p.criteria[i], p, g, h)
  {
    hide Prefers;
    forall j | 0 <= j < i ensures Indifferent(p.criteria[j], p, g, h) && Indifferent(p.criteria[j], p, h, g) { NoneLeadsAt(p, g, h, j); }
  }

  // So under one criterion no eligible host is better by it than the one chosen: none has
  // a lower load, none more memory, and none is named earlier.
  lemma ChosenByOne(q: Request, hosts: seq<Host>, digest: Core -> string, h: Host, g: Host)
    requires Evaluate(q, hosts, digest).Ok? && h == Evaluate(q, hosts, digest).value.1
    requires g in hosts && Eligible(q.requirements, g)
    ensures q.preferences.criteria == [LowerLoad] ==>
      JsNumbers.Value(JsNumbers.Float(h.load)) <= JsNumbers.Value(JsNumbers.Float(g.load))
    ensures q.preferences.criteria == [MoreMemory] ==> h.availableMemory >= g.availableMemory
    ensures q.preferences.criteria == [HostOrder] ==> !Earlier(q.preferences.preferred, g.id, h.id)
  {
    hide Evaluate, Eligible, Earlier, JsNumbers.Value;
    if g == h {
      NotEarlier(q.preferences.preferred, h.id);
    } else {
      ChosenLeads(q, hosts, digest, h, g);
      assert |q.preferences.criteria| == 1 ==> (Leads(q.preferences, g, h) <==> Prefers(q.preferences.criteria[0], q.preferences, g, h));
    }
  }

  lemma NotEarlier(ids: seq<string>, a: string)
    ensures !Earlier(ids, a, a)
  {
    forall i | 0 <= i < |ids| && ids[i] == a ensures a in ids[..i + 1] { assert ids[..i + 1][i] == a; }
  }

  // ---- What a host fails, in order --------------------------------------------------------

  // The order in which failures are listed.
  predicate Sooner(a: Failure, b: Failure) {
    match (a, b)
    case (Connectivity, Connectivity) => false
    case (Connectivity, _) => true
    case (WrongPlatform, _) => !b.Connectivity? && !b.WrongPlatform?
    case (WrongArchitecture, _) => b.Memory? || b.Capability?
    case (Memory, _) => b.Capability?
    case (Capability(x), Capability(y)) => Less(x, y)
    case _ => false
  }

  predicate Fails(r: Requirements, h: Host, f: Failure) {
    match f
    case Connectivity => h.connectivity != "LOCAL_OBSERVED"
    case WrongPlatform => r.platform.Some? && r.platform.value != h.platform
    case WrongArchitecture => r.architecture.Some? && r.architecture.value != h.architecture
    case Memory => r.minTotalMemory > h.totalMemory
    case Capability(name) => name in r.capabilities && (name !in h.verified || name in h.missing)
  }

  predicate Listed(fs: seq<Failure>) { forall i, j | 0 <= i < j < |fs| :: Sooner(fs[i], fs[j]) }

  lemma ListedSnoc(fs: seq<Failure>, f: Failure)
    requires Listed(fs) && forall i | 0 <= i < |fs| :: Sooner(fs[i], f)
    ensures Listed(fs + [f])
  {
    hide Sooner;
  }

  lemma {:induction false} NamesListed(names: seq<string>, h: Host)
    requires Increasing(names)
    ensures Listed(CapabilityFailures(names, h))
  {
    hide Less, Listed;
    if names == [] {
      NothingListed();
    } else {
      var (front, last) := (names[..|names| - 1], names[|names| - 1]);
      NamesListed(front, h);
      var fs := CapabilityFailures(front, h);
      forall i | 0 <= i < |fs| ensures Sooner(fs[i], Capability(last)) {
        assert fs[i] in fs;
        var k :| 0 <= k < |front| && front[k] == fs[i].name;
        assert names[k] == front[k];
      }
      ListedSnoc(fs, Capability(last));
      assert fs + [] == fs;
    }
  }

  lemma NothingListed()
    ensures Listed([])
  {
  }

  lemma FixedAre(r: Requirements, h: Host)
    ensures forall f :: f in FixedFailures(r, h) <==> !f.Capability? && Fails(r, h, f)
    ensures Listed(FixedFailures(r, h))
  {
  }

  lemma ListedJoin(fixed: seq<Failure>, names: seq<Failure>)
    requires Listed(fixed) && Listed(names)
    requires (forall f | f in fixed :: !f.Capability?) && forall f | f in names :: f.Capability?
    ensures Listed(fixed + names)
  {
    hide Less;
    var fs := fixed + names;
    forall i, j | 0 <= i < j < |fs| ensures Sooner(fs[i], fs[j]) {
      if j < |fixed| {
        assert Sooner(fixed[i], fixed[j]);
      } else if i >= |fixed| {
        assert Sooner(names[i - |fixed|], names[j - |fixed|]);
      } else {
        assert fixed[i] in fixed && names[j - |fixed|] in names;
      }
    }
  }

  // The failures of a host are exactly the constraints it does not meet, each once, in the
  // listed order: connectivity, platform, architecture, memory, then capabilities by name.
  lemma FailuresAre(r: Requirements, h: Host)
    ensures forall f :: f in Failures(r, h) <==> Fails(r, h, f)
    ensures Listed(Failures(r, h))
  {
    hide Less, CapabilityFailures, Listed, Sooner, FixedFailures;
    var (fixed, names) := (FixedFailures(r, h), CapabilityFailures(Sorted(r.capabilities), h));
    NamesListed(Sorted(r.capabilities), h);
    FixedAre(r, h);
    ListedJoin(fixed, names);
  }
}
