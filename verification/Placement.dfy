// Deterministic host placement: hard constraints decide who is eligible, requested
// preferences rank the eligible, and the host id breaks ties.
module Placement {
  import opened Text
  import JsNumbers

  // A load average: a finite float.
  type Load = f: JsNumbers.Float | !f.NonFinite? witness JsNumbers.Zero(false)

  // A validated host snapshot.
  datatype Host = Host(
    id: string, snapshotId: string, platform: string, architecture: string, totalMemory: int, availableMemory: int,
    load: Load, connectivity: string, verified: set<string>, missing: set<string>, observedAt: string)

  datatype Requirements = Requirements(
    platform: Option<string>, architecture: Option<string>, minTotalMemory: int, capabilities: set<string>)

  datatype Criterion = HostOrder | MoreMemory | LowerLoad

  datatype Preferences = Preferences(criteria: seq<Criterion>, preferred: seq<string>)

  datatype Request = Request(id: string, requirements: Requirements, preferences: Preferences)

  // ---- Hard constraints --------------------------------------------------------------

  datatype Failure = Connectivity | WrongPlatform | WrongArchitecture | Memory | Capability(name: string)

  predicate Lacks(h: Host, capability: string) { capability !in h.verified || capability in h.missing }

  function CapabilityFailures(names: seq<string>, h: Host): (r: seq<Failure>)
    ensures forall f :: f in r <==> f.Capability? && f.name in names && Lacks(h, f.name)
  {
    if names == [] then []
    else CapabilityFailures(names[..|names| - 1], h) + (if Lacks(h, names[|names| - 1]) then [Capability(names[|names| - 1])] else [])
  }

  function Note(fs: seq<Failure>, bad: bool, f: Failure): seq<Failure> { if bad then fs + [f] else fs }

  function FixedFailures(r: Requirements, h: Host): seq<Failure> {
    var connectivity := Note([], h.connectivity != "LOCAL_OBSERVED", Connectivity);
    var platform := Note(connectivity, r.platform.Some? && h.platform != r.platform.value, WrongPlatform);
    var architecture := Note(platform, r.architecture.Some? && h.architecture != r.architecture.value, WrongArchitecture);
    Note(architecture, h.totalMemory < r.minTotalMemory, Memory)
  }

  function Failures(r: Requirements, h: Host): seq<Failure> {
    FixedFailures(r, h) + CapabilityFailures(Sorted(r.capabilities), h)
  }

  predicate Eligible(r: Requirements, h: Host) {
    && h.connectivity == "LOCAL_OBSERVED"
    && (r.platform.Some? ==> h.platform == r.platform.value)
    && (r.architecture.Some? ==> h.architecture == r.architecture.value)
    && h.totalMemory >= r.minTotalMemory
    && r.capabilities <= h.verified && r.capabilities !! h.missing
  }

  // A host passes exactly when no failure is listed.
  lemma EligibleIffNoFailure(r: Requirements, h: Host)
    ensures Eligible(r, h) <==> Failures(r, h) == []
  {
    var fs := CapabilityFailures(Sorted(r.capabilities), h);
    if fs == [] {
      forall c | c in r.capabilities ensures !Lacks(h, c) { assert c in Sorted(r.capabilities) && Capability(c) !in fs; }
    } else {
      assert fs[0] in fs;
    }
  }

  lemma NoNames(h: Host)
    ensures CapabilityFailures([], h) == []
  {
  }

  lemma CapabilityStep(fixed: seq<Failure>, names: seq<string>, i: nat, h: Host)
    requires i < |names|
    ensures fixed + CapabilityFailures(names[..i + 1], h)
      == Note(fixed + CapabilityFailures(names[..i], h), Lacks(h, names[i]), Capability(names[i]))
  {
    assert names[..i + 1][..i] == names[..i];
  }

  // `_hard_constraint_failures`
  method HardConstraintFailures(r: Requirements, h: Host) returns (failures: seq<Failure>)
    ensures failures == Failures(r, h)
  {
    hide CapabilityFailures;
    failures := [];
    if h.connectivity != "LOCAL_OBSERVED" { failures := failures + [Connectivity]; }
    if r.platform.Some? && h.platform != r.platform.value { failures := failures + [WrongPlatform]; }
    if r.architecture.Some? && h.architecture != r.architecture.value { failures := failures + [WrongArchitecture]; }
    if h.totalMemory < r.minTotalMemory { failures := failures + [Memory]; }
    var names := Sorted(r.capabilities);
    assert failures == FixedFailures(r, h);
    NoNames(h);
    for i := 0 to |names|
      invariant failures == FixedFailures(r, h) + CapabilityFailures(names[..i], h)
    {
      CapabilityStep(FixedFailures(r, h), names, i, h);
      if names[i] !in h.verified || names[i] in h.missing { failures := failures + [Capability(names[i])]; }
    }
    assert names[..|names|] == names;
  }

  // ---- Preferences -----------------------------------------------------------------------

  // One place of a score: whole numbers for order and memory, a negated load otherwise.
  datatype Rank = Whole(n: int) | Negated(load: Load)

  function Amount(r: Rank): real {
    match r case Whole(n) => n as real case Negated(l) => -JsNumbers.Value(JsNumbers.Float(l))
  }

  function Position(ids: seq<string>, id: string): (i: nat)
    ensures i <= |ids| && (i < |ids| ==> ids[i] == id) && forall j | 0 <= j < i :: ids[j] != id
  {
    if ids == [] || ids[0] == id then 0 else 1 + Position(ids[1..], id)
  }

  function RankBy(c: Criterion, p: Preferences, h: Host): Rank {
    match c
    case HostOrder => Whole(|p.preferred| - Position(p.preferred, h.id))
    case MoreMemory => Whole(h.availableMemory)
    case LowerLoad => Negated(h.load)
  }

  function Score(p: Preferences, h: Host): (r: seq<Rank>)
    ensures |r| == |p.criteria| && forall i | 0 <= i < |r| :: r[i] == RankBy(p.criteria[i], p, h)
  {
    seq(|p.criteria|, i requires 0 <= i < |p.criteria| => RankBy(p.criteria[i], p, h))
  }

  // `_preference_score`
  method PreferenceScore(p: Preferences, h: Host) returns (score: seq<Rank>)
    ensures score == Score(p, h)
  {
    score := [];
    for i := 0 to |p.criteria|
      invariant |score| == i && forall j | 0 <= j < i :: score[j] == RankBy(p.criteria[j], p, h)
    {
      match p.criteria[i]
      case HostOrder =>
        var index := 0;
        while index < |p.preferred| && p.preferred[index] != h.id
          invariant index <= |p.preferred| && forall j | 0 <= j < index :: p.preferred[j] != h.id
        {
          index := index + 1;
        }
        score := score + [if index == |p.preferred| then Whole(0) else Whole(|p.preferred| - index)];
      case MoreMemory => score := score + [Whole(h.availableMemory)];
      case LowerLoad => score := score + [Negated(h.load)];
    }
  }

  // Python's comparison of two scores of one length: the first difference decides.
  predicate Below(a: seq<Rank>, b: seq<Rank>)
    requires |a| == |b|
  {
    a != [] && (Amount(a[0]) < Amount(b[0]) || (Amount(a[0]) == Amount(b[0]) && Below(a[1..], b[1..])))
  }

  lemma {:induction false} BelowTransitive(a: seq<Rank>, b: seq<Rank>, c: seq<Rank>)
    requires |a| == |b| == |c|
    ensures Below(a, b) && Below(b, c) ==> Below(a, c)
    ensures !Below(a, b) && !Below(b, c) ==> !Below(a, c)
    ensures !Below(a, a) && !(Below(a, b) && Below(b, a))
  {
    if a != [] { BelowTransitive(a[1..], b[1..], c[1..]); }
  }

  // ---- Selection --------------------------------------------------------------------------

  predicate DistinctIds(hosts: seq<Host>) { forall i, j | 0 <= i < j < |hosts| :: hosts[i].id != hosts[j].id }

  function Ids(hosts: seq<Host>): set<string> { set h | h in hosts :: h.id }

  function HostOf(hosts: seq<Host>, id: string): (h: Host)
    requires id in Ids(hosts)
    ensures h in hosts && h.id == id
  {
    if hosts[0].id == id then hosts[0] else HostOf(hosts[1..], id)
  }

  function EligibleIds(r: Requirements, hosts: seq<Host>): set<string> { set h | h in hosts && Failures(r, h) == [] :: h.id }

  // `max(ordered, key=score)`: the first of the hosts that no host scores above.
  function BestOf(p: Preferences, hosts: seq<Host>, ids: seq<string>): (h: Host)
    requires ids != [] && forall id | id in ids :: id in Ids(hosts)
    ensures h.id in ids && h.id in Ids(hosts) && h == HostOf(hosts, h.id)
  {
    var last := HostOf(hosts, ids[|ids| - 1]);
    if |ids| == 1 then last
    else
      var best := BestOf(p, hosts, ids[..|ids| - 1]);
      if Below(Score(p, best), Score(p, last)) then last else best
  }

  datatype Detail =
    | InventorySize(n: nat) | HardConstraintsPass | SoleSelection | EligibleHosts(n: nat)
    | Ineligible(id: string, failures: seq<Failure>) | CriteriaAre(criteria: seq<Criterion>)
    | PreferencesAre(preferences: Preferences) | ScoreOf(id: string, score: seq<Rank>) | TieBreakById | Selection(id: string)

  datatype Reason = SoleEligible | SoleEligibleAfterFilter | SoftPreferenceScore | DeterministicTieBreak

  datatype Core = Core(
    requestId: string, requirements: Requirements, hostId: string, snapshotId: string, reason: Reason, details: seq<Detail>)

  const DECISION_SCHEMA := "nexus.runtime.placement_decision.v1"

  datatype Decision = Decision(schema: string, id: string, core: Core, plannerAuthority: bool)

  datatype PlacementError =
    | InventoryEmpty | DuplicateHost | HardConstraintsFailed(failures: seq<Failure>) | NoEligibleHost(all: seq<Detail>)

  // The hosts that failed, by id, with why.
  function Rejections(r: Requirements, hosts: seq<Host>, ids: seq<string>): seq<Detail>
    requires forall id | id in ids :: id in Ids(hosts)
  {
    if ids == [] then []
    else
      var front := Rejections(r, hosts, ids[..|ids| - 1]);
      var h := HostOf(hosts, ids[|ids| - 1]);
      if Failures(r, h) == [] then front else front + [Ineligible(h.id, Failures(r, h))]
  }

  function Scores(p: Preferences, hosts: seq<Host>, ids: seq<string>): seq<Detail>
    requires forall id | id in ids :: id in Ids(hosts)
  {
    seq(|ids|, i requires 0 <= i < |ids| => ScoreOf(ids[i], Score(p, HostOf(hosts, ids[i]))))
  }

  lemma EligibleAmong(r: Requirements, hosts: seq<Host>)
    ensures EligibleIds(r, hosts) <= Ids(hosts)
    ensures forall id | id in Sorted(EligibleIds(r, hosts)) :: id in Ids(hosts)
  {
  }

  // `_evaluate`, with the digest that names a decision.
  function Evaluate(q: Request, hosts: seq<Host>, digest: Core -> string): Result<(Decision, Host), PlacementError> {
    if hosts == [] then Err(InventoryEmpty)
    else if !DistinctIds(hosts) then Err(DuplicateHost)
    else
      var (r, p, all) := (q.requirements, q.preferences, Sorted(Ids(hosts)));
      var eligible := Sorted(EligibleIds(r, hosts));
      EligibleAmong(r, hosts);
      if eligible == [] then
        Err(if |hosts| == 1 then HardConstraintsFailed(Failures(r, hosts[0])) else NoEligibleHost(Rejections(r, hosts, all)))
      else
        var h := BestOf(p, hosts, eligible);
        var core := Core(q.id, r, h.id, h.snapshotId, ReasonFor(p, |hosts|, |eligible|), DetailsFor(q, hosts, eligible, h));
        Ok((Decision(DECISION_SCHEMA, digest(core), core, false), h))
  }

  function ReasonFor(p: Preferences, inventory: nat, eligible: nat): Reason {
    if eligible == 1 then if inventory == 1 then SoleEligible else SoleEligibleAfterFilter
    else if p.criteria != [] then SoftPreferenceScore else DeterministicTieBreak
  }

  function Ranking(p: Preferences, hosts: seq<Host>, eligible: seq<string>, h: Host): seq<Detail>
    requires forall id | id in eligible :: id in Ids(hosts)
  {
    [CriteriaAre(p.criteria), PreferencesAre(p)] + Scores(p, hosts, eligible) + [TieBreakById, Selection(h.id)]
  }

  function DetailsFor(q: Request, hosts: seq<Host>, eligible: seq<string>, h: Host): seq<Detail>
    requires forall id | id in eligible :: id in Ids(hosts)
  {
    var rejected := Rejections(q.requirements, hosts, Sorted(Ids(hosts)));
    if |eligible| == 1 && |hosts| == 1 then [InventorySize(1), HardConstraintsPass, SoleSelection]
    else if |eligible| == 1 then
      [InventorySize(|hosts|), EligibleHosts(1), HardConstraintsPass] + rejected + [PreferencesAre(q.preferences), Selection(h.id)]
    else [InventorySize(|hosts|), EligibleHosts(|eligible|)] + rejected + Ranking(q.preferences, hosts, eligible, h)
  }

  // ---- The choice is the best eligible host ------------------------------------------------

  // No host among `ids` beats `h`: each scores below it, or equal with a later id.
  ghost predicate BestAmong(p: Preferences, hosts: seq<Host>, ids: seq<string>, h: Host)
    requires forall id | id in ids :: id in Ids(hosts)
  {
    forall id | id in ids && id != h.id ::
      Outranks(p, h, HostOf(hosts, id))
  }

  ghost predicate Outranks(p: Preferences, h: Host, other: Host) {
    || Below(Score(p, other), Score(p, h))
    || (!Below(Score(p, h), Score(p, other)) && Less(h.id, other.id))
  }

  lemma StillOutranked(p: Preferences, best: Host, last: Host, other: Host)
    requires Below(Score(p, best), Score(p, last)) && (other == best || Outranks(p, best, other))
    ensures Outranks(p, last, other)
  {
    hide Score;
    var (a, b, c) := (Score(p, other), Score(p, best), Score(p, last));
    BelowTransitive(a, b, c);
    BelowTransitive(b, a, c);
  }

  lemma {:induction false} BestOfIsBest(p: Preferences, hosts: seq<Host>, ids: seq<string>)
    requires ids != [] && Increasing(ids) && forall id | id in ids :: id in Ids(hosts)
    ensures BestAmong(p, hosts, ids, BestOf(p, hosts, ids))
  {
    hide Score, Ids, Less, Below, HostOf;
    var h := BestOf(p, hosts, ids);
    if |ids| > 1 {
      var (front, last) := (ids[..|ids| - 1], HostOf(hosts, ids[|ids| - 1]));
      var best := BestOf(p, hosts, front);
      BestOfIsBest(p, hosts, front);
      forall id | id in ids && id != h.id ensures Outranks(p, h, HostOf(hosts, id)) {
        if id in front {
          if Below(Score(p, best), Score(p, last)) {
            assert id != best.id ==> Outranks(p, best, HostOf(hosts, id));
            StillOutranked(p, best, last, HostOf(hosts, id));
          }
        } else {
          assert id == last.id;
          var i :| 0 <= i < |front| && front[i] == best.id;
          assert ids[i] == best.id && Less(ids[i], ids[|ids| - 1]);
        }
      }
    }
  }
}
