// What a placement decision depends on, and what it guarantees.
module PlacementTheorems {
  import opened Text
  import opened Placement

  // ---- The chosen host -------------------------------------------------------------

  // What a decision is made of.
  lemma DecisionShape(q: Request, hosts: seq<Host>, digest: Core -> string)
    requires Evaluate(q, hosts, digest).Ok?
    ensures var ids := Sorted(EligibleIds(q.requirements, hosts));
      var (d, h) := Evaluate(q, hosts, digest).value;
      && DistinctIds(hosts) && ids != [] && (forall id | id in ids :: id in Ids(hosts))
      && h == BestOf(q.preferences, hosts, ids) && d.schema == DECISION_SCHEMA && !d.plannerAuthority && d.id == digest(d.core) && d.core.requestId == q.id
      && d.core.requirements == q.requirements && d.core.hostId == h.id && d.core.snapshotId == h.snapshotId
  {
    hide Failures, Ids, EligibleIds, BestOf, DetailsFor, ReasonFor, Rejections, DistinctIds;
    EligibleAmong(q.requirements, hosts);
  }

  // A decision names an eligible host of the inventory, by its own snapshot, that
  // outranks every other eligible host.
  lemma ChosenIsBest(q: Request, hosts: seq<Host>, digest: Core -> string, h: Host, g: Host)
    requires Evaluate(q, hosts, digest).Ok? && h == Evaluate(q, hosts, digest).value.1
    ensures h in hosts && Eligible(q.requirements, h)
    ensures var d := Evaluate(q, hosts, digest).value.0;
      d.core.hostId == h.id && d.core.snapshotId == h.snapshotId && d.core.requestId == q.id && d.id == digest(d.core)
    ensures g in hosts && Eligible(q.requirements, g) && g != h ==> Outranks(q.preferences, h, g)
  {
    hide Evaluate, Outranks, Failures, Eligible, BestOf, DistinctIds, Ids, EligibleIds, HostOf;
    var r := q.requirements;
    var eligible := Sorted(EligibleIds(r, hosts));
    DecisionShape(q, hosts, digest);
    BestOfIsBest(q.preferences, hosts, eligible);
    assert h == HostOf(hosts, h.id) && h.id in eligible;
    EligibleHost(r, hosts, h);
    EligibleIffNoFailure(r, h);
    EligibleIffNoFailure(r, g);
    if g in hosts && Eligible(r, g) && g != h {
      EligibleHost(r, hosts, g);
      if g.id == h.id { OneHostAnId(hosts, g, h); }
      HostOfIs(hosts, g);
      assert g.id in eligible;
    }
  }

  lemma OneHostAnId(hosts: seq<Host>, g: Host, h: Host)
    requires DistinctIds(hosts) && g in hosts && h in hosts && g.id == h.id
    ensures g == h
  {
    var i :| 0 <= i < |hosts| && hosts[i] == g;
    var j :| 0 <= j < |hosts| && hosts[j] == h;
    assert i == j;
  }

  lemma {:induction false} HostOfIs(hosts: seq<Host>, h: Host)
    requires DistinctIds(hosts) && h in hosts
    ensures h.id in Ids(hosts) && HostOf(hosts, h.id) == h
  {
    OneHostAnId(hosts, HostOf(hosts, h.id), h);
  }

  lemma EligibleHost(r: Requirements, hosts: seq<Host>, h: Host)
    requires DistinctIds(hosts) && h in hosts
    ensures h.id in EligibleIds(r, hosts) <==> Failures(r, h) == []
  {
    hide Failures;
    if h.id in EligibleIds(r, hosts) {
      var g :| g in hosts && Failures(r, g) == [] && g.id == h.id;
      OneHostAnId(hosts, g, h);
    }
  }

  // ---- Only the set of hosts matters ------------------------------------------------------

  lemma DistinctSnocIds(front: seq<Host>, last: Host)
    ensures DistinctIds(front + [last]) <==> DistinctIds(front) && last.id !in Ids(front)
    ensures Ids(front + [last]) == Ids(front) + {last.id}
  {
    var all := front + [last];
    assert forall i | 0 <= i < |front| :: all[i] == front[i] && front[i].id in Ids(front);
    assert all[|front|] == last;
    if DistinctIds(all) {
      forall i, j | 0 <= i < j < |front| ensures front[i].id != front[j].id { assert all[i].id != all[j].id; }
      forall h | h in front ensures h.id != last.id {
        var i :| 0 <= i < |front| && front[i] == h;
        assert all[i].id != all[|front|].id;
      }
    }
  }

  lemma {:induction false} DistinctIffCounted(hosts: seq<Host>)
    ensures |Ids(hosts)| <= |hosts| && (DistinctIds(hosts) <==> |Ids(hosts)| == |hosts|)
  {
    if hosts != [] {
      hide DistinctIds, Ids;
      var (front, last) := (hosts[..|hosts| - 1], hosts[|hosts| - 1]);
      DistinctIffCounted(front);
      DistinctSnocIds(front, last);
      assert hosts == front + [last];
    }
  }

  // Two inventories that find the same host under every one of `ids`.
  ghost predicate Agree(a: seq<Host>, b: seq<Host>, ids: seq<string>) {
    forall id | id in ids :: id in Ids(a) && id in Ids(b) && HostOf(a, id) == HostOf(b, id)
  }

  lemma {:induction false} AgreeSameBest(p: Preferences, a: seq<Host>, b: seq<Host>, ids: seq<string>)
    requires ids != [] && Agree(a, b, ids)
    ensures BestOf(p, a, ids) == BestOf(p, b, ids)
  {
    hide Score, HostOf, Ids, Below;
    if |ids| > 1 { AgreeSameBest(p, a, b, ids[..|ids| - 1]); }
  }

  lemma {:induction false} AgreeSameRejections(r: Requirements, a: seq<Host>, b: seq<Host>, ids: seq<string>)
    requires Agree(a, b, ids)
    ensures Rejections(r, a, ids) == Rejections(r, b, ids)
  {
    hide Failures, HostOf, Ids;
    if ids != [] { AgreeSameRejections(r, a, b, ids[..|ids| - 1]); }
  }

  lemma AgreeSameScores(p: Preferences, a: seq<Host>, b: seq<Host>, ids: seq<string>)
    requires Agree(a, b, ids)
    ensures Scores(p, a, ids) == Scores(p, b, ids)
  {
    hide Score, HostOf, Ids;
    assert forall i | 0 <= i < |ids| :: ids[i] in ids;
  }

  lemma PermutedInventory(r: Requirements, a: seq<Host>, b: seq<Host>)
    requires multiset(a) == multiset(b)
    ensures |a| == |b| && (DistinctIds(a) <==> DistinctIds(b))
    ensures Ids(a) == Ids(b) && EligibleIds(r, a) == EligibleIds(r, b)
    ensures forall h :: h in a <==> h in b
  {
    hide Failures;
    assert |a| == |multiset(a)| == |b|;
    forall h ensures h in a <==> h in b { assert h in multiset(a) <==> h in multiset(b); }
    DistinctIffCounted(a);
    DistinctIffCounted(b);
  }

  lemma PermutedAgree(a: seq<Host>, b: seq<Host>, ids: seq<string>)
    requires DistinctIds(a) && DistinctIds(b) && (forall h :: h in a <==> h in b) && forall id | id in ids :: id in Ids(a)
    ensures Agree(a, b, ids)
  {
    forall id | id in ids ensures id in Ids(b) && HostOf(a, id) == HostOf(b, id) {
      HostOfIs(b, HostOf(a, id));
    }
  }

  // The whole outcome, decision or refusal, does not depend on the order of the inventory.
  lemma OrderIndependent(q: Request, a: seq<Host>, b: seq<Host>, digest: Core -> string)
    requires multiset(a) == multiset(b)
    ensures Evaluate(q, a, digest) == Evaluate(q, b, digest)
  {
    hide Failures, HostOf, BestOf, Rejections, Scores, Ids, EligibleIds, Agree;
    var r := q.requirements;
    PermutedInventory(r, a, b);
    if a != [] && DistinctIds(a) {
      EligibleAmong(r, a);
      var (all, eligible) := (Sorted(Ids(a)), Sorted(EligibleIds(r, a)));
      PermutedAgree(a, b, all);
      PermutedAgree(a, b, eligible);
      AgreeSameRejections(r, a, b, all);
      AgreeSameScores(q.preferences, a, b, eligible);
      if eligible != [] { AgreeSameBest(q.preferences, a, b, eligible); }
      if |a| == 1 { assert a[0] in b && a[0] == b[0]; }
    }
  }

  // ---- Ineligible hosts do not matter -----------------------------------------------------

  lemma AppendIneligible(r: Requirements, hosts: seq<Host>, g: Host)
    requires Failures(r, g) != []
    ensures EligibleIds(r, hosts + [g]) == EligibleIds(r, hosts)
  {
    hide Failures;
    forall id | id in EligibleIds(r, hosts + [g]) ensures id in EligibleIds(r, hosts) {
      var h :| h in hosts + [g] && Failures(r, h) == [] && h.id == id;
      assert h in hosts;
    }
    assert forall h | h in hosts :: h in hosts + [g];
  }

  lemma {:induction false} AppendAgrees(hosts: seq<Host>, g: Host, ids: seq<string>)
    requires DistinctIds(hosts) && g.id !in Ids(hosts) && forall id | id in ids :: id in Ids(hosts)
    ensures Agree(hosts, hosts + [g], ids)
  {
    DistinctSnocIds(hosts, g);
    forall id | id in ids ensures id in Ids(hosts + [g]) && HostOf(hosts, id) == HostOf(hosts + [g], id) {
      HostOfIs(hosts + [g], HostOf(hosts, id));
    }
  }

  // A new host that fails a hard constraint changes neither whether there is a choice nor the choice.
  lemma IneligibleHostChangesNothing(q: Request, hosts: seq<Host>, g: Host, digest: Core -> string)
    requires g.id !in Ids(hosts) && !Eligible(q.requirements, g)
    ensures var (before, after) := (Evaluate(q, hosts, digest), Evaluate(q, hosts + [g], digest));
      (before.Ok? <==> after.Ok?) && (before.Ok? ==> after.value.1 == before.value.1)
  {
    EligibleIffNoFailure(q.requirements, g);
    hide Failures, Eligible, HostOf, BestOf, Rejections, Scores, Ids, EligibleIds, Agree, DetailsFor, ReasonFor;
    DistinctSnocIds(hosts, g);
    AppendIneligible(q.requirements, hosts, g);
    EligibleAmong(q.requirements, hosts);
    var eligible := Sorted(EligibleIds(q.requirements, hosts));
    if hosts == [] {
      NobodyEligible(q.requirements);
    } else if DistinctIds(hosts) && eligible != [] {
      AppendAgrees(hosts, g, eligible);
      AgreeSameBest(q.preferences, hosts, hosts + [g], eligible);
    }
  }

  lemma NobodyEligible(r: Requirements)
    ensures EligibleIds(r, []) == {} && Sorted(EligibleIds(r, [])) == []
  {
  }

  // ---- A decision explains itself, and so does a refusal -------------------------------------

  lemma {:induction false} RejectionsExact(r: Requirements, hosts: seq<Host>, ids: seq<string>, detail: Detail)
    requires forall id | id in ids :: id in Ids(hosts)
    ensures detail in Rejections(r, hosts, ids) <==>
      exists id | id in ids :: Rejected(r, HostOf(hosts, id), detail)
  {
    hide Failures, HostOf, Ids, Rejected;
    if ids != [] {
      var (front, last) := (ids[..|ids| - 1], ids[|ids| - 1]);
      RejectionsExact(r, hosts, front, detail);
      assert ids == front + [last];
      LastRejection(r, hosts, ids, detail);
      assert forall id | id in front :: id in ids;
    }
  }

  predicate Rejected(r: Requirements, h: Host, detail: Detail) {
    Failures(r, h) != [] && detail == Ineligible(h.id, Failures(r, h))
  }

  lemma LastRejection(r: Requirements, hosts: seq<Host>, ids: seq<string>, detail: Detail)
    requires ids != [] && forall id | id in ids :: id in Ids(hosts)
    ensures detail in Rejections(r, hosts, ids) <==>
      detail in Rejections(r, hosts, ids[..|ids| - 1]) || Rejected(r, HostOf(hosts, ids[|ids| - 1]), detail)
  {
    hide Failures, Ids;
  }

  lemma RejectionsByHost(r: Requirements, hosts: seq<Host>, g: Host, fs: seq<Failure>)
    requires DistinctIds(hosts) && g in hosts
    ensures Ineligible(g.id, fs) in Rejections(r, hosts, Sorted(Ids(hosts))) <==> Failures(r, g) != [] && fs == Failures(r, g)
  {
    hide Failures, HostOf, Rejections;
    var ids := Sorted(Ids(hosts));
    RejectionsExact(r, hosts, ids, Ineligible(g.id, fs));
    HostOfIs(hosts, g);
    assert g.id in ids;
    if Rejected(r, g, Ineligible(g.id, fs)) { assert Rejected(r, HostOf(hosts, g.id), Ineligible(g.id, fs)); }
  }

  // The details of a decision name exactly each ineligible host, among several, with all it
  // failed, and exactly each eligible host, when there was a ranking, with its score; the
  // reason code tells which of the four cases it was.
  lemma DecisionExplains(q: Request, hosts: seq<Host>, digest: Core -> string, g: Host, fs: seq<Failure>, score: seq<Rank>)
    requires Evaluate(q, hosts, digest).Ok? && g in hosts
    ensures var core := Evaluate(q, hosts, digest).value.0.core;
      var eligible := |EligibleIds(q.requirements, hosts)|;
      && (Ineligible(g.id, fs) in core.details <==>
          |hosts| > 1 && !Eligible(q.requirements, g) && fs == Failures(q.requirements, g))
      && (ScoreOf(g.id, score) in core.details <==>
          eligible > 1 && Eligible(q.requirements, g) && score == Score(q.preferences, g))
      && (core.reason == SoleEligible <==> |hosts| == 1)
      && (core.reason == SoleEligibleAfterFilter <==> |hosts| > 1 && eligible == 1)
      && (core.reason == DeterministicTieBreak <==> eligible > 1 && q.preferences.criteria == [])
  {
    hide Failures, Eligible, HostOf, BestOf, Rejections, Score, Ids, EligibleIds, DistinctIds, DetailsFor;
    var (r, ids) := (q.requirements, Sorted(EligibleIds(q.requirements, hosts)));
    EligibleAmong(r, hosts);
    DecisionShape(q, hosts, digest);
    EligibleIffNoFailure(r, g);
    RejectionsByHost(r, hosts, g, fs);
    EligibleHost(r, hosts, g);
    EligibleCount(r, hosts);
    ScoredByHost(q.preferences, hosts, ids, g, score);
    DetailsShape(q, hosts, ids, Evaluate(q, hosts, digest).value.1, Ineligible(g.id, fs));
    DetailsShape(q, hosts, ids, Evaluate(q, hosts, digest).value.1, ScoreOf(g.id, score));
  }

  lemma ScoredByHost(p: Preferences, hosts: seq<Host>, ids: seq<string>, g: Host, score: seq<Rank>)
    requires (forall id | id in ids :: id in Ids(hosts)) && DistinctIds(hosts) && g in hosts
    ensures ScoreOf(g.id, score) in Scores(p, hosts, ids) <==> g.id in ids && score == Score(p, g)
  {
    hide Score, HostOf, Ids, DistinctIds;
    HostOfIs(hosts, g);
    var all := Scores(p, hosts, ids);
    if ScoreOf(g.id, score) in all {
      var i :| 0 <= i < |all| && all[i] == ScoreOf(g.id, score);
      assert ids[i] == g.id;
    }
    if g.id in ids {
      var i :| 0 <= i < |ids| && ids[i] == g.id;
      assert all[i] == ScoreOf(g.id, Score(p, g));
    }
  }

  lemma EligibleCount(r: Requirements, hosts: seq<Host>)
    requires DistinctIds(hosts)
    ensures |EligibleIds(r, hosts)| <= |hosts|
  {
    hide Failures;
    DistinctIffCounted(hosts);
    assert EligibleIds(r, hosts) <= Ids(hosts);
    SubsetSize(EligibleIds(r, hosts), Ids(hosts));
  }

  lemma InThree<T>(x: T, a: seq<T>, m: seq<T>, z: seq<T>)
    ensures x in a + m + z <==> x in a || x in m || x in z
  {
  }

  lemma RankingShape(p: Preferences, hosts: seq<Host>, ids: seq<string>, h: Host, detail: Detail)
    requires (forall id | id in ids :: id in Ids(hosts)) && (detail.Ineligible? || detail.ScoreOf?)
    ensures detail in Ranking(p, hosts, ids, h) <==> detail in Scores(p, hosts, ids)
    ensures detail.Ineligible? ==> detail !in Scores(p, hosts, ids)
  {
    hide Scores, Ids;
    InThree(detail, [CriteriaAre(p.criteria), PreferencesAre(p)], Scores(p, hosts, ids), [TieBreakById, Selection(h.id)]);
    OnlyScores(p, hosts, ids, detail);
  }

  lemma OnlyScores(p: Preferences, hosts: seq<Host>, ids: seq<string>, detail: Detail)
    requires forall id | id in ids :: id in Ids(hosts)
    ensures detail in Scores(p, hosts, ids) ==> detail.ScoreOf?
  {
    hide Score, Ids, HostOf;
  }

  lemma OnlyRejections(r: Requirements, hosts: seq<Host>, ids: seq<string>, detail: Detail)
    requires forall id | id in ids :: id in Ids(hosts)
    ensures detail in Rejections(r, hosts, ids) ==> detail.Ineligible?
  {
    hide Failures, HostOf, Ids, Rejections;
    RejectionsExact(r, hosts, ids, detail);
  }

  // Where a rejection or a score appears in the details of a placement among `inventory` hosts.
  ghost predicate Appears(detail: Detail, details: seq<Detail>, inventory: nat, ranked: nat, rejected: seq<Detail>, scores: seq<Detail>) {
    detail in details <==>
      if detail.Ineligible? then inventory > 1 && detail in rejected else ranked > 1 && detail in scores
  }

  lemma SoleDetails(q: Request, n: nat, h: Host, detail: Detail, rejected: seq<Detail>, scores: seq<Detail>)
    requires detail.Ineligible? || detail.ScoreOf?
    requires detail in rejected ==> detail.Ineligible?
    ensures Appears(detail, [InventorySize(1), HardConstraintsPass, SoleSelection], 1, 1, rejected, scores)
    ensures n > 1 ==> Appears(detail, [InventorySize(n), EligibleHosts(1), HardConstraintsPass] + rejected
                                        + [PreferencesAre(q.preferences), Selection(h.id)], n, 1, rejected, scores)
  {
    InThree(detail, [InventorySize(n), EligibleHosts(1), HardConstraintsPass], rejected,
            [PreferencesAre(q.preferences), Selection(h.id)]);
  }

  lemma DetailsShape(q: Request, hosts: seq<Host>, ids: seq<string>, h: Host, detail: Detail)
    requires 0 < |ids| <= |hosts| && (forall id | id in ids :: id in Ids(hosts)) && (detail.Ineligible? || detail.ScoreOf?)
    ensures Appears(detail, DetailsFor(q, hosts, ids, h), |hosts|, |ids|,
                    Rejections(q.requirements, hosts, Sorted(Ids(hosts))), Scores(q.preferences, hosts, ids))
  {
    hide Rejections, Ids, Ranking, Scores, Sorted;
    var rejected := Rejections(q.requirements, hosts, Sorted(Ids(hosts)));
    OnlyRejections(q.requirements, hosts, Sorted(Ids(hosts)), detail);
    if |ids| == 1 {
      hide Appears;
      SoleDetails(q, |hosts|, h, detail, rejected, Scores(q.preferences, hosts, ids));
    } else {
      RankingShape(q.preferences, hosts, ids, h, detail);
      InThree(detail, [InventorySize(|hosts|), EligibleHosts(|ids|)], rejected, Ranking(q.preferences, hosts, ids, h));
    }
  }

  // A placement is refused exactly for an empty inventory, a repeated host id, or an
  // inventory of hosts that all fail, each of which the refusal then lists.
  lemma RefusalExplains(q: Request, hosts: seq<Host>, digest: Core -> string)
    ensures match Evaluate(q, hosts, digest)
      case Ok(_) => hosts != [] && DistinctIds(hosts) && exists h | h in hosts :: Eligible(q.requirements, h)
      case Err(InventoryEmpty) => hosts == []
      case Err(DuplicateHost) => hosts != [] && !DistinctIds(hosts)
      case Err(HardConstraintsFailed(fs)) => |hosts| == 1 && fs == Failures(q.requirements, hosts[0]) != []
      case Err(NoEligibleHost(all)) =>
        |hosts| > 1 && DistinctIds(hosts) && forall h | h in hosts :: !Eligible(q.requirements, h) && Ineligible(h.id, Failures(q.requirements, h)) in all
  {
    hide Failures, Eligible, HostOf, BestOf, Rejections, DetailsFor, ReasonFor, DistinctIds;
    var r := q.requirements;
    EligibleAmong(r, hosts);
    if DistinctIds(hosts) {
      forall h | h in hosts
        ensures Eligible(r, h) <==> h.id in EligibleIds(r, hosts)
        ensures Ineligible(h.id, Failures(r, h)) in Rejections(r, hosts, Sorted(Ids(hosts))) <==> !Eligible(r, h)
      {
        EligibleHost(r, hosts, h);
        EligibleIffNoFailure(r, h);
        RejectionsByHost(r, hosts, h, Failures(r, h));
      }
      if hosts != [] { EligibleIffNoFailure(r, hosts[0]); }
    }
  }
}
