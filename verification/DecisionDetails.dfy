// The explanation a placement decision carries, entry by entry.
module DecisionDetails {
  import opened Text
  import opened Placement
  import opened PlacementTheorems

  function About(d: Detail): string {
    match d
    case Ineligible(id, _) => id
    case ScoreOf(id, _) => id
    case _ => ""
  }

  // One entry a host, in the order of the host ids.
  predicate ByHost(ds: seq<Detail>) { forall i, j | 0 <= i < j < |ds| :: Less(About(ds[i]), About(ds[j])) }

  // Exactly the hosts that fail, each with all it fails.
  ghost predicate TellsRejected(r: Requirements, hosts: seq<Host>, ds: seq<Detail>) {
    ByHost(ds) && forall d :: d in ds <==> exists g :: g in hosts && !Eligible(r, g) && d == Ineligible(g.id, Failures(r, g))
  }

  // Exactly the hosts that pass, each with its score.
  ghost predicate TellsScored(r: Requirements, p: Preferences, hosts: seq<Host>, ds: seq<Detail>) {
    ByHost(ds) && forall d :: d in ds <==> exists g :: g in hosts && Eligible(r, g) && d == ScoreOf(g.id, Score(p, g))
  }

  ghost predicate Reads(q: Request, hosts: seq<Host>, chosen: string, details: seq<Detail>, rejected: seq<Detail>, scored: seq<Detail>) {
    && TellsRejected(q.requirements, hosts, rejected) && TellsScored(q.requirements, q.preferences, hosts, scored)
    && details ==
       if |hosts| == 1 then [InventorySize(1), HardConstraintsPass, SoleSelection]
       else if |scored| == 1 then
         [InventorySize(|hosts|), EligibleHosts(1), HardConstraintsPass] + rejected + [PreferencesAre(q.preferences), Selection(chosen)]
       else
         [InventorySize(|hosts|), EligibleHosts(|scored|)] + rejected
         + ([CriteriaAre(q.preferences.criteria), PreferencesAre(q.preferences)] + scored + [TieBreakById, Selection(chosen)])
  }

  lemma {:induction false} RejectionsByHostId(r: Requirements, hosts: seq<Host>, ids: seq<string>)
    requires Increasing(ids) && forall id | id in ids :: id in Ids(hosts)
    ensures ByHost(Rejections(r, hosts, ids))
    ensures forall d | d in Rejections(r, hosts, ids) :: About(d) in ids
  {
    hide Failures, HostOf, Ids;
    if ids != [] {
      var (front, last) := (ids[..|ids| - 1], ids[|ids| - 1]);
      RejectionsByHostId(r, hosts, front);
      assert ids == front + [last];
      forall d | d in Rejections(r, hosts, front) ensures Less(About(d), last) {
        var i :| 0 <= i < |front| && front[i] == About(d);
        assert ids[i] == front[i];
      }
    }
  }

  lemma ScoresByHostId(p: Preferences, hosts: seq<Host>, ids: seq<string>)
    requires Increasing(ids) && forall id | id in ids :: id in Ids(hosts)
    ensures ByHost(Scores(p, hosts, ids))
  {
    hide Score, HostOf, Ids;
  }

  lemma RejectedAre(r: Requirements, hosts: seq<Host>)
    requires DistinctIds(hosts)
    ensures TellsRejected(r, hosts, Rejections(r, hosts, Sorted(Ids(hosts))))
  {
    hide Failures, HostOf, Rejections, Eligible, DistinctIds, ByHost;
    var (ids, ds) := (Sorted(Ids(hosts)), Rejections(r, hosts, Sorted(Ids(hosts))));
    RejectionsByHostId(r, hosts, ids);
    forall d ensures d in ds <==> exists g :: g in hosts && !Eligible(r, g) && d == Ineligible(g.id, Failures(r, g)) {
      RejectionsExact(r, hosts, ids, d);
      if d in ds {
        var id :| id in ids && Rejected(r, HostOf(hosts, id), d);
        EligibleIffNoFailure(r, HostOf(hosts, id));
      }
      if g :| g in hosts && !Eligible(r, g) && d == Ineligible(g.id, Failures(r, g)) {
        EligibleIffNoFailure(r, g);
        RejectionsByHost(r, hosts, g, Failures(r, g));
      }
    }
  }

  lemma ScoredAre(r: Requirements, p: Preferences, hosts: seq<Host>)
    requires DistinctIds(hosts)
    requires forall id | id in Sorted(EligibleIds(r, hosts)) :: id in Ids(hosts)
    ensures TellsScored(r, p, hosts, Scores(p, hosts, Sorted(EligibleIds(r, hosts))))
  {
    hide Failures, HostOf, Scores, Eligible, DistinctIds, ByHost, Ids, EligibleIds;
    var ids := Sorted(EligibleIds(r, hosts));
    var ds := Scores(p, hosts, ids);
    ScoresByHostId(p, hosts, ids);
    forall d ensures d in ds <==> exists g :: g in hosts && Eligible(r, g) && d == ScoreOf(g.id, Score(p, g)) {
      if d in ds {
        var id := ScoreNames(p, hosts, ids, d);
        var g := HostOf(hosts, id);
        EligibleIffNoFailure(r, g);
        EligibleHost(r, hosts, g);
        assert g in hosts && Eligible(r, g) && d == ScoreOf(g.id, Score(p, g));
      }
      if g :| g in hosts && Eligible(r, g) && d == ScoreOf(g.id, Score(p, g)) {
        EligibleIffNoFailure(r, g);
        EligibleHost(r, hosts, g);
        ScoredByHost(p, hosts, ids, g, Score(p, g));
      }
    }
  }

  lemma ScoreNames(p: Preferences, hosts: seq<Host>, ids: seq<string>, d: Detail) returns (id: string)
    requires (forall id | id in ids :: id in Ids(hosts)) && d in Scores(p, hosts, ids)
    ensures id in ids && d == ScoreOf(id, Score(p, HostOf(hosts, id)))
  {
    hide Score, HostOf, Ids;
    var i :| 0 <= i < |ids| && Scores(p, hosts, ids)[i] == d;
    id := ids[i];
  }

  lemma DetailsRead(q: Request, hosts: seq<Host>, ids: seq<string>, h: Host)
    requires DistinctIds(hosts) && 0 < |ids| <= |hosts| && ids == Sorted(EligibleIds(q.requirements, hosts))
    requires forall id | id in ids :: id in Ids(hosts)
    ensures Reads(q, hosts, h.id, DetailsFor(q, hosts, ids, h),
                  Rejections(q.requirements, hosts, Sorted(Ids(hosts))), Scores(q.preferences, hosts, ids))
  {
    hide TellsRejected, TellsScored, Rejections, Score, HostOf, Sorted, DistinctIds, EligibleIds, Ids;
    RejectedAre(q.requirements, hosts);
    ScoredAre(q.requirements, q.preferences, hosts);
  }

  // A decision is of the schema, names itself by its own content, claims no authority, answers
  // the request that was made, names a host that meets it, and tells in order who was
  // turned away and why, how the rest scored, and which was taken.
  lemma DecisionReads(q: Request, hosts: seq<Host>, digest: Core -> string)
    requires Evaluate(q, hosts, digest).Ok?
    ensures var (d, h) := Evaluate(q, hosts, digest).value;
      && d == Decision("nexus.runtime.placement_decision.v1", digest(d.core), d.core, false)
      && d.core.requestId == q.id && d.core.requirements == q.requirements
      && h in hosts && Eligible(q.requirements, h) && d.core.hostId == h.id && d.core.snapshotId == h.snapshotId
      && exists rejected, scored :: Reads(q, hosts, h.id, d.core.details, rejected, scored)
  {
    hide Failures, Eligible, HostOf, BestOf, Rejections, Scores, Ids, EligibleIds, DistinctIds, DetailsFor, Reads, ReasonFor;
    var (r, ids) := (q.requirements, Sorted(EligibleIds(q.requirements, hosts)));
    var h := Evaluate(q, hosts, digest).value.1;
    EligibleAmong(r, hosts);
    DecisionShape(q, hosts, digest);
    EligibleCount(r, hosts);
    EligibleHost(r, hosts, h);
    EligibleIffNoFailure(r, h);
    DetailsRead(q, hosts, ids, h);
  }
}
