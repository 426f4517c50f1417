// Leases on a placement: how long they are fresh, and when they still hold.
module PlacementLeases {
  import opened Text
  import opened Placement
  import opened PlacementTheorems

  // A timestamp: microseconds, and whether it carries an offset. Without one it is local time.
  datatype Moment = Moment(micros: int, aware: bool)

  // `datetime.fromisoformat` and `isoformat(timespec="milliseconds")`.
  datatype Clock = Clock(read: string -> Option<Moment>, write: Moment -> string) {
    ghost predicate Faithful() { forall m: Moment | m.micros % 1000 == 0 :: read(write(m)) == Some(m) }
  }

  const LEASE_SCHEMA := "nexus.runtime.host_placement_lease.v1"

  // What a lease id is a digest of.
  datatype LeaseCore = LeaseCore(
    decisionId: string, requestId: string, requirements: Requirements, hostId: string, snapshotId: string,
    observedAt: string, validUntil: string)

  datatype Lease = Lease(
    schema: string, id: string, core: LeaseCore,
    plannerAuthority: bool, executionAuthority: bool, retryAuthority: bool)

  datatype Digests = Digests(decision: Core -> string, lease: LeaseCore -> string) {
    ghost predicate Injective() {
      && (forall a, b | decision(a) == decision(b) :: a == b)
      && (forall a, b | lease(a) == lease(b) :: a == b)
    }
  }

  function ToMillisecond(micros: int): int { micros / 1000 * 1000 }

  // `_issue_lease`
  function IssueLease(q: Request, d: Decision, h: Host, ttl: int, clock: Clock, digests: Digests): Lease
    requires clock.read(h.observedAt).Some?
  {
    var observed := clock.read(h.observedAt).value;
    var validUntil := clock.write(Moment(ToMillisecond(observed.micros + ttl * 1_000_000), observed.aware));
    var core := LeaseCore(d.id, q.id, q.requirements, h.id, h.snapshotId, h.observedAt, validUntil);
    Lease(LEASE_SCHEMA, digests.lease(core), core, false, false, false)
  }

  datatype LeaseError =
    | BadLeaseSchema | BadDecisionSchema | AuthorityClaimed | RequestMismatch | RequirementsMismatch | DecisionMismatch
    | SelectionMismatch | DecisionIdMismatch | LeaseIdMismatch | UnreadableTimestamps | NaiveTimestamps | EmptyWindow
    | UnsupportedOutcome | NaiveNow | DuplicateHosts

  datatype Prior = NoPrior | TerminalSuccess | TerminalFailure | OutcomeUnknown | OtherOutcome

  datatype Verdict =
    | Current | ReconciliationRequired
    | Expired | HostUnavailable | ConstraintsChanged(failures: seq<Failure>) | SnapshotChanged

  // `_validate_lease_identity`
  function IdentityError(q: Request, d: Decision, l: Lease, clock: Clock, digests: Digests): Option<LeaseError> {
    var (observed, until) := (clock.read(l.core.observedAt), clock.read(l.core.validUntil));
    if l.schema != LEASE_SCHEMA then Some(BadLeaseSchema)
    else if d.schema != DECISION_SCHEMA then Some(BadDecisionSchema)
    else if l.plannerAuthority || l.executionAuthority || l.retryAuthority || d.plannerAuthority then Some(AuthorityClaimed)
    else if d.core.requestId != q.id || l.core.requestId != q.id then Some(RequestMismatch)
    else if d.core.requirements != q.requirements || l.core.requirements != q.requirements then Some(RequirementsMismatch)
    else if l.core.decisionId != d.id then Some(DecisionMismatch)
    else if l.core.hostId != d.core.hostId || l.core.snapshotId != d.core.snapshotId then Some(SelectionMismatch)
    else if d.id != digests.decision(d.core) then Some(DecisionIdMismatch)
    else if l.id != digests.lease(l.core) then Some(LeaseIdMismatch)
    else if observed.None? || until.None? then Some(UnreadableTimestamps)
    else if !observed.value.aware || !until.value.aware then Some(NaiveTimestamps)
    else if until.value.micros <= observed.value.micros then Some(EmptyWindow)
    else None
  }

  // `revalidate_lease`
  function Revalidate(q: Request, d: Decision, l: Lease, hosts: seq<Host>, now: Moment, prior: Prior, clock: Clock, digests: Digests)
    : Result<Verdict, LeaseError>
  {
    match IdentityError(q, d, l, clock, digests)
    case Some(e) => Err(e)
    case None =>
      if prior.OtherOutcome? then Err(UnsupportedOutcome)
      else if !now.aware then Err(NaiveNow)
      else if prior.OutcomeUnknown? then Ok(ReconciliationRequired)
      else if now.micros >= clock.read(l.core.validUntil).value.micros then Ok(Expired)
      else if !DistinctIds(hosts) then Err(DuplicateHosts)
      else if l.core.hostId !in Ids(hosts) then Ok(HostUnavailable)
      else Ok(JudgeHost(q.requirements, HostOf(hosts, l.core.hostId), l))
  }

  function JudgeHost(r: Requirements, h: Host, l: Lease): Verdict {
    if Failures(r, h) != [] then ConstraintsChanged(Failures(r, h))
    else if h.snapshotId != l.core.snapshotId || h.observedAt != l.core.observedAt then SnapshotChanged
    else Current
  }

  // ---- What a lease guarantees --------------------------------------------------------

  // The lease a placement hands out, and the millisecond at which it stops.
  ghost predicate Issued(q: Request, hosts: seq<Host>, d: Decision, h: Host, l: Lease, ttl: int, clock: Clock, digests: Digests) {
    && Evaluate(q, hosts, digests.decision) == Ok((d, h))
    && clock.read(h.observedAt).Some? && ttl >= 1 && clock.Faithful()
    && l == IssueLease(q, d, h, ttl, clock, digests)
  }

  function Deadline(h: Host, ttl: int, clock: Clock): int
    requires clock.read(h.observedAt).Some?
  {
    ToMillisecond(clock.read(h.observedAt).value.micros + ttl * 1_000_000)
  }

  lemma DeadlineAfter(h: Host, ttl: int, clock: Clock)
    requires clock.read(h.observedAt).Some? && ttl >= 1
    ensures var observed := clock.read(h.observedAt).value.micros;
      observed < observed + ttl * 1_000_000 - 1000 < Deadline(h, ttl, clock) <= observed + ttl * 1_000_000
      && Deadline(h, ttl, clock) % 1000 == 0
  {
    var t := clock.read(h.observedAt).value.micros + ttl * 1_000_000;
    assert t / 1000 * 1000 + t % 1000 == t;
    assert ttl * 1_000_000 >= 1_000_000;
    assert (t / 1000 * 1000) % 1000 == 0;
  }

  // What the identity check asks, in one piece.
  ghost predicate Presentable(q: Request, d: Decision, l: Lease, digests: Digests) {
    && l.schema == LEASE_SCHEMA && d.schema == DECISION_SCHEMA
    && !l.plannerAuthority && !l.executionAuthority && !l.retryAuthority && !d.plannerAuthority
    && d.core.requestId == q.id && l.core.requestId == q.id
    && d.core.requirements == q.requirements && l.core.requirements == q.requirements
    && l.core.decisionId == d.id && l.core.hostId == d.core.hostId && l.core.snapshotId == d.core.snapshotId
    && d.id == digests.decision(d.core) && l.id == digests.lease(l.core)
  }

  lemma IdentityIffPresentable(q: Request, d: Decision, l: Lease, clock: Clock, digests: Digests)
    ensures IdentityError(q, d, l, clock, digests) == None ==> Presentable(q, d, l, digests)
    ensures Presentable(q, d, l, digests) ==>
      IdentityError(q, d, l, clock, digests) ==
        var (observed, until) := (clock.read(l.core.observedAt), clock.read(l.core.validUntil));
        if observed.None? || until.None? then Some(UnreadableTimestamps)
        else if !observed.value.aware || !until.value.aware then Some(NaiveTimestamps)
        else if until.value.micros <= observed.value.micros then Some(EmptyWindow)
        else None
  {
  }

  lemma IssuedPresentable(q: Request, hosts: seq<Host>, d: Decision, h: Host, l: Lease, ttl: int, clock: Clock, digests: Digests)
    requires Issued(q, hosts, d, h, l, ttl, clock, digests)
    ensures Presentable(q, d, l, digests) && l.core.hostId == h.id && l.core.snapshotId == h.snapshotId
    ensures l.core.observedAt == h.observedAt
    ensures l.core.validUntil == clock.write(Moment(Deadline(h, ttl, clock), clock.read(h.observedAt).value.aware))
  {
    hide Evaluate, ToMillisecond, EligibleIds, BestOf, DistinctIds, Ids;
    DecisionShape(q, hosts, digests.decision);
  }

  // An issued lease passes the identity check exactly when its snapshot's timestamp had an offset.
  lemma IssuedIdentity(q: Request, hosts: seq<Host>, d: Decision, h: Host, l: Lease, ttl: int, clock: Clock, digests: Digests)
    requires Issued(q, hosts, d, h, l, ttl, clock, digests)
    ensures IdentityError(q, d, l, clock, digests) ==
      if clock.read(h.observedAt).value.aware then None else Some(NaiveTimestamps)
    ensures clock.read(l.core.validUntil) == Some(Moment(Deadline(h, ttl, clock), clock.read(h.observedAt).value.aware))
    ensures l.core.hostId == h.id && l.core.snapshotId == h.snapshotId && l.core.observedAt == h.observedAt
  {
    IssuedPresentable(q, hosts, d, h, l, ttl, clock, digests);
    IdentityIffPresentable(q, d, l, clock, digests);
    hide Evaluate, IdentityError, Presentable, IssueLease, Deadline;
    DeadlineAfter(h, ttl, clock);
  }

  // The lease still holds exactly while the outcome of any earlier operation is known, its
  // time is not up, and the current inventory has one host of that id, still eligible,
  // still showing the very snapshot the lease was issued on.
  lemma CurrentExactlyWhileFresh(
    q: Request, hosts: seq<Host>, d: Decision, h: Host, l: Lease, ttl: int, clock: Clock, digests: Digests,
    later: seq<Host>, now: Moment, prior: Prior)
    requires Issued(q, hosts, d, h, l, ttl, clock, digests)
    ensures Revalidate(q, d, l, later, now, prior, clock, digests) == Ok(Current) <==>
      && clock.read(h.observedAt).value.aware && now.aware && !prior.OtherOutcome? && !prior.OutcomeUnknown?
      && now.micros < Deadline(h, ttl, clock) && DistinctIds(later)
      && exists g | g in later :: g.id == h.id && Eligible(q.requirements, g) && g.snapshotId == h.snapshotId && g.observedAt == h.observedAt
  {
    hide IdentityError, Evaluate, IssueLease, Deadline, JudgeHost, Eligible, HostOf, Ids, DistinctIds;
    IssuedIdentity(q, hosts, d, h, l, ttl, clock, digests);
    if DistinctIds(later) { JudgedCurrent(q.requirements, later, h, l); }
  }

  // In an inventory of distinct ids the host judged is the one of the lease's id.
  lemma JudgedCurrent(r: Requirements, later: seq<Host>, h: Host, l: Lease)
    requires DistinctIds(later) && l.core.hostId == h.id && l.core.snapshotId == h.snapshotId && l.core.observedAt == h.observedAt
    ensures (h.id in Ids(later) && JudgeHost(r, HostOf(later, h.id), l) == Current) <==>
      exists g | g in later :: g.id == h.id && Eligible(r, g) && g.snapshotId == h.snapshotId && g.observedAt == h.observedAt
  {
    hide Failures, Eligible, HostOf, DistinctIds;
    if h.id in Ids(later) { EligibleIffNoFailure(r, HostOf(later, h.id)); }
    forall g | g in later && g.id == h.id ensures h.id in Ids(later) && HostOf(later, h.id) == g { HostOfIs(later, g); }
  }

  // A lease issued on a timestamp without an offset is refused whenever it is presented.
  lemma NaiveLeaseNeverHolds(
    q: Request, hosts: seq<Host>, d: Decision, h: Host, l: Lease, ttl: int, clock: Clock, digests: Digests,
    later: seq<Host>, now: Moment, prior: Prior)
    requires Issued(q, hosts, d, h, l, ttl, clock, digests) && !clock.read(h.observedAt).value.aware
    ensures Revalidate(q, d, l, later, now, prior, clock, digests) == Err(NaiveTimestamps)
  {
    IssuedIdentity(q, hosts, d, h, l, ttl, clock, digests);
    hide Issued, IdentityError, Evaluate, IssueLease;
  }

  // An unknown earlier outcome demands reconciliation, whatever the inventory or the time.
  lemma UnknownOutcomeReconciles(
    q: Request, d: Decision, l: Lease, later: seq<Host>, now: Moment, clock: Clock, digests: Digests)
    ensures var r := Revalidate(q, d, l, later, now, OutcomeUnknown, clock, digests);
      r.Ok? ==> r.value == ReconciliationRequired
  {
    hide IdentityError;
  }

  // Nothing in a lease, or in the decision it rests on, can be changed under its id, or
  // moved to another request: what is judged at all is what was issued.
  lemma JudgedIsIssued(
    q: Request, hosts: seq<Host>, d: Decision, h: Host, l: Lease, ttl: int, clock: Clock, digests: Digests,
    q': Request, d': Decision, l': Lease, later: seq<Host>, now: Moment, prior: Prior)
    requires Issued(q, hosts, d, h, l, ttl, clock, digests) && digests.Injective() && l'.id == l.id
    ensures Revalidate(q', d', l', later, now, prior, clock, digests).Ok? ==>
      l' == l && d' == d && q'.id == q.id && q'.requirements == q.requirements
  {
    IssuedPresentable(q, hosts, d, h, l, ttl, clock, digests);
    IdentityIffPresentable(q', d', l', clock, digests);
    hide Evaluate, IdentityError, Issued, IssueLease, JudgeHost, DistinctIds, Ids, HostOf;
  }

  // Revalidation, too, does not depend on the order of the inventory.
  lemma RevalidationOrderIndependent(
    q: Request, d: Decision, l: Lease, a: seq<Host>, b: seq<Host>, now: Moment, prior: Prior, clock: Clock, digests: Digests)
    requires multiset(a) == multiset(b)
    ensures Revalidate(q, d, l, a, now, prior, clock, digests) == Revalidate(q, d, l, b, now, prior, clock, digests)
  {
    hide IdentityError, JudgeHost, DistinctIds, Ids, HostOf, EligibleIds;
    PermutedInventory(q.requirements, a, b);
    if DistinctIds(a) && l.core.hostId in Ids(a) { PermutedAgree(a, b, [l.core.hostId]); }
    if Agree(a, b, [l.core.hostId]) { assert l.core.hostId in [l.core.hostId]; }
  }

  // ---- Which refusal, which verdict ------------------------------------------------------------

  // The first fault, in this order, is the one reported.
  ghost predicate FirstOf(faults: seq<(bool, LeaseError)>, e: Option<LeaseError>) {
    match e
    case None => forall k | 0 <= k < |faults| :: !faults[k].0
    case Some(error) => exists k: nat :: Reported(faults, k, error)
  }

  predicate Reported(faults: seq<(bool, LeaseError)>, k: nat, error: LeaseError) {
    k < |faults| && faults[k] == (true, error) && forall j | 0 <= j < k :: !faults[j].0
  }

  predicate Readable(l: Lease, clock: Clock) { clock.read(l.core.observedAt).Some? && clock.read(l.core.validUntil).Some? }

  function Faults(q: Request, d: Decision, l: Lease, clock: Clock, digests: Digests): seq<(bool, LeaseError)> {
    var readable := Readable(l, clock);
    [(l.schema != "nexus.runtime.host_placement_lease.v1", BadLeaseSchema),
     (d.schema != "nexus.runtime.placement_decision.v1", BadDecisionSchema),
     (l.plannerAuthority || l.executionAuthority || l.retryAuthority || d.plannerAuthority, AuthorityClaimed),
     (d.core.requestId != q.id || l.core.requestId != q.id, RequestMismatch),
     (d.core.requirements != q.requirements || l.core.requirements != q.requirements, RequirementsMismatch),
     (l.core.decisionId != d.id, DecisionMismatch),
     (l.core.hostId != d.core.hostId || l.core.snapshotId != d.core.snapshotId, SelectionMismatch),
     (d.id != digests.decision(d.core), DecisionIdMismatch),
     (l.id != digests.lease(l.core), LeaseIdMismatch),
     (!readable, UnreadableTimestamps),
     (readable && !(clock.read(l.core.observedAt).value.aware && clock.read(l.core.validUntil).value.aware), NaiveTimestamps),
     (readable && clock.read(l.core.validUntil).value.micros <= clock.read(l.core.observedAt).value.micros, EmptyWindow)]
  }

  lemma LeaseFaultIs(q: Request, d: Decision, l: Lease, clock: Clock, digests: Digests)
    ensures FirstOf(Faults(q, d, l, clock, digests), IdentityError(q, d, l, clock, digests))
  {
    var (fs, e) := (Faults(q, d, l, clock, digests), IdentityError(q, d, l, clock, digests));
    var k :=
      if fs[0].0 then 0 else if fs[1].0 then 1 else if fs[2].0 then 2 else if fs[3].0 then 3 else if fs[4].0 then 4
      else if fs[5].0 then 5 else if fs[6].0 then 6 else if fs[7].0 then 7 else if fs[8].0 then 8 else if fs[9].0 then 9
      else if fs[10].0 then 10 else if fs[11].0 then 11 else 12;
    assert forall j | 0 <= j < k :: !fs[j].0;
    assert k < 12 ==> e == Some(fs[k].1);
    assert k < 12 ==> Reported(fs, k, e.value);
  }

  // What becomes of a lease that passes the identity check, told on the inventory.
  ghost predicate Judged(q: Request, l: Lease, later: seq<Host>, now: Moment, prior: Prior, until: int, r: Result<Verdict, LeaseError>) {
    if prior.OtherOutcome? then r == Err(UnsupportedOutcome)
    else if !now.aware then r == Err(NaiveNow)
    else if prior.OutcomeUnknown? then r == Ok(ReconciliationRequired)
    else if now.micros >= until then r == Ok(Expired)
    else if exists i, j :: 0 <= i < j < |later| && later[i].id == later[j].id then r == Err(DuplicateHosts)
    else if forall g | g in later :: g.id != l.core.hostId then r == Ok(HostUnavailable)
    else exists g :: g in later && g.id == l.core.hostId && r == Ok(HostVerdict(q, l, g))
  }

  function HostVerdict(q: Request, l: Lease, g: Host): Verdict {
    if !Eligible(q.requirements, g) then ConstraintsChanged(Failures(q.requirements, g))
    else if g.snapshotId == l.core.snapshotId && g.observedAt == l.core.observedAt then Current
    else SnapshotChanged
  }

  // A lease is refused with the fault it has; and one without is unknown, expired, without
  // its host, outgrown by the constraints, on a changed snapshot, or current, in that order.
  lemma VerdictIs(q: Request, d: Decision, l: Lease, later: seq<Host>, now: Moment, prior: Prior, clock: Clock, digests: Digests)
    ensures var r := Revalidate(q, d, l, later, now, prior, clock, digests);
      match IdentityError(q, d, l, clock, digests)
      case Some(e) => r == Err(e)
      case None => clock.read(l.core.validUntil).Some? && Judged(q, l, later, now, prior, clock.read(l.core.validUntil).value.micros, r)
  {
    hide Eligible, Failures, HostOf;
    if IdentityError(q, d, l, clock, digests).None? && DistinctIds(later) && l.core.hostId in Ids(later) {
      hide IdentityError;
      var g := HostOf(later, l.core.hostId);
      EligibleIffNoFailure(q.requirements, g);
      assert g in later && g.id == l.core.hostId;
    }
  }
}
