// The coordinator as an object that updates its durable state: the checks and records it
// makes on the way, and the call that strings them together, each against the machine.
module ExecutionAttempt {
  import opened Text
  import opened Escalation
  import opened Coordinator
  import opened CoordinatorRuns

  // The moves of a call, one after the other, until it comes to rest.
  function Called(cfg: Config, d: Durable, l: Local, choices: seq<Choice>): (Durable, Local, seq<Event>) {
    if choices == [] then (d, l, [])
    else
      var (d', l', events) := Called(cfg, d, l, choices[..|choices| - 1]);
      var m := Step(cfg, d', l', choices[|choices| - 1]);
      (m.d, m.l, if m.event.Some? then events + [m.event.value] else events)
  }

  class BaseExecutionCoordinator {
    const cfg: Config
    var durable: Durable

    constructor (cfg: Config, durable: Durable)
      ensures this.cfg == cfg && this.durable == durable
    {
      this.cfg := cfg;
      this.durable := durable;
    }

    // `_ensure_effect_authorization`: the requested authorization, verified, must be the
    // stored one by its hash, or is stored where a fresh submission has none.
    method EnsureEffectAuthorization(create: bool, accepts: bool) returns (accepted: bool, stored: Option<Authorization>)
      modifies this`durable
      ensures accepted <==>
        (&& cfg.requested.Some? && accepts
         && if old(durable.envelope.authorization).Some? then AuthorizationHolds(cfg, old(durable.envelope)) else create)
      ensures stored == if accepted && old(durable.envelope.authorization).None? then cfg.requested else None
      ensures durable == if stored.None? then old(durable)
        else old(durable).(envelope := old(durable.envelope).(authorization := stored, hash := cfg.hash(stored.value)))
    {
      stored := None;
      if cfg.requested.None? || !accepts { return false, None; }
      var requestedHash := cfg.hash(cfg.requested.value);
      if durable.envelope.authorization.None? {
        if !create { return false, None; }
        stored := cfg.requested;
        durable := durable.(envelope := Envelope(stored, requestedHash, durable.envelope.projections));
      }
      var durableHash := cfg.hash(durable.envelope.authorization.value);
      if durableHash != requestedHash { return false, None; }
      if durable.envelope.hash != durableHash { return false, None; }
      return true, stored;
    }

    // `_ensure_host_prepared`: what may go on, and whether the host was prepared for it.
    method EnsureHostPrepared(create: bool, stop: Stop) returns (accepted: bool, prepared: bool)
      modifies this`durable
      ensures prepared <==> cfg.hostPrepared && !old(durable.prepared) && create
      ensures accepted <==> !stop.Die? && (!cfg.hostPrepared || old(durable.prepared) || create)
      ensures durable == if prepared && accepted then old(durable).(prepared := true) else old(durable)
    {
      prepared := false;
      if cfg.hostPrepared && !durable.prepared {
        if !create { return false, false; }
        prepared := true;
        if stop.Die? { return false, true; }
        durable := durable.(prepared := true);
      }
      return !stop.Die?, prepared;
    }

    // `_ensure_tool_projection`
    method EnsureToolProjection(authorization: Option<Authorization>, provider: string, create: bool)
      returns (accepted: bool, carried: Option<Projection>, stored: bool)
      modifies this`durable
      ensures authorization.None? ==> accepted && carried.None? && !stored
      ensures authorization.Some? ==>
        var known := old(durable.envelope.projections);
        && (accepted <==>
            && Projectable(cfg, authorization.value, provider)
            && (if provider in known then known[provider] == cfg.projections[provider] else create))
        && (accepted ==> carried == Some(cfg.projections[provider]))
        && (stored <==> accepted && provider !in known)
      ensures durable == if !stored then old(durable)
        else old(durable).(envelope := old(durable.envelope).(projections := old(durable.envelope.projections)[provider := carried.value]))
      ensures stored ==> carried.Some?
    {
      hide Contained;
      if authorization.None? { return true, None, false; }
      if !Projectable(cfg, authorization.value, provider) { return false, None, false; }
      var projection := cfg.projections[provider];
      var manifests := durable.envelope.projections;
      if provider in manifests {
        return manifests[provider] == projection, Some(projection), false;
      }
      if !create { return false, Some(projection), false; }
      manifests := manifests[provider := projection];
      durable := durable.(envelope := durable.envelope.(projections := manifests));
      return true, Some(projection), true;
    }

    // `_record_model_call_outcome`
    method RecordModelCallOutcome(e: Entry)
      modifies this`durable
      ensures durable == old(durable).(ledger := Record(old(durable.ledger), e))
    {
      var totals := durable.ledger.totals;
      var required := totals.required + e.required;
      var invoked := totals.invoked + e.invoked;
      var avoided := totals.avoided + e.avoided;
      totals := Totals(required, invoked, avoided, invoked > 0 || required > avoided);
      durable := durable.(ledger := Ledger(durable.ledger.entries + [e], totals));
    }

    // `_record_bounded_decision_observation`
    method RecordBoundedDecisionObservation(o: Observation)
      modifies this`durable
      ensures durable == old(durable).(watch := Observe(old(durable.watch), o))
    {
      var w := durable.watch;
      for i := 0 to |w.seen|
        invariant durable == old(durable) && forall j | 0 <= j < i :: w.seen[j].id != o.id
      {
        if w.seen[i].id == o.id { return; }
      }
      var (eligible, frontier, insufficient) := (w.eligible, w.frontier, w.insufficient);
      match o.disposition {
        case Eligible => eligible := eligible + 1;
        case FrontierRequired => frontier := frontier + 1;
        case Insufficient => insufficient := insufficient + 1;
      }
      durable := durable.(watch := Watch(w.seen + [o], w.evaluated + 1, eligible, frontier, insufficient));
    }

    method Fail(c: Choice) returns (l: Local)
      modifies this`durable
      ensures (durable, l) == (Halt(old(durable), c, None).d, IDLE)
    {
      if c.closes { durable := Close(durable); }
      l := IDLE;
    }

    // The entry of a call, up to and including the authorization.
    method BeginAttempt(c: Choice) returns (l: Local, event: Option<Event>)
      modifies this`durable
      ensures Move(durable, l, event) == Start(cfg, old(durable), c)
    {
      event := None;
      if c.stop != Go { l := Fail(c); return; }
      var submitted := durable.flow.status.Submitted?;
      var create := submitted && durable.flow.executions == [] && durable.flow.execution.None?;
      var required := cfg.authorityRequired || durable.envelope.authorization.Some?;
      if required {
        var accepted, stored := EnsureEffectAuthorization(create, c.accepts);
        if !accepted { l := Fail(c); return; }
        if stored.Some? { event := Some(AuthorizationStored(stored.value)); }
      }
      var authorization := if required then durable.envelope.authorization else None;
      l := IDLE.(
        phase := Entering, submitted := submitted, create := create, required := required, authorization := authorization);
    }

    // A lease for `provider`, then its record.
    method TakeLease(l: Local, c: Choice, provider: string) returns (m: Local, event: Option<Event>)
      modifies this`durable
      ensures Move(durable, m, event) == Lease(old(durable), l, c, provider)
    {
      event := Some(Leased);
      if c.stop.Die? { m := Fail(c); return; }
      var flow := durable.flow.(status := TargetLeased, active := provider);
      if !durable.flow.status.Submitted? { flow := flow.(next := ""); }
      durable := durable.(flow := flow);
      m := l.(phase := LeaseHeld);
    }

    // From the durable status to a lease, to a loop taken up again, or to the custom runner.
    method EnterAttempt(l: Local, c: Choice) returns (m: Local, event: Option<Event>)
      modifies this`durable
      ensures Move(durable, m, event) == Enter(cfg, old(durable), l, c)
    {
      hide Lease, FirstOf;
      event := None;
      if c.stop.Raise? { m := Fail(c); return; }
      if cfg.custom {
        if !c.stop.Die? { durable := Close(durable); }
        return IDLE, Some(RunnerStarted);
      }
      m := l.(attempts := durable.flow.executions, execution := durable.flow.execution);
      match durable.flow.status {
        case Submitted =>
          var provider := SelectInitialProvider(cfg.order, cfg.preferred, c.ready);
          if provider.None? { m := Fail(c); return; }
          m, event := TakeLease(m, c, provider.value);
        case WorkerEscalating =>
          var provider := durable.flow.next;
          if cfg.fastLane || provider == "" { m := Fail(c); return; }
          if !c.ready(provider) { m := Fail(c); return m, Some(Leased); }
          m, event := TakeLease(m, c, provider);
        case TargetLeased => m := Fail(c);
        case WorkerRunning => m := m.(phase := Budgeting, entered := true);
        case WorkerCompleted => m := m.(phase := Judging, entered := true, recovered := true);
        case Closed => m := m.(phase := Finalizing);
      }
    }

    // The lease is held, and the worker is recorded as running.
    method StartWorker(l: Local, c: Choice) returns (m: Local)
      modifies this`durable
      ensures Move(durable, m, None) == HoldLease(old(durable), l, c)
    {
      if c.stop != Go { m := Fail(c); return; }
      durable := durable.(flow := durable.flow.(status := WorkerRunning));
      m := l.(phase := Budgeting, entered := true);
    }

    // The aggregate budgets, and the host preparation that only they let happen.
    method CheckBudget(l: Local, c: Choice) returns (m: Local, event: Option<Event>)
      modifies this`durable
      ensures Move(durable, m, event) == Budget(cfg, old(durable), l, c)
    {
      hide CallsOf, AttemptsOf;
      event := None;
      var consumedCalls, consumedAttempts := CallsOf(l.attempts), AttemptsOf(l.attempts);
      if c.stop.Raise? || MaximumCalls(cfg) - consumedCalls <= 0 || cfg.ceiling - consumedAttempts <= 0 { m := Fail(c); return; }
      var create := l.submitted && l.attempts == [] && durable.flow.execution.None?;
      var accepted, prepared := EnsureHostPrepared(create, c.stop);
      if prepared { event := Some(Prepared); }
      if !accepted { m := Fail(c); return; }
      var provider := if durable.flow.active != "" then durable.flow.active else cfg.preferred;
      m := l.(phase := Projecting, provider := provider);
    }

    method ProjectTools(l: Local, c: Choice) returns (m: Local, event: Option<Event>)
      modifies this`durable
      ensures Move(durable, m, event) == Project(cfg, old(durable), l, c)
    {
      hide Projectable;
      event := None;
      if c.stop != Go { m := Fail(c); return; }
      var accepted, carried, stored := EnsureToolProjection(l.authorization, l.provider, l.create);
      if !accepted { m := Fail(c); return; }
      if stored { event := Some(ProjectionStored(carried.value)); }
      m := l.(phase := if cfg.gated then Gating else Invoking, projection := carried);
    }

    // The gate's verdict is observed, then consumed, immediately before the invocation.
    method AskGate(l: Local, c: Choice) returns (m: Local, event: Option<Event>)
      modifies this`durable
      ensures Move(durable, m, event) == Gate(cfg, old(durable), l, c)
    {
      hide Observe;
      event := None;
      if c.stop.Raise? { m := Fail(c); return; }
      event := Some(GateAsked);
      if cfg.observed && c.verdict.ModelNeeded? {
        if c.observes { RecordBoundedDecisionObservation(c.observation); }
        if c.breaks { m := Fail(c); return; }
      }
      if c.stop.Die? { m := Fail(c); return; }
      m := l.(phase := Consuming, verdict := c.verdict);
    }

    // `_consume_model_call_verdict`, in the two writes it makes.
    method ConsumeModelCallVerdict(l: Local, c: Choice) returns (m: Local)
      requires l.phase.Consuming? || l.phase.Settling?
      modifies this`durable
      ensures Move(durable, m, None) == if l.phase.Consuming? then Consume(old(durable), l, c) else Settle(old(durable), l, c)
    {
      hide Record, Usable;
      if c.stop != Go { m := Fail(c); return; }
      if l.phase.Consuming? && l.verdict.Resolved? {
        RecordModelCallOutcome(Entry(DeterministicResolved, 0, 0, 0));
        m := l.(phase := Settling);
      } else if l.phase.Settling? && Usable(c.receipt) {
        RecordModelCallOutcome(Entry(ModelAvoided, 0, 0, 1));
        m := l.(phase := Receipting, receipt := c.receipt, called := l.called + [l.provider]);
      } else {
        RecordModelCallOutcome(REQUIRED);
        m := l.(phase := Invoking);
      }
    }

    // The worker's turn; one that raises leaves no receipt.
    method InvokeWorker(l: Local, c: Choice) returns (m: Local, event: Option<Event>)
      modifies this`durable
      ensures Move(durable, m, event) == Invoke(cfg, old(durable), l, c)
    {
      event := None;
      if c.stop.Raise? { m := Fail(c); return; }
      event := Some(WorkerCalled(l.provider, l.projection));
      if c.stop.Die? { m := Fail(c); return; }
      m := l.(phase := if cfg.gated then Noting else Receipting, receipt := c.receipt, called := l.called + [l.provider]);
    }

    method NoteInvocation(l: Local, c: Choice) returns (m: Local)
      modifies this`durable
      ensures Move(durable, m, None) == Note(old(durable), l, c)
    {
      hide Record;
      if c.stop != Go { m := Fail(c); return; }
      RecordModelCallOutcome(Entry(ModelInvoked, 0, 1, 0));
      m := l.(phase := Receipting);
    }

    // A pass whose receipt stays within what is left of the budgets is made durable.
    method StoreReceipt(l: Local, c: Choice) returns (m: Local)
      modifies this`durable
      ensures Move(durable, m, None) == Settled(cfg, old(durable), l, c)
    {
      hide CallsOf, AttemptsOf;
      if c.stop != Go || l.receipt.None? { m := Fail(c); return; }
      var receipt := l.receipt.value;
      var remainingCalls := MaximumCalls(cfg) - CallsOf(l.attempts);
      var remainingAttempts := cfg.ceiling - AttemptsOf(l.attempts);
      if receipt.calls < 0 || receipt.calls > remainingCalls { m := Fail(c); return; }
      if receipt.attempts.Some? && (receipt.attempts.value < 0 || receipt.attempts.value > remainingAttempts) { m := Fail(c); return; }
      var attempts := l.attempts + [receipt];
      durable := durable.(flow := Flow(WorkerCompleted, attempts, Some(receipt), l.provider, durable.flow.next));
      m := l.(phase := Judging, attempts := attempts, execution := Some(receipt));
    }

    // Whether the last receipt ends the loop, fails the call, or hands over to the next provider.
    method JudgeReceipt(l: Local, c: Choice) returns (m: Local, event: Option<Event>)
      modifies this`durable
      ensures Move(durable, m, event) == Judge(cfg, old(durable), l, c)
    {
      hide Completed, Escalates, NextReady;
      event := None;
      var latest := Latest(l);
      if c.stop.Raise? || latest.None? { m := Fail(c); return; }
      if Completed(latest.value) {
        if (l.recovered && cfg.hostPrepared && !durable.prepared) || c.stop.Die? { m := Fail(c); return; }
        return l.(phase := Finalizing), None;
      }
      if cfg.fastLane || cfg.policy.None? || l.attempts == [] { m := Fail(c); return; }
      if !Escalates(cfg.policy.value, l.attempts) { m := Fail(c); return; }
      var next := NextReadyProvider(cfg.policy.value, l.attempts, c.ready);
      if next.None? || next.value == "" || c.stop.Die? { m := Fail(c); return; }
      durable := durable.(flow := durable.flow.(status := WorkerEscalating, executions := l.attempts, next := next.value));
      return l.(phase := Releasing), Some(Escalated(latest.value, next.value));
    }

    // The failed lease is replaced, the next provider checked, and the new lease recorded.
    method ReplaceFailedLease(l: Local, c: Choice) returns (m: Local, event: Option<Event>)
      modifies this`durable
      ensures Move(durable, m, event) == Release(old(durable), l, c)
    {
      hide Lease;
      event := None;
      if c.stop.Raise? { m := Fail(c); return; }
      var provider := durable.flow.next;
      if !c.ready(provider) { m := Fail(c); return m, Some(Leased); }
      m, event := TakeLease(l, c, provider);
    }

    method FinalizeCompleted(l: Local, c: Choice) returns (m: Local, event: Option<Event>)
      modifies this`durable
      ensures Move(durable, m, event) == Finish(old(durable), c)
    {
      event := None;
      if c.stop.Raise? { m := Fail(c); return; }
      if !c.stop.Die? { durable := Close(durable); }
      return IDLE, Some(Finalized);
    }

    // `execute_attempt`: from rest until the call comes to rest again, or, the process
    // being killed, until the answers of the ports run out.
    method ExecuteAttempt(choices: seq<Choice>) returns (l: Local, events: seq<Event>, n: nat)
      modifies this`durable
      ensures n <= |choices| && (n == |choices| || (n > 0 && l.phase.Idle?))
      ensures Called(cfg, old(durable), IDLE, choices[..n]) == (durable, l, events)
      ensures Awake(cfg, old(durable), choices, n)
    {
      hide Called, Step, Awake;
      l, events, n := IDLE, [], 0;
      AtRest(cfg, durable, choices);
      while n < |choices| && (n == 0 || !l.phase.Idle?)
        invariant n <= |choices| && Awake(cfg, old(durable), choices, n)
        invariant Called(cfg, old(durable), IDLE, choices[..n]) == (durable, l, events)
      {
        OneMore(cfg, old(durable), choices, n);
        var event: Option<Event>;
        l, event := Proceed(l, choices[n]);
        events := if event.Some? then events + [event.value] else events;
        n := n + 1;
      }
    }

    // One stretch of the call, from one durable write to the next.
    method Proceed(l: Local, c: Choice) returns (m: Local, event: Option<Event>)
      modifies this`durable
      ensures Move(durable, m, event) == Step(cfg, old(durable), l, c)
    {
      hide Start, Enter, HoldLease, Budget, Project, Gate, Consume, Settle, Invoke, Note, Settled, Judge, Release, Finish;
      event := None;
      match l.phase {
        case Idle => m, event := BeginAttempt(c);
        case Entering => m, event := EnterAttempt(l, c);
        case LeaseHeld => m := StartWorker(l, c);
        case Budgeting => m, event := CheckBudget(l, c);
        case Projecting => m, event := ProjectTools(l, c);
        case Gating => m, event := AskGate(l, c);
        case Consuming => m := ConsumeModelCallVerdict(l, c);
        case Settling => m := ConsumeModelCallVerdict(l, c);
        case Invoking => m, event := InvokeWorker(l, c);
        case Noting => m := NoteInvocation(l, c);
        case Receipting => m := StoreReceipt(l, c);
        case Judging => m, event := JudgeReceipt(l, c);
        case Releasing => m, event := ReplaceFailedLease(l, c);
        case Finalizing => m, event := FinalizeCompleted(l, c);
      }
    }
  }

  // The call has not come to rest before its `n`th move.
  ghost predicate Awake(cfg: Config, d: Durable, choices: seq<Choice>, n: nat)
    requires n <= |choices|
  {
    forall k | 0 < k < n :: !Called(cfg, d, IDLE, choices[..k]).1.phase.Idle?
  }

  lemma AtRest(cfg: Config, d: Durable, choices: seq<Choice>)
    ensures Called(cfg, d, IDLE, choices[..0]) == (d, IDLE, []) && Awake(cfg, d, choices, 0)
  {
  }

  lemma OneMore(cfg: Config, d: Durable, choices: seq<Choice>, n: nat)
    requires n < |choices|
    ensures var (d', l', events) := Called(cfg, d, IDLE, choices[..n]);
      var m := Step(cfg, d', l', choices[n]);
      && Called(cfg, d, IDLE, choices[..n + 1]) == (m.d, m.l, if m.event.Some? then events + [m.event.value] else events)
      && (Awake(cfg, d, choices, n) && (n == 0 || !l'.phase.Idle?) ==> Awake(cfg, d, choices, n + 1))
  {
    OneMoveMore(cfg, d, choices, n);
    hide Step, Called;
  }

  lemma OneMoveMore(cfg: Config, d: Durable, choices: seq<Choice>, n: nat)
    requires n < |choices|
    ensures var (d', l', events) := Called(cfg, d, IDLE, choices[..n]);
      var m := Step(cfg, d', l', choices[n]);
      Called(cfg, d, IDLE, choices[..n + 1]) == (m.d, m.l, if m.event.Some? then events + [m.event.value] else events)
  {
    hide Step;
    assert choices[..n + 1][..n] == choices[..n];
  }

  // What a call does is a run, so all that is proved of runs holds of it.
  lemma {:induction false} CalledIsRun(cfg: Config, d: Durable, choices: seq<Choice>)
    ensures var (w, (after, l, _)) := (Run(cfg, Begin(d), choices), Called(cfg, d, IDLE, choices));
      w.d == after && w.l == l
  {
    hide Step, Tallied;
    if choices != [] { CalledIsRun(cfg, d, choices[..|choices| - 1]); }
  }
}
