// What holds at every point of every run of the coordinator.
module CoordinatorTheorems {
  import opened Text
  import opened Escalation
  import opened Coordinator
  import opened CoordinatorRuns

  lemma {:induction false} Reachable(cfg: Config, w: World, choices: seq<Choice>)
    requires Inv(cfg, w)
    ensures Inv(cfg, Run(cfg, w, choices))
  {
    hide Inv, Next;
    if choices != [] {
      Reachable(cfg, w, choices[..|choices| - 1]);
      StepKeeps(cfg, Run(cfg, w, choices[..|choices| - 1]), choices[|choices| - 1]);
    }
  }

  lemma BeginsInOrder(cfg: Config, d: Durable)
    ensures Inv(cfg, Begin(d))
  {
    assert d.ledger.entries[|d.ledger.entries|..] == [] && d.watch.seen[|d.watch.seen|..] == [];
  }

  lemma Reached(cfg: Config, d: Durable, choices: seq<Choice>)
    ensures Inv(cfg, Run(cfg, Begin(d), choices)) && Run(cfg, Begin(d), choices).base == d
  {
    hide Inv, Run;
    BeginsInOrder(cfg, d);
    Reachable(cfg, Begin(d), choices);
    BaseStays(cfg, Begin(d), choices);
  }

  lemma {:induction false} BaseStays(cfg: Config, w: World, choices: seq<Choice>)
    ensures Run(cfg, w, choices).base == w.base
  {
    hide Step, Tallied;
    if choices != [] { BaseStays(cfg, w, choices[..|choices| - 1]); }
  }

  // What a further step does outside.
  ghost function EventOf(cfg: Config, w: World, c: Choice): Option<Event> { Step(cfg, w.d, w.l, c).event }

  // ---- Which phase each event belongs to -------------------------------------------------

  lemma EventPhase(cfg: Config, w: World, c: Choice)
    ensures match EventOf(cfg, w, c)
      case Some(AuthorizationStored(_)) => w.l.phase.Idle?
      case Some(ProjectionStored(_)) => w.l.phase.Projecting?
      case Some(Leased) => w.l.phase.Entering? || w.l.phase.Releasing?
      case Some(Prepared) => w.l.phase.Budgeting?
      case Some(RunnerStarted) => w.l.phase.Entering?
      case Some(GateAsked) => w.l.phase.Gating?
      case Some(WorkerCalled(p, carried)) => w.l.phase.Invoking? && p == w.l.provider && carried == w.l.projection
      case Some(Escalated(_, _)) => w.l.phase.Judging?
      case Some(Finalized) => w.l.phase.Finalizing?
      case None => true
  {
    hide Start, Enter, HoldLease, Budget, Project, Gate, Consume, Settle, Invoke, Note, Settled, Judge, Release, Finish;
  }

  // ---- Budgets -----------------------------------------------------------------------------

  // The calls the receipts report, one by one: the `k`-th call of the `i`-th receipt.
  ghost function CallsMade(rs: seq<Receipt>): set<(int, int)> {
    set i, k | 0 <= i < |rs| && 0 <= k < rs[i].calls :: (i, k)
  }

  ghost function AttemptsMade(rs: seq<Receipt>): set<(int, int)> {
    set i, k | 0 <= i < |rs| && 0 <= k < ReportedBy(rs[i]) :: (i, k)
  }

  function ReportedBy(r: Receipt): int { if r.attempts.Some? then r.attempts.value else 0 }

  ghost function Row(i: int, n: int): set<(int, int)> { set k | 0 <= k < n :: (i, k) }

  lemma {:induction false} RowSize(i: int, n: int)
    ensures |Row(i, n)| == if n > 0 then n else 0
  {
    if n > 0 {
      RowSize(i, n - 1);
      assert Row(i, n) == Row(i, n - 1) + {(i, n - 1)};
    } else {
      assert Row(i, n) == {};
    }
  }

  lemma CallsSnoc(front: seq<Receipt>, last: Receipt)
    ensures CallsMade(front + [last]) == CallsMade(front) + Row(|front|, last.calls)
    ensures CallsMade(front) !! Row(|front|, last.calls)
  {
    var rs := front + [last];
    assert forall i | 0 <= i < |front| :: rs[i] == front[i];
  }

  lemma AttemptsSnoc(front: seq<Receipt>, last: Receipt)
    ensures AttemptsMade(front + [last]) == AttemptsMade(front) + Row(|front|, ReportedBy(last))
    ensures AttemptsMade(front) !! Row(|front|, ReportedBy(last))
  {
    var rs := front + [last];
    assert forall i | 0 <= i < |front| :: rs[i] == front[i];
  }

  // A run's calls and attempts are those its receipts report, each counted once.
  lemma {:induction false} BudgetsCount(rs: seq<Receipt>)
    ensures CallsOf(rs) == |CallsMade(rs)| && AttemptsOf(rs) == |AttemptsMade(rs)|
  {
    if rs == [] {
      assert CallsMade(rs) == {} && AttemptsMade(rs) == {};
    } else {
      hide CallsMade, AttemptsMade, Row;
      var (front, last) := (rs[..|rs| - 1], rs[|rs| - 1]);
      assert rs == front + [last];
      BudgetsCount(front);
      RowSize(|front|, last.calls);
      RowSize(|front|, ReportedBy(last));
      CallsSnoc(front, last);
      AttemptsSnoc(front, last);
    }
  }

  // Over any number of calls, escalations, failures and crashes durable receipts are only
  // added, and only within the call budget (one in the fast lane) and the attempt ceiling;
  // and no worker is called once either is used up.
  lemma BudgetsHold(cfg: Config, d: Durable, choices: seq<Choice>, c: Choice)
    ensures var w := Run(cfg, Begin(d), choices);
      var (rs, calls) := (w.d.flow.executions, if cfg.fastLane then 1 else cfg.contractCalls);
      && d.flow.executions <= rs
      && (rs != d.flow.executions ==> |CallsMade(rs)| <= calls && |AttemptsMade(rs)| <= cfg.ceiling)
      && (EventOf(cfg, w, c).Some? && EventOf(cfg, w, c).value.WorkerCalled? ==>
          |CallsMade(rs)| < calls && |AttemptsMade(rs)| < cfg.ceiling)
  {
    hide Run, EventOf, EnvelopeOk, PreparedOk, Balanced, Accounted, WatchOk, CallsOf, AttemptsOf, CallsMade, AttemptsMade;
    var w := Run(cfg, Begin(d), choices);
    BudgetsCount(w.d.flow.executions);
    Reached(cfg, d, choices);
    EventPhase(cfg, w, c);
  }

  // ---- Authority ------------------------------------------------------------------------------

  ghost predicate Effectful(e: Event) { e.Leased? || e.Prepared? || e.RunnerStarted? || e.WorkerCalled? }

  // Where authority is required, or an authorization is stored, every lease, preparation,
  // worker and custom runner finds the requested authorization stored under its hash, and
  // each worker carries a stored projection made for it that stays within that authorization.
  lemma AuthorityGatesEffects(cfg: Config, d: Durable, choices: seq<Choice>, c: Choice)
    requires forall a, b | cfg.hash(a) == cfg.hash(b) :: a == b
    ensures var w := Run(cfg, Begin(d), choices);
      match EventOf(cfg, w, c)
      case None => true
      case Some(e) => cfg.authorityRequired || w.d.envelope.authorization.Some? ==>
        && (Effectful(e) ==>
          cfg.requested.Some? && w.d.envelope.authorization == cfg.requested && w.d.envelope.hash == cfg.hash(cfg.requested.value))
        && (e.WorkerCalled? ==>
          && e.carried.Some? && e.carried.value.provider == e.provider
          && e.provider in w.d.envelope.projections && w.d.envelope.projections[e.provider] == e.carried.value
          && Contained(e.carried.value.effects, cfg.requested.value.effects))
  {
    hide Run, EventOf, FlowOk, PreparedOk, Balanced, Accounted, WatchOk, Contained;
    var w := Run(cfg, Begin(d), choices);
    Reached(cfg, d, choices);
    EventPhase(cfg, w, c);
  }

  // ---- Authority is minted once, by a fresh submission ---------------------------------------

  ghost predicate EnvelopeGrows(e: Envelope, f: Envelope) {
    && (e.authorization.Some? ==> f.authorization == e.authorization && f.hash == e.hash)
    && forall p | p in e.projections :: p in f.projections && f.projections[p] == e.projections[p]
  }

  // Nothing stored changes, and a call that may not mint or prepare never comes to.
  ghost predicate Grown(d: Durable, l: Local, m: Move) {
    && EnvelopeGrows(d.envelope, m.d.envelope)
    && (!l.phase.Idle? && !l.create ==> !m.l.create)
    && (!l.phase.Idle? && !l.submitted ==> !m.l.submitted)
  }

  lemma HaltGrows(d: Durable, l: Local, c: Choice)
    ensures forall event :: Grown(d, l, Halt(d, c, event))
  {
  }

  lemma LeaseGrows(d: Durable, l: Local, m: Local, c: Choice)
    requires m.create == l.create && m.submitted == l.submitted
    ensures forall p :: Grown(d, l, Lease(d, m, c, p))
  {
    hide Halt;
    HaltGrows(d, l, c);
  }

  lemma StartGrows(cfg: Config, d: Durable, l: Local, c: Choice)
    requires l.phase.Idle?
    ensures Grown(d, l, Start(cfg, d, c))
  {
    hide Halt, AuthorizationHolds;
    HaltGrows(d, l, c);
  }

  lemma EnterGrows(cfg: Config, d: Durable, l: Local, c: Choice)
    ensures Grown(d, l, Enter(cfg, d, l, c))
  {
    hide Halt, FirstOf, Lease;
    HaltGrows(d, l, c);
    LeaseGrows(d, l, l.(attempts := d.flow.executions, execution := d.flow.execution), c);
  }

  lemma HoldLeaseGrows(cfg: Config, d: Durable, l: Local, c: Choice)
    ensures Grown(d, l, HoldLease(d, l, c))
  {
    hide Halt;
    HaltGrows(d, l, c);
  }

  lemma BudgetGrows(cfg: Config, d: Durable, l: Local, c: Choice)
    ensures Grown(d, l, Budget(cfg, d, l, c))
  {
    hide Halt, CallsOf, AttemptsOf, BudgetLeft;
    HaltGrows(d, l, c);
  }

  lemma ProjectGrows(cfg: Config, d: Durable, l: Local, c: Choice)
    ensures Grown(d, l, Project(cfg, d, l, c))
  {
    hide Halt, Contained;
    HaltGrows(d, l, c);
  }

  lemma GateGrows(cfg: Config, d: Durable, l: Local, c: Choice)
    ensures Grown(d, l, Gate(cfg, d, l, c))
  {
    hide Observe;
  }

  lemma ConsumeGrows(cfg: Config, d: Durable, l: Local, c: Choice)
    ensures Grown(d, l, Consume(d, l, c))
  {
    hide Halt, Record;
    HaltGrows(d, l, c);
  }

  lemma SettleGrows(cfg: Config, d: Durable, l: Local, c: Choice)
    ensures Grown(d, l, Settle(d, l, c))
  {
    hide Halt, Record, Usable;
    HaltGrows(d, l, c);
  }

  lemma InvokeGrows(cfg: Config, d: Durable, l: Local, c: Choice)
    ensures Grown(d, l, Invoke(cfg, d, l, c))
  {
    hide Halt;
    HaltGrows(d, l, c);
  }

  lemma NoteGrows(cfg: Config, d: Durable, l: Local, c: Choice)
    ensures Grown(d, l, Note(d, l, c))
  {
    hide Halt, Record;
    HaltGrows(d, l, c);
  }

  lemma SettledGrows(cfg: Config, d: Durable, l: Local, c: Choice)
    ensures Grown(d, l, Settled(cfg, d, l, c))
  {
    hide Halt, CallsOf, AttemptsOf, WithinBudget;
    HaltGrows(d, l, c);
  }

  lemma JudgeGrows(cfg: Config, d: Durable, l: Local, c: Choice)
    ensures Grown(d, l, Judge(cfg, d, l, c))
  {
    hide Halt, Completed, Escalates, NextReady;
    HaltGrows(d, l, c);
  }

  lemma ReleaseGrows(cfg: Config, d: Durable, l: Local, c: Choice)
    ensures Grown(d, l, Release(d, l, c))
  {
    hide Halt, Lease;
    HaltGrows(d, l, c);
    LeaseGrows(d, l, l, c);
  }

  lemma FinishGrows(cfg: Config, d: Durable, l: Local, c: Choice)
    ensures Grown(d, l, Finish(d, c))
  {
    hide Halt;
    HaltGrows(d, l, c);
  }

  lemma StepGrows(cfg: Config, w: World, c: Choice)
    ensures Grown(w.d, w.l, Step(cfg, w.d, w.l, c))
  {
    hide Grown, Start, Enter, HoldLease, Budget, Project, Gate, Consume, Settle, Invoke, Note, Settled, Judge, Release, Finish;
    if w.l.phase.Idle? { StartGrows(cfg, w.d, w.l, c); }
    EnterGrows(cfg, w.d, w.l, c);
    HoldLeaseGrows(cfg, w.d, w.l, c);
    BudgetGrows(cfg, w.d, w.l, c);
    ProjectGrows(cfg, w.d, w.l, c);
    GateGrows(cfg, w.d, w.l, c);
    ConsumeGrows(cfg, w.d, w.l, c);
    SettleGrows(cfg, w.d, w.l, c);
    InvokeGrows(cfg, w.d, w.l, c);
    NoteGrows(cfg, w.d, w.l, c);
    SettledGrows(cfg, w.d, w.l, c);
    JudgeGrows(cfg, w.d, w.l, c);
    ReleaseGrows(cfg, w.d, w.l, c);
    FinishGrows(cfg, w.d, w.l, c);
  }

  // A stored authorization, its hash, and every stored projection never change again.
  lemma {:induction false} AuthorityNeverChanges(cfg: Config, w: World, choices: seq<Choice>)
    ensures EnvelopeGrows(w.d.envelope, Run(cfg, w, choices).d.envelope)
  {
    hide Step, Tallied;
    if choices != [] {
      AuthorityNeverChanges(cfg, w, choices[..|choices| - 1]);
      StepGrows(cfg, Run(cfg, w, choices[..|choices| - 1]), choices[|choices| - 1]);
    }
  }

  // One call: it begins at rest and has not come to rest since.
  ghost predicate OneCall(cfg: Config, w: World, choices: seq<Choice>) {
    && w.l.phase.Idle? && choices != []
    && forall k | 1 <= k <= |choices| :: !Run(cfg, w, choices[..k]).l.phase.Idle?
  }

  predicate Submission(f: Flow) { f.status.Submitted? && f.executions == [] && f.execution.None? }

  lemma StartMarks(cfg: Config, w: World, c: Choice)
    requires w.l.phase.Idle?
    ensures Next(cfg, w, c).l.create ==> Submission(w.d.flow)
    ensures Next(cfg, w, c).l.submitted ==> w.d.flow.status.Submitted?
    ensures EventOf(cfg, w, c).Some? ==> EventOf(cfg, w, c).value.AuthorizationStored? && Submission(w.d.flow) && w.d.envelope.authorization.None?
  {
    hide Tallied;
  }

  lemma {:induction false} CallKeepsMarks(cfg: Config, w: World, choices: seq<Choice>)
    requires OneCall(cfg, w, choices)
    ensures Run(cfg, w, choices).l.create ==> Submission(w.d.flow)
    ensures Run(cfg, w, choices).l.submitted ==> w.d.flow.status.Submitted?
  {
    hide Step, Tallied, EnvelopeGrows;
    var front := choices[..|choices| - 1];
    assert choices[..|choices|] == choices;
    assert Run(cfg, w, choices) == Next(cfg, Run(cfg, w, front), choices[|choices| - 1]);
    if front == [] {
      assert Run(cfg, w, front) == w;
      StartMarks(cfg, w, choices[0]);
    } else {
      forall k | 1 <= k <= |front| ensures !Run(cfg, w, front[..k]).l.phase.Idle? { assert front[..k] == choices[..k]; }
      CallKeepsMarks(cfg, w, front);
      assert front[..|front|] == front;
      StepGrows(cfg, Run(cfg, w, front), choices[|choices| - 1]);
    }
  }

  lemma MintingNeedsMark(cfg: Config, w: World, c: Choice)
    ensures EventOf(cfg, w, c).Some? && EventOf(cfg, w, c).value.ProjectionStored? ==> w.l.create && !w.l.phase.Idle?
    ensures EventOf(cfg, w, c).Some? && EventOf(cfg, w, c).value.Prepared? ==> w.l.submitted && !w.l.phase.Idle? && w.l.attempts == []
  {
    hide BudgetLeft, WithinBudget, Decide, AuthorizationHolds, Projectable, Observe, Record, Usable, Completed, Escalates, NextReady, FirstOf;
  }

  // A call that does not find a fresh submission stores no authorization and no projection;
  // one that does not find a submission prepares no host.
  lemma RestartMintsNothing(cfg: Config, w: World, choices: seq<Choice>, c: Choice)
    requires w.l.phase.Idle? && (choices == [] || OneCall(cfg, w, choices))
    ensures var event := EventOf(cfg, Run(cfg, w, choices), c);
      && (event.Some? && (event.value.AuthorizationStored? || event.value.ProjectionStored?) ==> Submission(w.d.flow))
      && (event.Some? && event.value.Prepared? ==> w.d.flow.status.Submitted?)
  {
    var v := Run(cfg, w, choices);
    EventPhase(cfg, v, c);
    MintingNeedsMark(cfg, v, c);
    if choices == [] {
      StartMarks(cfg, w, c);
    } else {
      CallKeepsMarks(cfg, w, choices);
      assert choices[..|choices|] == choices;
    }
    hide *;
  }

  // Host preparation is performed at most once, over all calls together.
  lemma PreparedAtMostOnce(cfg: Config, d: Durable, choices: seq<Choice>)
    ensures Run(cfg, Begin(d), choices).t.prepared <= 1
  {
    Reached(cfg, d, choices);
    hide Run, FlowOk, EnvelopeOk, Balanced, Accounted, WatchOk;
  }

  // ---- Accounting ------------------------------------------------------------------------------

  // At every durable state the log has only been added to, and the totals by its columns;
  // every gate evaluation was required or avoided, is under way, or was cut off; every
  // required call was invoked, is under way, or was cut off. While nothing has been cut off
  // and no pass is under way, as many calls were required as were invoked and as workers
  // were called, and the other evaluations avoided one.
  lemma LedgerBalances(cfg: Config, d: Durable, choices: seq<Choice>)
    ensures var w := Run(cfg, Begin(d), choices);
      var (g, t) := (w.d.ledger, w.t);
      var n := Since(d.ledger.totals, g.totals);
      && Balanced(d.ledger, g) && Accounted(cfg, d.ledger.totals, g.totals, w.l.phase, t)
      && (t.dropped == t.uncalled == t.unnoted == 0 && (w.l.phase.Idle? || w.l.phase.Judging?) ==>
          n.required == n.invoked == t.workers && n.required + n.avoided == t.gates)
  {
    hide Run, FlowOk, EnvelopeOk, PreparedOk, Balanced, WatchOk;
    Reached(cfg, d, choices);
  }

  // A worker that raises leaves required one ahead of invoked.
  lemma RaisingWorkerLeavesRequiredAhead(cfg: Config, w: World, c: Choice)
    requires Inv(cfg, w) && w.l.phase.Invoking? && cfg.gated && c.stop.Die?
    ensures var v := Next(cfg, w, c);
      var n := Since(v.base.ledger.totals, v.d.ledger.totals);
      && v.l.phase.Idle? && v.d.ledger == w.d.ledger && v.t.unnoted == w.t.unnoted + 1
      && n.required == n.invoked + v.t.uncalled + v.t.unnoted
  {
    hide FlowOk, EnvelopeOk, PreparedOk, Balanced, WatchOk;
  }

  // ---- How a call may go on, and how it may end ---------------------------------------------------

  lemma JudgeMeans(cfg: Config, d: Durable, l: Local, c: Choice)
    ensures var m := Judge(cfg, d, l, c);
      m.event.Some? ==>
        && m.event.value.Escalated? && l.attempts != [] && cfg.policy.Some? && !cfg.fastLane
        && m.event.value.receipt == l.attempts[|l.attempts| - 1] && Decide(cfg.policy.value, l.attempts).Escalate?
        && m.event.value.to in cfg.policy.value && m.event.value.to !in Providers(l.attempts)
  {
    hide Decide, Providers, Completed, FirstOf;
  }

  // A call escalates only outside the fast lane, after a last receipt that is incomplete,
  // clean and not deterministic, to a provider of the policy no receipt names yet; and a
  // call that entered the loop reaches finalization only with a complete last receipt.
  lemma EscalatesAndEndsOnlyRightly(cfg: Config, d: Durable, choices: seq<Choice>, c: Choice)
    ensures var w := Run(cfg, Begin(d), choices);
      match EventOf(cfg, w, c)
      case Some(Escalated(r, p)) =>
        && !cfg.fastLane && cfg.policy.Some? && p in cfg.policy.value && p !in Providers(w.d.flow.executions)
        && w.d.flow.executions != [] && r == w.d.flow.executions[|w.d.flow.executions| - 1]
        && !Completed(r) && !Mutated(r) && !FailureIsDeterministic(r)
      case Some(Finalized) => w.l.entered ==> Latest(w.l).Some? && Completed(Latest(w.l).value)
      case _ => true
  {
    hide Run, EnvelopeOk, PreparedOk, Balanced, Accounted, WatchOk, Judge, Decide, Completed, Mutated, FailureIsDeterministic, Providers;
    hide Start, Enter, HoldLease, Budget, Project, Gate, Consume, Settle, Invoke, Note, Settled, Release, Finish;
    var w := Run(cfg, Begin(d), choices);
    Reached(cfg, d, choices);
    EventPhase(cfg, w, c);
    if w.l.phase.Judging? {
      JudgeMeans(cfg, w.d, w.l, c);
      if w.l.attempts != [] && cfg.policy.Some? { EscalatesExactlyWhen(cfg.policy.value, w.l.attempts); }
    }
  }

  // The last receipt that is durable.
  function LastReceipt(f: Flow): Option<Receipt> {
    if f.executions != [] then Some(f.executions[|f.executions| - 1]) else f.execution
  }

  lemma JudgedReceipt(cfg: Config, w: World)
    requires Inv(cfg, w) && w.l.phase.Judging?
    ensures Latest(w.l) == LastReceipt(w.d.flow)
  {
    hide EnvelopeOk, PreparedOk, Balanced, Accounted, WatchOk, Completed, Respected, BudgetLeft;
  }

  lemma MutationIsBlocked(order: seq<string>, attempts: seq<Receipt>)
    requires attempts != [] && Mutated(attempts[|attempts| - 1])
    ensures !Escalates(order, attempts)
  {
  }

  // On a mutated last receipt the judgement finalizes or ends the call, and nothing else.
  lemma MutationJudged(cfg: Config, d: Durable, l: Local, c: Choice)
    requires Latest(l).Some? && Mutated(Latest(l).value)
    ensures var m := Judge(cfg, d, l, c);
      && m.event.None? && m.d.flow.executions == d.flow.executions
      && (m.l.phase.Finalizing? <==>
          c.stop.Go? && Completed(Latest(l).value) && (l.recovered && cfg.hostPrepared ==> d.prepared))
      && (!m.l.phase.Finalizing? ==> m.l.phase.Idle?)
  {
    hide Completed, Mutated, Escalates, NextReady;
    if l.attempts != [] && cfg.policy.Some? { MutationIsBlocked(cfg.policy.value, l.attempts); }
  }

  const GO := Choice(Go, false, _ => true, true, ModelNeeded, None, false, Observation("", Insufficient), false)

  // Wherever a call judges a last durable receipt that reports a forbidden repository
  // mutation, it neither escalates nor adds a receipt. It can go on to finalization exactly
  // when that receipt is complete, for completion is asked before the policy that would
  // block it, and the host preparation a recovered call needs is there; otherwise the call
  // ends, whatever the ports answer.
  lemma MutationBlocksUnlessComplete(cfg: Config, d: Durable, choices: seq<Choice>)
    ensures var w := Run(cfg, Begin(d), choices);
      var last := LastReceipt(w.d.flow);
      w.l.phase.Judging? && last.Some? && Mutated(last.value) ==>
        && (forall c :: EventOf(cfg, w, c).None? && Next(cfg, w, c).d.flow.executions == w.d.flow.executions)
        && (forall c :: Next(cfg, w, c).l.phase.Finalizing? || Next(cfg, w, c).l.phase.Idle?)
        && ((exists c :: Next(cfg, w, c).l.phase.Finalizing?) <==>
            Completed(last.value) && (w.l.recovered && cfg.hostPrepared ==> w.d.prepared))
  {
    hide Run, Inv, Judge, Mutated, Completed, Tallied;
    var w := Run(cfg, Begin(d), choices);
    Reached(cfg, d, choices);
    if w.l.phase.Judging? && LastReceipt(w.d.flow).Some? && Mutated(LastReceipt(w.d.flow).value) {
      JudgedReceipt(cfg, w);
      forall c
        ensures EventOf(cfg, w, c).None? && Next(cfg, w, c).d.flow.executions == w.d.flow.executions
        ensures Next(cfg, w, c).l.phase.Finalizing? || Next(cfg, w, c).l.phase.Idle?
        ensures Next(cfg, w, c).l.phase.Finalizing? <==>
          c.stop.Go? && Completed(LastReceipt(w.d.flow).value) && (w.l.recovered && cfg.hostPrepared ==> w.d.prepared)
      {
        MutationJudged(cfg, w.d, w.l, c);
      }
      assert GO.stop.Go?;
      assert Next(cfg, w, GO).l.phase.Finalizing? <==>
        Completed(LastReceipt(w.d.flow).value) && (w.l.recovered && cfg.hostPrepared ==> w.d.prepared);
    }
  }

  // ---- The observer ---------------------------------------------------------------------------------

  function Erased(d: Durable): Durable { d.(watch := Watch([], 0, 0, 0, 0)) }

  function Unobserved(cfg: Config): Config { cfg.(observed := false) }

  // Two moves that differ in the observation fields only.
  ghost predicate Alike(m: Move, n: Move) { Erased(m.d) == n.d && m.l == n.l && m.event == n.event }

  lemma HaltAlike(d: Durable, c: Choice)
    ensures forall event :: Alike(Halt(d, c, event), Halt(Erased(d), c, event))
  {
  }

  lemma LeaseAlike(d: Durable, c: Choice)
    ensures forall l, p :: Alike(Lease(d, l, c, p), Lease(Erased(d), l, c, p))
  {
    hide Halt;
    HaltAlike(d, c);
  }

  lemma StartAlike(cfg: Config, off: Config, d: Durable, e: Durable, l: Local, c: Choice)
    requires off == Unobserved(cfg) && e == Erased(d)
    ensures Alike(Start(cfg, d, c), Start(off, e, c))
  {
    hide Halt;
    HaltAlike(d, c);
  }

  lemma EnterAlike(cfg: Config, off: Config, d: Durable, e: Durable, l: Local, c: Choice)
    requires off == Unobserved(cfg) && e == Erased(d)
    ensures Alike(Enter(cfg, d, l, c), Enter(off, e, l, c))
  {
    hide Halt, FirstOf, Lease;
    HaltAlike(d, c);
    LeaseAlike(d, c);
  }

  lemma HoldLeaseAlike(cfg: Config, off: Config, d: Durable, e: Durable, l: Local, c: Choice)
    requires off == Unobserved(cfg) && e == Erased(d)
    ensures Alike(HoldLease(d, l, c), HoldLease(e, l, c))
  {
    hide Halt;
    HaltAlike(d, c);
  }

  lemma BudgetAlike(cfg: Config, off: Config, d: Durable, e: Durable, l: Local, c: Choice)
    requires off == Unobserved(cfg) && e == Erased(d)
    ensures Alike(Budget(cfg, d, l, c), Budget(off, e, l, c))
  {
    hide Halt, CallsOf, AttemptsOf;
    HaltAlike(d, c);
  }

  lemma ProjectAlike(cfg: Config, off: Config, d: Durable, e: Durable, l: Local, c: Choice)
    requires off == Unobserved(cfg) && e == Erased(d)
    ensures Alike(Project(cfg, d, l, c), Project(off, e, l, c))
  {
    hide Halt, Contained;
    HaltAlike(d, c);
  }

  // The observer fails, and so does reading the state again after that.
  predicate Escapes(cfg: Config, l: Local, c: Choice) {
    l.phase.Gating? && cfg.observed && c.stop.Go? && c.verdict.ModelNeeded? && c.breaks
  }

  lemma GateAlike(cfg: Config, off: Config, d: Durable, e: Durable, l: Local, c: Choice)
    requires off == Unobserved(cfg) && e == Erased(d) && l.phase.Gating?
    ensures Alike(Gate(cfg, d, l, c), Gate(off, e, l, c)) <==> !Escapes(cfg, l, c)
    ensures Gate(cfg, d, l, c).event == Gate(off, e, l, c).event
    ensures Escapes(cfg, l, c) ==> Gate(cfg, d, l, c).l.phase.Idle? && !Gate(off, e, l, c).l.phase.Idle?
  {
    hide Observe;
  }

  lemma ConsumeAlike(cfg: Config, off: Config, d: Durable, e: Durable, l: Local, c: Choice)
    requires off == Unobserved(cfg) && e == Erased(d)
    ensures Alike(Consume(d, l, c), Consume(e, l, c))
  {
    hide Halt, Record;
    HaltAlike(d, c);
  }

  lemma SettleAlike(cfg: Config, off: Config, d: Durable, e: Durable, l: Local, c: Choice)
    requires off == Unobserved(cfg) && e == Erased(d)
    ensures Alike(Settle(d, l, c), Settle(e, l, c))
  {
    hide Halt, Record, Usable;
    HaltAlike(d, c);
  }

  lemma InvokeAlike(cfg: Config, off: Config, d: Durable, e: Durable, l: Local, c: Choice)
    requires off == Unobserved(cfg) && e == Erased(d)
    ensures Alike(Invoke(cfg, d, l, c), Invoke(off, e, l, c))
  {
    hide Halt;
    HaltAlike(d, c);
  }

  lemma NoteAlike(cfg: Config, off: Config, d: Durable, e: Durable, l: Local, c: Choice)
    requires off == Unobserved(cfg) && e == Erased(d)
    ensures Alike(Note(d, l, c), Note(e, l, c))
  {
    hide Halt, Record;
    HaltAlike(d, c);
  }

  lemma SettledAlike(cfg: Config, off: Config, d: Durable, e: Durable, l: Local, c: Choice)
    requires off == Unobserved(cfg) && e == Erased(d)
    ensures Alike(Settled(cfg, d, l, c), Settled(off, e, l, c))
  {
    hide Halt, CallsOf, AttemptsOf;
    HaltAlike(d, c);
  }

  lemma JudgeAlike(cfg: Config, off: Config, d: Durable, e: Durable, l: Local, c: Choice)
    requires off == Unobserved(cfg) && e == Erased(d)
    ensures Alike(Judge(cfg, d, l, c), Judge(off, e, l, c))
  {
    hide Halt, Completed, Escalates, NextReady;
    HaltAlike(d, c);
  }

  lemma ReleaseAlike(cfg: Config, off: Config, d: Durable, e: Durable, l: Local, c: Choice)
    requires off == Unobserved(cfg) && e == Erased(d)
    ensures Alike(Release(d, l, c), Release(e, l, c))
  {
    hide Halt, Lease;
    HaltAlike(d, c);
    LeaseAlike(d, c);
  }

  lemma FinishAlike(cfg: Config, off: Config, d: Durable, e: Durable, l: Local, c: Choice)
    requires off == Unobserved(cfg) && e == Erased(d)
    ensures Alike(Finish(d, c), Finish(e, c))
  {
    hide Halt;
    HaltAlike(d, c);
  }

  // A step is the same with and without the observer exactly when no failure of it gets out.
  lemma StepIgnoresWatch(cfg: Config, d: Durable, l: Local, c: Choice)
    ensures Alike(Step(cfg, d, l, c), Step(Unobserved(cfg), Erased(d), l, c)) <==> !Escapes(cfg, l, c)
    ensures Step(cfg, d, l, c).event == Step(Unobserved(cfg), Erased(d), l, c).event
    ensures Escapes(cfg, l, c) ==> Step(cfg, d, l, c).l.phase != Step(Unobserved(cfg), Erased(d), l, c).l.phase
  {
    hide Start, Enter, HoldLease, Budget, Project, Gate, Consume, Settle, Invoke, Note, Settled, Judge, Release, Finish, Erased;
    var (off, e) := (Unobserved(cfg), Erased(d));
    StartAlike(cfg, off, d, e, l, c);
    EnterAlike(cfg, off, d, e, l, c);
    HoldLeaseAlike(cfg, off, d, e, l, c);
    BudgetAlike(cfg, off, d, e, l, c);
    ProjectAlike(cfg, off, d, e, l, c);
    if l.phase.Gating? { GateAlike(cfg, off, d, e, l, c); }
    ConsumeAlike(cfg, off, d, e, l, c);
    SettleAlike(cfg, off, d, e, l, c);
    InvokeAlike(cfg, off, d, e, l, c);
    NoteAlike(cfg, off, d, e, l, c);
    SettledAlike(cfg, off, d, e, l, c);
    JudgeAlike(cfg, off, d, e, l, c);
    ReleaseAlike(cfg, off, d, e, l, c);
    FinishAlike(cfg, off, d, e, l, c);
  }

  // A run whose ports answer by the world they see.
  ghost function Driven(cfg: Config, w: World, ports: World -> Choice, n: nat): World {
    if n == 0 then w else var v := Driven(cfg, w, ports, n - 1); Next(cfg, v, ports(v))
  }

  function ErasedWorld(w: World): World { w.(base := Erased(w.base), d := Erased(w.d)) }

  // With and without the observer, the run has been the same but for the observation fields.
  ghost predicate SameSoFar(cfg: Config, w: World, ports: World -> Choice, n: nat) {
    forall k | 0 <= k <= n ::
      ErasedWorld(Driven(cfg, w, ports, k)) == Driven(Unobserved(cfg), ErasedWorld(w), ports, k)
  }

  ghost predicate NoneEscapes(cfg: Config, w: World, ports: World -> Choice, n: nat) {
    forall k | 0 <= k < n :: !Escapes(cfg, Driven(cfg, w, ports, k).l, ports(Driven(cfg, w, ports, k)))
  }

  // Ports that do not read the observation fields cannot tell whether anything is observed:
  // with and without the observer, every step and its event are the same but for those
  // fields, exactly as long as no failure of the observer gets out; and none gets out
  // unless reading the state again fails too.
  lemma {:induction false} ObserverHasNoEffect(cfg: Config, w: World, ports: World -> Choice, n: nat)
    requires forall v :: ports(v) == ports(ErasedWorld(v))
    ensures SameSoFar(cfg, w, ports, n) <==> NoneEscapes(cfg, w, ports, n)
    ensures SameSoFar(cfg, w, ports, n) ==>
      var (a, b) := (Driven(cfg, w, ports, n), Driven(Unobserved(cfg), ErasedWorld(w), ports, n));
      EventOf(cfg, a, ports(a)) == EventOf(Unobserved(cfg), b, ports(b))
    ensures (forall v :: !ports(v).breaks) ==> SameSoFar(cfg, w, ports, n)
  {
    hide Driven, EventOf, ErasedWorld, SameSoFar, NoneEscapes, Escapes;
    if n == 0 {
      NothingYet(cfg, w, ports);
    } else {
      ObserverHasNoEffect(cfg, w, ports, n - 1);
      if SameSoFar(cfg, w, ports, n - 1) { OneStepMore(cfg, w, ports, n - 1); }
      UpToLast(cfg, w, ports, n - 1);
    }
    if SameSoFar(cfg, w, ports, n) { SameEvent(cfg, w, ports, n); }
    if forall v :: !ports(v).breaks { NothingBreaks(cfg, w, ports, n); }
  }

  lemma NothingYet(cfg: Config, w: World, ports: World -> Choice)
    ensures SameSoFar(cfg, w, ports, 0) && NoneEscapes(cfg, w, ports, 0)
  {
  }

  lemma UpToLast(cfg: Config, w: World, ports: World -> Choice, n: nat)
    ensures SameSoFar(cfg, w, ports, n + 1) <==>
      (SameSoFar(cfg, w, ports, n)
       && ErasedWorld(Driven(cfg, w, ports, n + 1)) == Driven(Unobserved(cfg), ErasedWorld(w), ports, n + 1))
    ensures NoneEscapes(cfg, w, ports, n + 1) <==>
      (NoneEscapes(cfg, w, ports, n) && !Escapes(cfg, Driven(cfg, w, ports, n).l, ports(Driven(cfg, w, ports, n))))
  {
    hide Driven, ErasedWorld, Escapes;
  }

  lemma NothingBreaks(cfg: Config, w: World, ports: World -> Choice, n: nat)
    requires forall v :: !ports(v).breaks
    ensures NoneEscapes(cfg, w, ports, n)
  {
    hide Driven;
  }

  lemma SameEvent(cfg: Config, w: World, ports: World -> Choice, n: nat)
    requires (forall v :: ports(v) == ports(ErasedWorld(v))) && SameSoFar(cfg, w, ports, n)
    ensures var (a, b) := (Driven(cfg, w, ports, n), Driven(Unobserved(cfg), ErasedWorld(w), ports, n));
      EventOf(cfg, a, ports(a)) == EventOf(Unobserved(cfg), b, ports(b))
  {
    hide Step, Driven;
    var a := Driven(cfg, w, ports, n);
    StepIgnoresWatch(cfg, a.d, a.l, ports(a));
  }

  lemma OneStepMore(cfg: Config, w: World, ports: World -> Choice, n: nat)
    requires (forall v :: ports(v) == ports(ErasedWorld(v))) && SameSoFar(cfg, w, ports, n)
    ensures ErasedWorld(Driven(cfg, w, ports, n + 1)) == Driven(Unobserved(cfg), ErasedWorld(w), ports, n + 1)
      <==> !Escapes(cfg, Driven(cfg, w, ports, n).l, ports(Driven(cfg, w, ports, n)))
  {
    hide Next, ErasedWorld, Escapes;
    var v := Driven(cfg, w, ports, n);
    NextIgnoresWatch(cfg, v, ports(v));
  }

  lemma NextIgnoresWatch(cfg: Config, w: World, c: Choice)
    ensures ErasedWorld(Next(cfg, w, c)) == Next(Unobserved(cfg), ErasedWorld(w), c) <==> !Escapes(cfg, w.l, c)
  {
    hide Step;
    StepIgnoresWatch(cfg, w.d, w.l, c);
  }

  // Observations are only added, each new id once, and each is counted once, by its
  // disposition: the evaluated total grows by the number of new ids, and so does the sum of
  // the three others.
  lemma ObservationsCounted(cfg: Config, d: Durable, choices: seq<Choice>)
    ensures var w := Run(cfg, Begin(d), choices).d.watch;
      d.watch.seen <= w.seen && var added := w.seen[|d.watch.seen|..];
        && (forall o, p | o in d.watch.seen && p in added :: o.id != p.id)
        && w.evaluated - d.watch.evaluated == |set o | o in added :: o.id|
        && w.eligible - d.watch.eligible == CountOf(added, Eligible)
        && w.frontier - d.watch.frontier == CountOf(added, FrontierRequired)
        && w.insufficient - d.watch.insufficient == CountOf(added, Insufficient)
        && CountOf(added, Eligible) + CountOf(added, FrontierRequired) + CountOf(added, Insufficient) == |added|
  {
    hide Run, FlowOk, EnvelopeOk, PreparedOk, Balanced, Accounted;
    Reached(cfg, d, choices);
    AddedDistinct(d.watch, Run(cfg, Begin(d), choices).d.watch);
  }

  lemma AddedDistinct(base: Watch, w: Watch)
    requires WatchOk(base, w)
    ensures var added := w.seen[|base.seen|..];
      && (forall o, p | o in base.seen && p in added :: o.id != p.id) && |set o | o in added :: o.id| == |added|
      && CountOf(added, Eligible) + CountOf(added, FrontierRequired) + CountOf(added, Insufficient) == |added|
  {
    hide CountOf;
    var added := w.seen[|base.seen|..];
    forall i, j | 0 <= i < j < |added| ensures added[i].id != added[j].id {
      assert added[i] == w.seen[|base.seen| + i] && added[j] == w.seen[|base.seen| + j];
    }
    DistinctObservations(added);
    CountsAdd(added);
    forall o, p | o in base.seen && p in added ensures o.id != p.id {
      var i :| 0 <= i < |base.seen| && base.seen[i] == o;
      var j :| 0 <= j < |added| && added[j] == p;
      assert w.seen[i] == o && w.seen[|base.seen| + j] == p;
    }
  }

  lemma {:induction false} CountsAdd(seen: seq<Observation>)
    ensures CountOf(seen, Eligible) + CountOf(seen, FrontierRequired) + CountOf(seen, Insufficient) == |seen|
  {
    if seen != [] { CountsAdd(seen[..|seen| - 1]); }
  }

  lemma {:induction false} DistinctObservations(seen: seq<Observation>)
    requires forall i, j | 0 <= i < j < |seen| :: seen[i].id != seen[j].id
    ensures |set o | o in seen :: o.id| == |seen|
  {
    if seen != [] {
      var (front, last) := (seen[..|seen| - 1], seen[|seen| - 1]);
      DistinctObservations(front);
      assert seen == front + [last];
      assert (set o | o in seen :: o.id) == (set o | o in front :: o.id) + {last.id};
      assert last.id !in set o | o in front :: o.id;
    }
  }
}
