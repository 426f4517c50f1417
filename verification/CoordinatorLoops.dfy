// When one call of the coordinator ends: it takes as many turns as the providers, the
// budgets and its idle turns allow; and as many turns as there are providers, when every
// receipt names the provider it comes from.
module CoordinatorLoops {
  import opened Text
  import opened Escalation
  import opened Coordinator
  import opened CoordinatorRuns
  import opened CoordinatorTheorems

  // The receipt a turn ends with names the provider whose turn it is.
  predicate Honest(l: Local, c: Choice) {
    (l.phase.Settling? || l.phase.Invoking?) && c.receipt.Some? ==> c.receipt.value.provider == l.provider
  }

  ghost predicate AllHonest(cfg: Config, w: World, choices: seq<Choice>) {
    forall k | 0 <= k < |choices| :: Honest(Run(cfg, w, choices[..k]).l, choices[k])
  }

  function Names(cfg: Config): set<string> {
    match cfg.policy case None => {} case Some(order) => set p | p in order
  }

  predicate Named(called: seq<string>, attempts: seq<Receipt>) { forall p | p in called :: p in Providers(attempts) }

  // The next turn goes to a provider that had none, and after the first to one of the policy.
  predicate NewTurn(cfg: Config, called: seq<string>, provider: string) {
    provider !in called && (called != [] ==> provider in Names(cfg))
  }

  predicate Turns(cfg: Config, called: seq<string>) {
    Distinct(called) && forall i | 1 <= i < |called| :: called[i] in Names(cfg)
  }

  predicate TurnTaken(l: Local) {
    && l.called != [] && l.called[|l.called| - 1] == l.provider
    && Named(l.called[..|l.called| - 1], l.attempts)
    && (l.receipt.Some? ==> l.receipt.value.provider == l.provider)
  }

  ghost predicate LoopOk(cfg: Config, f: Flow, l: Local) {
    && Turns(cfg, l.called)
    && (l.phase.Entering? ==> l.called == [])
    && (l.phase.Noting? || l.phase.Receipting? ==> TurnTaken(l))
    && (!l.phase.Noting? && !l.phase.Receipting? ==> Named(l.called, l.attempts))
    && ((l.phase.LeaseHeld? || l.phase.Budgeting?) && l.called != [] ==> f.active != "" && NewTurn(cfg, l.called, f.active))
    && (BeforeWorker(l.phase) ==> NewTurn(cfg, l.called, l.provider))
    && (l.phase.Releasing? ==>
        f.next != "" && f.next in Names(cfg) && f.next !in Providers(l.attempts) && f.status.WorkerEscalating?)
  }

  // ---- Kept by every honest step ----------------------------------------------------------

  lemma TakeTurn(cfg: Config, l: Local)
    requires Turns(cfg, l.called) && NewTurn(cfg, l.called, l.provider) && Named(l.called, l.attempts)
    ensures Turns(cfg, l.called + [l.provider])
    ensures var called := l.called + [l.provider];
      called[|called| - 1] == l.provider && Named(called[..|called| - 1], l.attempts)
  {
    DistinctSnoc(l.called, l.provider);
    assert (l.called + [l.provider])[..|l.called|] == l.called;
  }

  lemma NameTurn(l: Local, r: Receipt)
    requires TurnTaken(l) && l.receipt == Some(r)
    ensures Named(l.called, l.attempts + [r])
  {
    var rs := l.attempts + [r];
    forall p | p in l.called ensures p in Providers(rs) {
      if p in l.called[..|l.called| - 1] {
        var q :| q in l.attempts && q.provider == p;
        assert q in rs;
      } else {
        assert r in rs;
      }
    }
  }

  ghost predicate LoopKept(cfg: Config, m: Move) { m.l.phase.Idle? || LoopOk(cfg, m.d.flow, m.l) }

  lemma HaltIdle(d: Durable, c: Choice)
    ensures forall event :: Halt(d, c, event).l == IDLE
  {
  }

  lemma StartLoops(cfg: Config, d: Durable, c: Choice)
    ensures LoopKept(cfg, Start(cfg, d, c))
  {
  }

  lemma LeaseTurn(cfg: Config, d: Durable, l: Local, c: Choice, p: string)
    requires Turns(cfg, l.called) && Named(l.called, l.attempts)
    requires l.called != [] ==> p != "" && NewTurn(cfg, l.called, p)
    ensures LoopKept(cfg, Lease(d, l, c, p))
  {
    hide Halt, Names, Turns, Named, NewTurn, TurnTaken;
    HaltIdle(d, c);
  }

  lemma NoTurns(cfg: Config, attempts: seq<Receipt>)
    ensures Turns(cfg, []) && Named([], attempts)
  {
  }

  lemma EnterLoops(cfg: Config, d: Durable, l: Local, c: Choice)
    requires l.phase.Entering? && LoopOk(cfg, d.flow, l)
    ensures LoopKept(cfg, Enter(cfg, d, l, c))
  {
    hide Halt, Lease, LoopOk, Turns, Named, FirstOf;
    assert l.called == [] by { EnteringNew(cfg, d.flow, l); }
    HaltIdle(d, c);
    var m := l.(attempts := d.flow.executions, execution := d.flow.execution);
    NoTurns(cfg, m.attempts);
    forall p ensures LoopKept(cfg, Lease(d, m, c, p)) { LeaseTurn(cfg, d, m, c, p); }
    Resumes(cfg, d.flow, m);
  }

  lemma EnteringNew(cfg: Config, f: Flow, l: Local)
    requires l.phase.Entering? && LoopOk(cfg, f, l)
    ensures l.called == []
  {
  }

  // A loop taken up again from its durable status has given no turn yet.
  lemma Resumes(cfg: Config, f: Flow, m: Local)
    requires m.called == []
    ensures LoopOk(cfg, f, m.(phase := Budgeting, entered := true))
    ensures LoopOk(cfg, f, m.(phase := Judging, entered := true, recovered := true)) && LoopOk(cfg, f, m.(phase := Finalizing))
  {
    NoTurns(cfg, m.attempts);
    hide Names, Turns, Named, NewTurn, TurnTaken;
  }

  lemma HoldLeaseLoops(cfg: Config, d: Durable, l: Local, c: Choice)
    requires l.phase.LeaseHeld? && LoopOk(cfg, d.flow, l)
    ensures LoopKept(cfg, HoldLease(d, l, c))
  {
    hide Halt, Names, Turns, TurnTaken, Named, NewTurn;
    HaltIdle(d, c);
  }

  lemma ReleaseLoops(cfg: Config, d: Durable, l: Local, c: Choice)
    requires l.phase.Releasing? && LoopOk(cfg, d.flow, l)
    ensures LoopKept(cfg, Release(d, l, c))
  {
    hide Halt, Lease, Turns, TurnTaken;
    HaltIdle(d, c);
    LeaseTurn(cfg, d, l, c, d.flow.next);
  }

  lemma BudgetLoops(cfg: Config, d: Durable, l: Local, c: Choice)
    requires l.phase.Budgeting? && LoopOk(cfg, d.flow, l)
    ensures LoopKept(cfg, Budget(cfg, d, l, c))
  {
    hide Halt, Names, Turns, TurnTaken, BudgetLeft, Named;
    HaltIdle(d, c);
  }

  // Between two writes of one pass, before the worker.
  lemma SamePass(cfg: Config, f: Flow, l: Local, m: Local)
    requires BeforeWorker(l.phase) && BeforeWorker(m.phase) && LoopOk(cfg, f, l)
    requires m == l.(phase := m.phase, projection := m.projection, verdict := m.verdict)
    ensures LoopOk(cfg, f, m)
  {
    hide Names, Turns, Named, NewTurn, TurnTaken;
  }

  lemma TurnGiven(cfg: Config, f: Flow, l: Local, p: Phase, r: Option<Receipt>)
    requires BeforeWorker(l.phase) && (p.Noting? || p.Receipting?) && LoopOk(cfg, f, l)
    requires r.Some? ==> r.value.provider == l.provider
    ensures LoopOk(cfg, f, l.(phase := p, receipt := r, called := l.called + [l.provider]))
  {
    TakeTurn(cfg, l);
    hide Names, Turns, Named, NewTurn;
  }

  lemma ProjectLoops(cfg: Config, d: Durable, l: Local, c: Choice)
    requires l.phase.Projecting? && LoopOk(cfg, d.flow, l)
    ensures LoopKept(cfg, Project(cfg, d, l, c))
  {
    hide Halt, LoopOk, Contained;
    HaltIdle(d, c);
    var next := l.(phase := if cfg.gated then Gating else Invoking);
    SamePass(cfg, d.flow, l, next.(projection := None));
    if l.provider in cfg.projections { SamePass(cfg, d.flow, l, next.(projection := Some(cfg.projections[l.provider]))); }
  }

  lemma GateLoops(cfg: Config, d: Durable, l: Local, c: Choice)
    requires l.phase.Gating? && LoopOk(cfg, d.flow, l)
    ensures LoopKept(cfg, Gate(cfg, d, l, c))
  {
    hide Halt, LoopOk, Observe;
    HaltIdle(d, c);
    HaltIdle(d.(watch := Observe(d.watch, c.observation)), c);
    SamePass(cfg, d.flow, l, l.(phase := Consuming, verdict := c.verdict));
  }

  lemma ConsumeLoops(cfg: Config, d: Durable, l: Local, c: Choice)
    requires l.phase.Consuming? && LoopOk(cfg, d.flow, l)
    ensures LoopKept(cfg, Consume(d, l, c))
  {
    hide Halt, LoopOk, Record;
    HaltIdle(d, c);
    SamePass(cfg, d.flow, l, l.(phase := Settling));
    SamePass(cfg, d.flow, l, l.(phase := Invoking));
  }

  lemma SettleLoops(cfg: Config, d: Durable, l: Local, c: Choice)
    requires l.phase.Settling? && LoopOk(cfg, d.flow, l) && Honest(l, c)
    ensures LoopKept(cfg, Settle(d, l, c))
  {
    hide Halt, LoopOk, Record, Usable;
    HaltIdle(d, c);
    SamePass(cfg, d.flow, l, l.(phase := Invoking));
    TurnGiven(cfg, d.flow, l, Receipting, c.receipt);
  }

  lemma InvokeLoops(cfg: Config, d: Durable, l: Local, c: Choice)
    requires l.phase.Invoking? && LoopOk(cfg, d.flow, l) && Honest(l, c)
    ensures LoopKept(cfg, Invoke(cfg, d, l, c))
  {
    hide Halt, LoopOk;
    HaltIdle(d, c);
    TurnGiven(cfg, d.flow, l, Receipting, c.receipt);
    TurnGiven(cfg, d.flow, l, Noting, c.receipt);
  }

  lemma NoteLoops(cfg: Config, d: Durable, l: Local, c: Choice)
    requires l.phase.Noting? && LoopOk(cfg, d.flow, l)
    ensures LoopKept(cfg, Note(d, l, c))
  {
    hide Halt, Names, Turns, Named, NewTurn, Record;
    HaltIdle(d, c);
  }

  lemma SettledLoops(cfg: Config, d: Durable, l: Local, c: Choice)
    requires l.phase.Receipting? && LoopOk(cfg, d.flow, l)
    ensures LoopKept(cfg, Settled(cfg, d, l, c))
  {
    hide Halt, Names, Turns, Named, NewTurn, WithinBudget;
    HaltIdle(d, c);
    if l.receipt.Some? { NameTurn(l, l.receipt.value); }
  }

  lemma Judged(cfg: Config, f: Flow, l: Local, next: string)
    requires l.phase.Judging? && LoopOk(cfg, f, l)
    ensures LoopOk(cfg, f, l.(phase := Finalizing))
    ensures next != "" && next in Names(cfg) && next !in Providers(l.attempts) ==>
      LoopOk(cfg, f.(status := WorkerEscalating, executions := l.attempts, next := next), l.(phase := Releasing))
  {
    hide Names, Turns, Named, NewTurn, TurnTaken, Providers;
  }

  lemma JudgeLoops(cfg: Config, d: Durable, l: Local, c: Choice)
    requires l.phase.Judging? && LoopOk(cfg, d.flow, l)
    ensures LoopKept(cfg, Judge(cfg, d, l, c))
  {
    hide Halt, LoopOk, Completed, Escalates, Providers, FirstOf;
    HaltIdle(d, c);
    if cfg.policy.Some? {
      var next := NextReady(cfg.policy.value, l.attempts, c.ready);
      Judged(cfg, d.flow, l, if next.Some? then next.value else "");
    } else {
      Judged(cfg, d.flow, l, "");
    }
  }

  lemma StepLoops(cfg: Config, w: World, c: Choice)
    requires (w.l.phase.Idle? || LoopOk(cfg, w.d.flow, w.l)) && Honest(w.l, c)
    ensures LoopKept(cfg, Step(cfg, w.d, w.l, c))
  {
    hide LoopOk, Start, Enter, HoldLease, Budget, Project, Gate, Consume, Settle, Invoke, Note, Settled, Judge, Release;
    match w.l.phase
    case Idle => StartLoops(cfg, w.d, c);
    case Entering => EnterLoops(cfg, w.d, w.l, c);
    case LeaseHeld => HoldLeaseLoops(cfg, w.d, w.l, c);
    case Budgeting => BudgetLoops(cfg, w.d, w.l, c);
    case Projecting => ProjectLoops(cfg, w.d, w.l, c);
    case Gating => GateLoops(cfg, w.d, w.l, c);
    case Consuming => ConsumeLoops(cfg, w.d, w.l, c);
    case Settling => SettleLoops(cfg, w.d, w.l, c);
    case Invoking => InvokeLoops(cfg, w.d, w.l, c);
    case Noting => NoteLoops(cfg, w.d, w.l, c);
    case Receipting => SettledLoops(cfg, w.d, w.l, c);
    case Judging => JudgeLoops(cfg, w.d, w.l, c);
    case Releasing => ReleaseLoops(cfg, w.d, w.l, c);
    case Finalizing =>
  }

  lemma {:induction false} RunLoops(cfg: Config, w: World, choices: seq<Choice>)
    requires w.l.phase.Idle? && AllHonest(cfg, w, choices)
    ensures var v := Run(cfg, w, choices); v.l.phase.Idle? || LoopOk(cfg, v.d.flow, v.l)
  {
    hide Step, LoopOk, Tallied, Honest;
    if choices != [] {
      var front := choices[..|choices| - 1];
      forall k | 0 <= k < |front| ensures Honest(Run(cfg, w, front[..k]).l, front[k]) { assert front[..k] == choices[..k]; }
      RunLoops(cfg, w, front);
      assert choices[..|front|] == front;
      StepLoops(cfg, Run(cfg, w, front), choices[|choices| - 1]);
    }
  }

  // ---- A call ends -------------------------------------------------------------------------

  function Rank(p: Phase): nat {
    match p
    case Idle => 0
    case Finalizing => 1
    case Invoking => 4
    case Settling => 5
    case Consuming => 6
    case Gating => 7
    case Projecting => 8
    case Budgeting => 9
    case LeaseHeld => 10
    case Releasing => 11
    case Judging => 12
    case Receipting => 13
    case Noting => 14
    case Entering => 15
  }

  // How far a call still can go: the turns left, then the phases left of this one.
  function Measure(cfg: Config, l: Local): int { 16 * (|Names(cfg)| + 1 - |l.called|) + Rank(l.phase) }

  lemma {:induction false} DistinctWithin(xs: seq<string>, s: set<string>)
    requires Distinct(xs) && forall x | x in xs :: x in s
    ensures |xs| <= |s|
  {
    if xs != [] {
      var (front, last) := (xs[..|xs| - 1], xs[|xs| - 1]);
      assert xs == front + [last];
      DistinctSnoc(front, last);
      assert last in xs && forall x | x in front :: x in xs;
      DistinctWithin(front, s - {last});
    }
  }

  lemma TurnsBounded(cfg: Config, called: seq<string>)
    requires Turns(cfg, called)
    ensures |called| <= |Names(cfg)| + 1
  {
    if called != [] {
      var rest := called[1..];
      forall x | x in rest ensures x in Names(cfg) {
        var i :| 0 <= i < |rest| && rest[i] == x;
        assert called[i + 1] == x;
      }
      forall i, j | 0 <= i < j < |rest| ensures rest[i] != rest[j] { assert called[i + 1] != called[j + 1]; }
      DistinctWithin(rest, Names(cfg));
    }
  }

  ghost predicate Nearer(cfg: Config, l: Local, m: Move) { m.l.phase.Idle? || Measure(cfg, m.l) < Measure(cfg, l) }

  lemma LeaseIdleOrHeld(d: Durable, l: Local, c: Choice, p: string)
    ensures var m := Lease(d, l, c, p); m.l.phase.Idle? || m.l == l.(phase := LeaseHeld)
  {
  }

  lemma EnterNearer(cfg: Config, d: Durable, l: Local, c: Choice)
    requires l.phase.Entering?
    ensures Nearer(cfg, l, Enter(cfg, d, l, c))
  {
    hide Halt, Measure, Lease, FirstOf;
    HaltIdle(d, c);
    var m := l.(attempts := d.flow.executions, execution := d.flow.execution);
    forall p { LeaseIdleOrHeld(d, m, c, p); }
    Downhill(cfg, l, m.(phase := LeaseHeld));
    Downhill(cfg, l, m.(phase := Budgeting, entered := true));
    Downhill(cfg, l, m.(phase := Judging, entered := true, recovered := true));
    Downhill(cfg, l, m.(phase := Finalizing));
  }

  lemma Downhill(cfg: Config, l: Local, m: Local)
    requires m.called == l.called && Rank(m.phase) < Rank(l.phase)
    ensures Measure(cfg, m) < Measure(cfg, l)
  {
    hide Names;
  }

  lemma HoldLeaseNearer(cfg: Config, d: Durable, l: Local, c: Choice)
    requires l.phase.LeaseHeld?
    ensures Nearer(cfg, l, HoldLease(d, l, c))
  {
    hide Halt, Names;
    HaltIdle(d, c);
  }

  lemma ReleaseNearer(cfg: Config, d: Durable, l: Local, c: Choice)
    requires l.phase.Releasing?
    ensures Nearer(cfg, l, Release(d, l, c))
  {
    hide Halt, Names, Lease;
    HaltIdle(d, c);
    LeaseIdleOrHeld(d, l, c, d.flow.next);
  }

  lemma BudgetNearer(cfg: Config, d: Durable, l: Local, c: Choice)
    requires l.phase.Budgeting?
    ensures Nearer(cfg, l, Budget(cfg, d, l, c))
  {
    hide Halt, Names, BudgetLeft;
    HaltIdle(d, c);
  }

  lemma ProjectNearer(cfg: Config, d: Durable, l: Local, c: Choice)
    requires l.phase.Projecting?
    ensures Nearer(cfg, l, Project(cfg, d, l, c))
  {
    hide Halt, Names, Projectable;
    HaltIdle(d, c);
  }

  lemma GateNearer(cfg: Config, d: Durable, l: Local, c: Choice)
    requires l.phase.Gating?
    ensures Nearer(cfg, l, Gate(cfg, d, l, c))
  {
    hide Halt, Names, Observe;
    HaltIdle(d, c);
    HaltIdle(d.(watch := Observe(d.watch, c.observation)), c);
  }

  lemma ConsumeNearer(cfg: Config, d: Durable, l: Local, c: Choice)
    requires l.phase.Consuming?
    ensures Nearer(cfg, l, Consume(d, l, c))
  {
    hide Halt, Names, Record;
    HaltIdle(d, c);
  }

  lemma SettleNearer(cfg: Config, d: Durable, l: Local, c: Choice)
    requires l.phase.Settling?
    ensures Nearer(cfg, l, Settle(d, l, c))
  {
    hide Halt, Names, Record, Usable;
    HaltIdle(d, c);
  }

  lemma InvokeNearer(cfg: Config, d: Durable, l: Local, c: Choice)
    requires l.phase.Invoking?
    ensures Nearer(cfg, l, Invoke(cfg, d, l, c))
  {
    hide Halt, Names;
    HaltIdle(d, c);
  }

  lemma NoteNearer(cfg: Config, d: Durable, l: Local, c: Choice)
    requires l.phase.Noting?
    ensures Nearer(cfg, l, Note(d, l, c))
  {
    hide Halt, Names, Record;
    HaltIdle(d, c);
  }

  lemma SettledNearer(cfg: Config, d: Durable, l: Local, c: Choice)
    requires l.phase.Receipting?
    ensures Nearer(cfg, l, Settled(cfg, d, l, c))
  {
    hide Halt, Names, WithinBudget;
    HaltIdle(d, c);
  }

  lemma JudgeNearer(cfg: Config, d: Durable, l: Local, c: Choice)
    requires l.phase.Judging?
    ensures Nearer(cfg, l, Judge(cfg, d, l, c))
  {
    hide Halt, Measure, Completed, Escalates, NextReady, Latest;
    HaltIdle(d, c);
    Downhill(cfg, l, l.(phase := Finalizing));
    Downhill(cfg, l, l.(phase := Releasing));
  }

  lemma FinishNearer(cfg: Config, d: Durable, l: Local, c: Choice)
    requires l.phase.Finalizing?
    ensures Nearer(cfg, l, Finish(d, c))
  {
    hide Halt, Names;
    HaltIdle(d, c);
  }

  lemma StepNearer(cfg: Config, w: World, c: Choice)
    requires !w.l.phase.Idle?
    ensures Nearer(cfg, w.l, Step(cfg, w.d, w.l, c))
  {
    hide Nearer, Start, Enter, HoldLease, Budget, Project, Gate, Consume, Settle, Invoke, Note, Settled, Judge, Release, Finish;
    match w.l.phase
    case Entering => EnterNearer(cfg, w.d, w.l, c);
    case LeaseHeld => HoldLeaseNearer(cfg, w.d, w.l, c);
    case Budgeting => BudgetNearer(cfg, w.d, w.l, c);
    case Projecting => ProjectNearer(cfg, w.d, w.l, c);
    case Gating => GateNearer(cfg, w.d, w.l, c);
    case Consuming => ConsumeNearer(cfg, w.d, w.l, c);
    case Settling => SettleNearer(cfg, w.d, w.l, c);
    case Invoking => InvokeNearer(cfg, w.d, w.l, c);
    case Noting => NoteNearer(cfg, w.d, w.l, c);
    case Receipting => SettledNearer(cfg, w.d, w.l, c);
    case Judging => JudgeNearer(cfg, w.d, w.l, c);
    case Releasing => ReleaseNearer(cfg, w.d, w.l, c);
    case Finalizing => FinishNearer(cfg, w.d, w.l, c);
  }

  lemma StartMeasure(cfg: Config, d: Durable, c: Choice)
    ensures Start(cfg, d, c).l.phase.Idle? || Measure(cfg, Start(cfg, d, c).l) == 16 * (|Names(cfg)| + 1) + 15
  {
    hide Names;
  }

  lemma {:induction false} CallMeasure(cfg: Config, w: World, choices: seq<Choice>)
    requires OneCall(cfg, w, choices)
    ensures Measure(cfg, Run(cfg, w, choices).l) + |choices| <= 16 * (|Names(cfg)| + 2)
  {
    hide Step, Tallied, Measure, Names;
    var front := choices[..|choices| - 1];
    assert choices[..|choices|] == choices && Run(cfg, w, choices) == Next(cfg, Run(cfg, w, front), choices[|choices| - 1]);
    if front == [] {
      assert Run(cfg, w, front) == w;
      StartMeasure(cfg, w.d, choices[0]);
      assert Step(cfg, w.d, w.l, choices[0]) == Start(cfg, w.d, choices[0]) by { FromIdle(cfg, w, choices[0]); }
    } else {
      forall k | 1 <= k <= |front| ensures !Run(cfg, w, front[..k]).l.phase.Idle? { assert front[..k] == choices[..k]; }
      assert front[..|front|] == front;
      CallMeasure(cfg, w, front);
      StepNearer(cfg, Run(cfg, w, front), choices[|choices| - 1]);
    }
  }

  lemma FromIdle(cfg: Config, w: World, c: Choice)
    requires w.l.phase.Idle?
    ensures Step(cfg, w.d, w.l, c) == Start(cfg, w.d, c)
  {
    hide Start;
  }

  // One call gives each provider at most one turn, worker or deterministic resolution, so no
  // worker is called for a provider that has had its turn; and the call is over within a
  // bound given by the number of providers in the policy, whatever the receipts report.
  lemma HonestCallEnds(cfg: Config, w: World, choices: seq<Choice>, c: Choice)
    requires OneCall(cfg, w, choices) && AllHonest(cfg, w, choices)
    ensures var v := Run(cfg, w, choices);
      && Distinct(v.l.called) && |v.l.called| <= |Names(cfg)| + 1 && |choices| <= 16 * (|Names(cfg)| + 2)
      && (EventOf(cfg, v, c).Some? && EventOf(cfg, v, c).value.WorkerCalled? ==>
          EventOf(cfg, v, c).value.provider !in v.l.called)
  {
    var v := Run(cfg, w, choices);
    RunLoops(cfg, w, choices);
    CallMeasure(cfg, w, choices);
    assert choices[..|choices|] == choices;
    EventPhase(cfg, v, c);
    TurnsBounded(cfg, v.l.called);
    hide Run, EventOf, Names, AllHonest, Named, TurnTaken;
  }

  // ---- However receipts are named: idle turns ---------------------------------------------------

  // A turn that brings the call no nearer to its end: its receipt does not name a provider
  // of the policy for the first time, and claims neither a call nor an attempt.
  predicate Idles(cfg: Config, past: seq<Receipt>, r: Receipt) {
    && !(r.provider in Names(cfg) && r.provider !in Providers(past))
    && r.calls <= 0 && Reported(r.attempts) == 0
  }

  // The idle turns among the receipts after the first `k`.
  function IdleTurns(cfg: Config, k: nat, rs: seq<Receipt>): (n: nat)
    requires k <= |rs|
    ensures n <= |rs| - k
  {
    if k == |rs| then 0
    else
      var front := rs[..|rs| - 1];
      IdleTurns(cfg, k, front) + One(Idles(cfg, front, rs[|rs| - 1]))
  }

  function NamedOf(cfg: Config, rs: seq<Receipt>): set<string> { Names(cfg) * Providers(rs) }

  lemma OneMoreReceipt(cfg: Config, rs: seq<Receipt>, r: Receipt)
    ensures NamedOf(cfg, rs + [r]) == NamedOf(cfg, rs) + (if r.provider in Names(cfg) then {r.provider} else {})
    ensures CallsOf(rs + [r]) == CallsOf(rs) + (if r.calls > 0 then r.calls else 0)
    ensures AttemptsOf(rs + [r]) == AttemptsOf(rs) + Reported(r.attempts)
  {
    assert (rs + [r])[..|rs|] == rs;
    hide Names;
    assert Providers(rs + [r]) == Providers(rs) + {r.provider} by { ProvidersAdd(rs, r); }
  }

  lemma ProvidersAdd(rs: seq<Receipt>, r: Receipt)
    ensures Providers(rs + [r]) == Providers(rs) + {r.provider}
  {
    assert forall x :: x in rs + [r] <==> x in rs || x == r;
  }

  lemma Paid(cfg: Config, rs: seq<Receipt>, r: Receipt)
    ensures |NamedOf(cfg, rs + [r])| + CallsOf(rs + [r]) + AttemptsOf(rs + [r]) + One(Idles(cfg, rs, r))
      > |NamedOf(cfg, rs)| + CallsOf(rs) + AttemptsOf(rs)
  {
    hide Names, CallsOf, AttemptsOf, Providers;
    OneMoreReceipt(cfg, rs, r);
    var (before, after) := (NamedOf(cfg, rs), NamedOf(cfg, rs + [r]));
    SubsetSize(before, after);
    if r.provider in Names(cfg) && r.provider !in Providers(rs) { assert |before + {r.provider}| == |before| + 1; }
  }

  // Every turn names a new provider, spends, or idles.
  lemma {:induction false} TurnsPaid(cfg: Config, k: nat, rs: seq<Receipt>)
    requires k <= |rs|
    ensures |rs| - k <= |NamedOf(cfg, rs)| + CallsOf(rs) + AttemptsOf(rs) + IdleTurns(cfg, k, rs)
  {
    hide NamedOf, CallsOf, AttemptsOf, Idles;
    if k < |rs| {
      var (front, last) := (rs[..|rs| - 1], rs[|rs| - 1]);
      assert rs == front + [last];
      TurnsPaid(cfg, k, front);
      Paid(cfg, front, last);
    } else {
      Spent(rs);
    }
  }

  lemma {:induction false} Spent(rs: seq<Receipt>)
    ensures CallsOf(rs) >= 0 && AttemptsOf(rs) >= 0
  {
    if rs != [] { Spent(rs[..|rs| - 1]); }
  }

  // Where a call stands that began on the receipts `past`.
  ghost predicate CallOk(cfg: Config, past: seq<Receipt>, f: Flow, l: Local) {
    && (l.phase.Entering? ==> l.called == [] && f.executions == past)
    && (Loaded(l.phase) ==>
        && l.attempts == f.executions && past <= l.attempts
        && |l.called| == |l.attempts| - |past| + One(l.phase.Noting? || l.phase.Receipting?))
    && (InPass(l.phase) ==> BudgetLeft(cfg, l.attempts))
    && (l.called != [] ==> Respected(cfg, l.attempts))
  }

  ghost predicate CallKept(cfg: Config, past: seq<Receipt>, m: Move) { m.l.phase.Idle? || CallOk(cfg, past, m.d.flow, m.l) }

  lemma LeaseCalls(cfg: Config, past: seq<Receipt>, d: Durable, l: Local, c: Choice, p: string)
    requires l.attempts == d.flow.executions && past <= l.attempts && |l.called| == |l.attempts| - |past|
    requires l.called != [] ==> Respected(cfg, l.attempts)
    ensures CallKept(cfg, past, Lease(d, l, c, p))
  {
    hide Halt, Respected;
    HaltIdle(d, c);
  }

  lemma EnterCalls(cfg: Config, past: seq<Receipt>, d: Durable, l: Local, c: Choice)
    requires l.phase.Entering? && CallOk(cfg, past, d.flow, l)
    ensures CallKept(cfg, past, Enter(cfg, d, l, c))
  {
    hide Halt, Lease, FirstOf, Respected, BudgetLeft;
    HaltIdle(d, c);
    forall p { LeaseCalls(cfg, past, d, l.(attempts := d.flow.executions, execution := d.flow.execution), c, p); }
  }

  lemma BudgetCalls(cfg: Config, past: seq<Receipt>, d: Durable, l: Local, c: Choice)
    requires l.phase.Budgeting? && CallOk(cfg, past, d.flow, l)
    ensures CallKept(cfg, past, Budget(cfg, d, l, c))
  {
    hide Halt, BudgetLeft, Respected;
    HaltIdle(d, c);
  }

  // A step that leaves receipts and turns alone.
  lemma SameCall(cfg: Config, past: seq<Receipt>, f: Flow, l: Local, m: Local)
    requires CallOk(cfg, past, f, l) && Loaded(l.phase) && Loaded(m.phase) && m.attempts == l.attempts && m.called == l.called
    requires InPass(m.phase) ==> InPass(l.phase)
    requires (m.phase.Noting? || m.phase.Receipting?) <==> (l.phase.Noting? || l.phase.Receipting?)
    ensures forall g: Flow | g.executions == f.executions :: CallOk(cfg, past, g, m)
  {
    hide BudgetLeft, Respected;
  }

  lemma TurnCalls(cfg: Config, past: seq<Receipt>, f: Flow, l: Local, m: Local)
    requires CallOk(cfg, past, f, l) && BeforeWorker(l.phase) && m.attempts == l.attempts && m.called == l.called + [l.provider]
    requires m.phase.Noting? || m.phase.Receipting?
    ensures CallOk(cfg, past, f, m)
  {
    hide CallsOf, AttemptsOf;
  }

  lemma ProjectCalls(cfg: Config, past: seq<Receipt>, d: Durable, l: Local, c: Choice)
    requires l.phase.Projecting? && CallOk(cfg, past, d.flow, l)
    ensures CallKept(cfg, past, Project(cfg, d, l, c))
  {
    hide Halt, CallOk, Contained;
    HaltIdle(d, c);
    var next := l.(phase := if cfg.gated then Gating else Invoking);
    SameCall(cfg, past, d.flow, l, next.(projection := None));
    if l.provider in cfg.projections { SameCall(cfg, past, d.flow, l, next.(projection := Some(cfg.projections[l.provider]))); }
  }

  lemma GateCalls(cfg: Config, past: seq<Receipt>, d: Durable, l: Local, c: Choice)
    requires l.phase.Gating? && CallOk(cfg, past, d.flow, l)
    ensures CallKept(cfg, past, Gate(cfg, d, l, c))
  {
    hide Halt, CallOk, Observe;
    HaltIdle(d, c);
    HaltIdle(d.(watch := Observe(d.watch, c.observation)), c);
    SameCall(cfg, past, d.flow, l, l.(phase := Consuming, verdict := c.verdict));
  }

  lemma ConsumeCalls(cfg: Config, past: seq<Receipt>, d: Durable, l: Local, c: Choice)
    requires l.phase.Consuming? && CallOk(cfg, past, d.flow, l)
    ensures CallKept(cfg, past, Consume(d, l, c))
  {
    hide Halt, CallOk, Record;
    HaltIdle(d, c);
    SameCall(cfg, past, d.flow, l, l.(phase := Settling));
    SameCall(cfg, past, d.flow, l, l.(phase := Invoking));
  }

  lemma WorkerCalls(cfg: Config, past: seq<Receipt>, d: Durable, l: Local, c: Choice)
    requires CallOk(cfg, past, d.flow, l)
    ensures l.phase.Settling? ==> CallKept(cfg, past, Settle(d, l, c))
    ensures l.phase.Invoking? ==> CallKept(cfg, past, Invoke(cfg, d, l, c))
    ensures l.phase.Noting? ==> CallKept(cfg, past, Note(d, l, c))
  {
    hide Halt, CallOk, Usable, Record, BudgetLeft, Respected;
    HaltIdle(d, c);
    if BeforeWorker(l.phase) {
      SameCall(cfg, past, d.flow, l, l.(phase := Invoking));
      forall p: Phase | p.Noting? || p.Receipting? {
        TurnCalls(cfg, past, d.flow, l, l.(phase := p, receipt := c.receipt, called := l.called + [l.provider]));
      }
    }
    if l.phase.Noting? { SameCall(cfg, past, d.flow, l, l.(phase := Receipting)); }
  }

  lemma SettledCalls(cfg: Config, past: seq<Receipt>, d: Durable, l: Local, c: Choice)
    requires l.phase.Receipting? && CallOk(cfg, past, d.flow, l)
    ensures CallKept(cfg, past, Settled(cfg, d, l, c))
  {
    hide Halt, WithinBudget, BudgetLeft, Respected;
    HaltIdle(d, c);
    if l.receipt.Some? && WithinBudget(cfg, l.attempts, l.receipt.value) { ReceiptSpends(cfg, l.attempts, l.receipt.value); }
  }

  lemma JudgeCalls(cfg: Config, past: seq<Receipt>, d: Durable, l: Local, c: Choice)
    requires l.phase.Judging? && CallOk(cfg, past, d.flow, l)
    ensures CallKept(cfg, past, Judge(cfg, d, l, c))
  {
    hide Halt, Completed, Escalates, NextReady, CallOk, Latest;
    HaltIdle(d, c);
    assert l.attempts == d.flow.executions by { JudgingLoaded(cfg, past, d.flow, l); }
    SameCall(cfg, past, d.flow, l, l.(phase := Finalizing));
    SameCall(cfg, past, d.flow, l, l.(phase := Releasing));
  }

  lemma JudgingLoaded(cfg: Config, past: seq<Receipt>, f: Flow, l: Local)
    requires l.phase.Judging? && CallOk(cfg, past, f, l)
    ensures l.attempts == f.executions
  {
    hide Respected;
  }

  lemma LeasedCalls(cfg: Config, past: seq<Receipt>, d: Durable, l: Local, c: Choice)
    requires CallOk(cfg, past, d.flow, l)
    ensures l.phase.LeaseHeld? ==> CallKept(cfg, past, HoldLease(d, l, c))
    ensures l.phase.Releasing? ==> CallKept(cfg, past, Release(d, l, c))
  {
    hide Halt, Lease, Respected;
    HaltIdle(d, c);
    if l.phase.Releasing? { LeaseCalls(cfg, past, d, l, c, d.flow.next); }
  }

  lemma StepCalls(cfg: Config, past: seq<Receipt>, w: World, c: Choice)
    requires !w.l.phase.Idle? && CallOk(cfg, past, w.d.flow, w.l)
    ensures CallKept(cfg, past, Step(cfg, w.d, w.l, c))
  {
    hide CallOk, Start, Enter, HoldLease, Budget, Project, Gate, Consume, Settle, Invoke, Note, Settled, Judge, Release;
    WorkerCalls(cfg, past, w.d, w.l, c);
    LeasedCalls(cfg, past, w.d, w.l, c);
    match w.l.phase
    case Entering => EnterCalls(cfg, past, w.d, w.l, c);
    case Budgeting => BudgetCalls(cfg, past, w.d, w.l, c);
    case Projecting => ProjectCalls(cfg, past, w.d, w.l, c);
    case Gating => GateCalls(cfg, past, w.d, w.l, c);
    case Consuming => ConsumeCalls(cfg, past, w.d, w.l, c);
    case Receipting => SettledCalls(cfg, past, w.d, w.l, c);
    case Judging => JudgeCalls(cfg, past, w.d, w.l, c);
    case _ =>
  }

  lemma StartCalls(cfg: Config, d: Durable, c: Choice)
    ensures CallKept(cfg, d.flow.executions, Start(cfg, d, c))
  {
    hide AuthorizationHolds;
  }

  lemma {:induction false} RunCalls(cfg: Config, w: World, choices: seq<Choice>)
    requires OneCall(cfg, w, choices)
    ensures var v := Run(cfg, w, choices); CallOk(cfg, w.d.flow.executions, v.d.flow, v.l)
  {
    hide Step, Tallied, CallOk;
    var front := choices[..|choices| - 1];
    assert choices[..|choices|] == choices && Run(cfg, w, choices) == Next(cfg, Run(cfg, w, front), choices[|choices| - 1]);
    if front == [] {
      assert Run(cfg, w, front) == w;
      FromIdle(cfg, w, choices[0]);
      StartCalls(cfg, w.d, choices[0]);
    } else {
      forall k | 1 <= k <= |front| ensures !Run(cfg, w, front[..k]).l.phase.Idle? { assert front[..k] == choices[..k]; }
      assert front[..|front|] == front;
      RunCalls(cfg, w, front);
      StepCalls(cfg, w.d.flow.executions, Run(cfg, w, front), choices[|choices| - 1]);
    }
  }

  // The idle turns of a call so far.
  ghost function IdleSoFar(cfg: Config, w: World, choices: seq<Choice>): nat
    requires OneCall(cfg, w, choices)
  {
    RunCalls(cfg, w, choices);
    assert choices[..|choices|] == choices;
    var l := Run(cfg, w, choices).l;
    if l.phase.Entering? then 0 else IdleTurns(cfg, |w.d.flow.executions|, l.attempts)
  }

  // Any call, whatever its receipts say: it takes at most one turn for each provider of the
  // policy, each call and each attempt of the budgets, each idle turn, and one under way; no
  // more turns idle than are taken; and between turns it takes boundedly many steps.
  lemma TurnsAreBounded(cfg: Config, w: World, choices: seq<Choice>)
    requires OneCall(cfg, w, choices)
    ensures var (l, idle) := (Run(cfg, w, choices).l, IdleSoFar(cfg, w, choices));
      && (l.called != [] ==> |l.called| <= |Names(cfg)| + 1 + MaximumCalls(cfg) + cfg.ceiling + idle)
      && idle <= |l.called| && |choices| <= 16 * (|l.called| + 1)
  {
    hide Run, Names, CallsOf, AttemptsOf, MaximumCalls;
    RunCalls(cfg, w, choices);
    assert choices[..|choices|] == choices;
    CallMeasure(cfg, w, choices);
    var (l, k) := (Run(cfg, w, choices).l, |w.d.flow.executions|);
    if !l.phase.Entering? {
      TurnsPaid(cfg, k, l.attempts);
      SubsetSize(NamedOf(cfg, l.attempts), Names(cfg));
    }
  }

  ghost predicate CanTurn(cfg: Config, w: World, n: nat) {
    exists choices :: OneCall(cfg, w, choices) && |Run(cfg, w, choices).l.called| >= n
  }

  ghost predicate CanIdle(cfg: Config, w: World, n: nat) {
    exists choices :: OneCall(cfg, w, choices) && IdleSoFar(cfg, w, choices) >= n
  }

  // So a call can take any number of turns exactly when it can idle any number of times.
  lemma EndlessIffIdle(cfg: Config, w: World)
    ensures (forall n: nat :: CanTurn(cfg, w, n)) <==> (forall n: nat :: CanIdle(cfg, w, n))
  {
    hide OneCall, IdleSoFar, Run, Names;
    var most := |Names(cfg)| + 1 + Positive(MaximumCalls(cfg)) + Positive(cfg.ceiling);
    if forall n: nat :: CanTurn(cfg, w, n) {
      forall n: nat ensures CanIdle(cfg, w, n) {
        assert CanTurn(cfg, w, most + n + 1);
        var choices :| OneCall(cfg, w, choices) && |Run(cfg, w, choices).l.called| >= most + n + 1;
        TurnsAreBounded(cfg, w, choices);
      }
    }
    if forall n: nat :: CanIdle(cfg, w, n) {
      forall n: nat ensures CanTurn(cfg, w, n) {
        assert CanIdle(cfg, w, n);
        var choices :| OneCall(cfg, w, choices) && IdleSoFar(cfg, w, choices) >= n;
        TurnsAreBounded(cfg, w, choices);
      }
    }
  }

  function Positive(n: int): nat { if n > 0 then n else 0 }

  // ---- And why it must be honest --------------------------------------------------------------

  const MISNAMED := Receipt("c", Incomplete, false, false, "", false, false, false, 0, None)

  function Misnaming(hash: Authorization -> string): Config {
    Config(false, 1, 1, ["a"], "a", Some(["b"]), false, None, hash, map[], false, false, false, false)
  }

  const ON := Choice(Go, false, _ => true, true, ModelNeeded, Some(MISNAMED), false, Observation("", Insufficient), false)

  // The loop at one of its phases after `n` turns, every receipt misnamed.
  ghost predicate At(w: World, n: nat, p: Phase) {
    && w.l.phase == p && w.l.authorization.None? && |w.l.called| == n
    && w.l.attempts == w.d.flow.executions && (forall r | r in w.l.attempts :: r == MISNAMED)
    && (p.Receipting? ==> w.l.receipt == Some(MISNAMED)) && (p.Judging? || p.Releasing? ==> w.l.attempts != [])
  }

  lemma {:induction false} MisnamedSpendNothing(rs: seq<Receipt>)
    requires forall r | r in rs :: r == MISNAMED
    ensures CallsOf(rs) == 0 && AttemptsOf(rs) == 0
  {
    if rs != [] {
      var front := rs[..|rs| - 1];
      assert rs == front + [rs[|rs| - 1]] && rs[|rs| - 1] in rs;
      forall r | r in front ensures r == MISNAMED { assert r in rs; }
      MisnamedSpendNothing(front);
    }
  }

  lemma MisnamedEscalates(rs: seq<Receipt>)
    requires rs != [] && forall r | r in rs :: r == MISNAMED
    ensures !Completed(rs[|rs| - 1]) && Escalates(["b"], rs) && NextReady(["b"], rs, ON.ready) == Some("b")
  {
    assert rs[|rs| - 1] in rs;
    assert Providers(rs) == {"c"};
    assert ["b"][0] == "b";
  }

  lemma FromBudgeting(hash: Authorization -> string, w: World, n: nat)
    requires At(w, n, Budgeting)
    ensures At(Next(Misnaming(hash), w, ON), n, Projecting)
  {
    MisnamedSpendNothing(w.l.attempts);
    hide Tallied, CallsOf, AttemptsOf;
    StepIs(Misnaming(hash), w);
  }

  lemma StepIs(cfg: Config, w: World)
    ensures var m := Step(cfg, w.d, w.l, ON);
      match w.l.phase
      case Idle => m == Start(cfg, w.d, ON)
      case Entering => m == Enter(cfg, w.d, w.l, ON)
      case LeaseHeld => m == HoldLease(w.d, w.l, ON)
      case Budgeting => m == Budget(cfg, w.d, w.l, ON)
      case Projecting => m == Project(cfg, w.d, w.l, ON)
      case Invoking => m == Invoke(cfg, w.d, w.l, ON)
      case Receipting => m == Settled(cfg, w.d, w.l, ON)
      case Judging => m == Judge(cfg, w.d, w.l, ON)
      case Releasing => m == Release(w.d, w.l, ON)
      case _ => true
  {
    hide Start, Enter, HoldLease, Budget, Project, Gate, Consume, Settle, Invoke, Note, Settled, Judge, Release, Finish;
  }

  lemma FromProjecting(hash: Authorization -> string, w: World, n: nat)
    requires At(w, n, Projecting)
    ensures At(Next(Misnaming(hash), w, ON), n, Invoking)
  {
    hide Step, Tallied;
    StepIs(Misnaming(hash), w);
  }

  lemma FromInvoking(hash: Authorization -> string, w: World, n: nat)
    requires At(w, n, Invoking)
    ensures At(Next(Misnaming(hash), w, ON), n + 1, Receipting)
  {
    hide Step, Tallied;
    StepIs(Misnaming(hash), w);
  }

  lemma FromReceipting(hash: Authorization -> string, w: World, n: nat)
    requires At(w, n, Receipting)
    ensures At(Next(Misnaming(hash), w, ON), n, Judging)
  {
    hide Step, Tallied, CallsOf, AttemptsOf;
    MisnamedSpendNothing(w.l.attempts);
    StepIs(Misnaming(hash), w);
  }

  lemma FromJudging(hash: Authorization -> string, w: World, n: nat)
    requires At(w, n, Judging)
    ensures At(Next(Misnaming(hash), w, ON), n, Releasing)
  {
    hide Step, Tallied, Completed, Escalates, NextReady;
    MisnamedEscalates(w.l.attempts);
    StepIs(Misnaming(hash), w);
    assert "b" != "";
  }

  lemma FromReleasing(hash: Authorization -> string, w: World, n: nat)
    requires At(w, n, Releasing)
    ensures At(Next(Misnaming(hash), w, ON), n, LeaseHeld)
  {
    hide Step, Tallied;
    StepIs(Misnaming(hash), w);
  }

  lemma FromLeaseHeld(hash: Authorization -> string, w: World, n: nat)
    requires At(w, n, LeaseHeld)
    ensures At(Next(Misnaming(hash), w, ON), n, Budgeting)
  {
    hide Step, Tallied;
    StepIs(Misnaming(hash), w);
  }

  function Ons(m: nat): seq<Choice> { seq(m, _ => ON) }

  lemma OneMore(cfg: Config, w: World, m: nat)
    ensures Run(cfg, w, Ons(m + 1)) == Next(cfg, Run(cfg, w, Ons(m)), ON)
  {
    assert Ons(m + 1)[..m] == Ons(m);
    hide Next;
  }

  // Seven steps take the loop once round.
  lemma OnceRound(hash: Authorization -> string, w: World, m: nat, n: nat)
    requires At(Run(Misnaming(hash), w, Ons(m)), n, Budgeting)
    ensures At(Run(Misnaming(hash), w, Ons(m + 7)), n + 1, Budgeting)
  {
    hide Next, Run, At, Ons;
    var cfg := Misnaming(hash);
    forall k | m <= k < m + 7 { OneMore(cfg, w, k); }
    FromBudgeting(hash, Run(cfg, w, Ons(m)), n);
    OneMore(cfg, w, m);
    FromProjecting(hash, Run(cfg, w, Ons(m + 1)), n);
    OneMore(cfg, w, m + 1);
    FromInvoking(hash, Run(cfg, w, Ons(m + 2)), n);
    OneMore(cfg, w, m + 2);
    FromReceipting(hash, Run(cfg, w, Ons(m + 3)), n + 1);
    OneMore(cfg, w, m + 3);
    FromJudging(hash, Run(cfg, w, Ons(m + 4)), n + 1);
    OneMore(cfg, w, m + 4);
    FromReleasing(hash, Run(cfg, w, Ons(m + 5)), n + 1);
    OneMore(cfg, w, m + 5);
    FromLeaseHeld(hash, Run(cfg, w, Ons(m + 6)), n + 1);
    OneMore(cfg, w, m + 6);
  }

  function FreshSubmission(): World {
    Begin(Durable(Flow(Submitted, [], None, "", ""), Envelope(None, "", map[]), false,
                  Ledger([], Totals(0, 0, 0, false)), Watch([], 0, 0, 0, 0)))
  }

  ghost predicate Submitting(w: World) {
    w.d == FreshSubmission().d && w.l == IDLE.(phase := Entering, submitted := true, create := true)
  }

  lemma FromFresh(hash: Authorization -> string)
    ensures Submitting(Next(Misnaming(hash), FreshSubmission(), ON))
  {
    hide Step, Tallied;
    StepIs(Misnaming(hash), FreshSubmission());
  }

  lemma FromEntering(hash: Authorization -> string, w: World)
    requires Submitting(w)
    ensures At(Next(Misnaming(hash), w, ON), 0, LeaseHeld)
  {
    hide Step, Tallied;
    StepIs(Misnaming(hash), w);
  }

  lemma Launched(hash: Authorization -> string)
    ensures At(Run(Misnaming(hash), FreshSubmission(), Ons(3)), 0, Budgeting)
  {
    hide Next, At, Submitting, Misnaming, FreshSubmission;
    var (cfg, w) := (Misnaming(hash), FreshSubmission());
    assert Ons(0) == [] && Run(cfg, w, Ons(0)) == w;
    OneMore(cfg, w, 0);
    OneMore(cfg, w, 1);
    OneMore(cfg, w, 2);
    FromFresh(hash);
    FromEntering(hash, Next(cfg, w, ON));
    FromLeaseHeld(hash, Next(cfg, Next(cfg, w, ON), ON), 0);
  }

  // With receipts that name another provider and claim no calls, one call goes on for as
  // many turns as one likes, with a budget of one call and a ceiling of one attempt.
  lemma {:induction false} MisnamedReceiptsNeverEnd(hash: Authorization -> string, n: nat)
    ensures var v := Run(Misnaming(hash), FreshSubmission(), Ons(3 + 7 * n));
      |v.l.called| == n && v.l.phase.Budgeting?
    ensures At(Run(Misnaming(hash), FreshSubmission(), Ons(3 + 7 * n)), n, Budgeting)
  {
    hide Next, Run, Ons, FreshSubmission, Misnaming;
    if n == 0 {
      Launched(hash);
    } else {
      MisnamedReceiptsNeverEnd(hash, n - 1);
      assert 3 + 7 * (n - 1) + 7 == 3 + 7 * n;
      OnceRound(hash, FreshSubmission(), 3 + 7 * (n - 1), n - 1);
    }
  }
}
