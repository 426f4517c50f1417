// Runs of the coordinator: any number of calls, each cut short anywhere, over one
// durable state; and the budgets, the accounting and the observer over such runs.
module CoordinatorRuns {
  import opened Text
  import opened Escalation
  import opened Coordinator

  // What has happened so far, counted from outside: preparations, gate evaluations and
  // gated worker calls; and the gate evaluations and worker calls whose record was cut off.
  datatype Tally = Tally(prepared: nat, gates: nat, workers: nat, dropped: nat, uncalled: nat, unnoted: nat)

  // `base`: the durable state the run began with, on which all counts build.
  datatype World = World(base: Durable, d: Durable, l: Local, t: Tally)

  function One(b: bool): nat { if b then 1 else 0 }

  function Tallied(cfg: Config, t: Tally, before: Phase, m: Move): Tally {
    var ended := m.l.phase.Idle?;
    Tally(
      t.prepared + One(m.event == Some(Prepared)),
      t.gates + One(m.event == Some(GateAsked)),
      t.workers + One(cfg.gated && m.event.Some? && m.event.value.WorkerCalled?),
      t.dropped + One(ended && (before.Consuming? || before.Settling? || (before.Gating? && m.event.Some?))),
      t.uncalled + One(cfg.gated && ended && before.Invoking? && m.event.None?),
      t.unnoted + One(cfg.gated && ended && (before.Noting? || (before.Invoking? && m.event.Some?))))
  }

  function Next(cfg: Config, w: World, c: Choice): World {
    var m := Step(cfg, w.d, w.l, c);
    World(w.base, m.d, m.l, Tallied(cfg, w.t, w.l.phase, m))
  }

  function Run(cfg: Config, w: World, choices: seq<Choice>): World {
    if choices == [] then w else Next(cfg, Run(cfg, w, choices[..|choices| - 1]), choices[|choices| - 1])
  }

  function Begin(d: Durable): World { World(d, d, IDLE, Tally(0, 0, 0, 0, 0, 0)) }

  // ---- What every step keeps ----------------------------------------------------------

  // The durable receipts stay within both aggregate budgets.
  predicate Respected(cfg: Config, rs: seq<Receipt>) {
    CallsOf(rs) <= MaximumCalls(cfg) && AttemptsOf(rs) <= cfg.ceiling
  }

  predicate BeforeWorker(p: Phase) { p.Projecting? || p.Gating? || p.Consuming? || p.Settling? || p.Invoking? }

  predicate InPass(p: Phase) { BeforeWorker(p) || p.Noting? || p.Receipting? }

  predicate Loaded(p: Phase) { !p.Idle? && !p.Entering? }

  // Receipts are added only within the budgets.
  ghost predicate FlowOk(cfg: Config, base: Flow, f: Flow, l: Local) {
    && base.executions <= f.executions && (f.executions == base.executions || Respected(cfg, f.executions))
    && (Loaded(l.phase) ==> l.attempts == f.executions && l.execution == f.execution && !f.status.Submitted?)
    && (InPass(l.phase) ==> BudgetLeft(cfg, l.attempts)) && (l.phase.Entering? ==> !l.entered)
    && (Loaded(l.phase) && !l.phase.Finalizing? && !l.phase.LeaseHeld? ==> l.entered)
    && (l.phase.Finalizing? && l.entered ==> Latest(l).Some? && Completed(Latest(l).value))
  }

  // While a call is under way, an authorization that is required is the one requested,
  // stored under its hash; and no worker phase is reached without a stored projection of it.
  ghost predicate EnvelopeOk(cfg: Config, e: Envelope, l: Local) {
    && (!l.phase.Idle? && cfg.authorityRequired ==> l.required)
    && (!l.phase.Idle? && l.required ==> AuthorizationHolds(cfg, e) && l.authorization == e.authorization)
    && (!l.phase.Idle? && !l.required ==> l.authorization.None? && e.authorization.None?)
    && (BeforeWorker(l.phase) && !l.phase.Projecting? && l.authorization.Some? ==>
      ProjectionHolds(cfg, e.projections, l.authorization.value, l.provider, l.projection))
  }

  ghost predicate ProjectionHolds(
    cfg: Config, stored: map<string, Projection>, a: Authorization, provider: string, carried: Option<Projection>)
  {
    && Projectable(cfg, a, provider) && carried == Some(cfg.projections[provider])
    && provider in stored && stored[provider] == cfg.projections[provider]
  }

  ghost predicate PreparedOk(f: Flow, l: Local, prepared: nat) {
    && prepared <= 1
    && (l.phase.Entering? ==> (l.submitted <==> f.status.Submitted?))
    && (l.phase.Releasing? ==> l.attempts != [])
    && (prepared == 1 ==> !f.status.Submitted?)
    && (prepared == 1 && l.submitted && (l.phase.LeaseHeld? || l.phase.Budgeting?) ==> l.attempts != [])
  }

  function Columns(entries: seq<Entry>): (nat, nat, nat) {
    if entries == [] then (0, 0, 0)
    else
      var (r, i, a) := Columns(entries[..|entries| - 1]);
      var e := entries[|entries| - 1];
      (r + e.required, i + e.invoked, a + e.avoided)
  }

  // The ledger is the base with entries added, and its totals with their columns added.
  ghost predicate Balanced(base: Ledger, g: Ledger) {
    base.entries <= g.entries && var added := g.entries[|base.entries|..];
      && (g.totals.required, g.totals.invoked, g.totals.avoided) ==
        (base.totals.required + Columns(added).0, base.totals.invoked + Columns(added).1, base.totals.avoided + Columns(added).2)
      && (if added == [] then g == base
          else g.totals.notEliminated <==> g.totals.invoked > 0 || g.totals.required > g.totals.avoided)
  }

  datatype Counts = Counts(required: int, invoked: int, avoided: int)

  function Since(base: Totals, g: Totals): Counts {
    Counts(g.required - base.required, g.invoked - base.invoked, g.avoided - base.avoided)
  }

  // Every gate evaluation and worker call is accounted for, or under way, or was cut off.
  ghost predicate Accounted(cfg: Config, base: Totals, g: Totals, p: Phase, t: Tally) {
    var n := Since(base, g);
    && t.gates == n.required + n.avoided + t.dropped + One(p.Consuming? || p.Settling?)
    && n.required == n.invoked + t.uncalled + t.unnoted + One(cfg.gated && (p.Invoking? || p.Noting?))
    && t.workers == n.invoked + t.unnoted + One(p.Noting?)
    && (p.Gating? || p.Consuming? || p.Settling? || p.Noting? ==> cfg.gated)
  }

  function CountOf(seen: seq<Observation>, d: Disposition): nat {
    if seen == [] then 0 else CountOf(seen[..|seen| - 1], d) + One(seen[|seen| - 1].disposition == d)
  }

  // The observations are the base with new ones added, each counted once, by its disposition.
  ghost predicate WatchOk(base: Watch, w: Watch) {
    base.seen <= w.seen && var added := w.seen[|base.seen|..];
      && (forall i, j | 0 <= i < j < |w.seen| && |base.seen| <= j :: w.seen[i].id != w.seen[j].id)
      && w.evaluated == base.evaluated + |added| && w.eligible == base.eligible + CountOf(added, Eligible)
      && w.frontier == base.frontier + CountOf(added, FrontierRequired)
      && w.insufficient == base.insufficient + CountOf(added, Insufficient)
  }

  ghost predicate Inv(cfg: Config, w: World) {
    && FlowOk(cfg, w.base.flow, w.d.flow, w.l) && EnvelopeOk(cfg, w.d.envelope, w.l) && PreparedOk(w.d.flow, w.l, w.t.prepared)
    && Balanced(w.base.ledger, w.d.ledger) && Accounted(cfg, w.base.ledger.totals, w.d.ledger.totals, w.l.phase, w.t)
    && WatchOk(w.base.watch, w.d.watch)
  }

  // ---- One lemma a phase ------------------------------------------------------------------

  ghost predicate Kept(cfg: Config, w: World, m: Move) { Inv(cfg, World(w.base, m.d, m.l, Tallied(cfg, w.t, w.l.phase, m))) }

  // A phase that no count hangs on.
  predicate Quiet(cfg: Config, p: Phase) {
    match p
    case Gating => cfg.gated
    case Consuming | Settling | Noting => false
    case Invoking => !cfg.gated
    case _ => true
  }

  // A move that neither asks the gate nor calls a worker, from quiet phase to quiet phase.
  lemma QuietMove(cfg: Config, w: World, m: Move)
    requires Accounted(cfg, w.base.ledger.totals, w.d.ledger.totals, w.l.phase, w.t)
    requires Quiet(cfg, w.l.phase) && Quiet(cfg, m.l.phase) && !w.l.phase.Gating? && !w.l.phase.Invoking?
    requires m.event.Some? ==> m.event.value != GateAsked && !m.event.value.WorkerCalled?
    ensures var t := Tallied(cfg, w.t, w.l.phase, m);
      && Accounted(cfg, w.base.ledger.totals, w.d.ledger.totals, m.l.phase, t)
      && t.prepared == w.t.prepared + One(m.event == Some(Prepared))
  {
  }

  // What is left to show of such a move.
  lemma QuietKeeps(cfg: Config, w: World, m: Move)
    requires Inv(cfg, w) && m.d.ledger == w.d.ledger && m.d.watch == w.d.watch
    requires Quiet(cfg, w.l.phase) && Quiet(cfg, m.l.phase) && !w.l.phase.Gating? && !w.l.phase.Invoking?
    requires m.event.Some? ==> m.event.value != GateAsked && !m.event.value.WorkerCalled?
    requires FlowOk(cfg, w.base.flow, m.d.flow, m.l) && EnvelopeOk(cfg, m.d.envelope, m.l)
    requires PreparedOk(m.d.flow, m.l, w.t.prepared + One(m.event == Some(Prepared)))
    ensures Kept(cfg, w, m)
  {
    hide FlowOk, EnvelopeOk, PreparedOk, Balanced, Accounted, WatchOk, Tallied, Quiet;
    QuietMove(cfg, w, m);
  }

  lemma HaltKeeps(cfg: Config, w: World, d: Durable, c: Choice, event: Option<Event>)
    requires Inv(cfg, w) && d.(watch := w.d.watch) == w.d && WatchOk(w.base.watch, d.watch)
    requires
      var t := Tallied(cfg, w.t, w.l.phase, Halt(d, c, event));
      t.prepared == w.t.prepared && Accounted(cfg, w.base.ledger.totals, w.d.ledger.totals, Idle, t)
    ensures Kept(cfg, w, Halt(d, c, event))
  {
    hide Respected, BudgetLeft, AuthorizationHolds, Balanced, WatchOk, Tallied, Accounted;
  }

  // Failing in a phase that no count hangs on.
  lemma QuietHaltKeeps(cfg: Config, w: World, c: Choice, event: Option<Event>)
    requires Inv(cfg, w) && Quiet(cfg, w.l.phase) && !w.l.phase.Gating? && !w.l.phase.Invoking?
    requires event == None || event == Some(Leased)
    ensures Kept(cfg, w, Halt(w.d, c, event))
  {
    QuietMove(cfg, w, Halt(w.d, c, event));
    hide FlowOk, EnvelopeOk, PreparedOk, Balanced, WatchOk, Accounted, Tallied, Quiet, Kept;
    HaltKeeps(cfg, w, w.d, c, event);
  }

  lemma LeaseKeeps(cfg: Config, w: World, m: Local, c: Choice, p: string)
    requires Inv(cfg, w) && (w.l.phase.Entering? || w.l.phase.Releasing?)
    requires m.attempts == w.d.flow.executions && m.execution == w.d.flow.execution
    requires w.t.prepared == 1 && m.submitted ==> m.attempts != []
    requires m.required == w.l.required && m.submitted == w.l.submitted && m.authorization == w.l.authorization
    ensures Kept(cfg, w, Lease(w.d, m, c, p))
  {
    hide Respected, BudgetLeft, Balanced, WatchOk, Completed, AuthorizationHolds, ProjectionHolds, Halt, Accounted, Tallied;
    hide Kept;
    QuietHaltKeeps(cfg, w, c, Some(Leased));
    if !c.stop.Die? { QuietKeeps(cfg, w, Lease(w.d, m, c, p)); }
  }

  lemma StartKeeps(cfg: Config, w: World, c: Choice)
    requires Inv(cfg, w) && w.l.phase.Idle?
    ensures Kept(cfg, w, Start(cfg, w.d, c))
  {
    hide Respected, BudgetLeft, Balanced, WatchOk, Completed, Contained, Accounted, Tallied, Kept;
    QuietKeeps(cfg, w, Start(cfg, w.d, c));
  }

  lemma EnterKeeps(cfg: Config, w: World, c: Choice)
    requires Inv(cfg, w) && w.l.phase.Entering?
    ensures Kept(cfg, w, Enter(cfg, w.d, w.l, c))
  {
    hide Respected, BudgetLeft, Balanced, WatchOk, Completed, FirstOf, ProjectionHolds, AuthorizationHolds, Halt, Lease, Kept;
    QuietHaltKeeps(cfg, w, c, None);
    QuietHaltKeeps(cfg, w, c, Some(Leased));
    var m := w.l.(attempts := w.d.flow.executions, execution := w.d.flow.execution);
    if !c.stop.Raise? {
      if cfg.custom || !(w.d.flow.status.Submitted? || w.d.flow.status.WorkerEscalating?) {
        EnterLoads(cfg, w, m, c);
      } else {
        LeaseKeeps(cfg, w, m, c, w.d.flow.next);
        var p := FirstOf(if cfg.order == [] then [cfg.preferred] else cfg.order, c.ready);
        if p.Some? { LeaseKeeps(cfg, w, m, c, p.value); }
      }
    }
  }

  // Entering without a lease: the custom runner, a resumed loop, or a closed attempt.
  lemma EnterLoads(cfg: Config, w: World, m: Local, c: Choice)
    requires Inv(cfg, w) && w.l.phase.Entering?
    requires m == w.l.(attempts := w.d.flow.executions, execution := w.d.flow.execution)
    ensures Kept(cfg, w, Move(if c.stop.Die? then w.d else Close(w.d), IDLE, Some(RunnerStarted)))
    ensures !w.d.flow.status.Submitted? ==>
      && Kept(cfg, w, Move(w.d, m.(phase := Budgeting, entered := true), None))
      && Kept(cfg, w, Move(w.d, m.(phase := Judging, entered := true, recovered := true), None))
      && Kept(cfg, w, Move(w.d, m.(phase := Finalizing), None))
  {
    hide Kept, EnvelopeOk, PreparedOk, Balanced, Accounted, WatchOk, Respected;
    RunnerKeeps(cfg, w, Move(if c.stop.Die? then w.d else Close(w.d), IDLE, Some(RunnerStarted)));
    if !w.d.flow.status.Submitted? {
      ResumeKeeps(cfg, w, m.(phase := Budgeting, entered := true));
      ResumeKeeps(cfg, w, m.(phase := Judging, entered := true, recovered := true));
      ResumeKeeps(cfg, w, m.(phase := Finalizing));
    }
  }

  lemma RunnerKeeps(cfg: Config, w: World, m: Move)
    requires Inv(cfg, w) && w.l.phase.Entering? && m.l == IDLE && m.event == Some(RunnerStarted)
    requires m.d == w.d || m.d == Close(w.d)
    ensures Kept(cfg, w, m)
  {
    hide Respected, BudgetLeft, Balanced, WatchOk, Completed, ProjectionHolds, AuthorizationHolds, Latest, Accounted, Tallied, Kept;
    QuietKeeps(cfg, w, m);
  }

  lemma ResumeKeeps(cfg: Config, w: World, m: Local)
    requires Inv(cfg, w) && w.l.phase.Entering? && !w.d.flow.status.Submitted?
    requires (m.phase.Budgeting? && m.entered) || (m.phase.Judging? && m.entered) || (m.phase.Finalizing? && !m.entered)
    requires m == w.l.(
      phase := m.phase, entered := m.entered, recovered := m.recovered,
      attempts := w.d.flow.executions, execution := w.d.flow.execution)
    ensures Kept(cfg, w, Move(w.d, m, None))
  {
    hide Respected, BudgetLeft, Balanced, WatchOk, Completed, ProjectionHolds, AuthorizationHolds, Latest, Accounted, Tallied, Kept;
    QuietKeeps(cfg, w, Move(w.d, m, None));
  }

  lemma HoldLeaseKeeps(cfg: Config, w: World, c: Choice)
    requires Inv(cfg, w) && w.l.phase.LeaseHeld?
    ensures Kept(cfg, w, HoldLease(w.d, w.l, c))
  {
    hide Respected, BudgetLeft, Balanced, WatchOk, Completed, AuthorizationHolds, ProjectionHolds, Accounted, Tallied, Kept;
    hide Halt;
    QuietHaltKeeps(cfg, w, c, None);
    if c.stop.Go? { QuietKeeps(cfg, w, HoldLease(w.d, w.l, c)); }
  }

  lemma BudgetKeeps(cfg: Config, w: World, c: Choice)
    requires Inv(cfg, w) && w.l.phase.Budgeting?
    ensures Kept(cfg, w, Budget(cfg, w.d, w.l, c))
  {
    hide Kept, Inv, BudgetLeft, Halt;
    HaltBudgetKeeps(cfg, w, c);
    if BudgetLeft(cfg, w.l.attempts) { BudgetMoves(cfg, w, if w.d.flow.active != "" then w.d.flow.active else cfg.preferred); }
  }

  lemma HaltBudgetKeeps(cfg: Config, w: World, c: Choice)
    requires Inv(cfg, w) && w.l.phase.Budgeting?
    ensures Kept(cfg, w, Halt(w.d, c, None))
    ensures w.l.submitted && w.l.attempts == [] ==> Kept(cfg, w, Halt(w.d, c, Some(Prepared)))
  {
    hide Respected, BudgetLeft, AuthorizationHolds, ProjectionHolds, Balanced, WatchOk, Completed;
  }

  lemma BudgetMoves(cfg: Config, w: World, provider: string)
    requires Inv(cfg, w) && w.l.phase.Budgeting? && BudgetLeft(cfg, w.l.attempts)
    ensures var m := w.l.(phase := Projecting, provider := provider);
      && Kept(cfg, w, Move(w.d, m, None))
      && (w.l.submitted && w.l.attempts == [] ==> Kept(cfg, w, Move(w.d.(prepared := true), m, Some(Prepared))))
  {
    hide Respected, BudgetLeft, AuthorizationHolds, ProjectionHolds, Balanced, WatchOk, Completed;
  }

  lemma ProjectKeeps(cfg: Config, w: World, c: Choice)
    requires Inv(cfg, w) && w.l.phase.Projecting?
    ensures Kept(cfg, w, Project(cfg, w.d, w.l, c))
  {
    hide Respected, BudgetLeft, Balanced, WatchOk, Completed, Contained, Halt, Accounted, Tallied, Kept;
    QuietHaltKeeps(cfg, w, c, None);
    if Project(cfg, w.d, w.l, c) != Halt(w.d, c, None) { QuietKeeps(cfg, w, Project(cfg, w.d, w.l, c)); }
  }

  lemma ObserveKeeps(base: Watch, w: Watch, o: Observation)
    requires WatchOk(base, w)
    ensures WatchOk(base, Observe(w, o))
  {
    var added := (w.seen + [o])[|base.seen|..];
    assert added[..|added| - 1] == w.seen[|base.seen|..] && added[|added| - 1] == o;
  }

  // Within a pass, flow and envelope stand still.
  lemma MidPassKeeps(cfg: Config, base: Flow, d: Durable, l: Local, m: Local, prepared: nat)
    requires FlowOk(cfg, base, d.flow, l) && EnvelopeOk(cfg, d.envelope, l) && PreparedOk(d.flow, l, prepared)
    requires (BeforeWorker(l.phase) && !l.phase.Projecting?) || l.phase.Noting?
    requires m == l.(phase := m.phase, verdict := m.verdict, receipt := m.receipt, called := m.called)
    requires m.phase.Consuming? || m.phase.Settling? || m.phase.Invoking? || m.phase.Noting? || m.phase.Receipting?
    requires BeforeWorker(m.phase) ==> BeforeWorker(l.phase)
    ensures FlowOk(cfg, base, d.flow, m) && EnvelopeOk(cfg, d.envelope, m) && PreparedOk(d.flow, m, prepared)
  {
    hide Respected, BudgetLeft, AuthorizationHolds, ProjectionHolds, Completed;
  }

  lemma GateKeeps(cfg: Config, w: World, c: Choice)
    requires Inv(cfg, w) && w.l.phase.Gating?
    ensures Kept(cfg, w, Gate(cfg, w.d, w.l, c))
  {
    hide FlowOk, EnvelopeOk, PreparedOk, Balanced, WatchOk, Observe;
    ObserveKeeps(w.base.watch, w.d.watch, c.observation);
    var m := w.l.(phase := Consuming, verdict := c.verdict);
    MidPassKeeps(cfg, w.base.flow, w.d, w.l, m, w.t.prepared);
    var watched := w.d.(watch := Observe(w.d.watch, c.observation));
    HaltKeeps(cfg, w, watched, c, Some(GateAsked));
    HaltKeeps(cfg, w, w.d, c, Some(GateAsked));
    HaltKeeps(cfg, w, w.d, c, None);
  }

  lemma RecordKeeps(base: Ledger, g: Ledger, e: Entry)
    requires Balanced(base, g)
    ensures Balanced(base, Record(g, e))
  {
    var added := (g.entries + [e])[|base.entries|..];
    assert added[..|added| - 1] == g.entries[|base.entries|..] && added[|added| - 1] == e;
  }

  lemma ConsumeKeeps(cfg: Config, w: World, c: Choice)
    requires Inv(cfg, w) && w.l.phase.Consuming?
    ensures Kept(cfg, w, Consume(w.d, w.l, c))
  {
    hide FlowOk, EnvelopeOk, PreparedOk, Balanced, WatchOk;
    RecordKeeps(w.base.ledger, w.d.ledger, REQUIRED);
    RecordKeeps(w.base.ledger, w.d.ledger, Entry(DeterministicResolved, 0, 0, 0));
    MidPassKeeps(cfg, w.base.flow, w.d, w.l, w.l.(phase := Settling), w.t.prepared);
    MidPassKeeps(cfg, w.base.flow, w.d, w.l, w.l.(phase := Invoking), w.t.prepared);
    HaltKeeps(cfg, w, w.d, c, None);
  }

  lemma SettleKeeps(cfg: Config, w: World, c: Choice)
    requires Inv(cfg, w) && w.l.phase.Settling?
    ensures Kept(cfg, w, Settle(w.d, w.l, c))
  {
    hide FlowOk, EnvelopeOk, PreparedOk, Balanced, WatchOk, Usable;
    RecordKeeps(w.base.ledger, w.d.ledger, REQUIRED);
    RecordKeeps(w.base.ledger, w.d.ledger, Entry(ModelAvoided, 0, 0, 1));
    MidPassKeeps(cfg, w.base.flow, w.d, w.l, w.l.(phase := Receipting, receipt := c.receipt, called := w.l.called + [w.l.provider]), w.t.prepared);
    MidPassKeeps(cfg, w.base.flow, w.d, w.l, w.l.(phase := Invoking), w.t.prepared);
    HaltKeeps(cfg, w, w.d, c, None);
  }

  lemma InvokeKeeps(cfg: Config, w: World, c: Choice)
    requires Inv(cfg, w) && w.l.phase.Invoking?
    ensures Kept(cfg, w, Invoke(cfg, w.d, w.l, c))
  {
    hide FlowOk, EnvelopeOk, PreparedOk, Balanced, WatchOk;
    var m := w.l.(
      phase := if cfg.gated then Noting else Receipting, receipt := c.receipt, called := w.l.called + [w.l.provider]);
    MidPassKeeps(cfg, w.base.flow, w.d, w.l, m, w.t.prepared);
    HaltKeeps(cfg, w, w.d, c, Some(WorkerCalled(w.l.provider, w.l.projection)));
    HaltKeeps(cfg, w, w.d, c, None);
  }

  lemma NoteKeeps(cfg: Config, w: World, c: Choice)
    requires Inv(cfg, w) && w.l.phase.Noting?
    ensures Kept(cfg, w, Note(w.d, w.l, c))
  {
    hide FlowOk, EnvelopeOk, PreparedOk, Balanced, WatchOk;
    RecordKeeps(w.base.ledger, w.d.ledger, Entry(ModelInvoked, 0, 1, 0));
    MidPassKeeps(cfg, w.base.flow, w.d, w.l, w.l.(phase := Receipting), w.t.prepared);
    HaltKeeps(cfg, w, w.d, c, None);
  }

  lemma ReceiptSpends(cfg: Config, rs: seq<Receipt>, r: Receipt)
    requires BudgetLeft(cfg, rs) && WithinBudget(cfg, rs, r)
    ensures Respected(cfg, rs + [r])
  {
    assert (rs + [r])[..|rs|] == rs;
  }

  lemma SettledKeeps(cfg: Config, w: World, c: Choice)
    requires Inv(cfg, w) && w.l.phase.Receipting?
    ensures Kept(cfg, w, Settled(cfg, w.d, w.l, c))
  {
    hide Respected, BudgetLeft, Balanced, WatchOk, Completed, AuthorizationHolds, ProjectionHolds, WithinBudget;
    hide Accounted, Tallied, Kept, Latest, Halt;
    QuietHaltKeeps(cfg, w, c, None);
    if w.l.receipt.Some? && WithinBudget(cfg, w.l.attempts, w.l.receipt.value) {
      ReceiptSpends(cfg, w.l.attempts, w.l.receipt.value);
      if c.stop.Go? { QuietKeeps(cfg, w, Settled(cfg, w.d, w.l, c)); }
    }
  }

  lemma JudgeMoves(cfg: Config, w: World, next: string, latest: Receipt)
    requires Inv(cfg, w) && w.l.phase.Judging? && Latest(w.l) == Some(latest)
    ensures Completed(latest) ==> Kept(cfg, w, Move(w.d, w.l.(phase := Finalizing), None))
    ensures w.l.attempts != [] ==>
      Kept(cfg, w, Move(w.d.(flow := w.d.flow.(status := WorkerEscalating, executions := w.l.attempts, next := next)),
                        w.l.(phase := Releasing), Some(Escalated(latest, next))))
  {
    hide Respected, BudgetLeft, Balanced, WatchOk, AuthorizationHolds, ProjectionHolds, Completed;
  }

  lemma JudgeKeeps(cfg: Config, w: World, c: Choice)
    requires Inv(cfg, w) && w.l.phase.Judging?
    ensures Kept(cfg, w, Judge(cfg, w.d, w.l, c))
  {
    hide NextReady, Escalates, Completed, Halt, Kept, Inv, Latest;
    QuietHaltKeeps(cfg, w, c, None);
    if Latest(w.l).Some? && Completed(Latest(w.l).value) { JudgeMoves(cfg, w, "", Latest(w.l).value); }
    if w.l.attempts != [] && cfg.policy.Some? {
      var next := NextReady(cfg.policy.value, w.l.attempts, c.ready);
      if next.Some? && Latest(w.l).Some? { JudgeMoves(cfg, w, next.value, Latest(w.l).value); }
    }
  }

  lemma ReleaseKeeps(cfg: Config, w: World, c: Choice)
    requires Inv(cfg, w) && w.l.phase.Releasing?
    ensures Kept(cfg, w, Release(w.d, w.l, c))
  {
    hide Respected, BudgetLeft, Balanced, WatchOk, Completed, AuthorizationHolds, ProjectionHolds, Halt, Lease, Kept;
    QuietHaltKeeps(cfg, w, c, None);
    QuietHaltKeeps(cfg, w, c, Some(Leased));
    LeaseKeeps(cfg, w, w.l, c, w.d.flow.next);
  }

  lemma FinishKeeps(cfg: Config, w: World, c: Choice)
    requires Inv(cfg, w) && w.l.phase.Finalizing?
    ensures Kept(cfg, w, Finish(w.d, c))
  {
    hide Respected, BudgetLeft, Balanced, WatchOk, Completed, AuthorizationHolds, ProjectionHolds, Accounted, Tallied, Kept;
    QuietKeeps(cfg, w, Finish(w.d, c));
  }

  // ---- Every reachable world ------------------------------------------------------------

  lemma StepKeeps(cfg: Config, w: World, c: Choice)
    requires Inv(cfg, w)
    ensures Inv(cfg, Next(cfg, w, c))
  {
    hide Inv, Tallied, Start, Enter, HoldLease, Budget, Project, Gate, Consume, Settle, Invoke, Note, Settled, Judge, Release, Finish;
    match w.l.phase
    case Idle => StartKeeps(cfg, w, c);
    case Entering => EnterKeeps(cfg, w, c);
    case LeaseHeld => HoldLeaseKeeps(cfg, w, c);
    case Budgeting => BudgetKeeps(cfg, w, c);
    case Projecting => ProjectKeeps(cfg, w, c);
    case Gating => GateKeeps(cfg, w, c);
    case Consuming => ConsumeKeeps(cfg, w, c);
    case Settling => SettleKeeps(cfg, w, c);
    case Invoking => InvokeKeeps(cfg, w, c);
    case Noting => NoteKeeps(cfg, w, c);
    case Receipting => SettledKeeps(cfg, w, c);
    case Judging => JudgeKeeps(cfg, w, c);
    case Releasing => ReleaseKeeps(cfg, w, c);
    case Finalizing => FinishKeeps(cfg, w, c);
  }
}
