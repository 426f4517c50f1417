// The execution coordinator as a machine over its durable writes: every step makes at
// most one of them, so a crash may fall between any two. What the ports answer is a
// choice of the environment at each step.
module Coordinator {
  import opened Text
  import opened Escalation
  import opened EffectSubset
  import JsNumberValues

  // ---- What is durable ---------------------------------------------------------------

  datatype Status = Submitted | TargetLeased | WorkerRunning | WorkerCompleted | WorkerEscalating | Closed

  datatype Flow = Flow(
    status: Status, executions: seq<Receipt>, execution: Option<Receipt>, active: string, next: string)

  datatype Authorization = Authorization(subject: string, effects: Effects)

  datatype Projection = Projection(provider: string, backend: string, tools: seq<string>, effects: Effects)

  datatype Envelope = Envelope(
    authorization: Option<Authorization>, hash: string, projections: map<string, Projection>)

  datatype Kind = DeterministicResolved | ModelRequired | ModelInvoked | ModelAvoided

  datatype Entry = Entry(kind: Kind, required: nat, invoked: nat, avoided: nat)

  datatype Totals = Totals(required: nat, invoked: nat, avoided: nat, notEliminated: bool)

  datatype Ledger = Ledger(entries: seq<Entry>, totals: Totals)

  datatype Disposition = Eligible | FrontierRequired | Insufficient

  datatype Observation = Observation(id: string, disposition: Disposition)

  datatype Watch = Watch(seen: seq<Observation>, evaluated: nat, eligible: nat, frontier: nat, insufficient: nat)

  datatype Durable = Durable(flow: Flow, envelope: Envelope, prepared: bool, ledger: Ledger, watch: Watch)

  // ---- What a call of `execute_attempt` holds ---------------------------------------------

  datatype Phase =
    | Idle | Entering | LeaseHeld | Budgeting | Projecting | Gating | Consuming | Settling | Invoking
    | Noting | Receipting | Judging | Releasing | Finalizing

  datatype Verdict = ModelNeeded | InsufficientState | Resolved

  // `called`: the providers whose turn this call has taken, oldest first.
  datatype Local = Local(
    phase: Phase, submitted: bool, create: bool, required: bool, authorization: Option<Authorization>,
    attempts: seq<Receipt>, execution: Option<Receipt>, entered: bool, recovered: bool,
    provider: string, projection: Option<Projection>, verdict: Verdict, receipt: Option<Receipt>, called: seq<string>)

  const IDLE := Local(Idle, false, false, false, None, [], None, false, false, "", None, InsufficientState, None, [])

  // ---- What is fixed: contract, request and ports ---------------------------------------------

  datatype Config = Config(
    fastLane: bool, contractCalls: int, ceiling: int, order: seq<string>, preferred: string,
    policy: Option<seq<string>>, authorityRequired: bool, requested: Option<Authorization>, hash: Authorization -> string,
    projections: map<string, Projection>, hostPrepared: bool, gated: bool, observed: bool, custom: bool)

  function MaximumCalls(cfg: Config): int { if cfg.fastLane then 1 else cfg.contractCalls }

  // Where a step fails: not at all; before its effect; or after its effect and before
  // the write that records it.
  datatype Stop = Go | Raise | Die

  // `closes`: whether the failure handler ran and closed the attempt. `observes`: whether
  // the observation was written. `breaks`: whether the observer failed and the state could
  // not be read again after that.
  datatype Choice = Choice(
    stop: Stop, closes: bool, ready: string -> bool, accepts: bool, verdict: Verdict, receipt: Option<Receipt>,
    observes: bool, observation: Observation, breaks: bool)

  // ---- What a step does to the world outside ----------------------------------------------------

  datatype Event =
    | AuthorizationStored(authorization: Authorization)
    | ProjectionStored(projection: Projection)
    | Leased
    | Prepared
    | RunnerStarted
    | GateAsked
    | WorkerCalled(provider: string, carried: Option<Projection>)
    | Escalated(receipt: Receipt, to: string)
    | Finalized

  datatype Move = Move(d: Durable, l: Local, event: Option<Event>)

  function Close(d: Durable): Durable { d.(flow := d.flow.(status := Closed)) }

  // The call ends with an error; the process may die before the failure handler runs.
  function Halt(d: Durable, c: Choice, event: Option<Event>): Move { Move(if c.closes then Close(d) else d, IDLE, event) }

  // ---- Entering ---------------------------------------------------------------------------

  predicate AuthorizationHolds(cfg: Config, e: Envelope) {
    && cfg.requested.Some? && e.authorization.Some?
    && cfg.hash(e.authorization.value) == cfg.hash(cfg.requested.value)
    && e.hash == cfg.hash(e.authorization.value)
  }

  // The request's authorization is verified, stored where a fresh submission has none, and
  // must be the stored one by its hash.
  function Start(cfg: Config, d: Durable, c: Choice): (m: Move)
    ensures m.event.Some? ==> m.event.value.AuthorizationStored?
  {
    var submitted := d.flow.status.Submitted?;
    var create := submitted && d.flow.executions == [] && d.flow.execution.None?;
    var required := cfg.authorityRequired || d.envelope.authorization.Some?;
    var l := IDLE.(phase := Entering, submitted := submitted, create := create, required := required);
    if c.stop != Go then Halt(d, c, None)
    else if !required then Move(d, l, None)
    else if cfg.requested.None? || !c.accepts then Halt(d, c, None)
    else if d.envelope.authorization.Some? then
      if AuthorizationHolds(cfg, d.envelope) then Move(d, l.(authorization := d.envelope.authorization), None) else Halt(d, c, None)
    else if !create then Halt(d, c, None)
    else
      var a := cfg.requested.value;
      Move(d.(envelope := d.envelope.(authorization := Some(a), hash := cfg.hash(a))), l.(authorization := Some(a)),
           Some(AuthorizationStored(a)))
  }

  function Enter(cfg: Config, d: Durable, l: Local, c: Choice): (m: Move)
    ensures m.event.Some? ==> m.event.value.Leased? || m.event.value.RunnerStarted?
  {
    var n := l.(attempts := d.flow.executions, execution := d.flow.execution);
    if c.stop.Raise? then Halt(d, c, None)
    else if cfg.custom then Move(if c.stop.Die? then d else Close(d), IDLE, Some(RunnerStarted))
    else match d.flow.status
      case Submitted =>
        (match FirstOf(if cfg.order == [] then [cfg.preferred] else cfg.order, c.ready)
         case None => Halt(d, c, None)
         case Some(p) => Lease(d, n, c, p))
      case WorkerEscalating =>
        if cfg.fastLane || d.flow.next == "" then Halt(d, c, None)
        else if !c.ready(d.flow.next) then Halt(d, c, Some(Leased))
        else Lease(d, n, c, d.flow.next)
      case TargetLeased => Halt(d, c, None)
      case WorkerRunning => Move(d, n.(phase := Budgeting, entered := true), None)
      case WorkerCompleted => Move(d, n.(phase := Judging, entered := true, recovered := true), None)
      case Closed => Move(d, n.(phase := Finalizing), None)
  }

  // A lease is taken for `p`, then recorded.
  function Lease(d: Durable, l: Local, c: Choice, p: string): (m: Move)
    ensures m.event == Some(Leased)
  {
    if c.stop.Die? then Halt(d, c, Some(Leased))
    else
      var next := if d.flow.status.Submitted? then d.flow.next else "";
      Move(d.(flow := d.flow.(status := TargetLeased, active := p, next := next)), l.(phase := LeaseHeld), Some(Leased))
  }

  function HoldLease(d: Durable, l: Local, c: Choice): (m: Move)
    ensures m.event.None?
  {
    if c.stop != Go then Halt(d, c, None)
    else Move(d.(flow := d.flow.(status := WorkerRunning)), l.(phase := Budgeting, entered := true), None)
  }

  // ---- Before a worker runs ---------------------------------------------------------------------

  function CallsOf(rs: seq<Receipt>): int {
    if rs == [] then 0
    else CallsOf(rs[..|rs| - 1]) + (if rs[|rs| - 1].calls > 0 then rs[|rs| - 1].calls else 0)
  }

  function Reported(attempts: Option<int>): int { if attempts.Some? && attempts.value > 0 then attempts.value else 0 }

  function AttemptsOf(rs: seq<Receipt>): int {
    if rs == [] then 0 else AttemptsOf(rs[..|rs| - 1]) + Reported(rs[|rs| - 1].attempts)
  }

  predicate BudgetLeft(cfg: Config, rs: seq<Receipt>) {
    CallsOf(rs) < MaximumCalls(cfg) && AttemptsOf(rs) < cfg.ceiling
  }

  // The budgets, then host preparation, which only the first pass of a submission may create.
  function Budget(cfg: Config, d: Durable, l: Local, c: Choice): (m: Move)
    ensures m.event.Some? ==> m.event.value.Prepared?
  {
    var provider := if d.flow.active != "" then d.flow.active else cfg.preferred;
    var n := l.(phase := Projecting, provider := provider);
    if c.stop.Raise? || !BudgetLeft(cfg, l.attempts) then Halt(d, c, None)
    else if !cfg.hostPrepared || d.prepared then if c.stop.Die? then Halt(d, c, None) else Move(d, n, None)
    else if !(l.submitted && l.attempts == [] && d.flow.execution.None?) then Halt(d, c, None)
    else if c.stop.Die? then Halt(d, c, Some(Prepared))
    else Move(d.(prepared := true), n, Some(Prepared))
  }

  // The selection is within the ceiling, as the subset test has it.
  predicate Contained(selected: Effects, ceiling: Effects) {
    JsNumberValues.Serializable(selected) && JsNumberValues.Serializable(ceiling) && IsSubset(selected, ceiling)
  }

  // The projection the request asks for, if it stays within the authorization.
  predicate Projectable(cfg: Config, a: Authorization, provider: string) {
    && provider in cfg.projections
    && cfg.projections[provider].provider == provider
    && Contained(cfg.projections[provider].effects, a.effects)
  }

  function Project(cfg: Config, d: Durable, l: Local, c: Choice): (m: Move)
    ensures m.event.Some? ==> m.event.value.ProjectionStored?
  {
    var n := l.(phase := if cfg.gated then Gating else Invoking);
    if c.stop != Go then Halt(d, c, None)
    else if l.authorization.None? then Move(d, n.(projection := None), None)
    else if !Projectable(cfg, l.authorization.value, l.provider) then Halt(d, c, None)
    else
      var p := cfg.projections[l.provider];
      var stored := d.envelope.projections;
      if l.provider in stored then
        if stored[l.provider] != p then Halt(d, c, None) else Move(d, n.(projection := Some(p)), None)
      else if !l.create then Halt(d, c, None)
      else Move(d.(envelope := d.envelope.(projections := stored[l.provider := p])), n.(projection := Some(p)), Some(ProjectionStored(p)))
  }

  // ---- The model-call gate and its ledger ------------------------------------------------------

  function Observe(w: Watch, o: Observation): Watch {
    if exists i | 0 <= i < |w.seen| :: w.seen[i].id == o.id then w
    else
      Watch(w.seen + [o], w.evaluated + 1,
            w.eligible + (if o.disposition.Eligible? then 1 else 0),
            w.frontier + (if o.disposition.FrontierRequired? then 1 else 0),
            w.insufficient + (if o.disposition.Insufficient? then 1 else 0))
  }

  // The resolver's verdict, and, where it keeps the model, the bounded-decision observation.
  // A failing observer is passed over, after the state has been read again; only when that
  // fails too does the failure get out.
  function Gate(cfg: Config, d: Durable, l: Local, c: Choice): (m: Move)
    ensures m.event.Some? ==> m.event.value.GateAsked?
  {
    if c.stop.Raise? then Halt(d, c, None)
    else
      var observing := cfg.observed && c.verdict.ModelNeeded?;
      var watch := if observing && c.observes then Observe(d.watch, c.observation) else d.watch;
      if c.stop.Die? || (observing && c.breaks) then Halt(d.(watch := watch), c, Some(GateAsked))
      else Move(d.(watch := watch), l.(phase := Consuming, verdict := c.verdict), Some(GateAsked))
  }

  // `_record_model_call_outcome`
  function Record(g: Ledger, e: Entry): Ledger {
    var required := g.totals.required + e.required;
    var invoked := g.totals.invoked + e.invoked;
    var avoided := g.totals.avoided + e.avoided;
    Ledger(g.entries + [e], Totals(required, invoked, avoided, invoked > 0 || required > avoided))
  }

  const REQUIRED := Entry(ModelRequired, 1, 0, 0)

  function Consume(d: Durable, l: Local, c: Choice): (m: Move)
    ensures m.event.None?
  {
    if c.stop != Go then Halt(d, c, None)
    else if l.verdict.Resolved? then
      Move(d.(ledger := Record(d.ledger, Entry(DeterministicResolved, 0, 0, 0))), l.(phase := Settling), None)
    else Move(d.(ledger := Record(d.ledger, REQUIRED)), l.(phase := Invoking), None)
  }

  // A resolved verdict replaces the worker only by a complete receipt that claims no call.
  predicate Usable(r: Option<Receipt>) {
    r.Some? && Completed(r.value) && r.value.calls == 0 && (r.value.attempts.None? || r.value.attempts.value == 0)
  }

  function Settle(d: Durable, l: Local, c: Choice): (m: Move)
    ensures m.event.None?
  {
    if c.stop != Go then Halt(d, c, None)
    else if Usable(c.receipt) then
      Move(d.(ledger := Record(d.ledger, Entry(ModelAvoided, 0, 0, 1))),
           l.(phase := Receipting, receipt := c.receipt, called := l.called + [l.provider]), None)
    else Move(d.(ledger := Record(d.ledger, REQUIRED)), l.(phase := Invoking), None)
  }

  // A worker that raises has been called, and leaves no receipt.
  function Invoke(cfg: Config, d: Durable, l: Local, c: Choice): (m: Move)
    ensures m.event.Some? ==> m.event.value == WorkerCalled(l.provider, l.projection)
  {
    if c.stop.Raise? then Halt(d, c, None)
    else if c.stop.Die? then Halt(d, c, Some(WorkerCalled(l.provider, l.projection)))
    else
      Move(d, l.(phase := if cfg.gated then Noting else Receipting, receipt := c.receipt, called := l.called + [l.provider]),
           Some(WorkerCalled(l.provider, l.projection)))
  }

  function Note(d: Durable, l: Local, c: Choice): (m: Move)
    ensures m.event.None?
  {
    if c.stop != Go then Halt(d, c, None)
    else Move(d.(ledger := Record(d.ledger, Entry(ModelInvoked, 0, 1, 0))), l.(phase := Receipting), None)
  }

  predicate WithinBudget(cfg: Config, rs: seq<Receipt>, r: Receipt) {
    && 0 <= r.calls <= MaximumCalls(cfg) - CallsOf(rs)
    && (r.attempts.Some? ==> 0 <= r.attempts.value <= cfg.ceiling - AttemptsOf(rs))
  }

  function Settled(cfg: Config, d: Durable, l: Local, c: Choice): (m: Move)
    ensures m.event.None?
  {
    if c.stop != Go || l.receipt.None? || !WithinBudget(cfg, l.attempts, l.receipt.value) then Halt(d, c, None)
    else
      var rs := l.attempts + [l.receipt.value];
      Move(d.(flow := d.flow.(status := WorkerCompleted, executions := rs, execution := l.receipt, active := l.provider)),
           l.(phase := Judging, attempts := rs, execution := l.receipt), None)
  }

  // ---- After a worker ran -----------------------------------------------------------------------

  function Latest(l: Local): Option<Receipt> {
    if l.attempts != [] then Some(l.attempts[|l.attempts| - 1]) else l.execution
  }

  predicate Escalates(order: seq<string>, attempts: seq<Receipt>)
    requires attempts != []
  {
    Decide(order, attempts).Escalate? && Decide(order, attempts).next != ""
  }

  function Judge(cfg: Config, d: Durable, l: Local, c: Choice): (m: Move)
    ensures m.event.Some? ==> m.event.value.Escalated?
  {
    var latest := Latest(l);
    if c.stop.Raise? || latest.None? then Halt(d, c, None)
    else if Completed(latest.value) then
      if l.recovered && cfg.hostPrepared && !d.prepared then Halt(d, c, None)
      else if c.stop.Die? then Halt(d, c, None) else Move(d, l.(phase := Finalizing), None)
    else if cfg.fastLane || cfg.policy.None? || l.attempts == [] || !Escalates(cfg.policy.value, l.attempts) then Halt(d, c, None)
    else match NextReady(cfg.policy.value, l.attempts, c.ready)
      case None => Halt(d, c, None)
      case Some(p) =>
        if c.stop.Die? || p == "" then Halt(d, c, None)
        else Move(d.(flow := d.flow.(status := WorkerEscalating, executions := l.attempts, next := p)), l.(phase := Releasing),
                  Some(Escalated(latest.value, p)))
  }

  // The failed lease is replaced, the next provider checked, and the new lease recorded.
  function Release(d: Durable, l: Local, c: Choice): (m: Move)
    ensures m.event.Some? ==> m.event.value.Leased?
  {
    if c.stop.Raise? then Halt(d, c, None)
    else if !c.ready(d.flow.next) then Halt(d, c, Some(Leased))
    else Lease(d, l, c, d.flow.next)
  }

  function Finish(d: Durable, c: Choice): (m: Move)
    ensures m.event.Some? ==> m.event.value.Finalized?
  {
    if c.stop.Raise? then Halt(d, c, None)
    else Move(if c.stop.Die? then d else Close(d), IDLE, Some(Finalized))
  }

  // ---- The machine ---------------------------------------------------------------------------------

  function Step(cfg: Config, d: Durable, l: Local, c: Choice): Move {
    match l.phase
    case Idle => Start(cfg, d, c)
    case Entering => Enter(cfg, d, l, c)
    case LeaseHeld => HoldLease(d, l, c)
    case Budgeting => Budget(cfg, d, l, c)
    case Projecting => Project(cfg, d, l, c)
    case Gating => Gate(cfg, d, l, c)
    case Consuming => Consume(d, l, c)
    case Settling => Settle(d, l, c)
    case Invoking => Invoke(cfg, d, l, c)
    case Noting => Note(d, l, c)
    case Receipting => Settled(cfg, d, l, c)
    case Judging => Judge(cfg, d, l, c)
    case Releasing => Release(d, l, c)
    case Finalizing => Finish(d, c)
  }
}
