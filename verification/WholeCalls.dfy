// Whole calls of `execute_attempt` that nothing cuts short: from a submission, through any
// number of workers that fail and hand over, to the one that completes.
module WholeCalls {
  import opened Text
  import opened Escalation
  import opened Coordinator
  import opened CoordinatorRuns
  import opened CoordinatorTheorems
  import opened ExecutionAttempt
  import opened Judging

  // A worker's turn: who has it, and what it reports.
  datatype Turn = Turn(provider: string, receipt: Receipt)

  function Receipts(ts: seq<Turn>): seq<Receipt> { seq(|ts|, i requires 0 <= i < |ts| => ts[i].receipt) }

  // The ports answer, nothing raises, and the worker asked reports the turn's receipt.
  function Answer(ready: string -> bool, t: Turn): Choice {
    Choice(Go, false, ready, true, ModelNeeded, Some(t.receipt), false, Observation("", Insufficient), false)
  }

  predicate Complete(r: Receipt) { r.outcome == ExecutionCompleted && r.evidence }

  // The receipt is within what the earlier ones leave of both budgets, and something is left
  // before it.
  predicate Affordable(cfg: Config, rs: seq<Receipt>, r: Receipt) {
    var (calls, attempts) := (CallsOf(rs), AttemptsOf(rs));
    && calls < (if cfg.fastLane then 1 else cfg.contractCalls) && attempts < cfg.ceiling
    && 0 <= r.calls && calls + r.calls <= (if cfg.fastLane then 1 else cfg.contractCalls)
    && (r.attempts.Some? ==> 0 <= r.attempts.value && attempts + r.attempts.value <= cfg.ceiling)
  }

  // The turns as a call takes them after `rs`: each affordable, each but the last handing
  // over to the next, and the last one complete.
  ghost predicate Goes(cfg: Config, rs: seq<Receipt>, ready: string -> bool, ts: seq<Turn>)
    decreases |ts|
  {
    && ts != [] && ts[0].provider != "" && Affordable(cfg, rs, ts[0].receipt)
    && if |ts| == 1 then Complete(ts[0].receipt)
       else
         && HandsTo(cfg, rs + [ts[0].receipt], ready, ts[1].provider)
         && ready(ts[1].provider) && Goes(cfg, rs + [ts[0].receipt], ready, ts[1..])
  }

  // A worker can be given its tools: those requested for it, within the authorization, and
  // the stored ones where some are stored.
  ghost predicate Equipped(cfg: Config, a: Authorization, stored: map<string, Projection>, create: bool, p: string) {
    && p in cfg.projections && cfg.projections[p].provider == p && Contained(cfg.projections[p].effects, a.effects)
    && (if p in stored then stored[p] == cfg.projections[p] else create)
  }

  // ---- Calls strung together -----------------------------------------------------------

  lemma {:induction false} CalledAppend(cfg: Config, d: Durable, l: Local, a: seq<Choice>, b: seq<Choice>)
    ensures var (d1, l1, e1) := Called(cfg, d, l, a);
      var (d2, l2, e2) := Called(cfg, d1, l1, b);
      Called(cfg, d, l, a + b) == (d2, l2, e1 + e2)
  {
    hide Step;
    if b == [] {
      var (_, _, e1) := Called(cfg, d, l, a);
      assert a + b == a && e1 + [] == e1;
    } else {
      var front := b[..|b| - 1];
      CalledAppend(cfg, d, l, a, front);
      assert (a + b)[..|a + b| - 1] == a + front;
      var (d1, l1, e1) := Called(cfg, d, l, a);
      var (d2, l2, e2) := Called(cfg, d1, l1, front);
      var m := Step(cfg, d2, l2, b[|b| - 1]);
      assert (e1 + e2) + Told(m.event) == e1 + (e2 + Told(m.event));
      CalledLast(cfg, d, l, a + b);
      CalledLast(cfg, d1, l1, b);
    }
  }

  function Told(event: Option<Event>): seq<Event> { if event.Some? then [event.value] else [] }

  lemma CalledLast(cfg: Config, d: Durable, l: Local, a: seq<Choice>)
    requires a != []
    ensures var (d1, l1, e1) := Called(cfg, d, l, a[..|a| - 1]);
      var m := Step(cfg, d1, l1, a[|a| - 1]);
      Called(cfg, d, l, a) == (m.d, m.l, e1 + Told(m.event))
  {
    hide Step;
    var (_, _, e1) := Called(cfg, d, l, a[..|a| - 1]);
    assert e1 + [] == e1;
  }

  lemma CalledOne(cfg: Config, d: Durable, l: Local, a: seq<Choice>, c: Choice, m: Move)
    requires var (d1, l1, _) := Called(cfg, d, l, a); Step(cfg, d1, l1, c) == m
    ensures Called(cfg, d, l, a + [c]) == (m.d, m.l, Called(cfg, d, l, a).2 + Told(m.event))
  {
    hide Step;
    assert (a + [c])[..|a|] == a;
    CalledLast(cfg, d, l, a + [c]);
  }

  // ---- One turn --------------------------------------------------------------------------

  function Invoked(g: Ledger): Ledger {
    Ledger(g.entries + [Entry(ModelRequired, 1, 0, 0), Entry(ModelInvoked, 0, 1, 0)],
           Totals(g.totals.required + 1, g.totals.invoked + 1, g.totals.avoided, true))
  }

  // What a turn leaves: its receipt, the host prepared, the worker's tools, the ledger.
  function AfterTurn(cfg: Config, d: Durable, carries: bool, t: Turn): Durable
    requires carries ==> t.provider in cfg.projections
  {
    Durable(
      Flow(WorkerCompleted, d.flow.executions + [t.receipt], Some(t.receipt), t.provider, d.flow.next),
      if carries then d.envelope.(projections := d.envelope.projections[t.provider := cfg.projections[t.provider]]) else d.envelope,
      d.prepared || cfg.hostPrepared,
      if cfg.gated then Invoked(d.ledger) else d.ledger,
      d.watch)
  }

  // What it does outside.
  function TurnEvents(cfg: Config, prepared: bool, stored: set<string>, carries: bool, t: Turn): seq<Event>
    requires carries ==> t.provider in cfg.projections
  {
    (if cfg.hostPrepared && !prepared then [Prepared] else [])
    + (if carries && t.provider !in stored then [ProjectionStored(cfg.projections[t.provider])] else [])
    + (if cfg.gated then [GateAsked] else [])
    + [WorkerCalled(t.provider, if carries then Some(cfg.projections[t.provider]) else None)]
  }

  // A call about to spend a turn.
  ghost predicate AtTurn(cfg: Config, d: Durable, l: Local, ts: seq<Turn>) {
    && l.phase.Budgeting? && l.attempts == d.flow.executions && l.execution == d.flow.execution
    && ts != [] && d.flow.active == ts[0].provider && !l.recovered
    && (!cfg.hostPrepared || d.prepared || (l.submitted && l.attempts == [] && l.execution == None))
    && (l.authorization.Some? ==> forall t | t in ts :: Equipped(cfg, l.authorization.value, d.envelope.projections, l.create, t.provider))
  }

  lemma BudgetGoes(cfg: Config, d: Durable, l: Local, c: Choice, t: Turn)
    requires AtTurn(cfg, d, l, [t]) && t.provider != "" && Affordable(cfg, d.flow.executions, t.receipt) && c.stop == Go
    ensures Step(cfg, d, l, c) ==
      Move(d.(prepared := d.prepared || cfg.hostPrepared), l.(phase := Projecting, provider := t.provider),
           if cfg.hostPrepared && !d.prepared then Some(Prepared) else None)
  {
    hide CallsOf, AttemptsOf, Contained;
  }

  lemma ProjectGoes(cfg: Config, d: Durable, l: Local, c: Choice)
    requires l.phase.Projecting? && c.stop == Go
    requires l.authorization.Some? ==> Equipped(cfg, l.authorization.value, d.envelope.projections, l.create, l.provider)
    ensures var carries := l.authorization.Some?;
      var tools := if carries then d.envelope.(projections := d.envelope.projections[l.provider := cfg.projections[l.provider]]) else d.envelope;
      Step(cfg, d, l, c) == Move(
        d.(envelope := tools),
        l.(phase := if cfg.gated then Gating else Invoking, projection := if carries then Some(cfg.projections[l.provider]) else None),
        if carries && l.provider !in d.envelope.projections then Some(ProjectionStored(cfg.projections[l.provider])) else None)
  {
    hide Contained;
    var stored := d.envelope.projections;
    assert l.provider in stored && l.authorization.Some? ==> stored[l.provider := cfg.projections[l.provider]] == stored;
  }

  lemma GateGoes(cfg: Config, d: Durable, l: Local, c: Choice)
    requires l.phase.Gating? && c.stop == Go && c.verdict == ModelNeeded && !c.observes && !c.breaks
    ensures Step(cfg, d, l, c) == Move(d, l.(phase := Consuming, verdict := ModelNeeded), Some(GateAsked))
  {
  }

  lemma ConsumeGoes(cfg: Config, d: Durable, l: Local, c: Choice)
    requires l.phase.Consuming? && l.verdict == ModelNeeded && c.stop == Go
    ensures Step(cfg, d, l, c) == Move(d.(ledger := Record(d.ledger, Entry(ModelRequired, 1, 0, 0))), l.(phase := Invoking), None)
  {
    hide Record;
  }

  lemma InvokeGoes(cfg: Config, d: Durable, l: Local, c: Choice)
    requires l.phase.Invoking? && c.stop == Go
    ensures Step(cfg, d, l, c) == Move(
      d, l.(phase := if cfg.gated then Noting else Receipting, receipt := c.receipt, called := l.called + [l.provider]),
      Some(WorkerCalled(l.provider, l.projection)))
  {
  }

  lemma NoteGoes(cfg: Config, d: Durable, l: Local, c: Choice)
    requires l.phase.Noting? && c.stop == Go
    ensures Step(cfg, d, l, c) == Move(d.(ledger := Record(d.ledger, Entry(ModelInvoked, 0, 1, 0))), l.(phase := Receipting), None)
  {
    hide Record;
  }

  lemma ReceiptGoes(cfg: Config, d: Durable, l: Local, c: Choice, r: Receipt)
    requires l.phase.Receipting? && c.stop == Go && l.receipt == Some(r) && Affordable(cfg, l.attempts, r)
    ensures Step(cfg, d, l, c) == Move(
      d.(flow := Flow(WorkerCompleted, l.attempts + [r], Some(r), l.provider, d.flow.next)),
      l.(phase := Judging, attempts := l.attempts + [r], execution := Some(r)), None)
  {
    hide CallsOf, AttemptsOf;
  }

  lemma RecordedTwice(g: Ledger)
    ensures Record(Record(g, Entry(ModelRequired, 1, 0, 0)), Entry(ModelInvoked, 0, 1, 0)) == Invoked(g)
  {
    assert g.entries + [Entry(ModelRequired, 1, 0, 0)] + [Entry(ModelInvoked, 0, 1, 0)]
      == g.entries + [Entry(ModelRequired, 1, 0, 0), Entry(ModelInvoked, 0, 1, 0)];
  }

  // A call judging after a turn.
  predicate AfterIt(l: Local, m: Local, d: Durable) {
    && m.phase.Judging? && m.attempts == d.flow.executions && m.execution == d.flow.execution
    && m.authorization == l.authorization && m.create == l.create && !m.recovered
  }

  lemma CalledNone(cfg: Config, d: Durable, l: Local)
    ensures Called(cfg, d, l, []) == (d, l, [])
  {
  }

  lemma CalledTwo(cfg: Config, d: Durable, l: Local, c: Choice)
    ensures var m := Step(cfg, d, l, c);
      var n := Step(cfg, m.d, m.l, c);
      && Called(cfg, d, l, [c]) == (m.d, m.l, Told(m.event))
      && Called(cfg, d, l, [c, c]) == (n.d, n.l, Told(m.event) + Told(n.event))
  {
    hide Step;
    var m := Step(cfg, d, l, c);
    CalledNone(cfg, d, l);
    CalledOne(cfg, d, l, [], c, m);
    assert [] + [c] == [c] && [c] + [c] == [c, c];
    CalledOne(cfg, d, l, [c], c, Step(cfg, m.d, m.l, c));
    assert [] + Told(m.event) == Told(m.event);
  }

  lemma CalledThree(cfg: Config, d: Durable, l: Local, c: Choice)
    ensures var m := Step(cfg, d, l, c);
      var n := Step(cfg, m.d, m.l, c);
      var o := Step(cfg, n.d, n.l, c);
      Called(cfg, d, l, [c, c, c]) == (o.d, o.l, Told(m.event) + Told(n.event) + Told(o.event))
  {
    hide Step;
    var m := Step(cfg, d, l, c);
    var n := Step(cfg, m.d, m.l, c);
    CalledTwo(cfg, d, l, c);
    CalledOne(cfg, d, l, [c, c], c, Step(cfg, n.d, n.l, c));
    assert [c, c] + [c] == [c, c, c];
  }

  lemma NothingMore(events: seq<Event>)
    ensures events + [] == events
  {
  }

  function Tools(cfg: Config, e: Envelope, carries: bool, p: string): Envelope
    requires carries ==> p in cfg.projections
  {
    if carries then e.(projections := e.projections[p := cfg.projections[p]]) else e
  }

  // The first two moves of a turn.
  lemma ToolsGo(cfg: Config, d: Durable, l: Local, c: Choice, t: Turn)
    requires AtTurn(cfg, d, l, [t]) && t.provider != "" && Affordable(cfg, d.flow.executions, t.receipt) && c.stop == Go
    ensures l.authorization.Some? ==> t.provider in cfg.projections
    ensures var carries := l.authorization.Some?;
      Called(cfg, d, l, [c, c]) == (
        d.(prepared := d.prepared || cfg.hostPrepared, envelope := Tools(cfg, d.envelope, carries, t.provider)),
        l.(phase := if cfg.gated then Gating else Invoking, provider := t.provider,
           projection := if carries then Some(cfg.projections[t.provider]) else None),
        Told(if cfg.hostPrepared && !d.prepared then Some(Prepared) else None)
        + Told(if carries && t.provider !in d.envelope.projections then Some(ProjectionStored(cfg.projections[t.provider])) else None))
  {
    hide Step, Affordable, Called, Contained;
    assert t in [t];
    BudgetGoes(cfg, d, l, c, t);
    var m := Step(cfg, d, l, c);
    ProjectGoes(cfg, m.d, m.l, c);
    CalledTwo(cfg, d, l, c);
  }

  // The gate, where there is one.
  lemma GateOpens(cfg: Config, d: Durable, l: Local, c: Choice) returns (cs: seq<Choice>, m: Local)
    requires l.phase == (if cfg.gated then Gating else Invoking) && c.stop == Go && c.verdict == ModelNeeded && !c.observes && !c.breaks
    ensures m == l.(phase := Invoking, verdict := m.verdict)
    ensures Called(cfg, d, l, cs) == (
      d.(ledger := if cfg.gated then Record(d.ledger, Entry(ModelRequired, 1, 0, 0)) else d.ledger), m,
      if cfg.gated then [GateAsked] else [])
  {
    hide Step, Called, Record;
    if cfg.gated {
      GateGoes(cfg, d, l, c);
      var n := Step(cfg, d, l, c);
      ConsumeGoes(cfg, n.d, n.l, c);
      CalledTwo(cfg, d, l, c);
      NothingMore([GateAsked]);
      cs, m := [c, c], Step(cfg, n.d, n.l, c).l;
    } else {
      CalledNone(cfg, d, l);
      cs, m := [], l;
    }
  }

  // The worker, and its receipt.
  lemma WorkerGoes(cfg: Config, d: Durable, l: Local, c: Choice, r: Receipt) returns (cs: seq<Choice>, m: Local)
    requires l.phase.Invoking? && c.stop == Go && c.receipt == Some(r) && Affordable(cfg, l.attempts, r)
    ensures m == l.(phase := Judging, receipt := Some(r), called := m.called, attempts := l.attempts + [r], execution := Some(r))
    ensures Called(cfg, d, l, cs) == (
      d.(ledger := if cfg.gated then Record(d.ledger, Entry(ModelInvoked, 0, 1, 0)) else d.ledger,
         flow := Flow(WorkerCompleted, l.attempts + [r], Some(r), l.provider, d.flow.next)),
      m, [WorkerCalled(l.provider, l.projection)])
  {
    hide Step, Called, Record, Affordable;
    InvokeGoes(cfg, d, l, c);
    NothingMore([WorkerCalled(l.provider, l.projection)]);
    var n := Step(cfg, d, l, c);
    if cfg.gated {
      NoteGoes(cfg, n.d, n.l, c);
      var o := Step(cfg, n.d, n.l, c);
      ReceiptGoes(cfg, o.d, o.l, c, r);
      CalledThree(cfg, d, l, c);
      cs, m := [c, c, c], Step(cfg, o.d, o.l, c).l;
    } else {
      ReceiptGoes(cfg, n.d, n.l, c, r);
      CalledTwo(cfg, d, l, c);
      cs, m := [c, c], Step(cfg, n.d, n.l, c).l;
    }
  }

  lemma TurnGoes(cfg: Config, d: Durable, l: Local, ready: string -> bool, t: Turn) returns (cs: seq<Choice>, m: Local)
    requires AtTurn(cfg, d, l, [t]) && t.provider != "" && Affordable(cfg, d.flow.executions, t.receipt)
    ensures l.authorization.Some? ==> t.provider in cfg.projections
    ensures var carries := l.authorization.Some?;
      && Called(cfg, d, l, cs) ==
        (AfterTurn(cfg, d, carries, t), m, TurnEvents(cfg, d.prepared, d.envelope.projections.Keys, carries, t))
      && AfterIt(l, m, AfterTurn(cfg, d, carries, t))
  {
    hide Step, Affordable, Called, Record, Contained, Equipped;
    var c := Answer(ready, t);
    ToolsGo(cfg, d, l, c, t);
    var (d1, l1, e1) := Called(cfg, d, l, [c, c]);
    var gate, l2 := GateOpens(cfg, d1, l1, c);
    var (d2, _, e2) := Called(cfg, d1, l1, gate);
    var work, l3 := WorkerGoes(cfg, d2, l2, c, t.receipt);
    CalledAppend(cfg, d, l, [c, c], gate);
    CalledAppend(cfg, d, l, [c, c] + gate, work);
    RecordedTwice(d.ledger);
    cs, m := [c, c] + gate + work, l3;
  }

  // ---- From one turn to the next, and to the end --------------------------------------------

  // The moves from a failed worker to the next one's turn.
  // The provider a call hands over to.
  ghost predicate HandsTo(cfg: Config, rs: seq<Receipt>, ready: string -> bool, p: string) {
    exists i: nat :: HandsOver(cfg, rs, ready, i) && cfg.policy.value[i] == p
  }

  lemma HandOverIs(cfg: Config, d: Durable, l: Local, c: Choice, p: string)
    requires l.phase.Judging? && l.attempts == d.flow.executions && l.attempts != [] && c.stop == Go
    requires HandsTo(cfg, d.flow.executions, c.ready, p)
    ensures Judge(cfg, d, l, c) == Move(
      d.(flow := d.flow.(status := WorkerEscalating, next := p)), l.(phase := Releasing),
      Some(Escalated(d.flow.executions[|d.flow.executions| - 1], p)))
  {
    hide Judge, WorthAnother, Tried;
    JudgeIs(cfg, d, l, c);
  }

  lemma HandOverGoes(cfg: Config, d: Durable, l: Local, c: Choice, p: string)
    requires l.phase.Judging? && l.attempts == d.flow.executions && l.attempts != [] && c.stop == Go && c.ready(p)
    requires HandsTo(cfg, d.flow.executions, c.ready, p)
    ensures Called(cfg, d, l, [c, c, c]) == (
      d.(flow := d.flow.(status := WorkerRunning, active := p, next := "")), l.(phase := Budgeting, entered := true),
      [Escalated(d.flow.executions[|d.flow.executions| - 1], p), Leased])
  {
    hide Step, HandsTo, Judge, Called;
    HandOverIs(cfg, d, l, c, p);
    StepJudges(cfg, d, l, c);
    var m := Step(cfg, d, l, c);
    ReleaseGoes(cfg, m.d, m.l, c);
    var n := Step(cfg, m.d, m.l, c);
    HoldGoes(cfg, n.d, n.l, c);
    CalledThree(cfg, d, l, c);
    var e: Event := Escalated(d.flow.executions[|d.flow.executions| - 1], p);
    assert [e] + [Leased] + [] == [e, Leased];
  }

  lemma StepJudges(cfg: Config, d: Durable, l: Local, c: Choice)
    requires l.phase.Judging?
    ensures Step(cfg, d, l, c) == Judge(cfg, d, l, c)
  {
    hide Judge;
  }

  lemma ReleaseGoes(cfg: Config, d: Durable, l: Local, c: Choice)
    requires l.phase.Releasing? && d.flow.status == WorkerEscalating && c.stop == Go && c.ready(d.flow.next)
    ensures Step(cfg, d, l, c) == Move(
      d.(flow := d.flow.(status := TargetLeased, active := d.flow.next, next := "")), l.(phase := LeaseHeld), Some(Leased))
  {
  }

  lemma HoldGoes(cfg: Config, d: Durable, l: Local, c: Choice)
    requires l.phase.LeaseHeld? && c.stop == Go
    ensures Step(cfg, d, l, c) == Move(d.(flow := d.flow.(status := WorkerRunning)), l.(phase := Budgeting, entered := true), None)
  {
  }

  // The moves from a worker that completed to the end.
  lemma EndGoes(cfg: Config, d: Durable, l: Local, c: Choice)
    requires l.phase.Judging? && l.attempts == d.flow.executions && l.attempts != [] && c.stop == Go && !l.recovered
    requires Complete(d.flow.executions[|d.flow.executions| - 1])
    ensures Called(cfg, d, l, [c, c]) == (d.(flow := d.flow.(status := Closed)), IDLE, [Finalized])
  {
    hide Step, HandsOver, Judge, Called;
    JudgeIs(cfg, d, l, c);
    StepJudges(cfg, d, l, c);
    var m := Step(cfg, d, l, c);
    FinishGoes(cfg, m.d, m.l, c);
    CalledTwo(cfg, d, l, c);
    var e: Event := Finalized;
    assert [] + [e] == [e];
  }

  lemma FinishGoes(cfg: Config, d: Durable, l: Local, c: Choice)
    requires l.phase.Finalizing? && c.stop == Go
    ensures Step(cfg, d, l, c) == Move(d.(flow := d.flow.(status := Closed)), IDLE, Some(Finalized))
  {
  }

  // ---- What a call through all its turns leaves ------------------------------------------------

  function Pairs(n: nat): seq<Entry> {
    if n == 0 then [] else [Entry(ModelRequired, 1, 0, 0), Entry(ModelInvoked, 0, 1, 0)] + Pairs(n - 1)
  }

  // Each worker was required and invoked once, where there is a gate.
  predicate Counted(cfg: Config, before: Ledger, after: Ledger, n: nat) {
    if !cfg.gated || n == 0 then after == before
    else
      && after.entries == before.entries + Pairs(n)
      && after.totals == Totals(before.totals.required + n, before.totals.invoked + n, before.totals.avoided, true)
  }

  predicate Has(ts: seq<Turn>, p: string) { exists i | 0 <= i < |ts| :: ts[i].provider == p }

  // Each worker's tools were stored, nobody else's.
  ghost predicate Stored(cfg: Config, before: map<string, Projection>, after: map<string, Projection>, carries: bool, ts: seq<Turn>) {
    && (forall p :: p in after <==> p in before || (carries && Has(ts, p)))
    && (forall p | p in after :: after[p] == (if p in before then before[p] else if p in cfg.projections then cfg.projections[p] else after[p]))
  }

  // The receipts in order, the last one's worker, the ledger, the tools, the host.
  ghost predicate Settles(cfg: Config, d: Durable, after: Durable, carries: bool, ts: seq<Turn>) {
    && ts != [] && var last := ts[|ts| - 1];
    && after.flow == Flow(
        Closed, d.flow.executions + Receipts(ts), Some(last.receipt), last.provider, if |ts| == 1 then d.flow.next else "")
    && after.prepared == (d.prepared || cfg.hostPrepared) && after.watch == d.watch
    && Counted(cfg, d.ledger, after.ledger, |ts|)
    && after.envelope == d.envelope.(projections := after.envelope.projections)
    && Stored(cfg, d.envelope.projections, after.envelope.projections, carries, ts)
  }

  // What it does outside, in order.
  function EventsOf(cfg: Config, prepared: bool, stored: set<string>, carries: bool, ts: seq<Turn>): seq<Event>
    requires ts != [] && (carries ==> forall t | t in ts :: t.provider in cfg.projections)
    decreases |ts|
  {
    assert ts[0] in ts;
    TurnEvents(cfg, prepared, stored, carries, ts[0])
    + if |ts| == 1 then [Finalized]
      else
        assert forall t | t in ts[1..] :: t in ts;
        [Escalated(ts[0].receipt, ts[1].provider), Leased]
        + EventsOf(cfg, prepared || cfg.hostPrepared, if carries then stored + {ts[0].provider} else stored, carries, ts[1..])
  }

  lemma AllEquipped(cfg: Config, d: Durable, l: Local, ts: seq<Turn>)
    requires AtTurn(cfg, d, l, ts) && l.authorization.Some?
    ensures forall t | t in ts :: t.provider in cfg.projections
  {
    hide Contained;
  }

  lemma FirstTurn(cfg: Config, d: Durable, l: Local, ts: seq<Turn>)
    requires AtTurn(cfg, d, l, ts)
    ensures AtTurn(cfg, d, l, [ts[0]])
  {
    hide Equipped;
    assert ts[0] in ts;
  }

  lemma NextTurn(cfg: Config, d: Durable, l: Local, ts: seq<Turn>, m: Local)
    requires AtTurn(cfg, d, l, ts) && |ts| > 1
    requires l.authorization.Some? ==> ts[0].provider in cfg.projections
    requires AfterIt(l, m, AfterTurn(cfg, d, l.authorization.Some?, ts[0]))
    ensures var after := AfterTurn(cfg, d, l.authorization.Some?, ts[0]);
      AtTurn(cfg, after.(flow := after.flow.(status := WorkerRunning, active := ts[1].provider, next := "")),
             m.(phase := Budgeting, entered := true), ts[1..])
  {
    hide Contained;
    assert forall t | t in ts[1..] :: t in ts;
  }

  // The durable state of a further call, put together with the one before.
  lemma SettlesOn(cfg: Config, d: Durable, carries: bool, ts: seq<Turn>, next: Durable, after: Durable)
    requires |ts| > 1 && (carries ==> ts[0].provider in cfg.projections)
    requires carries && ts[0].provider in d.envelope.projections ==> d.envelope.projections[ts[0].provider] == cfg.projections[ts[0].provider]
    requires next == AfterTurn(cfg, d, carries, ts[0]).(flow := next.flow)
    requires next.flow == AfterTurn(cfg, d, carries, ts[0]).flow.(status := WorkerRunning, active := ts[1].provider, next := "")
    requires Settles(cfg, next, after, carries, ts[1..])
    ensures Settles(cfg, d, after, carries, ts)
  {
    hide Counted, Stored;
    assert Receipts(ts) == [ts[0].receipt] + Receipts(ts[1..]);
    assert d.flow.executions + [ts[0].receipt] + Receipts(ts[1..]) == d.flow.executions + Receipts(ts);
    CountedOn(cfg, d.ledger, next.ledger, after.ledger, |ts|);
    StoredOn(cfg, d.envelope.projections, next.envelope.projections, after.envelope.projections, carries, ts);
  }

  lemma CountedOn(cfg: Config, g: Ledger, next: Ledger, after: Ledger, n: nat)
    requires n > 1 && next == (if cfg.gated then Invoked(g) else g) && Counted(cfg, next, after, n - 1)
    ensures Counted(cfg, g, after, n)
  {
    var two := [Entry(ModelRequired, 1, 0, 0), Entry(ModelInvoked, 0, 1, 0)];
    assert g.entries + two + Pairs(n - 1) == g.entries + (two + Pairs(n - 1));
  }

  lemma StoredOn(cfg: Config, before: map<string, Projection>, next: map<string, Projection>, after: map<string, Projection>,
                 carries: bool, ts: seq<Turn>)
    requires |ts| > 1 && (carries ==> ts[0].provider in cfg.projections)
    requires carries && ts[0].provider in before ==> before[ts[0].provider] == cfg.projections[ts[0].provider]
    requires next == (if carries then before[ts[0].provider := cfg.projections[ts[0].provider]] else before)
    requires Stored(cfg, next, after, carries, ts[1..])
    ensures Stored(cfg, before, after, carries, ts)
  {
    forall p ensures Has(ts, p) <==> ts[0].provider == p || Has(ts[1..], p) {
      if i :| 0 <= i < |ts| && ts[i].provider == p { if i > 0 { assert ts[1..][i - 1].provider == p; } }
      if i :| 0 <= i < |ts[1..]| && ts[1..][i].provider == p { assert ts[i + 1].provider == p; }
    }
  }

  lemma LastTurn(cfg: Config, d: Durable, carries: bool, t: Turn)
    requires carries ==> t.provider in cfg.projections
    requires carries && t.provider in d.envelope.projections ==> d.envelope.projections[t.provider] == cfg.projections[t.provider]
    ensures var after := AfterTurn(cfg, d, carries, t);
      Settles(cfg, d, after.(flow := after.flow.(status := Closed)), carries, [t])
  {
    assert Receipts([t]) == [t.receipt];
    assert Pairs(1) == [Entry(ModelRequired, 1, 0, 0), Entry(ModelInvoked, 0, 1, 0)] + Pairs(0) == [Entry(ModelRequired, 1, 0, 0), Entry(ModelInvoked, 0, 1, 0)];
    assert [t][0].provider == t.provider;
  }

  // From a worker's turn to the end of the call.
  lemma {:induction false} TurnsGo(cfg: Config, d: Durable, l: Local, ready: string -> bool, ts: seq<Turn>)
    returns (cs: seq<Choice>, after: Durable)
    requires AtTurn(cfg, d, l, ts) && Goes(cfg, d.flow.executions, ready, ts)
    ensures l.authorization.Some? ==> forall t | t in ts :: t.provider in cfg.projections
    ensures var carries := l.authorization.Some?;
      && Called(cfg, d, l, cs) == (after, IDLE, EventsOf(cfg, d.prepared, d.envelope.projections.Keys, carries, ts))
      && Settles(cfg, d, after, carries, ts)
    decreases |ts|
  {
    hide Affordable, Called, Settles, TurnEvents, HandsTo, AtTurn, EventsOf, Counted, Complete;
    var (carries, t) := (l.authorization.Some?, ts[0]);
    if carries { AllEquipped(cfg, d, l, ts); }
    FirstTurn(cfg, d, l, ts);
    StoredSame(cfg, d, l, ts);
    var turn, m := TurnGoes(cfg, d, l, ready, t);
    var d1 := AfterTurn(cfg, d, carries, t);
    var c := Answer(ready, t);
    if |ts| == 1 {
      EndGoes(cfg, d1, m, c);
      CalledAppend(cfg, d, l, turn, [c, c]);
      LastTurn(cfg, d, carries, t);
      LastEvents(cfg, d, carries, ts);
      assert ts == [t];
      cs, after := turn + [c, c], d1.(flow := d1.flow.(status := Closed));
    } else {
      HandOverGoes(cfg, d1, m, c, ts[1].provider);
      CalledAppend(cfg, d, l, turn, [c, c, c]);
      var (d2, l2, _) := Called(cfg, d1, m, [c, c, c]);
      NextTurn(cfg, d, l, ts, m);
      var rest, end := TurnsGo(cfg, d2, l2, ready, ts[1..]);
      CalledAppend(cfg, d, l, turn + [c, c, c], rest);
      SettlesOn(cfg, d, carries, ts, d2, end);
      EventsOn(cfg, d, d2, carries, ts);
      cs, after := turn + [c, c, c] + rest, end;
    }
  }

  lemma StoredSame(cfg: Config, d: Durable, l: Local, ts: seq<Turn>)
    requires AtTurn(cfg, d, l, ts)
    ensures l.authorization.Some? && ts[0].provider in d.envelope.projections ==>
      ts[0].provider in cfg.projections && d.envelope.projections[ts[0].provider] == cfg.projections[ts[0].provider]
  {
    hide Contained;
    assert ts[0] in ts;
  }

  lemma LastEvents(cfg: Config, d: Durable, carries: bool, ts: seq<Turn>)
    requires |ts| == 1 && (carries ==> forall t | t in ts :: t.provider in cfg.projections)
    ensures ts[0] in ts
    ensures EventsOf(cfg, d.prepared, d.envelope.projections.Keys, carries, ts) ==
      TurnEvents(cfg, d.prepared, d.envelope.projections.Keys, carries, ts[0]) + [Finalized]
  {
    hide TurnEvents;
  }

  lemma EventsOn(cfg: Config, d: Durable, next: Durable, carries: bool, ts: seq<Turn>)
    requires |ts| > 1 && (carries ==> forall t | t in ts :: t.provider in cfg.projections)
    requires next.prepared == (d.prepared || cfg.hostPrepared)
    requires next.envelope.projections.Keys == (if carries then d.envelope.projections.Keys + {ts[0].provider} else d.envelope.projections.Keys)
    ensures (forall t | t in ts[1..] :: t in ts) && ts[0] in ts
    ensures EventsOf(cfg, d.prepared, d.envelope.projections.Keys, carries, ts) ==
      TurnEvents(cfg, d.prepared, d.envelope.projections.Keys, carries, ts[0])
      + [Escalated(ts[0].receipt, ts[1].provider), Leased]
      + EventsOf(cfg, next.prepared, next.envelope.projections.Keys, carries, ts[1..])
  {
    hide TurnEvents;
    assert forall t | t in ts[1..] :: t in ts;
  }

  // ---- From rest -----------------------------------------------------------------------------

  predicate Required(cfg: Config, d: Durable) { cfg.authorityRequired || d.envelope.authorization != None }

  // The authorization a call works under: the stored one, or the requested one.
  function Authority(cfg: Config, d: Durable): Option<Authorization> {
    if !Required(cfg, d) then None else if d.envelope.authorization != None then d.envelope.authorization else cfg.requested
  }

  // A submission that nothing has been done for.
  predicate Untouched(f: Flow) { f.status == Submitted && f.executions == [] && f.execution == None }

  predicate Authorized(cfg: Config, d: Durable) {
    Required(cfg, d) ==>
      && cfg.requested != None
      && (d.envelope.authorization == None ==> Untouched(d.flow))
      && (d.envelope.authorization != None ==>
          && cfg.hash(d.envelope.authorization.value) == cfg.hash(cfg.requested.value)
          && d.envelope.hash == cfg.hash(d.envelope.authorization.value))
  }

  predicate FirstReady(order: seq<string>, ready: string -> bool, p: string) {
    exists i | 0 <= i < |order| :: order[i] == p && ready(p) && forall j | 0 <= j < i :: !ready(order[j])
  }

  // The status a call finds lets `p` take the first turn.
  predicate Opens(cfg: Config, d: Durable, ready: string -> bool, p: string) {
    match d.flow.status
    case Submitted => Untouched(d.flow) && FirstReady(if cfg.order == [] then [cfg.preferred] else cfg.order, ready, p)
    case WorkerEscalating => !cfg.fastLane && p != "" && d.flow.next == p && ready(p) && (cfg.hostPrepared ==> d.prepared)
    case WorkerRunning => d.flow.active == p && (cfg.hostPrepared ==> d.prepared)
    case _ => false
  }

  // What is durable when the first turn begins.
  function Opened(cfg: Config, d: Durable, p: string): Durable
    requires Authorized(cfg, d)
  {
    var authority := Authority(cfg, d);
    d.(envelope := if authority.Some? then d.envelope.(authorization := authority, hash := cfg.hash(authority.value)) else d.envelope,
       flow := d.flow.(status := WorkerRunning, active := p, next := if d.flow.status == WorkerEscalating then "" else d.flow.next))
  }

  function OpeningEvents(cfg: Config, d: Durable): seq<Event>
    requires Authorized(cfg, d)
  {
    (if Required(cfg, d) && d.envelope.authorization == None then [AuthorizationStored(cfg.requested.value)] else [])
    + (if d.flow.status == WorkerRunning then [] else [Leased])
  }

  lemma StartGoes(cfg: Config, d: Durable, c: Choice)
    requires Authorized(cfg, d) && c.stop == Go && c.accepts
    ensures var m := Step(cfg, d, IDLE, c);
      var authority := Authority(cfg, d);
      && m.d == d.(envelope := if authority.Some? then d.envelope.(authorization := authority, hash := cfg.hash(authority.value)) else d.envelope)
      && m.l == IDLE.(phase := Entering, submitted := d.flow.status == Submitted, create := Untouched(d.flow),
                      required := Required(cfg, d), authorization := authority)
      && m.event == (if Required(cfg, d) && d.envelope.authorization == None then Some(AuthorizationStored(cfg.requested.value)) else None)
  {
  }

  lemma FirstReadyIs(order: seq<string>, ready: string -> bool, p: string)
    requires FirstReady(order, ready, p)
    ensures FirstOf(order, ready) == Some(p)
  {
    var i :| 0 <= i < |order| && order[i] == p && ready(p) && forall j | 0 <= j < i :: !ready(order[j]);
    assert FirstIndex(order, ready) == i;
  }

  lemma EnterGoes(cfg: Config, d: Durable, l: Local, c: Choice, p: string)
    requires l.phase.Entering? && !cfg.custom && Opens(cfg, d, c.ready, p) && c.stop == Go
    ensures var m := Step(cfg, d, l, c);
      var n := l.(attempts := d.flow.executions, execution := d.flow.execution);
      if d.flow.status == WorkerRunning then m == Move(d, n.(phase := Budgeting, entered := true), None)
      else m == Move(
        d.(flow := d.flow.(status := TargetLeased, active := p, next := if d.flow.status == WorkerEscalating then "" else d.flow.next)),
        n.(phase := LeaseHeld), Some(Leased))
  {
    hide FirstReady, FirstOf;
    if d.flow.status == Submitted { FirstReadyIs(if cfg.order == [] then [cfg.preferred] else cfg.order, c.ready, p); }
  }

  // The call comes to its first turn.
  lemma OpeningGoes(cfg: Config, d: Durable, c: Choice, ts: seq<Turn>) returns (cs: seq<Choice>, l: Local)
    requires ts != [] && Authorized(cfg, d) && !cfg.custom && Opens(cfg, d, c.ready, ts[0].provider) && c.stop == Go && c.accepts
    requires Required(cfg, d) ==>
      forall t | t in ts :: Equipped(cfg, Authority(cfg, d).value, d.envelope.projections, Untouched(d.flow), t.provider)
    ensures Called(cfg, d, IDLE, cs) == (Opened(cfg, d, ts[0].provider), l, OpeningEvents(cfg, d))
    ensures AtTurn(cfg, Opened(cfg, d, ts[0].provider), l, ts) && l.authorization == Authority(cfg, d)
  {
    hide Step, Called, Equipped, FirstReady;
    StartGoes(cfg, d, c);
    var m := Step(cfg, d, IDLE, c);
    EnterGoes(cfg, m.d, m.l, c, ts[0].provider);
    var n := Step(cfg, m.d, m.l, c);
    CalledTwo(cfg, d, IDLE, c);
    if d.flow.status == WorkerRunning {
      cs, l := [c, c], n.l;
      assert m.d == Opened(cfg, d, ts[0].provider);
    } else {
      HoldGoes(cfg, n.d, n.l, c);
      CalledThree(cfg, d, IDLE, c);
      cs, l := [c, c, c], Step(cfg, n.d, n.l, c).l;
      NothingMore(Told(m.event) + [Leased]);
    }
  }

  // Whatever the providers and their receipts: where the authority accepts, the budgets
  // suffice, each worker but the last fails in a way that calls for another and the last
  // completes, a call from a fresh submission, from a running worker or from a recorded
  // escalation runs to its end. It calls those workers in that order, leaves their receipts
  // in order, prepares the host if one is to be prepared, stores what each worker carries,
  // counts each gated call once, and is finalized and closed.
  lemma CallCompletes(cfg: Config, d: Durable, ready: string -> bool, ts: seq<Turn>) returns (cs: seq<Choice>, after: Durable)
    requires ts != [] && Authorized(cfg, d) && !cfg.custom && Opens(cfg, d, ready, ts[0].provider)
    requires Required(cfg, d) ==>
      forall t | t in ts :: Equipped(cfg, Authority(cfg, d).value, d.envelope.projections, Untouched(d.flow), t.provider)
    requires Goes(cfg, d.flow.executions, ready, ts)
    ensures Required(cfg, d) ==> forall t | t in ts :: t.provider in cfg.projections
    ensures Called(cfg, d, IDLE, cs) == (
      after, IDLE, OpeningEvents(cfg, d) + EventsOf(cfg, d.prepared, d.envelope.projections.Keys, Required(cfg, d), ts))
    ensures Settles(cfg, Opened(cfg, d, ts[0].provider), after, Required(cfg, d), ts)
  {
    hide Called, Goes, Opens, Equipped, Settles, AtTurn, EventsOf;
    var c := Answer(ready, ts[0]);
    var opening, l := OpeningGoes(cfg, d, c, ts);
    var rest, end := TurnsGo(cfg, Opened(cfg, d, ts[0].provider), l, ready, ts);
    CalledAppend(cfg, d, IDLE, opening, rest);
    cs, after := opening + rest, end;
  }

  // ---- A deterministic resolution in the worker's place ---------------------------------------

  // Complete, and made without a call.
  predicate Free(r: Receipt) { Complete(r) && r.calls == 0 && r.attempts in {None, Some(0)} }

  function Resolved(g: Ledger, required: nat, avoided: nat): Ledger {
    var t := g.totals;
    Ledger(
      g.entries + [Entry(DeterministicResolved, 0, 0, 0), Entry(if avoided == 1 then ModelAvoided else ModelRequired, required, 0, avoided)],
      Totals(t.required + required, t.invoked, t.avoided + avoided,
             t.invoked > 0 || t.required + required > t.avoided + avoided))
  }

  // A resolved verdict replaces the worker exactly when its receipt is complete and claims
  // neither a call nor an attempt; otherwise the call is recorded as requiring the model, and
  // goes on to the worker.
  lemma ResolutionReplaces(cfg: Config, d: Durable, l: Local, c: Choice)
    requires l.phase.Gating? && c.stop == Go && c.verdict == Verdict.Resolved
    ensures var (after, m, events) := Called(cfg, d, l, [c, c, c]);
      var free := c.receipt.Some? && Free(c.receipt.value);
      && events == [GateAsked] && after == d.(ledger := Resolved(d.ledger, if free then 0 else 1, if free then 1 else 0))
      && m == if free then l.(phase := Receipting, verdict := Verdict.Resolved, receipt := c.receipt, called := l.called + [l.provider])
              else l.(phase := Invoking, verdict := Verdict.Resolved)
  {
    hide Step, Called, Record;
    ResolvedGate(cfg, d, l, c);
    var m := Step(cfg, d, l, c);
    ResolvedConsume(cfg, m.d, m.l, c);
    var n := Step(cfg, m.d, m.l, c);
    ResolvedSettle(cfg, n.d, n.l, c);
    CalledThree(cfg, d, l, c);
    NothingMore([GateAsked]);
    ResolvedLedger(d.ledger);
  }

  lemma ResolvedGate(cfg: Config, d: Durable, l: Local, c: Choice)
    requires l.phase.Gating? && c.stop == Go && c.verdict == Verdict.Resolved
    ensures Step(cfg, d, l, c) == Move(d, l.(phase := Consuming, verdict := Verdict.Resolved), Some(GateAsked))
  {
  }

  lemma ResolvedConsume(cfg: Config, d: Durable, l: Local, c: Choice)
    requires l.phase.Consuming? && c.stop == Go && l.verdict == Verdict.Resolved
    ensures Step(cfg, d, l, c) == Move(d.(ledger := Record(d.ledger, Entry(DeterministicResolved, 0, 0, 0))), l.(phase := Settling), None)
  {
    hide Record;
  }

  lemma ResolvedSettle(cfg: Config, d: Durable, l: Local, c: Choice)
    requires l.phase.Settling? && c.stop == Go
    ensures Step(cfg, d, l, c) ==
      if c.receipt.Some? && Free(c.receipt.value) then
        Move(d.(ledger := Record(d.ledger, Entry(ModelAvoided, 0, 0, 1))),
             l.(phase := Receipting, receipt := c.receipt, called := l.called + [l.provider]), None)
      else Move(d.(ledger := Record(d.ledger, Entry(ModelRequired, 1, 0, 0))), l.(phase := Invoking), None)
  {
    hide Record;
  }

  lemma ResolvedLedger(g: Ledger)
    ensures Record(Record(g, Entry(DeterministicResolved, 0, 0, 0)), Entry(ModelAvoided, 0, 0, 1)) == Resolved(g, 0, 1)
    ensures Record(Record(g, Entry(DeterministicResolved, 0, 0, 0)), Entry(ModelRequired, 1, 0, 0)) == Resolved(g, 1, 0)
  {
    var e := Entry(DeterministicResolved, 0, 0, 0);
    assert g.entries + [e] + [Entry(ModelAvoided, 0, 0, 1)] == g.entries + [e, Entry(ModelAvoided, 0, 0, 1)];
    assert g.entries + [e] + [Entry(ModelRequired, 1, 0, 0)] == g.entries + [e, Entry(ModelRequired, 1, 0, 0)];
  }

  // ---- Where a call stops ------------------------------------------------------------------------

  // What ends a call although nothing raises or dies: on entering,
  predicate EntryStops(cfg: Config, d: Durable, c: Choice) {
    cfg.custom || match d.flow.status
      case Submitted => forall p | p in (if cfg.order == [] then [cfg.preferred] else cfg.order) :: !c.ready(p)
      case WorkerEscalating => cfg.fastLane || d.flow.next == "" || !c.ready(d.flow.next)
      case TargetLeased => true
      case _ => false
  }

  // before a turn,
  predicate BudgetStops(cfg: Config, d: Durable, l: Local) {
    || CallsOf(l.attempts) >= (if cfg.fastLane then 1 else cfg.contractCalls) || AttemptsOf(l.attempts) >= cfg.ceiling
    || (cfg.hostPrepared && !d.prepared && !(l.submitted && l.attempts == [] && d.flow.execution == None))
  }

  ghost predicate ToolsStop(cfg: Config, d: Durable, l: Local) {
    l.authorization.Some? && !Equipped(cfg, l.authorization.value, d.envelope.projections, l.create, l.provider)
  }

  // with a worker's receipt,
  predicate ReceiptStops(cfg: Config, l: Local) {
    l.receipt == None || var r := l.receipt.value;
      || r.calls < 0 || CallsOf(l.attempts) + r.calls > (if cfg.fastLane then 1 else cfg.contractCalls)
      || (r.attempts.Some? && (r.attempts.value < 0 || AttemptsOf(l.attempts) + r.attempts.value > cfg.ceiling))
  }

  // and when it is judged.
  ghost predicate JudgementStops(cfg: Config, d: Durable, l: Local, c: Choice) {
    var last := LastReceipt(d.flow);
    if last.Some? && Complete(last.value) then l.recovered && cfg.hostPrepared && !d.prepared
    else !exists i: nat :: HandsOver(cfg, d.flow.executions, c.ready, i)
  }

  ghost predicate Stops(cfg: Config, d: Durable, l: Local, c: Choice) {
    match l.phase
    case Idle => Required(cfg, d) && !(c.accepts && Authorized(cfg, d))
    case Entering => EntryStops(cfg, d, c)
    case Budgeting => BudgetStops(cfg, d, l)
    case Projecting => ToolsStop(cfg, d, l)
    case Gating => cfg.observed && c.verdict == ModelNeeded && c.breaks
    case Receipting => ReceiptStops(cfg, l)
    case Judging => JudgementStops(cfg, d, l, c)
    case Releasing => !c.ready(d.flow.next)
    case Finalizing => true
    case _ => false
  }

  // While nothing raises or dies, a call comes to rest exactly there, in every reachable state.
  lemma CallStopsIff(cfg: Config, d: Durable, choices: seq<Choice>, c: Choice)
    requires c.stop == Go
    ensures var w := Run(cfg, Begin(d), choices); Next(cfg, w, c).l.phase.Idle? <==> Stops(cfg, w.d, w.l, c)
  {
    hide Run, Inv, Step, Stops;
    var w := Run(cfg, Begin(d), choices);
    Reached(cfg, d, choices);
    if w.l.phase.Judging? {
      JudgedReceipt(cfg, w);
      JudgedAttempts(cfg, w);
      JudgingStops(cfg, w.d, w.l, c);
    } else {
      RestStops(cfg, w.d, w.l, c);
    }
  }

  lemma JudgingStops(cfg: Config, d: Durable, l: Local, c: Choice)
    requires c.stop == Go && l.phase.Judging? && l.attempts == d.flow.executions && Latest(l) == LastReceipt(d.flow)
    ensures Step(cfg, d, l, c).l.phase.Idle? <==> Stops(cfg, d, l, c)
  {
    hide Step, Judge, HandsOver, EntryStops, BudgetStops, ToolsStop, ReceiptStops, Required, Authorized;
    JudgeIs(cfg, d, l, c);
    StepJudges(cfg, d, l, c);
    WorthIsIncomplete(cfg, d.flow.executions, c.ready);
  }

  lemma StepIs(cfg: Config, d: Durable, l: Local, c: Choice)
    ensures l.phase.Idle? ==> Step(cfg, d, l, c) == Start(cfg, d, c)
    ensures l.phase.Entering? ==> Step(cfg, d, l, c) == Enter(cfg, d, l, c)
    ensures l.phase.Budgeting? ==> Step(cfg, d, l, c) == Budget(cfg, d, l, c)
    ensures l.phase.Projecting? ==> Step(cfg, d, l, c) == Project(cfg, d, l, c)
    ensures l.phase.Gating? ==> Step(cfg, d, l, c) == Gate(cfg, d, l, c)
    ensures l.phase.Receipting? ==> Step(cfg, d, l, c) == Settled(cfg, d, l, c)
    ensures l.phase.Releasing? ==> Step(cfg, d, l, c) == Release(d, l, c)
  {
    hide Start, Enter, HoldLease, Budget, Project, Gate, Consume, Settle, Invoke, Note, Settled, Judge, Release, Finish;
  }

  lemma RestStops(cfg: Config, d: Durable, l: Local, c: Choice)
    requires c.stop == Go && !l.phase.Judging?
    ensures Step(cfg, d, l, c).l.phase.Idle? <==> Stops(cfg, d, l, c)
  {
    hide Step, Start, Enter, Budget, Project, Gate, Settled, Release;
    hide EntryStops, BudgetStops, ToolsStop, ReceiptStops, JudgementStops, Required, Authorized;
    StepIs(cfg, d, l, c);
    StartStopsIff(cfg, d, c);
    EntryStopsIff(cfg, d, l, c);
    BudgetStopsIff(cfg, d, l, c);
    ToolsStopIff(cfg, d, l, c);
    GateStopsIff(cfg, d, l, c);
    ReceiptStopsIff(cfg, d, l, c);
    ReleaseStopsIff(d, l, c);
    OthersStopIff(cfg, d, l, c);
  }

  lemma StartStopsIff(cfg: Config, d: Durable, c: Choice)
    requires c.stop == Go
    ensures Start(cfg, d, c).l.phase.Idle? <==> Required(cfg, d) && !(c.accepts && Authorized(cfg, d))
  {
  }

  lemma EntryStopsIff(cfg: Config, d: Durable, l: Local, c: Choice)
    requires c.stop == Go
    ensures Enter(cfg, d, l, c).l.phase.Idle? <==> EntryStops(cfg, d, c)
  {
    hide FirstOf, Halt;
    HaltRests(d, c);
    var r := FirstOf(if cfg.order == [] then [cfg.preferred] else cfg.order, c.ready);
  }

  lemma BudgetStopsIff(cfg: Config, d: Durable, l: Local, c: Choice)
    requires c.stop == Go
    ensures Budget(cfg, d, l, c).l.phase.Idle? <==> BudgetStops(cfg, d, l)
  {
    hide CallsOf, AttemptsOf;
  }

  lemma ToolsStopIff(cfg: Config, d: Durable, l: Local, c: Choice)
    requires c.stop == Go
    ensures Project(cfg, d, l, c).l.phase.Idle? <==> ToolsStop(cfg, d, l)
  {
    hide Contained, Halt;
    HaltRests(d, c);
  }

  lemma HaltRests(d: Durable, c: Choice)
    ensures forall event :: Halt(d, c, event).l.phase.Idle?
  {
  }

  lemma GateStopsIff(cfg: Config, d: Durable, l: Local, c: Choice)
    requires c.stop == Go
    ensures Gate(cfg, d, l, c).l.phase.Idle? <==> cfg.observed && c.verdict == ModelNeeded && c.breaks
  {
    hide Observe;
  }

  lemma ReceiptStopsIff(cfg: Config, d: Durable, l: Local, c: Choice)
    requires c.stop == Go
    ensures Settled(cfg, d, l, c).l.phase.Idle? <==> ReceiptStops(cfg, l)
  {
    hide CallsOf, AttemptsOf;
  }

  lemma ReleaseStopsIff(d: Durable, l: Local, c: Choice)
    requires c.stop == Go
    ensures Release(d, l, c).l.phase.Idle? <==> !c.ready(d.flow.next)
  {
  }

  lemma OthersStopIff(cfg: Config, d: Durable, l: Local, c: Choice)
    requires c.stop == Go
    ensures l.phase in {LeaseHeld, Consuming, Settling, Invoking, Noting} ==> !Step(cfg, d, l, c).l.phase.Idle?
    ensures l.phase.Finalizing? ==> Step(cfg, d, l, c).l.phase.Idle?
  {
    hide Record, Usable, Start, Enter, Budget, Project, Gate, Settled, Judge, Release;
  }
}
