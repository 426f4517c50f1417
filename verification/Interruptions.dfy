// What a step of a call leaves when it fails: before its effect, and after it.
module Interruptions {
  import opened Text
  import opened Escalation
  import opened Coordinator

  // Events that happen outside the durable state; the others are writes to it.
  predicate Outside(e: Event) {
    e.Leased? || e.Prepared? || e.RunnerStarted? || e.GateAsked? || e.WorkerCalled? || e.Finalized?
  }

  // What the failure handler makes of the state, where it runs.
  function Handled(d: Durable, closes: bool): Durable { if closes then d.(flow := d.flow.(status := Closed)) else d }

  // A step that fails before its effect has none, whatever the ports would have answered.
  lemma RaisedDoesNothing(cfg: Config, d: Durable, l: Local, c: Choice)
    requires c.stop == Raise
    ensures Step(cfg, d, l, c) == Move(Handled(d, c.closes), IDLE, None)
  {
  }

  // What the step did to the world outside and to the observations, it has done; nothing else
  // of it is recorded, and the call is over. A runner of its own and finalization write their
  // outcome themselves.
  ghost predicate CutOff(d: Durable, closes: bool, died: Move, whole: Move) {
    && died.l == IDLE
    && died.event == (if whole.event.Some? && Outside(whole.event.value) then whole.event else None)
    && died.d == Handled(
      d.(watch := whole.d.watch), closes && died.event != Some(RunnerStarted) && died.event != Some(Finalized))
  }

  // Taking up a loop or a closed attempt only reads: there is no effect to die after.
  predicate OnlyReads(cfg: Config, d: Durable, l: Local) {
    l.phase.Entering? && !cfg.custom && (d.flow.status.WorkerRunning? || d.flow.status.WorkerCompleted? || d.flow.status.Closed?)
  }

  lemma DiedEntering(cfg: Config, d: Durable, l: Local, c: Choice)
    requires c.stop == Die && l.phase.Entering?
    ensures if OnlyReads(cfg, d, l) then Step(cfg, d, l, c) == Step(cfg, d, l, c.(stop := Go))
      else CutOff(d, c.closes, Step(cfg, d, l, c), Step(cfg, d, l, c.(stop := Go)))
  {
    hide FirstOf;
  }

  lemma DiedAround(cfg: Config, d: Durable, l: Local, c: Choice)
    requires c.stop == Die && (l.phase.Idle? || l.phase.LeaseHeld?)
    ensures CutOff(d, c.closes, Step(cfg, d, l, c), Step(cfg, d, l, c.(stop := Go)))
  {
    hide AuthorizationHolds;
  }

  lemma DiedPreparing(cfg: Config, d: Durable, l: Local, c: Choice)
    requires c.stop == Die && (l.phase.Budgeting? || l.phase.Projecting?)
    ensures CutOff(d, c.closes, Step(cfg, d, l, c), Step(cfg, d, l, c.(stop := Go)))
  {
    hide BudgetLeft, Projectable;
  }

  lemma DiedCalling(cfg: Config, d: Durable, l: Local, c: Choice)
    requires c.stop == Die && (l.phase.Gating? || l.phase.Consuming? || l.phase.Settling? || l.phase.Invoking? || l.phase.Noting?)
    ensures CutOff(d, c.closes, Step(cfg, d, l, c), Step(cfg, d, l, c.(stop := Go)))
  {
    hide Observe, Record, Usable;
  }

  lemma DiedJudging(cfg: Config, d: Durable, l: Local, c: Choice)
    requires c.stop == Die && (l.phase.Receipting? || l.phase.Judging? || l.phase.Releasing? || l.phase.Finalizing?)
    ensures CutOff(d, c.closes, Step(cfg, d, l, c), Step(cfg, d, l, c.(stop := Go)))
  {
    hide WithinBudget, Escalates, NextReady, Completed, Latest;
  }

  // A step that dies after its effect has had the effect of the whole step, and no more.
  lemma DiedIsCutOff(cfg: Config, d: Durable, l: Local, c: Choice)
    requires c.stop == Die
    ensures if OnlyReads(cfg, d, l) then Step(cfg, d, l, c) == Step(cfg, d, l, c.(stop := Go))
      else CutOff(d, c.closes, Step(cfg, d, l, c), Step(cfg, d, l, c.(stop := Go)))
  {
    hide Step, CutOff;
    assert OnlyReads(cfg, d, l) ==> l.phase.Entering?;
    match l.phase
    case Entering => DiedEntering(cfg, d, l, c);
    case Idle | LeaseHeld => DiedAround(cfg, d, l, c);
    case Budgeting | Projecting => DiedPreparing(cfg, d, l, c);
    case Gating | Consuming | Settling | Invoking | Noting => DiedCalling(cfg, d, l, c);
    case Receipting | Judging | Releasing | Finalizing => DiedJudging(cfg, d, l, c);
  }

  // The lease of a failed provider is given back before the next provider is asked.
  predicate Replacing(cfg: Config, d: Durable, l: Local) {
    l.phase.Releasing? || (l.phase.Entering? && d.flow.status.WorkerEscalating? && !cfg.fastLane && d.flow.next != "")
  }

  // Nothing outside but a lease replaced or the gate asked, and nothing recorded but observations.
  ghost predicate Ended(cfg: Config, d: Durable, l: Local, closes: bool, m: Move) {
    && m.l == IDLE && m.d == Handled(d.(watch := m.d.watch), closes) && (!l.phase.Gating? ==> m.d.watch == d.watch)
    && m.event == if Replacing(cfg, d, l) then Some(Leased) else if l.phase.Gating? then Some(GateAsked) else None
  }

  lemma EndedResuming(cfg: Config, d: Durable, l: Local, c: Choice)
    requires c.stop == Go && l.phase.Entering? && !cfg.custom && d.flow.status.WorkerEscalating? && Enter(cfg, d, l, c).l.phase.Idle?
    ensures Ended(cfg, d, l, c.closes, Enter(cfg, d, l, c))
  {
    hide FirstOf, Step;
  }

  lemma EndedEntering(cfg: Config, d: Durable, l: Local, c: Choice)
    requires c.stop == Go && l.phase.Entering? && !cfg.custom && !d.flow.status.WorkerEscalating? && Enter(cfg, d, l, c).l.phase.Idle?
    ensures Ended(cfg, d, l, c.closes, Enter(cfg, d, l, c))
  {
    hide FirstOf, Step;
  }

  lemma EndedStarting(cfg: Config, d: Durable, l: Local, c: Choice)
    requires c.stop == Go && l.phase.Idle? && Start(cfg, d, c).l.phase.Idle?
    ensures Ended(cfg, d, l, c.closes, Start(cfg, d, c))
  {
    hide AuthorizationHolds, Step;
  }

  lemma EndedBudgeting(cfg: Config, d: Durable, l: Local, c: Choice)
    requires c.stop == Go && l.phase.Budgeting? && Budget(cfg, d, l, c).l.phase.Idle?
    ensures Ended(cfg, d, l, c.closes, Budget(cfg, d, l, c))
  {
    hide BudgetLeft, Step;
  }

  lemma EndedProjecting(cfg: Config, d: Durable, l: Local, c: Choice)
    requires c.stop == Go && l.phase.Projecting? && Project(cfg, d, l, c).l.phase.Idle?
    ensures Ended(cfg, d, l, c.closes, Project(cfg, d, l, c))
  {
    hide Projectable, Step;
  }

  lemma EndedGating(cfg: Config, d: Durable, l: Local, c: Choice)
    requires c.stop == Go && l.phase.Gating? && Gate(cfg, d, l, c).l.phase.Idle?
    ensures Ended(cfg, d, l, c.closes, Gate(cfg, d, l, c))
  {
    hide Observe, Step;
  }

  lemma EndedReceipting(cfg: Config, d: Durable, l: Local, c: Choice)
    requires c.stop == Go && l.phase.Receipting? && Settled(cfg, d, l, c).l.phase.Idle?
    ensures Ended(cfg, d, l, c.closes, Settled(cfg, d, l, c))
  {
    hide WithinBudget, Step;
  }

  lemma EndedComplete(cfg: Config, d: Durable, l: Local, c: Choice)
    requires c.stop == Go && l.phase.Judging? && Judge(cfg, d, l, c).l.phase.Idle?
    requires Latest(l).Some? && Completed(Latest(l).value)
    ensures Ended(cfg, d, l, c.closes, Judge(cfg, d, l, c))
  {
    hide Escalates, NextReady, Completed, Latest, Step;
  }

  lemma EndedJudging(cfg: Config, d: Durable, l: Local, c: Choice)
    requires c.stop == Go && l.phase.Judging? && Judge(cfg, d, l, c).l.phase.Idle?
    ensures Ended(cfg, d, l, c.closes, Judge(cfg, d, l, c))
  {
    hide Escalates, NextReady, Completed, Latest, Step, Ended;
    if Latest(l).Some? && Completed(Latest(l).value) {
      EndedComplete(cfg, d, l, c);
    } else {
      assert Judge(cfg, d, l, c) == Halt(d, c, None);
      HaltEnds(cfg, d, l, c);
    }
  }

  lemma HaltEnds(cfg: Config, d: Durable, l: Local, c: Choice)
    requires l.phase.Judging?
    ensures Ended(cfg, d, l, c.closes, Halt(d, c, None))
  {
    hide Step;
  }

  lemma EndedReleasing(cfg: Config, d: Durable, l: Local, c: Choice)
    requires c.stop == Go && l.phase.Releasing? && Release(d, l, c).l.phase.Idle?
    ensures Ended(cfg, d, l, c.closes, Release(d, l, c))
  {
    hide Step;
  }

  lemma GoesOn(cfg: Config, d: Durable, l: Local, c: Choice)
    requires c.stop == Go
    ensures l.phase.LeaseHeld? || l.phase.Consuming? || l.phase.Settling? || l.phase.Invoking? || l.phase.Noting? ==>
      !Step(cfg, d, l, c).l.phase.Idle?
  {
    hide Start, Enter, Budget, Project, Gate, Settled, Judge, Release, Finish, Record, Usable;
  }

  // What a call has done that ends without failing, other than by a runner or finalization.
  lemma EndedDoes(cfg: Config, d: Durable, l: Local, c: Choice)
    requires c.stop == Go && Step(cfg, d, l, c).l.phase.Idle? && !l.phase.Finalizing? && !(l.phase.Entering? && cfg.custom)
    ensures Ended(cfg, d, l, c.closes, Step(cfg, d, l, c))
  {
    hide Ended, Start, Enter, HoldLease, Budget, Project, Gate, Consume, Settle, Invoke, Note, Settled, Judge, Release, Finish;
    GoesOn(cfg, d, l, c);
    match l.phase
    case Idle => EndedStarting(cfg, d, l, c);
    case Entering => if d.flow.status.WorkerEscalating? { EndedResuming(cfg, d, l, c); } else { EndedEntering(cfg, d, l, c); }
    case Budgeting => EndedBudgeting(cfg, d, l, c);
    case Projecting => EndedProjecting(cfg, d, l, c);
    case Gating => EndedGating(cfg, d, l, c);
    case Receipting => EndedReceipting(cfg, d, l, c);
    case Judging => EndedJudging(cfg, d, l, c);
    case Releasing => EndedReleasing(cfg, d, l, c);
    case _ =>
  }
}
