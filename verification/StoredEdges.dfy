// What a stored handoff says of its successor. A bind writes the handoff first and the
// successor's checkpoint after it: a successor that has a checkpoint already keeps it, and
// the stored lineage then leads to an attempt that inherited nothing.
module StoredEdges {
  import opened Text
  import opened Checkpoints
  import opened Handoffs
  import opened Lineage
  import opened StoreFiles
  import opened StoreRuns
  import opened StoreTheorems
  import B = BindReadback

  // The event is a bind that passes its checks, gets past both its first two writes, and
  // finds no checkpoint of its successor.
  ghost predicate HandsOn(w: World, event: Event, s: Place, hashes: Hashes) {
    event.BindSuccessor? && var (b, stop) := (event.b, event.stop);
      && BindChecks(w.files, b, hashes).Ok? && SameHandoff(w.files, b.handoff, hashes)
      && stop != BeforeHandoff && stop != BeforeCurrent
      && s == (b.handoff.taskId, b.handoff.successorId) && s !in w.files.current
  }

  lemma KeptFiles(w: World)
    requires Inv(w)
    ensures B.FilesOk(w.files)
  {
    hide HistoryOk, ForestOk, BoundOk, ViewsOk, Valid, ReadsBack, SafeSegment;
    forall at | at in w.files.current ensures Valid(w.files.current[at]) && PlaceOf(w.files.current[at]) == at {
      assert CellOk(w.files.current, w.ever, at);
    }
  }

  // A bind that stores its handoff, or finds it stored, gives the successor the
  // predecessor's effects exactly when there was no checkpoint of the successor and the
  // process lives to write one; otherwise it leaves every checkpoint as it was. A successor
  // that has a checkpoint makes the bind a conflict, with the handoff stored.
  lemma StoredEdgeInherits(w: World, b: BindRequest, stop: Stop, hashes: Hashes)
    requires Inv(w) && hashes.Injective() && stop != BeforeHandoff
    requires BindChecks(w.files, b, hashes).Ok? && SameHandoff(w.files, b.handoff, hashes)
    ensures var (h, next) := (b.handoff, Step(w, BindSuccessor(b, stop), hashes));
      var (s, p) := ((h.taskId, h.successorId), (h.taskId, h.predecessorId));
      && h.successorId in Within(next.files.handoffs, h.taskId) && next.files.handoffs[h.taskId][h.successorId] == h
      && p in w.files.current
      && if HandsOn(w, BindSuccessor(b, stop), s, hashes) then
           && s in next.files.current && next.files.current[s].completedEffects == w.files.current[p].completedEffects
           && next.bound == w.bound[s := Bound(h.predecessorId, w.files.current[p].completedEffects)]
         else next.files.current == w.files.current && next.bound == w.bound
    ensures (b.handoff.taskId, b.handoff.successorId) in w.files.current ==> Bind(w.files, b, hashes, stop).1 == Err(Conflict)
  {
    hide BindChecks, Bind, Inv, SameHandoff, PutHandoff, Put, Storable, Evaluate, DeclaredEffectsMatch, SuccessorOperation;
    hide BindLand, B.Fresh, B.FilesOk, hashes.Injective, Replied;
    var (c, h) := (BindChecks(w.files, b, hashes).value, b.handoff);
    KeptFiles(w);
    B.ChecksGive(w.files, b, hashes, c);
    B.BindWrites(w.files, b, hashes, c, stop);
    HandoffStored(w.files, h, hashes);
    PutWhere(PutHandoff(w.files, h), c, stop);
    BindOutcome(w, b, stop, hashes, c);
    LandedIff(c, stop);
  }

  lemma LandedIff(c: Checkpoint, stop: Stop)
    ensures Landed(Replied(c, stop), stop) <==> stop != BeforeCurrent
    ensures !Landed(Err(Conflict), stop)
  {
  }

  lemma PutWhere(f: Files, c: Checkpoint, stop: Stop)
    requires c.revision >= 1
    ensures Put(f, c, stop).handoffs == f.handoffs
    ensures Put(f, c, stop).current == if stop == BeforeCurrent then f.current else f.current[PlaceOf(c) := c]
  {
  }

  lemma BindOutcome(w: World, b: BindRequest, stop: Stop, hashes: Hashes, c: Checkpoint)
    requires BindChecks(w.files, b, hashes) == Ok(c)
    ensures var (out, next) := (Bind(w.files, b, hashes, stop), BindLand(w, b, stop, hashes));
      && next.files == out.0
      && next.bound ==
        if Landed(out.1, stop) then w.bound[PlaceOf(c) := Bound(b.handoff.predecessorId, c.completedEffects)] else w.bound
  {
    hide BindChecks, Bind;
  }

  // ---- Over whole runs -----------------------------------------------------------------

  lemma ClientLandBinds(w: World, client: nat, c: Checkpoint, expected: int, stop: Stop)
    ensures ClientLand(w, client, c, expected, stop).bound == w.bound
  {
    hide Write;
  }

  lemma OthersBindNothing(w: World, event: Event, hashes: Hashes)
    requires !event.BindSuccessor?
    ensures Step(w, event, hashes).bound == w.bound
  {
    hide ClientLand, Advanced, WithEffect, RecordEffect;
    match event
    case Create(client, c, stop) => ClientLandBinds(w, client, c, 0, stop);
    case CasAdvance(client, change, stop) =>
      if client in w.views && Advanced(w.views[client], change).Some? {
        ClientLandBinds(w, client, Advanced(w.views[client], change).value, w.views[client].revision, stop);
      }
    case CasEffect(client, e, stop) =>
      if client in w.views && WithEffect(w.views[client], e).Some? {
        ClientLandBinds(w, client, WithEffect(w.views[client], e).value, w.views[client].revision, stop);
      }
    case _ =>
  }

  lemma BindsNothing(w: World, b: BindRequest, stop: Stop, hashes: Hashes)
    requires !(BindChecks(w.files, b, hashes).Ok? && SameHandoff(w.files, b.handoff, hashes) && stop != BeforeHandoff)
    ensures BindLand(w, b, stop, hashes).bound == w.bound
  {
    if BindChecks(w.files, b, hashes).Ok? {
      var c := BindChecks(w.files, b, hashes).value;
      BindOutcome(w, b, stop, hashes, c);
      B.BindShape(w.files, b, hashes, c, stop);
    }
    hide BindChecks, Bind, SameHandoff, Write, PutHandoff;
  }

  lemma StepBinds(w: World, event: Event, hashes: Hashes, s: Place)
    requires Inv(w) && hashes.Injective()
    ensures s in Step(w, event, hashes).bound <==> s in w.bound || HandsOn(w, event, s, hashes)
  {
    hide Inv, BindChecks, SameHandoff, BindLand;
    if !event.BindSuccessor? {
      OthersBindNothing(w, event, hashes);
    } else if BindChecks(w.files, event.b, hashes).Ok? && SameHandoff(w.files, event.b.handoff, hashes) && event.stop != BeforeHandoff {
      StoredEdgeInherits(w, event.b, event.stop, hashes);
    } else {
      BindsNothing(w, event.b, event.stop, hashes);
    }
  }

  // Event `i` of the run hands effects on to `s`.
  ghost predicate HandedOnAt(events: seq<Event>, i: nat, s: Place, hashes: Hashes)
    requires i < |events|
  {
    HandsOn(Run(START, events[..i], hashes), events[i], s, hashes)
  }

  ghost predicate HandedOn(events: seq<Event>, s: Place, hashes: Hashes) {
    exists i: nat | i < |events| :: HandedOnAt(events, i, s, hashes)
  }

  lemma HandedOnLast(events: seq<Event>, s: Place, hashes: Hashes)
    requires events != []
    ensures var front := events[..|events| - 1];
      HandedOn(events, s, hashes) <==>
        HandedOn(front, s, hashes) || HandsOn(Run(START, front, hashes), events[|events| - 1], s, hashes)
  {
    hide HandsOn, Run;
    var front := events[..|events| - 1];
    forall i: nat | i < |front| ensures HandedOnAt(events, i, s, hashes) <==> HandedOnAt(front, i, s, hashes) {
      assert front[..i] == events[..i] && front[i] == events[i];
    }
    assert HandedOnAt(events, |events| - 1, s, hashes) <==> HandsOn(Run(START, front, hashes), events[|events| - 1], s, hashes);
  }

  // In every run the successors on record as bound are those some bind found without a
  // checkpoint.
  lemma {:induction false} BoundIffHandedOn(events: seq<Event>, s: Place, hashes: Hashes)
    requires hashes.Injective()
    ensures s in Run(START, events, hashes).bound <==> HandedOn(events, s, hashes)
  {
    hide HandsOn, Step, Inv, Grows;
    if events != [] {
      var front := events[..|events| - 1];
      BoundIffHandedOn(front, s, hashes);
      HandedOnLast(events, s, hashes);
      Reached(front, [], hashes);
      StepBinds(Run(START, front, hashes), events[|events| - 1], hashes, s);
    }
  }

  // ---- A stored chain ---------------------------------------------------------------------

  ghost predicate BoundChain(w: World, task: string, chain: seq<Handoff>) {
    forall i | 0 <= i < |chain| :: (task, chain[i].successorId) in w.bound
  }

  lemma LinkedPair(edges: Edges, task: string, attempt: string, chain: seq<Handoff>, i: nat)
    requires IsLineage(edges, task, attempt, chain) && i < |chain|
    ensures chain[i].successorId == (if i + 1 < |chain| then chain[i + 1].predecessorId else attempt)
    ensures chain[i].successorId in edges && edges[chain[i].successorId] == chain[i]
  {
    var nodes := Attempts(chain, attempt);
    assert Link(edges, task, nodes[i + 1], chain[i]);
  }

  lemma {:induction false} ChainHolds(w: World, task: string, attempt: string, chain: seq<Handoff>, i: nat)
    requires Inv(w) && IsLineage(Within(w.files.handoffs, task), task, attempt, chain) && BoundChain(w, task, chain)
    requires i < |chain|
    ensures (task, attempt) in w.files.current
    ensures var s := (task, chain[i].successorId);
      && w.bound[s].predecessor == chain[i].predecessorId
      && Holds(w.files.current[(task, attempt)].completedEffects, w.bound[s].effects)
    decreases |chain| - i
  {
    hide CellsOk, HistoryOk, ForestOk, ViewsOk, IsLineage;
    var s := (task, chain[i].successorId);
    LinkedPair(Within(w.files.handoffs, task), task, attempt, chain, i);
    assert BoundOk(w.files.current, w.files.handoffs, w.bound, s);
    if i + 1 < |chain| {
      ChainHolds(w, task, attempt, chain, i + 1);
      var t := (task, chain[i + 1].successorId);
      assert BoundOk(w.files.current, w.files.handoffs, w.bound, t);
    }
  }

  // The last attempt of a stored chain holds what each predecessor in it held when it was
  // bound, if every successor in it was found without a checkpoint.
  lemma StoredChainHoldsEffects(events: seq<Event>, hashes: Hashes, task: string, attempt: string, chain: seq<Handoff>, i: nat)
    requires hashes.Injective() && i < |chain|
    requires Reconstruct(Within(Run(START, events, hashes).files.handoffs, task), task, attempt, {}) == Ok(chain)
    requires forall j | 0 <= j < |chain| :: HandedOn(events, (task, chain[j].successorId), hashes)
    ensures var (w, s) := (Run(START, events, hashes), (task, chain[i].successorId));
      && s in w.bound && w.bound[s].predecessor == chain[i].predecessorId && (task, attempt) in w.files.current
      && Holds(w.files.current[(task, attempt)].completedEffects, w.bound[s].effects)
  {
    hide Inv, Grows, HandedOn, Reconstruct, IsLineage, Holds;
    var w := Run(START, events, hashes);
    Reached(events, [], hashes);
    forall j | 0 <= j < |chain| ensures (task, chain[j].successorId) in w.bound {
      BoundIffHandedOn(events, (task, chain[j].successorId), hashes);
    }
    ReconstructionExact(Within(w.files.handoffs, task), task, attempt, chain);
    ChainHolds(w, task, attempt, chain, i);
  }

  // ---- A chain whose last attempt holds nothing ------------------------------------------------

  // Attempt `b` of task `a`, begun by itself.
  function Newcomer(a: string, b: string): Checkpoint { B.Predecessor(a).(attemptId := b, completedEffects := []) }

  function Uninherited(a: string, b: string, hashes: Hashes): seq<Event> {
    [Create(0, B.Predecessor(a), Never), Create(0, Newcomer(a, b), Never), BindSuccessor(B.Example(a, b, hashes), Never)]
  }

  lemma BothStorable(a: string, b: string)
    requires AttemptSegment(a) && AttemptSegment(b)
    ensures Storable(B.Predecessor(a)) && Storable(Newcomer(a, b))
  {
    hide NonBlank, KnownStatus, Terminal, Trimmed;
    B.PredecessorValid(a);
    B.SegmentText(a);
    B.SegmentText(b);
    assert Keys([]) == [];
  }

  lemma Created(w: World, c: Checkpoint, hashes: Hashes)
    requires Storable(c) && c.revision == 1 && PlaceOf(c) !in w.files.current
    ensures var next := Step(w, Create(0, c, Never), hashes);
      next.files.current == w.files.current[PlaceOf(c) := c] && next.files.handoffs == w.files.handoffs && next.bound == w.bound
  {
    hide Storable, FileName, Seen;
  }

  lemma ThreeSteps(w: World, x: Event, y: Event, z: Event, hashes: Hashes)
    ensures Run(w, [x, y, z], hashes) == Step(Step(Step(w, x, hashes), y, hashes), z, hashes)
  {
    TwoSteps(w, x, y, hashes);
    RunSnoc(w, [x, y], z, hashes);
    assert [x, y] + [z] == [x, y, z];
  }

  lemma TwoSteps(w: World, x: Event, y: Event, hashes: Hashes)
    ensures Run(w, [x, y], hashes) == Step(Step(w, x, hashes), y, hashes)
  {
    RunSnoc(w, [], x, hashes);
    RunSnoc(w, [x], y, hashes);
    assert [] + [x] == [x] && [x] + [y] == [x, y];
    hide Step;
  }

  lemma RunSnoc(w: World, events: seq<Event>, event: Event, hashes: Hashes)
    ensures Run(w, events + [event], hashes) == Step(Run(w, events, hashes), event, hashes)
    ensures Run(w, [], hashes) == w
  {
    hide Step;
    assert (events + [event])[..|events|] == events;
  }

  // Any two attempts, the second begun before it is bound to the first: the handoff is
  // stored and is the second's whole lineage, and the second holds none of the first's effects.
  lemma UninheritedChainExists(a: string, b: string, hashes: Hashes)
    requires AttemptSegment(a) && AttemptSegment(b) && a != b
    requires hashes.Injective() && B.DigestText(hashes.checkpoint(B.Predecessor(a)))
    ensures var (w, h) := (Run(START, Uninherited(a, b, hashes), hashes), B.Example(a, b, hashes).handoff);
      && Reconstruct(Within(w.files.handoffs, a), a, b, {}) == Ok([h]) && h.predecessorId == a
      && (a, a) in w.files.current && (a, b) in w.files.current && (a, b) !in w.bound
      && w.files.current[(a, a)].completedEffects == [Effect(a, a, "")] && w.files.current[(a, b)].completedEffects == []
  {
    hide Step, Run, Inv, BindChecks, SameHandoff, Storable, B.DigestText, Reconstruct, AttemptSegment, Grows, hashes.Injective;
    var (p, n, q) := (B.Predecessor(a), Newcomer(a, b), B.Example(a, b, hashes));
    var (x, y, z) := (Create(0, p, Never), Create(0, n, Never), BindSuccessor(q, Never));
    var one := Step(START, x, hashes);
    var two := Step(one, y, hashes);
    BothStorable(a, b);
    Created(START, p, hashes);
    Created(one, n, hashes);
    TwoSteps(START, x, y, hashes);
    ThreeSteps(START, x, y, z, hashes);
    ExampleChecked(two.files, a, b, hashes);
    Reached([x, y], [], hashes);
    StoredEdgeInherits(two, q, Never, hashes);
    EdgeStored(two, q, hashes);
    OneEdge(Within(Step(two, z, hashes).files.handoffs, a), q.handoff);
  }

  lemma EdgeStored(w: World, b: BindRequest, hashes: Hashes)
    requires BindChecks(w.files, b, hashes).Ok? && SameHandoff(w.files, b.handoff, hashes) && w.files.handoffs == map[]
    ensures Within(Step(w, BindSuccessor(b, Never), hashes).files.handoffs, b.handoff.taskId)
      == map[b.handoff.successorId := b.handoff]
  {
    hide BindChecks, Bind, BindLand, SameHandoff, Write;
    var c := BindChecks(w.files, b, hashes).value;
    BindOutcome(w, b, Never, hashes, c);
    B.BindShape(w.files, b, hashes, c, Never);
    WriteKeepsHandoffs(PutHandoff(w.files, b.handoff), c);
  }

  lemma WriteKeepsHandoffs(f: Files, c: Checkpoint)
    ensures Write(f, c, None, Never).0.handoffs == f.handoffs
  {
    hide Storable, FileName;
  }

  lemma ExampleChecked(f: Files, a: string, b: string, hashes: Hashes)
    requires AttemptSegment(a) && AttemptSegment(b) && a != b && B.DigestText(hashes.checkpoint(B.Predecessor(a)))
    requires (a, a) in f.current && f.current[(a, a)] == B.Predecessor(a) && f.handoffs == map[]
    ensures BindChecks(f, B.Example(a, b, hashes), hashes).Ok? && SameHandoff(f, B.Example(a, b, hashes).handoff, hashes)
  {
    var q := B.Example(a, b, hashes);
    B.ExampleStorable(a, b, hashes);
    B.ExampleSafe(a, b, hashes);
    var c := B.ExampleSuccessor(a, b, hashes);
    hide Evaluate, StorableHandoff, Construct, Successor, Storable, BindChecks, B.Fence, B.DigestText;
    assert B.Fresh(f, q.handoff) && DeclaredEffectsMatch(q.handoff, B.Predecessor(a));
    B.ChecksShape(f, q, hashes, c);
  }

  lemma OneEdge(edges: Edges, h: Handoff)
    requires edges == map[h.successorId := h] && h.predecessorId != h.successorId
    ensures Reconstruct(edges, h.taskId, h.successorId, {}) == Ok([h])
  {
    assert [] + [h] == [h];
    assert Reconstruct(edges, h.taskId, h.predecessorId, {} + {h.successorId}) == Ok([]);
  }
}
