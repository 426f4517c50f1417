// Binding a successor and reading its lineage back, in the same session or after a crash.
module BindReadback {
  import opened Text
  import opened Checkpoints
  import opened Handoffs
  import opened Lineage
  import opened StoreFiles

  // `readback_handoff_lineage`: the evaluation, absent without a handoff or an identity.
  function Readback(f: Files, task: string, attempt: string, current: Option<Identity>, fences: Fences, hashes: Hashes)
    : Result<Option<Evaluation>, LineageError>
  {
    var edges := Within(f.handoffs, task);
    match Reconstruct(edges, task, attempt, {})
    case Err(e) => Err(e)
    case Ok(_) =>
      if attempt !in edges || current.None? then Ok(None)
      else
        var h := edges[attempt];
        var predecessor := Find(f.current, (task, h.predecessorId));
        var judged := Evaluate(h, current.value, predecessor, fences, hashes.checkpoint);
        if judged.disposition != SAFE || predecessor.None? then Ok(Some(judged))
        else Ok(Some(JudgeSuccessor(h, predecessor.value, Find(f.current, (task, attempt)), current.value, judged, hashes.shown)))
  }

  function JudgeSuccessor(h: Handoff, p: Checkpoint, successor: Option<Checkpoint>, current: Identity, judged: Evaluation,
                          shown: Show): Evaluation
  {
    match successor
    case None => Reconcile("MISSING_SUCCESSOR_CHECKPOINT")
    case Some(c) =>
      if c.taskId != h.taskId || c.attemptId != h.successorId then Reconcile("SUCCESSOR_IDENTITY_MISMATCH")
      else if c.operationId != SuccessorOperation(h, shown) then Reconcile("SUCCESSOR_OPERATION_ID_MISMATCH")
      else if c.identity != current then Reconcile("SUCCESSOR_SOURCE_IDENTITY_MISMATCH")
      else if exists i | 0 <= i < |p.completedEffects| :: p.completedEffects[i] !in c.completedEffects then
        Reconcile("SUCCESSOR_EFFECT_LINEAGE_MISMATCH")
      else if h.effectKeys != [] && Elements(h.effectKeys) != (set e | e in p.completedEffects :: e.key) then
        Reconcile("HANDOFF_EFFECT_KEYS_MISMATCH")
      else if h.effectRefs != [] && Elements(h.effectRefs) != (set e | e in p.completedEffects :: e.receiptRef) then
        Reconcile("HANDOFF_EFFECT_REFS_MISMATCH")
      else
        var resume := Resume(c, current);
        if c.blockedReason != "" && resume.disposition == SAFE then
          Evaluation(RECONCILE, "SUCCESSOR_" + c.blockedReason)
        else if resume.disposition != SAFE then Evaluation(resume.disposition, "SUCCESSOR_" + resume.reason)
        else judged
  }

  // Every stored checkpoint is a record that its own reader accepts, at its own place.
  ghost predicate FilesOk(f: Files) {
    forall at | at in f.current :: Valid(f.current[at]) && PlaceOf(f.current[at]) == at
  }

  // ---- The lineage a bind leaves behind ------------------------------------------------------

  lemma GrownLineage(edges: Edges, task: string, h: Handoff, chain: seq<Handoff>)
    requires IsLineage(edges, task, h.predecessorId, chain) && h.successorId !in Attempts(chain, h.predecessorId)
    ensures IsLineage(edges[h.successorId := h], task, h.predecessorId, chain)
  {
    var (nodes, grown) := (Attempts(chain, h.predecessorId), edges[h.successorId := h]);
    assert nodes[0] in nodes;
    forall i | 0 <= i < |chain| ensures Link(grown, task, nodes[i + 1], chain[i]) {
      assert Link(edges, task, nodes[i + 1], chain[i]);
      assert nodes[i + 1] in nodes;
    }
  }

  // After the handoff is written the successor's lineage is its predecessor's and this edge,
  // and the predecessor's own lineage is what it was.
  lemma SuccessorLineage(f: Files, h: Handoff, hashes: Hashes)
    requires hashes.Injective() && SameHandoff(f, h, hashes) && h.predecessorId != h.successorId
    requires var ancestry := Reconstruct(Within(f.handoffs, h.taskId), h.taskId, h.predecessorId, {});
      ancestry.Ok? && h.successorId !in Attempts(ancestry.value, h.predecessorId)
    ensures var ancestry := Reconstruct(Within(f.handoffs, h.taskId), h.taskId, h.predecessorId, {});
      var edges := Within(PutHandoff(f, h).handoffs, h.taskId);
      && h.successorId in edges && edges[h.successorId] == h
      && Reconstruct(edges, h.taskId, h.predecessorId, {}) == ancestry
      && Reconstruct(edges, h.taskId, h.successorId, {}) == Ok(ancestry.value + [h])
  {
    var before := Within(f.handoffs, h.taskId);
    var chain := Reconstruct(before, h.taskId, h.predecessorId, {}).value;
    var edges := Within(PutHandoff(f, h).handoffs, h.taskId);
    assert edges == before[h.successorId := h];
    ReconstructionExact(before, h.taskId, h.predecessorId, chain);
    GrownLineage(before, h.taskId, h, chain);
    ReconstructionExact(edges, h.taskId, h.predecessorId, chain);
    LineageSnoc(edges, h.taskId, h, chain);
    ReconstructionExact(edges, h.taskId, h.successorId, chain + [h]);
  }

  // ---- What the checks have established --------------------------------------------------------

  ghost predicate Checked(f: Files, b: BindRequest, hashes: Hashes, c: Checkpoint, p: Checkpoint) {
    && Find(f.current, (b.handoff.taskId, b.handoff.predecessorId)) == Some(p)
    && Evaluate(b.handoff, b.current, Some(p), b.fences, hashes.checkpoint).disposition == SAFE
    && DeclaredEffectsMatch(b.handoff, p) && b.handoff.predecessorId != b.handoff.successorId
    && c.taskId == b.handoff.taskId && c.attemptId == b.handoff.successorId
    && c.operationId == SuccessorOperation(b.handoff, hashes.shown)
    && c.identity == b.current && c.status == b.status && c.blockedReason == "" && c.revision == 1
    && c.completedEffects == p.completedEffects && Storable(c)
  }

  ghost predicate Fresh(f: Files, h: Handoff) {
    var ancestry := Reconstruct(Within(f.handoffs, h.taskId), h.taskId, h.predecessorId, {});
    ancestry.Ok? && h.successorId !in Attempts(ancestry.value, h.predecessorId)
  }

  lemma SuccessorFields(h: Handoff, p: Checkpoint, current: Identity, status: string, phase: string, shown: Show, c: Checkpoint)
    requires Valid(p) && Construct(Successor(h, p, current, status, phase, shown)) == Some(c)
    ensures c.taskId == h.taskId && c.attemptId == h.successorId && c.operationId == SuccessorOperation(h, shown)
    ensures c.identity == current && c.status == status && c.blockedReason == "" && c.revision == 1
    ensures c.completedEffects == p.completedEffects
  {
    InKeyOrderKeeps(p.completedEffects);
    hide Checkpoints.Refused, Valid, SuccessorOperation, InKeyOrder;
  }

  // The checks pass exactly when each of them does.
  lemma ChecksShape(f: Files, b: BindRequest, hashes: Hashes, c: Checkpoint)
    ensures BindChecks(f, b, hashes) == Ok(c) <==>
      var (h, at) := (b.handoff, (b.handoff.taskId, b.handoff.predecessorId));
      && StorableHandoff(h, hashes.shown) && at in f.current && Fresh(f, h)
      && Evaluate(h, b.current, Some(f.current[at]), b.fences, hashes.checkpoint).disposition == SAFE
      && DeclaredEffectsMatch(h, f.current[at])
      && Construct(Successor(h, f.current[at], b.current, b.status, b.phase, hashes.shown)) == Some(c) && Storable(c)
  {
    hide StorableHandoff, Evaluate, DeclaredEffectsMatch, Construct, Successor, Storable, Reconstruct;
  }

  lemma ChecksGive(f: Files, b: BindRequest, hashes: Hashes, c: Checkpoint)
    requires FilesOk(f) && BindChecks(f, b, hashes) == Ok(c)
    ensures (b.handoff.taskId, b.handoff.predecessorId) in f.current
    ensures Checked(f, b, hashes, c, f.current[(b.handoff.taskId, b.handoff.predecessorId)]) && Fresh(f, b.handoff)
  {
    ChecksShape(f, b, hashes, c);
    HandoffNames(b.handoff, hashes.shown);
    var p := f.current[(b.handoff.taskId, b.handoff.predecessorId)];
    SuccessorFields(b.handoff, p, b.current, b.status, b.phase, hashes.shown, c);
    hide BindChecks, StorableHandoff, Evaluate, DeclaredEffectsMatch, Construct, Successor, Storable, Reconstruct, Valid;
  }

  lemma HandoffNames(h: Handoff, shown: Show)
    requires StorableHandoff(h, shown)
    ensures h.predecessorId != h.successorId
  {
  }

  lemma KnownAndNotHandoffs(c: Checkpoint)
    requires Storable(c)
    ensures KnownStatus(c.status) && c.revision >= 1
  {
  }

  lemma PositiveRevision(f: Files, at: Place)
    requires FilesOk(f)
    ensures Find(f.current, at).Some? ==> f.current[at].revision >= 1
  {
  }

  // A bind whose checks pass is its two writes.
  lemma BindShape(f: Files, b: BindRequest, hashes: Hashes, c: Checkpoint, stop: Stop)
    requires BindChecks(f, b, hashes) == Ok(c)
    ensures Bind(f, b, hashes, stop) ==
      if !SameHandoff(f, b.handoff, hashes) then (f, Err(Conflict))
      else if stop == BeforeHandoff then (f, Err(Crashed))
      else Write(PutHandoff(f, b.handoff), c, None, stop)
  {
    hide BindChecks, SameHandoff, Write, PutHandoff;
  }

  lemma BindChecked(f: Files, b: BindRequest, hashes: Hashes, stop: Stop)
    requires Bind(f, b, hashes, stop).1.Ok? || Bind(f, b, hashes, stop).1 == Err(Crashed)
    ensures BindChecks(f, b, hashes).Ok? && SameHandoff(f, b.handoff, hashes)
  {
    hide SameHandoff, Write, PutHandoff, Construct, Evaluate, Storable, StorableHandoff, Reconstruct, DeclaredEffectsMatch;
  }

  lemma WriteFirst(f: Files, c: Checkpoint, stop: Stop)
    requires Storable(c) && c.revision == 1
    requires Find(f.current, PlaceOf(c)).Some? ==> f.current[PlaceOf(c)].revision >= 1
    ensures Write(f, c, None, stop) ==
      if PlaceOf(c) in f.current then (f, Err(Conflict)) else (Put(f, c, stop), Replied(c, stop))
  {
    hide Storable, Put, Replied;
  }

  // The two writes of a bind, spelled out.
  lemma BindWrites(f: Files, b: BindRequest, hashes: Hashes, c: Checkpoint, stop: Stop)
    requires FilesOk(f) && BindChecks(f, b, hashes) == Ok(c) && SameHandoff(f, b.handoff, hashes) && stop != BeforeHandoff
    ensures c.revision >= 1
    ensures var g := PutHandoff(f, b.handoff);
      && g.current == f.current
      && Bind(f, b, hashes, stop) ==
        if PlaceOf(c) in f.current then (g, Err(Conflict)) else (Put(g, c, stop), Replied(c, stop))
  {
    hide Bind, BindChecks, SameHandoff, Storable, Evaluate, FilesOk, DeclaredEffectsMatch, Write, Put, Replied, PutHandoff;
    hide SuccessorOperation, Fresh;
    ChecksGive(f, b, hashes, c);
    BindShape(f, b, hashes, c, stop);
    PositiveRevision(f, PlaceOf(c));
    HandoffOnce(f, b.handoff, hashes);
    WriteFirst(PutHandoff(f, b.handoff), c, stop);
  }

  // ---- Bind and readback agree ------------------------------------------------------------------

  lemma JudgedAfterBind(f: Files, b: BindRequest, hashes: Hashes, c: Checkpoint, p: Checkpoint, judged: Evaluation)
    requires Checked(f, b, hashes, c, p) && KnownStatus(c.status) && judged.disposition == SAFE
    ensures JudgeSuccessor(b.handoff, p, Some(c), b.current, judged, hashes.shown).disposition == SAFE <==> c.status == RUNNING
  {
    hide Evaluate, Storable, SuccessorOperation;
  }

  // What a readback comes to when the predecessor still lets the handoff resume.
  lemma ReadbackShape(f: Files, h: Handoff, p: Checkpoint, current: Identity, fences: Fences, hashes: Hashes)
    requires h.successorId in Within(f.handoffs, h.taskId) && f.handoffs[h.taskId][h.successorId] == h
    requires Reconstruct(Within(f.handoffs, h.taskId), h.taskId, h.successorId, {}).Ok?
    requires Find(f.current, (h.taskId, h.predecessorId)) == Some(p)
    requires Evaluate(h, current, Some(p), fences, hashes.checkpoint).disposition == SAFE
    ensures Readback(f, h.taskId, h.successorId, Some(current), fences, hashes) ==
      Ok(Some(JudgeSuccessor(h, p, Find(f.current, (h.taskId, h.successorId)), current,
                             Evaluate(h, current, Some(p), fences, hashes.checkpoint), hashes.shown)))
  {
    hide Evaluate, JudgeSuccessor, Reconstruct;
  }

  // Right after a bind the successor may resume exactly when it was bound as running.
  lemma ReadbackAfterBind(f: Files, b: BindRequest, hashes: Hashes)
    requires FilesOk(f) && hashes.Injective() && Bind(f, b, hashes, Never).1.Ok?
    ensures var r := Readback(Bind(f, b, hashes, Never).0, b.handoff.taskId, b.handoff.successorId, Some(b.current), b.fences, hashes);
      r.Ok? && r.value.Some? && (r.value.value.disposition == SAFE <==> b.status == RUNNING)
  {
    var (g, h) := (Bind(f, b, hashes, Never).0, b.handoff);
    BindChecked(f, b, hashes, Never);
    var c := BindChecks(f, b, hashes).value;
    BindWrites(f, b, hashes, c, Never);
    ChecksGive(f, b, hashes, c);
    var p := f.current[(h.taskId, h.predecessorId)];
    SuccessorLineage(f, h, hashes);
    KnownAndNotHandoffs(c);
    PutLands(PutHandoff(f, h), c);
    BoundElsewhere(f, b, hashes, c, p, g);
    var judged := Evaluate(h, b.current, Some(p), b.fences, hashes.checkpoint);
    ReadbackShape(g, h, p, b.current, b.fences, hashes);
    JudgedAfterBind(f, b, hashes, c, p, judged);
    hide *;
  }

  lemma PutLands(f: Files, c: Checkpoint)
    requires c.revision >= 1
    ensures Put(f, c, Never).current == f.current[PlaceOf(c) := c] && Put(f, c, Never).handoffs == f.handoffs
  {
  }

  lemma BoundElsewhere(f: Files, b: BindRequest, hashes: Hashes, c: Checkpoint, p: Checkpoint, g: Files)
    requires Checked(f, b, hashes, c, p) && g.current == f.current[PlaceOf(c) := c]
    ensures Find(g.current, (b.handoff.taskId, b.handoff.predecessorId)) == Some(p)
    ensures Find(g.current, (b.handoff.taskId, b.handoff.successorId)) == Some(c)
    ensures Evaluate(b.handoff, b.current, Some(p), b.fences, hashes.checkpoint).disposition == SAFE && c.status == b.status
  {
    hide Evaluate, Storable, SuccessorOperation, DeclaredEffectsMatch;
  }

  // A crash between the handoff and the checkpoint is visible: readback asks to reconcile.
  lemma ReadbackAfterCrash(f: Files, b: BindRequest, hashes: Hashes)
    requires FilesOk(f) && hashes.Injective() && Bind(f, b, hashes, BeforeCurrent).1 == Err(Crashed)
    ensures var (g, h) := (Bind(f, b, hashes, BeforeCurrent).0, b.handoff);
      (h.taskId, h.successorId) !in g.current
      && Readback(g, h.taskId, h.successorId, Some(b.current), b.fences, hashes)
        == Ok(Some(Reconcile("MISSING_SUCCESSOR_CHECKPOINT")))
  {
    var (g, h) := (Bind(f, b, hashes, BeforeCurrent).0, b.handoff);
    BindChecked(f, b, hashes, BeforeCurrent);
    var c := BindChecks(f, b, hashes).value;
    BindWrites(f, b, hashes, c, BeforeCurrent);
    ChecksGive(f, b, hashes, c);
    SuccessorLineage(f, h, hashes);
    hide BindChecks, Bind, Evaluate, Readback, Reconstruct, Storable, SameHandoff, DeclaredEffectsMatch, FilesOk;
    hide SuccessorOperation, PutHandoff;
    var p := f.current[(h.taskId, h.predecessorId)];
    assert Find(g.current, (h.taskId, h.predecessorId)) == Some(p) && Find(g.current, (h.taskId, h.successorId)) == None;
    ReadbackShape(g, h, p, b.current, b.fences, hashes);
  }

  // ---- A bind can be retried ----------------------------------------------------------------------

  lemma HandoffOnce(f: Files, h: Handoff, hashes: Hashes)
    requires SameHandoff(f, h, hashes)
    ensures SameHandoff(PutHandoff(f, h), h, hashes)
    ensures PutHandoff(PutHandoff(f, h), h) == PutHandoff(f, h)
    ensures PutHandoff(f, h).current == f.current
  {
  }

  lemma ChecksSurviveHandoff(f: Files, b: BindRequest, hashes: Hashes, c: Checkpoint)
    requires FilesOk(f) && hashes.Injective() && BindChecks(f, b, hashes) == Ok(c) && SameHandoff(f, b.handoff, hashes)
    ensures BindChecks(PutHandoff(f, b.handoff), b, hashes) == Ok(c)
  {
    ChecksGive(f, b, hashes, c);
    SuccessorLineage(f, b.handoff, hashes);
    HandoffOnce(f, b.handoff, hashes);
    ChecksShape(f, b, hashes, c);
    ChecksShape(PutHandoff(f, b.handoff), b, hashes, c);
    hide BindChecks, Evaluate, Reconstruct, Storable, StorableHandoff, DeclaredEffectsMatch, Construct, Successor, Attempts;
  }

  lemma ChecksIgnoreSuccessor(f: Files, b: BindRequest, hashes: Hashes, c: Checkpoint, g: Files)
    requires BindChecks(f, b, hashes) == Ok(c) && g.handoffs == f.handoffs && b.handoff.predecessorId != b.handoff.successorId
    requires g.current == f.current[(b.handoff.taskId, b.handoff.successorId) := c]
    ensures BindChecks(g, b, hashes) == Ok(c)
  {
    ChecksShape(f, b, hashes, c);
    ChecksShape(g, b, hashes, c);
    hide BindChecks, Evaluate, Reconstruct, Storable, StorableHandoff, DeclaredEffectsMatch, Construct, Successor, Attempts;
  }

  lemma FilesOkAfterPut(f: Files, c: Checkpoint, g: Files)
    requires FilesOk(f) && Valid(c) && g.current == f.current[PlaceOf(c) := c]
    ensures FilesOk(g)
  {
    hide Valid;
  }

  // Retrying an interrupted bind finishes it exactly as if it had not been interrupted,
  // when and only when the crash came before the successor's checkpoint was written.
  // Later, the retry is refused, and the history file the crash cut off stays missing.
  lemma RetryFinishesBind(f: Files, b: BindRequest, hashes: Hashes, stop: Stop)
    requires FilesOk(f) && hashes.Injective() && stop != Never && Bind(f, b, hashes, stop).1 == Err(Crashed)
    ensures var again := Bind(Bind(f, b, hashes, stop).0, b, hashes, Never);
      if stop != BeforeHistory then again == Bind(f, b, hashes, Never)
      else again == (Bind(f, b, hashes, stop).0, Err(Conflict))
  {
    BindChecked(f, b, hashes, stop);
    var (c, h) := (BindChecks(f, b, hashes).value, b.handoff);
    var (g, left) := (PutHandoff(f, h), Bind(f, b, hashes, stop).0);
    ChecksSurviveHandoff(f, b, hashes, c);
    ChecksGive(f, b, hashes, c);
    HandoffOnce(f, h, hashes);
    BindWrites(f, b, hashes, c, Never);
    if stop == BeforeHandoff {
      BindShape(f, b, hashes, c, stop);
      assert left == f;
    } else {
      BindWrites(f, b, hashes, c, stop);
      if stop == BeforeCurrent {
        RetryFromHandoff(f, b, hashes, c, g);
      } else {
        RetryAfterTear(f, b, hashes, c, g, left);
      }
    }
  }

  lemma RetryFromHandoff(f: Files, b: BindRequest, hashes: Hashes, c: Checkpoint, g: Files)
    requires FilesOk(f) && g == PutHandoff(f, b.handoff) && g.current == f.current && PutHandoff(g, b.handoff) == g
    requires BindChecks(f, b, hashes) == Ok(c) && BindChecks(g, b, hashes) == Ok(c)
    requires SameHandoff(f, b.handoff, hashes) && SameHandoff(g, b.handoff, hashes)
    ensures Bind(g, b, hashes, Never) == Bind(f, b, hashes, Never)
  {
    BindShape(f, b, hashes, c, Never);
    BindShape(g, b, hashes, c, Never);
  }

  lemma RetryAfterTear(f: Files, b: BindRequest, hashes: Hashes, c: Checkpoint, g: Files, left: Files)
    requires FilesOk(f) && g == PutHandoff(f, b.handoff) && g.current == f.current && PutHandoff(g, b.handoff) == g
    requires BindChecks(f, b, hashes) == Ok(c) && BindChecks(g, b, hashes) == Ok(c) && SameHandoff(g, b.handoff, hashes)
    requires c.revision >= 1 && left == Put(g, c, BeforeHistory)
    ensures Bind(left, b, hashes, Never) == (left, Err(Conflict))
  {
    ChecksGive(f, b, hashes, c);
    ChecksIgnoreSuccessor(g, b, hashes, c, left);
    assert Valid(c);
    FilesOkAfterPut(f, c, left);
    BindWrites(left, b, hashes, c, Never);
  }

  // A bind that would succeed can crash at each of its writes.
  lemma BindCanCrash(f: Files, b: BindRequest, hashes: Hashes, stop: Stop)
    requires FilesOk(f) && stop != Never && Bind(f, b, hashes, Never).1.Ok?
    ensures Bind(f, b, hashes, stop).1 == Err(Crashed)
  {
    BindChecked(f, b, hashes, Never);
    var c := BindChecks(f, b, hashes).value;
    BindWrites(f, b, hashes, c, Never);
    BindShape(f, b, hashes, c, stop);
    if stop != BeforeHandoff { BindWrites(f, b, hashes, c, stop); }
    hide BindChecks, Bind, Write, Put, SameHandoff, FilesOk;
  }

  // ---- Such binds exist -----------------------------------------------------------------------------

  // A running attempt `a` of task `a` that has done something, and a bind of attempt `b` to it.
  function Predecessor(a: string): Checkpoint {
    Checkpoint(a, a, a, Identity(a, a, a, ""), 1, RUNNING, "", "", map[], [], [], [Effect(a, a, "")], [], [], "",
               CHECKPOINT_CLAIM_CEILING)
  }

  function Fence(a: string): string { "urn:nexus:fence:" + a }

  function Example(a: string, b: string, hashes: Hashes): BindRequest {
    var p := Predecessor(a);
    var h := Handoff(a, a, b, a, hashes.checkpoint(p), 1, a, p.identity, RUNNING, Fence(a),
                     [], [], [], SAFE, map[], [], "", "", "");
    BindRequest(h, p.identity, FenceRefs({Fence(a)}), RUNNING, "")
  }

  predicate DigestText(s: string) { NonBlank(s) && Trimmed(s) }

  lemma RunningKnown()
    ensures NonBlank(RUNNING) && KnownStatus(RUNNING) && !Terminal(RUNNING) && RUNNING != RECONCILE
  {
  }

  lemma FenceReads(a: string)
    requires NonBlank(a) && Trimmed(a)
    ensures NonBlank(Fence(a)) && Trimmed(Fence(a)) && CanonicalFence(Fence(a))
  {
    var (prefix, ref) := (FENCE_PREFIXES[0], Fence(a));
    assert prefix == "urn:nexus:fence:" && ref == prefix + a;
    assert ref[0] == 'u' && ref[|ref| - 1] == a[|a| - 1] && ref[|prefix|..] == a && prefix <= ref;
    hide Strip;
  }

  lemma PredecessorValid(a: string)
    requires AttemptSegment(a)
    ensures Valid(Predecessor(a)) && ReadsBack(Predecessor(a)) && Increasing(Keys(Predecessor(a).completedEffects))
  {
    hide NonBlank, KnownStatus, Terminal, Trimmed, SafeSegment;
    SegmentText(a);
    RunningKnown();
  }

  lemma ExampleStorable(a: string, b: string, hashes: Hashes)
    requires AttemptSegment(a) && AttemptSegment(b) && a != b && DigestText(hashes.checkpoint(Predecessor(a)))
    ensures StorableHandoff(Example(a, b, hashes).handoff, hashes.shown)
  {
    hide NonBlank, KnownStatus, Fence, SafeSegment, Strip, CanonicalFence, Trimmed;
    SegmentText(a);
    SegmentText(b);
    RunningKnown();
    FenceReads(a);
    EmptyTrimmed();
  }

  lemma EmptyTrimmed()
    ensures Trimmed("") && Trimmed(RUNNING) && KnownTransition("") && SAFE != ""
  {
  }

  lemma SegmentText(a: string)
    requires AttemptSegment(a)
    ensures SafeSegment(a) && NonBlank(a) && Trimmed(a)
  {
  }

  lemma ExampleSafe(a: string, b: string, hashes: Hashes)
    requires AttemptSegment(a)
    ensures var q := Example(a, b, hashes);
      Evaluate(q.handoff, q.current, Some(Predecessor(a)), q.fences, hashes.checkpoint).disposition == SAFE
  {
    hide NonBlank, CanonicalFence, Fence, Evaluate, AttemptSegment, SafeSegment, Trimmed, KnownStatus, Terminal, Strip;
    SegmentText(a);
    FenceReads(a);
    RunningKnown();
    var q := Example(a, b, hashes);
    assert Verified(q.fences, Fence(a));
    SafeMeans(q.handoff, q.current, Some(Predecessor(a)), q.fences, hashes.checkpoint);
  }

  lemma RetryEntry(h: Handoff)
    ensures NonBlank("handoff:" + h.predecessorId + "->" + h.successorId + ":" + h.reason)
  {
    var s := "handoff:" + h.predecessorId + "->" + h.successorId + ":" + h.reason;
    assert s[0] == 'h';
  }

  lemma OperationText(b: string)
    requires NonBlank(b) && Trimmed(b)
    ensures NonBlank("op_" + b) && Trimmed("op_" + b)
  {
    var s := "op_" + b;
    assert s[0] == 'o' && s[|s| - 1] == b[|b| - 1];
  }

  lemma ExampleSuccessor(a: string, b: string, hashes: Hashes) returns (c: Checkpoint)
    requires AttemptSegment(a) && AttemptSegment(b)
    ensures Construct(Successor(Example(a, b, hashes).handoff, Predecessor(a), Predecessor(a).identity, RUNNING, "", hashes.shown)) == Some(c)
    ensures Storable(c) && PlaceOf(c) == (a, b)
  {
    SegmentText(a);
    SegmentText(b);
    RunningKnown();
    var h := Example(a, b, hashes).handoff;
    RetryEntry(h);
    OperationText(b);
    hide NonBlank, KnownStatus, Terminal, SafeSegment, Fence;
    PredecessorValid(a);
    var raw := Successor(h, Predecessor(a), Predecessor(a).identity, RUNNING, "", hashes.shown);
    c := Normalized(raw);
    assert !Checkpoints.Refused(raw);
    ConstructIsValid(raw);
    InKeyOrderKeeps(Predecessor(a).completedEffects);
  }

  // Under every hash and for any two attempts there is a bind that succeeds, that can be
  // torn at its history file, and that cannot be retried then.
  lemma TornBindExists(a: string, b: string, hashes: Hashes)
    requires AttemptSegment(a) && AttemptSegment(b) && a != b
    requires hashes.Injective() && DigestText(hashes.checkpoint(Predecessor(a)))
    ensures var (f, q) := (Files(map[(a, a) := Predecessor(a)], map[], map[]), Example(a, b, hashes));
      var (torn, reply) := Bind(f, q, hashes, BeforeHistory);
      && FilesOk(f) && Bind(f, q, hashes, Never).1.Ok?
      && reply == Err(Crashed) && Bind(torn, q, hashes, Never) == (torn, Err(Conflict))
  {
    var (f, q) := (Files(map[(a, a) := Predecessor(a)], map[], map[]), Example(a, b, hashes));
    PredecessorValid(a);
    ExampleStorable(a, b, hashes);
    ExampleSafe(a, b, hashes);
    var c := ExampleSuccessor(a, b, hashes);
    ExampleBinds(f, q, hashes, c, a, b);
    BindCanCrash(f, q, hashes, BeforeHistory);
    RetryFinishesBind(f, q, hashes, BeforeHistory);
    hide *;
  }

  lemma ExampleBinds(f: Files, q: BindRequest, hashes: Hashes, c: Checkpoint, a: string, b: string)
    requires f == Files(map[(a, a) := Predecessor(a)], map[], map[]) && q == Example(a, b, hashes) && a != b
    requires Valid(Predecessor(a)) && StorableHandoff(q.handoff, hashes.shown) && Storable(c) && PlaceOf(c) == (a, b)
    requires Evaluate(q.handoff, q.current, Some(Predecessor(a)), q.fences, hashes.checkpoint).disposition == SAFE
    requires Construct(Successor(q.handoff, Predecessor(a), Predecessor(a).identity, RUNNING, "", hashes.shown)) == Some(c)
    ensures FilesOk(f) && Bind(f, q, hashes, Never).1.Ok?
  {
    hide Evaluate, StorableHandoff, Construct, Successor, Storable, Valid, BindChecks, Bind, Put, Fence;
    assert Fresh(f, q.handoff) && DeclaredEffectsMatch(q.handoff, Predecessor(a));
    ChecksShape(f, q, hashes, c);
    BindWrites(f, q, hashes, c, Never);
  }

  // ---- A safe readback, however much later -----------------------------------------------------

  // A safe readback has found the predecessor safe and the successor holding its effects.
  lemma SafeReadbackShape(g: Files, h: Handoff, current: Identity, fences: Fences, hashes: Hashes)
    requires h.successorId in Within(g.handoffs, h.taskId) && g.handoffs[h.taskId][h.successorId] == h
    requires var r := Readback(g, h.taskId, h.successorId, Some(current), fences, hashes);
      r.Ok? && r.value.Some? && r.value.value.disposition == SAFE
    ensures var p := Find(g.current, (h.taskId, h.predecessorId));
      && Evaluate(h, current, p, fences, hashes.checkpoint).disposition == SAFE
      && (p.None? ||
        JudgeSuccessor(h, p.value, Find(g.current, (h.taskId, h.successorId)), current,
                       Evaluate(h, current, p, fences, hashes.checkpoint), hashes.shown).disposition == SAFE)
  {
    hide Evaluate, JudgeSuccessor, Reconstruct;
  }

  lemma JudgedSafeHoldsEffects(h: Handoff, p: Checkpoint, s: Option<Checkpoint>, current: Identity, judged: Evaluation, shown: Show)
    requires JudgeSuccessor(h, p, s, current, judged, shown).disposition == SAFE
    ensures s.Some? && forall e | e in p.completedEffects :: e in s.value.completedEffects
  {
    assert SAFE != RECONCILE;
    hide SuccessorOperation, Elements, Resume;
    forall e | e in p.completedEffects ensures s.Some? && e in s.value.completedEffects {
      var i :| 0 <= i < |p.completedEffects| && p.completedEffects[i] == e;
    }
  }

  // A SAFE readback at any later time means the predecessor is still exactly the checkpoint
  // the successor was bound from, and the successor holds all its effects.
  lemma SafeReadbackMeansUnchanged(f: Files, b: BindRequest, hashes: Hashes, g: Files, current: Identity, fences: Fences)
    requires FilesOk(f) && hashes.Injective() && BindChecks(f, b, hashes).Ok?
    requires var edges := Within(g.handoffs, b.handoff.taskId);
      b.handoff.successorId in edges && edges[b.handoff.successorId] == b.handoff
    requires var r := Readback(g, b.handoff.taskId, b.handoff.successorId, Some(current), fences, hashes);
      r.Ok? && r.value.Some? && r.value.value.disposition == SAFE
    ensures var (p, s) := ((b.handoff.taskId, b.handoff.predecessorId), (b.handoff.taskId, b.handoff.successorId));
      && p in f.current && p in g.current && g.current[p] == f.current[p] && current == b.current
      && s in g.current && forall e | e in f.current[p].completedEffects :: e in g.current[s].completedEffects
  {
    var (h, c) := (b.handoff, BindChecks(f, b, hashes).value);
    ChecksGive(f, b, hashes, c);
    SafeReadbackShape(g, h, current, fences, hashes);
    hide BindChecks, Readback, JudgeSuccessor, Evaluate, Storable, FilesOk, DeclaredEffectsMatch;
    var (p, s) := ((h.taskId, h.predecessorId), (h.taskId, h.successorId));
    SafePinsPredecessor(h, b.current, current, Find(f.current, p), Find(g.current, p), b.fences, fences, hashes.checkpoint);
    var judged := Evaluate(h, current, Find(g.current, p), fences, hashes.checkpoint);
    JudgedSafeHoldsEffects(h, g.current[p], Find(g.current, s), current, judged, hashes.shown);
  }
}
