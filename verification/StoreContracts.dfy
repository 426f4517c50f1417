// What each operation of the store leaves on disk, file by file and field by field.
module StoreContracts {
  import opened Text
  import JsNumbers
  import opened CanonicalJson
  import opened CanonicalText
  import opened Checkpoints
  import opened Handoffs
  import opened Lineage
  import opened StoreFiles
  import opened CheckpointFields
  import B = BindReadback

  // The revision an attempt is at; none is 0.
  function Held(f: Files, at: Place): int { if at in f.current then f.current[at].revision else 0 }

  // One attempt's current file replaced.
  predicate CurrentOnly(before: map<Place, Checkpoint>, after: map<Place, Checkpoint>, at: Place, c: Checkpoint) {
    && after.Keys == before.Keys + {at} && after[at] == c
    && (forall x | x in before && x != at :: after[x] == before[x])
  }

  type Histories = map<Place, map<string, Checkpoint>>

  // One history file added to the attempt's, or written over.
  predicate HistoryOnly(before: Histories, after: Histories, at: Place, name: string, c: Checkpoint) {
    && after.Keys == before.Keys + {at} && name in after[at] && after[at][name] == c
    && (forall n | n in after[at] && n != name :: at in before && n in before[at] && after[at][n] == before[at][n])
    && (forall n | at in before && n in before[at] :: n in after[at])
    && (forall x | x in before && x != at :: after[x] == before[x])
  }

  // What is on disk after a record was put there: nothing new, the current file only, or
  // the history file, too.
  predicate Lands(f: Files, g: Files, c: Checkpoint, name: string, stop: Stop) {
    var at := (c.taskId, c.attemptId);
    && g.handoffs == f.handoffs
    && (if stop == BeforeCurrent then g.current == f.current else CurrentOnly(f.current, g.current, at, c))
    && (if stop in {BeforeCurrent, BeforeHistory} then g.history == f.history else HistoryOnly(f.history, g.history, at, name, c))
  }

  lemma PutLands(f: Files, c: Checkpoint, stop: Stop)
    requires c.revision >= 1
    ensures Lands(f, Put(f, c, stop), c, FileName(c.revision), stop)
  {
    hide FileName;
  }

  // `write`: a record is taken exactly when the revision expected is the one held, or, with
  // none expected, when its own is later; otherwise nothing changes.
  lemma WriteDoes(f: Files, c: Checkpoint, expected: Option<int>, stop: Stop)
    requires Storable(c)
    ensures var (g, r) := Write(f, c, expected, stop);
      var held := Held(f, (c.taskId, c.attemptId));
      if expected == Some(held) || (expected == None && ((c.taskId, c.attemptId) !in f.current || c.revision > held)) then
        Lands(f, g, c, FileName(c.revision), stop) && r == (if stop in {BeforeCurrent, BeforeHistory} then Err(Crashed) else Ok(c))
      else (g, r) == (f, Err(Conflict))
  {
    hide FileName, Lands, Put, ReadsBack;
    assert c.revision >= 1;
    PutLands(f, c, stop);
    hide Storable;
  }

  ghost predicate RecordLands(f: Files, g: Files, c: Checkpoint, e: Effect, d: Checkpoint, stop: Stop, r: Reply) {
    && Recorded(c, e, d) && d.revision >= 0 && Lands(f, g, d, FileName(d.revision), stop)
    && r == (if stop in {BeforeCurrent, BeforeHistory} then Err(Crashed) else Ok(d))
  }

  // `record_effect`: with the held revision named, a key already there changes nothing, and a
  // new one is added, as the next revision of the same record.
  lemma RecordEffectDoes(f: Files, at: Place, e: Effect, expected: int, stop: Stop)
    requires Kept(f) && e.Valid() && Trimmed(e.key) && Trimmed(e.receiptRef)
    ensures var (g, r) := RecordEffect(f, at, e, expected, stop);
      if at !in f.current then (g, r) == (f, Err(Unknown))
      else var c := f.current[at];
        if c.revision != expected then (g, r) == (f, Err(Conflict))
        else if exists i | 0 <= i < |c.completedEffects| :: c.completedEffects[i].key == e.key then (g, r) == (f, Ok(c))
        else exists d :: RecordLands(f, g, c, e, d, stop, r)
  {
    hide FileName, Lands, Put, Storable, WithEffect, Recorded, Kept;
    if at in f.current && f.current[at].revision == expected {
      var c := f.current[at];
      KeyHeld(c, e);
      if !c.HasEffect(e.key) {
        assert Storable(c) && PlaceOf(c) == at by { KeptAt(f, at); }
        EffectRecorded(c, e);
        PutLands(f, WithEffect(c, e).value, stop);
        var (g, r) := RecordEffect(f, at, e, expected, stop);
        assert RecordLands(f, g, c, e, WithEffect(c, e).value, stop, r);
      }
    }
  }

  lemma KeptAt(f: Files, at: Place)
    requires Kept(f) && at in f.current
    ensures Storable(f.current[at]) && PlaceOf(f.current[at]) == at
  {
    hide Storable;
  }

  lemma KeyHeld(c: Checkpoint, e: Effect)
    ensures c.HasEffect(e.key) <==> exists i | 0 <= i < |c.completedEffects| :: c.completedEffects[i].key == e.key
  {
    if c.HasEffect(e.key) { var i :| 0 <= i < |Keys(c.completedEffects)| && Keys(c.completedEffects)[i] == e.key; }
    if i :| 0 <= i < |c.completedEffects| && c.completedEffects[i].key == e.key { assert Keys(c.completedEffects)[i] == e.key; }
  }

  // `d` is `c` with the effect, and no other, in key order, at the next revision.
  ghost predicate Recorded(c: Checkpoint, e: Effect, d: Checkpoint) {
    && d.revision == c.revision + 1 && Increasing(Keys(d.completedEffects))
    && (forall x :: x in d.completedEffects <==> x in c.completedEffects || x == e)
    && d.(completedEffects := c.completedEffects, revision := c.revision) == c
  }

  lemma EffectRecorded(c: Checkpoint, e: Effect)
    requires Storable(c) && e.Valid() && Trimmed(e.key) && Trimmed(e.receiptRef) && !c.HasEffect(e.key)
    ensures WithEffect(c, e).Some?
    ensures var d := WithEffect(c, e).value; Recorded(c, e, d) && Storable(d) && d.revision >= 1 && PlaceOf(d) == PlaceOf(c)
  {
    hide SafeSegment, NonBlank, Trimmed, KnownStatus, IdentityReadsBack, WithEffect, NonBlanks, Increasing, Distinct;
    WithEffectFields(c, e);
    WithEffectIsNext(c, e);
    var d := WithEffect(c, e).value;
    assert OnlyAdds(c.completedEffects, e, d.completedEffects) && Valid(d);
    forall i | 0 <= i < |d.completedEffects| ensures Trimmed(d.completedEffects[i].key) && Trimmed(d.completedEffects[i].receiptRef) {
      assert d.completedEffects[i] in d.completedEffects;
    }
  }

  // ---- `bind_successor_checkpoint` -------------------------------------------------------------

  function BoundOperation(h: Handoff, shown: Show): string {
    if "operation_id" in h.binding && !Falsy(h.binding["operation_id"])
    then PyStr(h.binding["operation_id"], shown(h.binding["operation_id"]))
    else "op_" + h.successorId
  }

  // The checkpoint a successor begins with: from the handoff, the request and the
  // predecessor, each field.
  predicate BeginsFrom(c: Checkpoint, b: BindRequest, p: Checkpoint, shown: Show) {
    var h := b.handoff;
    && c.taskId == h.taskId && c.attemptId == h.successorId && c.operationId == BoundOperation(h, shown)
    && c.identity == b.current && c.revision == 1 && c.status == b.status && c.phase == b.phase && c.nextGate == h.nextGate
    && c.external == map[] && c.leases == [] && c.pendingSteps == [] && c.blockedReason == ""
    && c.evidenceRefs == h.inheritedEvidence && c.completedEffects == p.completedEffects
    && c.retryHistory == ["handoff:" + h.predecessorId + "->" + h.successorId + ":" + h.reason]
    && c.claimCeiling == "RUNTIME_SESSION_CHECKPOINT_EXECUTION_STATE_ONLY"
  }

  lemma SuccessorBegins(b: BindRequest, p: Checkpoint, shown: Show, c: Checkpoint)
    requires Distinct(b.handoff.inheritedEvidence) && Increasing(Keys(p.completedEffects))
    requires Construct(Successor(b.handoff, p, b.current, b.status, b.phase, shown)) == Some(c)
    ensures BeginsFrom(c, b, p, shown)
  {
    hide Checkpoints.Refused, InKeyOrder, Distinct, Increasing;
    InKeyOrderKeeps(p.completedEffects);
    OneIsDistinct("handoff:" + b.handoff.predecessorId + "->" + b.handoff.successorId + ":" + b.handoff.reason);
    NoneIsDistinct();
  }

  lemma OneIsDistinct(s: string)
    ensures Distinct([s])
  {
  }

  lemma NoneIsDistinct()
    ensures Distinct<string>([])
  {
  }

  lemma FirstFile()
    ensures FileName(1) == "00000001.json"
  {
    assert JsNumbers.NatText(1) == "1";
    assert Zeros(7) == "0000000";
    assert Zeros(7) + "1" == "00000001";
  }

  lemma HandoffLists(h: Handoff, shown: Show)
    requires StorableHandoff(h, shown)
    ensures Distinct(h.inheritedEvidence)
  {
  }

  // A bind that succeeds leaves the successor's first checkpoint in its current file and its
  // first history file, the handoff beside it, and everything else as it was.
  lemma BindDoes(f: Files, b: BindRequest, hashes: Hashes)
    requires Kept(f) && hashes.Injective() && Bind(f, b, hashes, Never).1.Ok?
    ensures var (g, r) := Bind(f, b, hashes, Never);
      var (h, c) := (b.handoff, r.value);
      var (p, s) := ((h.taskId, h.predecessorId), (h.taskId, h.successorId));
      && p in f.current && s !in f.current && BeginsFrom(c, b, f.current[p], hashes.shown)
      && CurrentOnly(f.current, g.current, s, c) && HistoryOnly(f.history, g.history, s, "00000001.json", c)
      && g.handoffs.Keys == f.handoffs.Keys + {h.taskId}
      && h.successorId in g.handoffs[h.taskId] && g.handoffs[h.taskId][h.successorId] == h
      && (forall task, x | task in f.handoffs && x in f.handoffs[task] :: x in g.handoffs[task] && g.handoffs[task][x] == f.handoffs[task][x])
      && (forall task, x | task in g.handoffs && x in g.handoffs[task] && (task, x) != s :: task in f.handoffs && x in f.handoffs[task])
  {
    hide BindChecks, Bind, SameHandoff, StorableHandoff, Evaluate, Storable, Put, PutHandoff, DeclaredEffectsMatch, Construct;
    hide Successor, BeginsFrom, CurrentOnly, HistoryOnly, FileName, B.Checked, B.Fresh, hashes.Injective, Replied;
    var h := b.handoff;
    KeptIsOk(f);
    B.BindChecked(f, b, hashes, Never);
    var c := BindChecks(f, b, hashes).value;
    B.BindWrites(f, b, hashes, c, Never);
    B.ChecksShape(f, b, hashes, c);
    HandoffLists(h, hashes.shown);
    var p := f.current[(h.taskId, h.predecessorId)];
    KeptKeys(f, (h.taskId, h.predecessorId));
    SuccessorBegins(b, p, hashes.shown, c);
    RepliedOk(c);
    PutLands(PutHandoff(f, h), c, Never);
    HandoffLands(f, h, hashes);
    FirstFile();
    BeginsWhere(c, b, p, hashes.shown);
  }

  lemma RepliedOk(c: Checkpoint)
    ensures Replied(c, Never) == Ok(c)
  {
  }

  lemma BeginsWhere(c: Checkpoint, b: BindRequest, p: Checkpoint, shown: Show)
    requires BeginsFrom(c, b, p, shown)
    ensures PlaceOf(c) == (b.handoff.taskId, b.handoff.successorId) && c.revision == 1
  {
    hide BoundOperation;
  }

  lemma KeptIsOk(f: Files)
    requires Kept(f)
    ensures B.FilesOk(f)
  {
    hide Valid, ReadsBack, SafeSegment;
  }

  lemma KeptKeys(f: Files, at: Place)
    requires Kept(f) && at in f.current
    ensures Increasing(Keys(f.current[at].completedEffects))
  {
    hide ReadsBack, SafeSegment, NonBlank, NonBlanks, Increasing, Distinct, KnownStatus;
  }

  lemma HandoffLands(f: Files, h: Handoff, hashes: Hashes)
    requires SameHandoff(f, h, hashes) && hashes.Injective()
    ensures var g := PutHandoff(f, h);
      && g.current == f.current && g.history == f.history && g.handoffs.Keys == f.handoffs.Keys + {h.taskId}
      && h.successorId in g.handoffs[h.taskId] && g.handoffs[h.taskId][h.successorId] == h
      && (forall task, x | task in f.handoffs && x in f.handoffs[task] :: x in g.handoffs[task] && g.handoffs[task][x] == f.handoffs[task][x])
      && (forall task, x | task in g.handoffs && x in g.handoffs[task] && (task, x) != (h.taskId, h.successorId) ::
            task in f.handoffs && x in f.handoffs[task])
  {
  }

  // ---- When a bind succeeds --------------------------------------------------------------------

  // The keys and receipts a handoff declares, if any, are those of the predecessor's effects.
  ghost predicate Declares(h: Handoff, p: Checkpoint) { DeclaresKeys(h, p) && DeclaresRefs(h, p) }

  ghost predicate DeclaresKeys(h: Handoff, p: Checkpoint) {
    h.effectKeys == [] || forall k :: k in h.effectKeys <==> exists e :: e in p.completedEffects && e.key == k
  }

  ghost predicate DeclaresRefs(h: Handoff, p: Checkpoint) {
    h.effectRefs == [] || forall k :: k in h.effectRefs <==> exists e :: e in p.completedEffects && e.receiptRef == k
  }

  lemma DeclaresIff(h: Handoff, p: Checkpoint)
    ensures DeclaredEffectsMatch(h, p) <==> Declares(h, p)
  {
    var (ks, rs) := (set e | e in p.completedEffects :: e.key, set e | e in p.completedEffects :: e.receiptRef);
    assert forall k :: k in Elements(h.effectKeys) <==> k in h.effectKeys;
    assert forall k :: k in Elements(h.effectRefs) <==> k in h.effectRefs;
    assert forall k :: k in ks <==> exists e :: e in p.completedEffects && e.key == k;
    assert forall k :: k in rs <==> exists e :: e in p.completedEffects && e.receiptRef == k;
  }

  lemma HandoffTexts(h: Handoff, shown: Show)
    requires StorableHandoff(h, shown)
    ensures NonBlank(h.taskId) && NonBlank(h.successorId) && Identified(h.sourceIdentity) && !SomeBlank(h.inheritedEvidence)
    ensures SafeSegment(h.taskId) && AttemptSegment(h.successorId) && IdentityReadsBack(h.sourceIdentity)
    ensures Trimmed(h.taskId) && Trimmed(h.successorId)
  {
    hide NonBlank, NonBlanks, SomeBlank, Trimmed, Distinct, BindingNames, KnownTransition;
    BlankIff(h.inheritedEvidence);
  }

  lemma EffectsHeld(p: Checkpoint)
    requires Storable(p)
    ensures Performed(p.completedEffects) && Increasing(Keys(p.completedEffects))
    ensures forall i | 0 <= i < |p.completedEffects| :: Trimmed(p.completedEffects[i].key) && Trimmed(p.completedEffects[i].receiptRef)
  {
    hide NonBlank, NonBlanks, Trimmed, Performed, Increasing, Distinct, KnownStatus, SafeSegment, IdentityReadsBack;
    PerformedIff(p.completedEffects);
    InKeyOrderKeeps(p.completedEffects);
  }

  lemma OneNotBlank(s: string)
    requires NonBlank(s)
    ensures !SomeBlank([s]) && !SomeBlank([])
  {
  }

  lemma SuccessorAccepted(b: BindRequest, p: Checkpoint, shown: Show)
    requires StorableHandoff(b.handoff, shown) && b.current == b.handoff.sourceIdentity && Storable(p)
    ensures Construct(Successor(b.handoff, p, b.current, b.status, b.phase, shown)).Some? <==>
      && b.status in {"RUNNING", "WAITING_APPROVAL", "WAITING_EXTERNAL", "RECONCILE", "COMPLETED", "FAILED"}
      && NonBlank(BoundOperation(b.handoff, shown))
  {
    hide BoundOperation, NonBlank, SomeBlank, Performed, Identified, Construct, StorableHandoff, Storable;
    ConstructAccepts(Successor(b.handoff, p, b.current, b.status, b.phase, shown));
    HandoffTexts(b.handoff, shown);
    EffectsHeld(p);
    B.RetryEntry(b.handoff);
    OneNotBlank("handoff:" + b.handoff.predecessorId + "->" + b.handoff.successorId + ":" + b.handoff.reason);
    OperationIs(b.handoff, shown);
    hide SuccessorOperation;
  }

  lemma OperationIs(h: Handoff, shown: Show)
    ensures SuccessorOperation(h, shown) == BoundOperation(h, shown)
  {
  }

  lemma SuccessorReads(b: BindRequest, p: Checkpoint, shown: Show, c: Checkpoint)
    requires StorableHandoff(b.handoff, shown) && b.current == b.handoff.sourceIdentity && Storable(p)
    requires BeginsFrom(c, b, p, shown) && Checkpoints.Valid(c)
    ensures Storable(c) <==> Trimmed(BoundOperation(b.handoff, shown))
  {
    hide BoundOperation, NonBlank, Checkpoints.Valid, Trimmed, SafeSegment, IdentityReadsBack;
    HandoffTexts(b.handoff, shown);
    EffectsHeld(p);
  }

  lemma MadeValid(raw: Checkpoint)
    ensures Construct(raw).Some? ==> Checkpoints.Valid(Construct(raw).value)
  {
    hide Checkpoints.Valid, Checkpoints.Refused, Normalized;
    ConstructIsValid(raw);
  }

  lemma SuccessorStorable(b: BindRequest, p: Checkpoint, shown: Show)
    requires StorableHandoff(b.handoff, shown) && b.current == b.handoff.sourceIdentity && Storable(p)
    ensures var made := Construct(Successor(b.handoff, p, b.current, b.status, b.phase, shown));
      made.Some? && Storable(made.value) <==>
        && b.status in {"RUNNING", "WAITING_APPROVAL", "WAITING_EXTERNAL", "RECONCILE", "COMPLETED", "FAILED"}
        && NonBlank(BoundOperation(b.handoff, shown)) && Trimmed(BoundOperation(b.handoff, shown))
  {
    hide Successor, Construct, StorableHandoff, Storable, NonBlank, Trimmed, BoundOperation, BeginsFrom, Checkpoints.Valid;
    var raw := Successor(b.handoff, p, b.current, b.status, b.phase, shown);
    SuccessorAccepted(b, p, shown);
    MadeValid(raw);
    if Construct(raw).Some? {
      HandoffLists(b.handoff, shown);
      EffectsHeld(p);
      SuccessorBegins(b, p, shown, Construct(raw).value);
      SuccessorReads(b, p, shown, Construct(raw).value);
    }
  }

  lemma ChecksPass(f: Files, b: BindRequest, hashes: Hashes)
    requires Kept(f)
    ensures BindChecks(f, b, hashes).Ok? <==>
      var (h, operation, p) := (b.handoff, BoundOperation(b.handoff, hashes.shown), (b.handoff.taskId, b.handoff.predecessorId));
      && StorableHandoff(h, hashes.shown) && p in f.current && B.Fresh(f, h)
      && Evaluate(h, b.current, Some(f.current[p]), b.fences, hashes.checkpoint).disposition == SAFE && Declares(h, f.current[p])
      && b.status in {"RUNNING", "WAITING_APPROVAL", "WAITING_EXTERNAL", "RECONCILE", "COMPLETED", "FAILED"}
      && NonBlank(operation) && Trimmed(operation)
  {
    hide BindChecks, StorableHandoff, Evaluate, Storable, DeclaredEffectsMatch, Construct, Successor, B.Fresh, BoundOperation;
    hide NonBlank, Trimmed, Declares, Kept;
    var (h, p) := (b.handoff, (b.handoff.taskId, b.handoff.predecessorId));
    if BindChecks(f, b, hashes).Ok? { B.ChecksShape(f, b, hashes, BindChecks(f, b, hashes).value); }
    if p in f.current {
      KeptAt(f, p);
      DeclaresIff(h, f.current[p]);
      SafeMeans(h, b.current, Some(f.current[p]), b.fences, hashes.checkpoint);
      if StorableHandoff(h, hashes.shown) && Evaluate(h, b.current, Some(f.current[p]), b.fences, hashes.checkpoint).disposition == SAFE {
        SuccessorStorable(b, f.current[p], hashes.shown);
        var made := Construct(Successor(h, f.current[p], b.current, b.status, b.phase, hashes.shown));
        if made.Some? { B.ChecksShape(f, b, hashes, made.value); }
      }
    }
  }

  lemma SameIff(f: Files, h: Handoff, hashes: Hashes)
    requires hashes.Injective()
    ensures SameHandoff(f, h, hashes) <==>
      (h.taskId in f.handoffs && h.successorId in f.handoffs[h.taskId] ==> f.handoffs[h.taskId][h.successorId] == h)
  {
  }

  // A bind succeeds exactly when the handoff is well formed and safe to resume from the
  // predecessor there is, declares its effects or none, does not lead back into the
  // ancestry, names a status and a trimmed operation, and neither a checkpoint of the
  // successor nor another handoff to it is there.
  lemma BindSucceedsIff(f: Files, b: BindRequest, hashes: Hashes)
    requires Kept(f) && hashes.Injective()
    ensures Bind(f, b, hashes, Never).1.Ok? <==>
      var (h, operation) := (b.handoff, BoundOperation(b.handoff, hashes.shown));
      var (p, s) := ((h.taskId, h.predecessorId), (h.taskId, h.successorId));
      && StorableHandoff(h, hashes.shown) && p in f.current && B.Fresh(f, h)
      && Evaluate(h, b.current, Some(f.current[p]), b.fences, hashes.checkpoint).disposition == SAFE && Declares(h, f.current[p])
      && b.status in {"RUNNING", "WAITING_APPROVAL", "WAITING_EXTERNAL", "RECONCILE", "COMPLETED", "FAILED"}
      && NonBlank(operation) && Trimmed(operation) && s !in f.current
      && (h.taskId in f.handoffs && h.successorId in f.handoffs[h.taskId] ==> f.handoffs[h.taskId][h.successorId] == h)
  {
    hide BindChecks, Bind, SameHandoff, StorableHandoff, Evaluate, Storable, Put, PutHandoff, B.Checked;
    hide B.Fresh, hashes.Injective, BoundOperation, NonBlank, Trimmed, Declares, Kept, B.FilesOk;
    ChecksPass(f, b, hashes);
    SameIff(f, b.handoff, hashes);
    KeptIsOk(f);
    if Bind(f, b, hashes, Never).1.Ok? { B.BindChecked(f, b, hashes, Never); }
    if BindChecks(f, b, hashes).Ok? && SameHandoff(f, b.handoff, hashes) {
      var c := BindChecks(f, b, hashes).value;
      B.BindWrites(f, b, hashes, c, Never);
      B.ChecksGive(f, b, hashes, c);
      PlacedAt(f, b, hashes, c);
    }
  }

  lemma PlacedAt(f: Files, b: BindRequest, hashes: Hashes, c: Checkpoint)
    requires (b.handoff.taskId, b.handoff.predecessorId) in f.current
    requires B.Checked(f, b, hashes, c, f.current[(b.handoff.taskId, b.handoff.predecessorId)])
    ensures PlaceOf(c) == (b.handoff.taskId, b.handoff.successorId)
  {
    hide Evaluate, Storable, DeclaredEffectsMatch, SuccessorOperation;
  }
}
