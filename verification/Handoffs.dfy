// The predecessor-to-successor handoff record and the judgement whether a
// successor may resume from it.
module Handoffs {
  import opened Text
  import opened JsNumbers
  import opened CanonicalJson
  import opened CanonicalText
  import opened JsNumberValues
  import opened Checkpoints

  const SAFE := "SAFE"
  const WAIT := "WAIT"
  const BLOCKED := "BLOCKED"

  datatype Handoff = Handoff(
    taskId: string, predecessorId: string, successorId: string, predecessorOperationId: string,
    predecessorHash: string, predecessorRevision: int, reason: string, sourceIdentity: Identity,
    terminalState: string, fenceRef: string, effectRefs: seq<string>, effectKeys: seq<string>,
    unknownEffectRefs: seq<string>, reconcileDisposition: string, binding: map<string, Json<Number>>,
    inheritedEvidence: seq<string>, nextGate: string, freshnessIdentity: string, transitionType: string)

  predicate KnownTransition(t: string) {
    t in {"", "LOCAL_TO_ONLINE", "ONLINE_A_TO_ONLINE_B", "RDC_TO_MAIN_GPT", "MAIN_GPT_TO_DELEGATED"}
  }

  // What `str` makes of a list or an object.
  type Show = Json<Number> -> string

  // A constructed handoff: `HandoffLineage.__post_init__` has passed.
  predicate ValidHandoff(h: Handoff, shown: Show) {
    && NonBlank(h.taskId) && NonBlank(h.predecessorId) && NonBlank(h.successorId)
    && h.predecessorId != h.successorId
    && NonBlank(h.predecessorOperationId) && NonBlank(h.predecessorHash) && h.predecessorRevision >= 1
    && NonBlank(h.reason) && h.sourceIdentity.Valid() && NonBlank(h.terminalState) && NonBlank(h.fenceRef)
    && NonBlanks(h.effectRefs) && NonBlanks(h.effectKeys) && NonBlanks(h.unknownEffectRefs)
    && NonBlanks(h.inheritedEvidence)
    && Distinct(h.effectRefs) && Distinct(h.effectKeys) && Distinct(h.unknownEffectRefs)
    && Distinct(h.inheritedEvidence)
    && BindingNames(h.binding, h.successorId, shown) && KnownTransition(h.transitionType)
  }

  // A handoff whose durable text is read back as it was written. An empty explicit
  // disposition would come back as SAFE, and so be taken for tampering.
  predicate HandoffReadsBack(h: Handoff) {
    && Trimmed(h.taskId) && Trimmed(h.predecessorId) && Trimmed(h.successorId)
    && Trimmed(h.predecessorOperationId) && Trimmed(h.predecessorHash) && Trimmed(h.reason)
    && IdentityReadsBack(h.sourceIdentity) && Trimmed(h.terminalState) && Trimmed(h.fenceRef)
    && h.reconcileDisposition != ""
  }

  predicate BindingNames(binding: map<string, Json<Number>>, successorId: string, shown: Show) {
    "attempt_id" in binding ==>
      var bound := Strip(PyStr(binding["attempt_id"], shown(binding["attempt_id"])));
      bound == "" || bound == successorId
  }

  // The operation a successor checkpoint runs under.
  function SuccessorOperation(h: Handoff, shown: Show): string {
    TextOr(h.binding, "operation_id", "op_" + h.successorId, shown)
  }

  // ---- Fence evidence -----------------------------------------------------------------

  const FENCE_PREFIXES := [
    "urn:nexus:fence:", "urn:nexus:claim:", "fence:", "fence-receipt:", "fence-receipt-",
    "fence_receipt:", "fence-", "claim_fence:", "claim-fence:", "claim:"]

  // `parse_canonical_fence_ref(ref) is not None`: the first matching prefix decides.
  predicate CanonicalFence(ref: string) { MatchesFence(Strip(ref), FENCE_PREFIXES) }

  predicate MatchesFence(ref: string, prefixes: seq<string>) {
    prefixes != [] &&
    if prefixes[0] <= ref then NonBlank(ref[|prefixes[0]|..]) else MatchesFence(ref, prefixes[1..])
  }

  // Externally verified fence facts, in the shapes the caller may supply them.
  datatype Fences = NoFences | FenceRefs(refs: set<string>) | FenceFacts(facts: map<string, bool>)

  predicate Verified(fences: Fences, ref: string) {
    match fences
    case NoFences => false
    case FenceRefs(refs) => ref in refs
    case FenceFacts(facts) => ref in facts && facts[ref]
  }

  // ---- `evaluate_handoff_lineage` --------------------------------------------------------

  datatype Evaluation = Evaluation(disposition: string, reason: string)

  type CheckpointHash = Checkpoint -> string

  function Reconcile(reason: string): Evaluation { Evaluation(RECONCILE, reason) }

  function Evaluate(h: Handoff, current: Identity, predecessor: Option<Checkpoint>, fences: Fences,
                    hash: CheckpointHash): Evaluation
  {
    if h.sourceIdentity != current then Reconcile("IDENTITY_DRIFT")
    else if predecessor.Some? && (predecessor.value.status == RECONCILE || predecessor.value.blockedReason != "") then
      Reconcile("PREDECESSOR_RECONCILIATION_REQUIRED")
    else if h.unknownEffectRefs != [] then Reconcile("UNRESOLVED_UNKNOWN_EFFECTS")
    else if predecessor.None? then Reconcile("MISSING_CANONICAL_PREDECESSOR_CHECKPOINT")
    else if !NonBlank(h.fenceRef) then Reconcile("MISSING_OLD_WRITER_FENCE_REFERENCE")
    else if !CanonicalFence(h.fenceRef) then Reconcile("INVALID_FENCE_EVIDENCE_FORMAT")
    else if !Verified(fences, h.fenceRef) then Reconcile("UNVERIFIED_OLD_WRITER_FENCE_REFERENCE")
    else var p := predecessor.value;
      if p.taskId != h.taskId then Reconcile("PREDECESSOR_TASK_ID_MISMATCH")
      else if p.attemptId != h.predecessorId then Reconcile("PREDECESSOR_ATTEMPT_ID_MISMATCH")
      else if p.operationId != h.predecessorOperationId then Reconcile("PREDECESSOR_OPERATION_ID_MISMATCH")
      else if p.identity != h.sourceIdentity then Reconcile("PREDECESSOR_IDENTITY_MISMATCH")
      else if hash(p) != h.predecessorHash then Reconcile("STALE_PREDECESSOR_CHECKPOINT_HASH")
      else if p.revision != h.predecessorRevision then Reconcile("STALE_PREDECESSOR_CHECKPOINT_REVISION")
      else if h.terminalState != p.status then Reconcile("TERMINAL_STATE_MISMATCH")
      else if h.reconcileDisposition != SAFE then
        Evaluation(h.reconcileDisposition, "EXPLICIT_HANDOFF_DISPOSITION_" + h.reconcileDisposition)
      else Evaluation(SAFE, "LINEAGE_BOUND_AND_FENCED")
  }

  // Two predecessors that both let a handoff resume are one and the same checkpoint:
  // a SAFE judgement pins the predecessor's whole content.
  lemma SafePinsPredecessor(h: Handoff, current: Identity, current': Identity,
                            p: Option<Checkpoint>, p': Option<Checkpoint>,
                            fences: Fences, fences': Fences, hash: CheckpointHash)
    requires forall a, b | hash(a) == hash(b) :: a == b
    requires Evaluate(h, current, p, fences, hash).disposition == SAFE
    requires Evaluate(h, current', p', fences', hash).disposition == SAFE
    ensures p == p' && p.Some? && p.value.revision == h.predecessorRevision
    ensures p.value.blockedReason == "" && p.value.status == h.terminalState != RECONCILE
    ensures current == current' == h.sourceIdentity == p.value.identity
  {
    SafeMeans(h, current, p, fences, hash);
    SafeMeans(h, current', p', fences', hash);
  }

  // What a SAFE judgement has established about the predecessor.
  lemma SafeMeans(h: Handoff, current: Identity, p: Option<Checkpoint>, fences: Fences, hash: CheckpointHash)
    ensures Evaluate(h, current, p, fences, hash).disposition == SAFE <==>
      && h.sourceIdentity == current && p.Some?
      && p.value.status != RECONCILE && p.value.blockedReason == "" && h.unknownEffectRefs == []
      && NonBlank(h.fenceRef) && CanonicalFence(h.fenceRef) && Verified(fences, h.fenceRef)
      && p.value.taskId == h.taskId && p.value.attemptId == h.predecessorId
      && p.value.operationId == h.predecessorOperationId && p.value.identity == h.sourceIdentity
      && hash(p.value) == h.predecessorHash && p.value.revision == h.predecessorRevision
      && h.terminalState == p.value.status && h.reconcileDisposition == SAFE
  {
    assert SAFE != RECONCILE;
  }

  // ---- `resume_disposition` ------------------------------------------------------------

  function Resume(c: Checkpoint, current: Identity): Evaluation {
    if c.identity.(targetRevision := "") != current.(targetRevision := "") then Reconcile("IDENTITY_DRIFT")
    else if c.status == COMPLETED then Evaluation(BLOCKED, "ALREADY_COMPLETED")
    else if c.status == FAILED then Evaluation(BLOCKED, "TERMINAL_FAILURE")
    else if c.status == RECONCILE then
      Reconcile(if c.blockedReason != "" then c.blockedReason else "RECONCILIATION_REQUIRED")
    else if c.status == WAITING_APPROVAL then Evaluation(WAIT, "APPROVAL_PENDING")
    else if c.status == WAITING_EXTERNAL then Evaluation(WAIT, "EXTERNAL_CONDITION_PENDING")
    else Evaluation(SAFE, "IDENTITY_BOUND_AND_NON_TERMINAL")
  }
}
