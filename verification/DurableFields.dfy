// The members of the durable JSON objects, and that no two share a name.
module DurableFields {
  datatype Field =
    // Members that identify a record and its place.
    | Schema | ClaimCeiling | TaskId | OperationId | AttemptId | NextGate | CheckpointHash | LineageHash
    // Members of the identity and of a completed effect.
    | Repository | SourceRevision | RuntimeIdentity | TargetRevision | EffectKey | ReceiptRef | EffectHash
    // Members of a checkpoint only.
    | Revision | StatusIs | Phase | IdentityIs | ExternalOperationIds | Leases | EvidenceRefs
    | CompletedEffects | PendingSteps | RetryHistory | BlockedReason
    // Members of a handoff that name its two attempts.
    | PredecessorAttemptId | SuccessorAttemptId | PredecessorOperationId | PredecessorCheckpointHash
    | PredecessorCheckpointRevision | HandoffReason | SourceIdentity | SuccessorBinding
    // Members of a handoff that say what is handed over.
    | TerminalState | FenceEvidenceRef | CompletedEffectRefs | CompletedEffectKeys | UnknownEffectRefs
    | ReconcileDisposition | InheritedEvidenceRefs | FreshnessIdentity | TransitionType

  function SharedName(f: Field): string {
    match f
    case Schema => "schema"
    case ClaimCeiling => "claim_ceiling"
    case TaskId => "task_id"
    case OperationId => "operation_id"
    case AttemptId => "attempt_id"
    case NextGate => "next_gate"
    case CheckpointHash => "checkpoint_hash"
    case LineageHash => "lineage_hash"
    case _ => ""
  }

  function PartName(f: Field): string {
    match f
    case Repository => "repository"
    case SourceRevision => "source_revision"
    case RuntimeIdentity => "runtime_identity"
    case TargetRevision => "target_revision"
    case EffectKey => "effect_key"
    case ReceiptRef => "receipt_ref"
    case EffectHash => "effect_hash"
    case _ => ""
  }

  function ProgressName(f: Field): string {
    match f
    case Revision => "revision"
    case StatusIs => "status"
    case Phase => "phase"
    case IdentityIs => "identity"
    case ExternalOperationIds => "external_operation_ids"
    case Leases => "leases"
    case EvidenceRefs => "evidence_refs"
    case CompletedEffects => "completed_effects"
    case PendingSteps => "pending_steps"
    case RetryHistory => "retry_history"
    case BlockedReason => "blocked_reason"
    case _ => ""
  }

  function PartyName(f: Field): string {
    match f
    case PredecessorAttemptId => "predecessor_attempt_id"
    case SuccessorAttemptId => "successor_attempt_id"
    case PredecessorOperationId => "predecessor_operation_id"
    case PredecessorCheckpointHash => "predecessor_checkpoint_hash"
    case PredecessorCheckpointRevision => "predecessor_checkpoint_revision"
    case HandoffReason => "handoff_reason"
    case SourceIdentity => "source_identity"
    case SuccessorBinding => "successor_binding"
    case _ => ""
  }

  function ClaimName(f: Field): string {
    match f
    case TerminalState => "terminal_state"
    case FenceEvidenceRef => "fence_evidence_ref"
    case CompletedEffectRefs => "completed_effect_refs"
    case CompletedEffectKeys => "completed_effect_keys"
    case UnknownEffectRefs => "unknown_effect_refs"
    case ReconcileDisposition => "reconcile_disposition"
    case InheritedEvidenceRefs => "inherited_evidence_refs"
    case FreshnessIdentity => "freshness_identity"
    case TransitionType => "transition_type"
    case _ => ""
  }

  const SHARED_FIELDS := {Schema, ClaimCeiling, TaskId, OperationId, AttemptId, NextGate, CheckpointHash, LineageHash}
  const PART_FIELDS := {Repository, SourceRevision, RuntimeIdentity, TargetRevision, EffectKey, ReceiptRef, EffectHash}
  const PROGRESS_FIELDS := {Revision, StatusIs, Phase, IdentityIs, ExternalOperationIds, Leases, EvidenceRefs, CompletedEffects, PendingSteps, RetryHistory, BlockedReason}
  const PARTY_FIELDS := {PredecessorAttemptId, SuccessorAttemptId, PredecessorOperationId, PredecessorCheckpointHash, PredecessorCheckpointRevision, HandoffReason, SourceIdentity, SuccessorBinding}

  function Name(f: Field): string {
    if f in SHARED_FIELDS then SharedName(f) else
    if f in PART_FIELDS then PartName(f) else
    if f in PROGRESS_FIELDS then ProgressName(f) else
    if f in PARTY_FIELDS then PartyName(f) else
    ClaimName(f)
  }

  // Reading a name back: by its length, then by a letter that differs.
  function Named(s: string): Field {
    if |s| == 5 then Phase else
    if |s| == 6 then (if s[1] == 'c' then Schema else if s[1] == 't' then StatusIs else Leases) else
    if |s| == 7 then TaskId else
    if |s| == 8 then (if s[0] == 'r' then Revision else IdentityIs) else
    if |s| == 9 then NextGate else
    if |s| == 10 then (if s[0] == 'a' then AttemptId else if s[0] == 'r' then Repository else EffectKey) else
    if |s| == 11 then (if s[0] == 'r' then ReceiptRef else EffectHash) else
    if |s| == 12 then (if s[0] == 'o' then OperationId else LineageHash) else
    if |s| == 13 then (if s[0] == 'e' then EvidenceRefs else if s[0] == 'p' then PendingSteps else if s[0] == 'r' then RetryHistory else ClaimCeiling) else
    if |s| == 14 then (if s[0] == 'b' then BlockedReason else if s[0] == 'h' then HandoffReason else TerminalState) else
    if |s| == 15 then (if s[1] == 'h' then CheckpointHash else if s[1] == 'o' then if s[7] == 'r' then SourceRevision else SourceIdentity else if s[1] == 'a' then TargetRevision else TransitionType) else
    if |s| == 16 then RuntimeIdentity else
    if |s| == 17 then (if s[0] == 'c' then CompletedEffects else SuccessorBinding) else
    if |s| == 18 then (if s[1] == 'e' then FenceEvidenceRef else FreshnessIdentity) else
    if |s| == 19 then UnknownEffectRefs else
    if |s| == 20 then SuccessorAttemptId else
    if |s| == 21 then (if s[17] == 'r' then CompletedEffectRefs else if s[17] == 'k' then CompletedEffectKeys else ReconcileDisposition) else
    if |s| == 22 then (if s[0] == 'e' then ExternalOperationIds else PredecessorAttemptId) else
    if |s| == 23 then InheritedEvidenceRefs else
    if |s| == 24 then PredecessorOperationId else
    if |s| == 27 then PredecessorCheckpointHash else
    PredecessorCheckpointRevision
  }

  lemma SharedNameRead(f: Field)
    requires f in {Schema, ClaimCeiling, TaskId, OperationId, AttemptId, NextGate, CheckpointHash, LineageHash}
    ensures Named(SharedName(f)) == f
  {
  }

  lemma PartNameRead(f: Field)
    requires f in {Repository, SourceRevision, RuntimeIdentity, TargetRevision, EffectKey, ReceiptRef, EffectHash}
    ensures Named(PartName(f)) == f
  {
  }

  lemma ProgressNameRead(f: Field)
    requires f in {Revision, StatusIs, Phase, IdentityIs, ExternalOperationIds, Leases, EvidenceRefs, CompletedEffects, PendingSteps, RetryHistory, BlockedReason}
    ensures Named(ProgressName(f)) == f
  {
  }

  lemma PartyNameRead(f: Field)
    requires f in {PredecessorAttemptId, SuccessorAttemptId, PredecessorOperationId, PredecessorCheckpointHash, PredecessorCheckpointRevision, HandoffReason, SourceIdentity, SuccessorBinding}
    ensures Named(PartyName(f)) == f
  {
  }

  lemma ClaimNameRead(f: Field)
    requires f in {TerminalState, FenceEvidenceRef, CompletedEffectRefs, CompletedEffectKeys, UnknownEffectRefs, ReconcileDisposition, InheritedEvidenceRefs, FreshnessIdentity, TransitionType}
    ensures Named(ClaimName(f)) == f
  {
  }

  // No two members share a name.
  lemma NamedName(f: Field)
    ensures Named(Name(f)) == f
  {
    hide Named, SharedName, PartName, ProgressName, PartyName, ClaimName;
    if f in SHARED_FIELDS { SharedNameRead(f); }
    else if f in PART_FIELDS { PartNameRead(f); }
    else if f in PROGRESS_FIELDS { ProgressNameRead(f); }
    else if f in PARTY_FIELDS { PartyNameRead(f); }
    else { ClaimNameRead(f); }
  }
}
