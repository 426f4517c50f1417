// The durable JSON of handoff records.
module HandoffCodec {
  import opened Text
  import opened JsNumbers
  import opened JsNumberValues
  import opened CanonicalJson
  import opened CanonicalText
  import Checkpoints
  import Handoffs
  import opened DurableFields
  import opened RecordCodec
  import opened PayloadReading
  import opened RecordTheorems

  type Handoff = Handoffs.Handoff

  const HANDOFF_SCHEMA := "nexus.runtime.handoff_lineage.v1"
  const HANDOFF_CEILING := "RUNTIME_HANDOFF_LINEAGE_STATE_ONLY"

  // ---- Writing ---------------------------------------------------------------------

  predicate InLineage(f: Field) {
    match f
    case Schema | ClaimCeiling | TaskId | NextGate => true
    case PredecessorAttemptId | SuccessorAttemptId | PredecessorOperationId | PredecessorCheckpointHash => true
    case PredecessorCheckpointRevision | HandoffReason | SourceIdentity | SuccessorBinding => true
    case TerminalState | FenceEvidenceRef | CompletedEffectRefs | CompletedEffectKeys | UnknownEffectRefs => true
    case ReconcileDisposition | InheritedEvidenceRefs | FreshnessIdentity | TransitionType => true
    case _ => false
  }

  function LineagePart(h: Handoff, f: Field): Value {
    match f
    case Schema => Str(HANDOFF_SCHEMA)
    case ClaimCeiling => Str(HANDOFF_CEILING)
    case TaskId => Str(h.taskId)
    case PredecessorAttemptId => Str(h.predecessorId)
    case SuccessorAttemptId => Str(h.successorId)
    case PredecessorOperationId => Str(h.predecessorOperationId)
    case PredecessorCheckpointHash => Str(h.predecessorHash)
    case PredecessorCheckpointRevision => Num(Int(h.predecessorRevision))
    case HandoffReason => Str(h.reason)
    case SourceIdentity => Obj(Object(IdentityMembers(h.sourceIdentity)))
    case TerminalState => Str(h.terminalState)
    case FenceEvidenceRef => Str(h.fenceRef)
    case CompletedEffectRefs => Texts(h.effectRefs)
    case CompletedEffectKeys => Texts(h.effectKeys)
    case UnknownEffectRefs => Texts(h.unknownEffectRefs)
    case ReconcileDisposition => Str(h.reconcileDisposition)
    case SuccessorBinding => Obj(h.binding)
    case InheritedEvidenceRefs => Texts(h.inheritedEvidence)
    case NextGate => Str(h.nextGate)
    case FreshnessIdentity => Str(h.freshnessIdentity)
    case TransitionType => Str(h.transitionType)
    case _ => Null
  }

  function LineageBody(h: Handoff): map<Field, Value> { map f: Field | InLineage(f) :: LineagePart(h, f) }

  // `lineage_hash`
  function LineageHashOf(h: Handoff, sha: string -> string): string { sha(DumpsText(Obj(Object(LineageBody(h))))) }

  // `to_dict`
  function HandoffToDict(h: Handoff, sha: string -> string): Payload {
    Object(LineageBody(h)[LineageHash := Str(LineageHashOf(h, sha))])
  }

  // ---- Reading -----------------------------------------------------------------------

  function BindingOf(p: Payload): Option<Payload> {
    match Get(p, SuccessorBinding)
    case None => Some(map[])
    case Some(v) => if Falsy(v) then Some(map[]) else if v.Obj? then Some(v.fields) else None
  }

  // What `str` makes of the bound attempt, if that is a list or an object.
  function Bound(py: Python): Handoffs.Show { _ => py.shown(BoundAttempt) }

  predicate Valid(h: Handoff, py: Python) { Handoffs.ValidHandoff(h, Bound(py)) }

  // `HandoffLineage(...)`: validated, with repeats in its lists dropped, or refused.
  function ConstructHandoff(raw: Handoff, py: Python): Option<Handoff> {
    var h := raw.(
      effectRefs := Dedupe(raw.effectRefs), effectKeys := Dedupe(raw.effectKeys),
      unknownEffectRefs := Dedupe(raw.unknownEffectRefs), inheritedEvidence := Dedupe(raw.inheritedEvidence));
    if Valid(h, py) then Some(h) else None
  }

  datatype Parties = Parties(task: string, predecessor: string, successor: string, operation: string, hash: string)

  function PartiesOf(p: Payload): Option<Parties> {
    match (Required(p, TaskId), Required(p, PredecessorAttemptId), Required(p, SuccessorAttemptId),
           Required(p, PredecessorOperationId), Required(p, PredecessorCheckpointHash))
    case (Some(t), Some(a), Some(b), Some(o), Some(h)) => Some(Parties(t, a, b, o, h))
    case _ => None
  }

  datatype Claims = Claims(reason: string, state: string, fence: string)

  function ClaimsOf(p: Payload): Option<Claims> {
    match (Required(p, HandoffReason), Required(p, TerminalState), Required(p, FenceEvidenceRef))
    case (Some(r), Some(s), Some(f)) => Some(Claims(r, s, f))
    case _ => None
  }

  datatype Refs = Refs(effects: seq<string>, keys: seq<string>, unknown: seq<string>, evidence: seq<string>)

  function RefsOf(p: Payload, py: Python): Option<Refs> {
    match (ListOf(p, CompletedEffectRefs, py), ListOf(p, CompletedEffectKeys, py), ListOf(p, UnknownEffectRefs, py),
           ListOf(p, InheritedEvidenceRefs, py))
    case (Some(a), Some(b), Some(c), Some(d)) => Some(Refs(a, b, c, d))
    case _ => None
  }

  function DispositionOf(p: Payload, py: Python): string {
    Coerced(p, ReconcileDisposition, Handoffs.SAFE, py.shown(Top(ReconcileDisposition)))
  }

  // The constructor call of `from_dict`.
  function RawHandoff(p: Payload, py: Python, parties: Parties, revision: int, identity: Checkpoints.Identity, claims: Claims,
                      refs: Refs, binding: Payload): Handoff
  {
    Handoffs.Handoff(
      parties.task, parties.predecessor, parties.successor, parties.operation, parties.hash, revision, claims.reason,
      identity, claims.state, claims.fence, refs.effects, refs.keys, refs.unknown, DispositionOf(p, py), binding,
      refs.evidence, TextAt(p, NextGate, py), TextAt(p, FreshnessIdentity, py), TextAt(p, TransitionType, py))
  }

  function DecodeHandoff(p: Payload, py: Python): Option<Handoff> {
    if Get(p, Schema) != Some(Str(HANDOFF_SCHEMA)) || Get(p, ClaimCeiling) != Some(Str(HANDOFF_CEILING)) then None
    else match (PartiesOf(p), RevisionOf(p, PredecessorCheckpointRevision), IdentityOf(p, SourceIdentity, py))
      case (Some(parties), Some(revision), Some(identity)) =>
        (match (ClaimsOf(p), RefsOf(p, py), BindingOf(p))
         case (Some(claims), Some(refs), Some(binding)) =>
           ConstructHandoff(RawHandoff(p, py, parties, revision, identity, claims, refs, binding), py)
         case _ => None)
      case _ => None
  }

  // `from_dict`
  function HandoffFromDict(p: Payload, py: Python, sha: string -> string): Option<Handoff> {
    match (Get(p, LineageHash), DecodeHandoff(p, py))
    case (Some(Str(stored)), Some(h)) => if NonBlank(stored) && LineageHashOf(h, sha) == stored then Some(h) else None
    case _ => None
  }

  // ---- What a reader can produce ------------------------------------------------------

  lemma PartsTrimmed(p: Payload)
    ensures PartiesOf(p).Some? ==> var q := PartiesOf(p).value;
      Trimmed(q.task) && Trimmed(q.predecessor) && Trimmed(q.successor) && Trimmed(q.operation) && Trimmed(q.hash)
    ensures ClaimsOf(p).Some? ==> var q := ClaimsOf(p).value; Trimmed(q.reason) && Trimmed(q.state) && Trimmed(q.fence)
  {
    hide Get, NonBlank, Trimmed;
  }

  lemma DispositionNamed(p: Payload, py: Python)
    requires Showing(py)
    ensures DispositionOf(p, py) != ""
  {
    hide Get;
    match Get(p, ReconcileDisposition)
    case None =>
    case Some(v) => if !Falsy(v) { TruthyText(v, py.shown(Top(ReconcileDisposition))); }
  }

  lemma TruthyText(v: Value, shown: string)
    requires !Falsy(v) && shown != ""
    ensures PyStr(v, shown) != ""
  {
    match v
    case Num(n) => if JsNumbers.Valid(n) { PySpellDenotes(n); }
    case _ =>
  }

  lemma ConstructedReadsBack(raw: Handoff, py: Python)
    requires ConstructHandoff(raw, py).Some?
    requires Trimmed(raw.taskId) && Trimmed(raw.predecessorId) && Trimmed(raw.successorId)
    requires Trimmed(raw.predecessorOperationId) && Trimmed(raw.predecessorHash) && Trimmed(raw.reason)
    requires Checkpoints.IdentityReadsBack(raw.sourceIdentity) && Trimmed(raw.terminalState) && Trimmed(raw.fenceRef)
    requires raw.reconcileDisposition != ""
    ensures Handoffs.HandoffReadsBack(ConstructHandoff(raw, py).value)
  {
    hide Trimmed, Valid, Dedupe;
  }

  // Whatever a reader accepts is in trimmed form and names a disposition.
  lemma DecodedReadsBack(p: Payload, py: Python)
    requires Showing(py)
    ensures DecodeHandoff(p, py).Some? ==> Handoffs.HandoffReadsBack(DecodeHandoff(p, py).value)
  {
    hide Get, PartiesOf, ClaimsOf, RefsOf, BindingOf, IdentityOf, RevisionOf, TextAt, DispositionOf, ConstructHandoff, Trimmed;
    hide Handoffs.HandoffReadsBack, Checkpoints.IdentityReadsBack;
    PartsTrimmed(p);
    IdentityTrimmed(p, SourceIdentity, py);
    DispositionNamed(p, py);
    if DecodeHandoff(p, py).Some? {
      ConstructedReadsBack(RawHandoff(
        p, py, PartiesOf(p).value, RevisionOf(p, PredecessorCheckpointRevision).value, IdentityOf(p, SourceIdentity, py).value,
        ClaimsOf(p).value, RefsOf(p, py).value, BindingOf(p).value), py);
    }
  }

  // ---- The members of a record ----------------------------------------------------------

  lemma PartyParts(h: Handoff)
    ensures LineagePart(h, TaskId) == Str(h.taskId) && LineagePart(h, PredecessorAttemptId) == Str(h.predecessorId)
    ensures LineagePart(h, SuccessorAttemptId) == Str(h.successorId)
    ensures LineagePart(h, PredecessorOperationId) == Str(h.predecessorOperationId)
    ensures LineagePart(h, PredecessorCheckpointHash) == Str(h.predecessorHash)
  {
    hide Object, IdentityMembers, Texts;
  }

  lemma ClaimParts(h: Handoff)
    ensures LineagePart(h, HandoffReason) == Str(h.reason) && LineagePart(h, TerminalState) == Str(h.terminalState)
    ensures LineagePart(h, FenceEvidenceRef) == Str(h.fenceRef)
  {
    hide Object, IdentityMembers, Texts;
  }

  lemma SourceParts(h: Handoff)
    ensures LineagePart(h, PredecessorCheckpointRevision) == Num(Int(h.predecessorRevision))
    ensures LineagePart(h, SourceIdentity) == Obj(Object(IdentityMembers(h.sourceIdentity)))
  {
    hide Object, IdentityMembers, Texts;
  }

  lemma LineagePlainParts(h: Handoff)
    ensures LineagePart(h, Schema) == Str(HANDOFF_SCHEMA) && LineagePart(h, ClaimCeiling) == Str(HANDOFF_CEILING)
    ensures LineagePart(h, ReconcileDisposition) == Str(h.reconcileDisposition)
  {
    hide Object, IdentityMembers, Texts;
  }

  lemma LaterParts(h: Handoff)
    ensures LineagePart(h, NextGate) == Str(h.nextGate)
    ensures LineagePart(h, FreshnessIdentity) == Str(h.freshnessIdentity) && LineagePart(h, TransitionType) == Str(h.transitionType)
  {
    hide Object, IdentityMembers, Texts;
  }

  lemma RefParts(h: Handoff)
    ensures LineagePart(h, CompletedEffectRefs) == Texts(h.effectRefs) && LineagePart(h, CompletedEffectKeys) == Texts(h.effectKeys)
    ensures LineagePart(h, UnknownEffectRefs) == Texts(h.unknownEffectRefs)
  {
    hide Object, IdentityMembers, Texts;
  }

  lemma InheritedParts(h: Handoff)
    ensures LineagePart(h, InheritedEvidenceRefs) == Texts(h.inheritedEvidence) && LineagePart(h, SuccessorBinding) == Obj(h.binding)
  {
    hide Object, IdentityMembers, Texts;
  }

  // ---- The hash names the record -------------------------------------------------------

  ghost predicate SameLineageParts(a: Handoff, b: Handoff) { forall f | InLineage(f) :: LineagePart(a, f) == LineagePart(b, f) }

  lemma SameParties(a: Handoff, b: Handoff)
    requires SameLineageParts(a, b)
    ensures a.taskId == b.taskId && a.predecessorId == b.predecessorId && a.successorId == b.successorId
    ensures a.predecessorOperationId == b.predecessorOperationId && a.predecessorHash == b.predecessorHash
  {
    hide LineagePart;
    PartyParts(a);
    PartyParts(b);
  }

  lemma SameClaims(a: Handoff, b: Handoff)
    requires SameLineageParts(a, b)
    ensures a.reason == b.reason && a.terminalState == b.terminalState && a.fenceRef == b.fenceRef
    ensures a.predecessorRevision == b.predecessorRevision && a.sourceIdentity == b.sourceIdentity
  {
    hide LineagePart, Object, IdentityMembers;
    ClaimParts(a);
    ClaimParts(b);
    SourceParts(a);
    SourceParts(b);
    IdentityInjective(a.sourceIdentity, b.sourceIdentity);
  }

  lemma SamePlain(a: Handoff, b: Handoff)
    requires SameLineageParts(a, b)
    ensures a.reconcileDisposition == b.reconcileDisposition && a.nextGate == b.nextGate
    ensures a.freshnessIdentity == b.freshnessIdentity && a.transitionType == b.transitionType
  {
    hide LineagePart;
    LineagePlainParts(a);
    LineagePlainParts(b);
    LaterParts(a);
    LaterParts(b);
  }

  lemma SameRefs(a: Handoff, b: Handoff)
    requires SameLineageParts(a, b)
    ensures a.effectRefs == b.effectRefs && a.effectKeys == b.effectKeys && a.unknownEffectRefs == b.unknownEffectRefs
    ensures a.inheritedEvidence == b.inheritedEvidence && a.binding == b.binding
  {
    hide LineagePart, Texts;
    RefParts(a);
    RefParts(b);
    InheritedParts(a);
    InheritedParts(b);
    TextsInjective(a.effectRefs, b.effectRefs);
    TextsInjective(a.effectKeys, b.effectKeys);
    TextsInjective(a.unknownEffectRefs, b.unknownEffectRefs);
    TextsInjective(a.inheritedEvidence, b.inheritedEvidence);
  }

  lemma LineagePartOfBody(h: Handoff, f: Field)
    requires InLineage(f)
    ensures f in LineageBody(h) && LineageBody(h)[f] == LineagePart(h, f)
  {
    hide LineagePart;
  }

  lemma LineageBodyInjective(a: Handoff, b: Handoff)
    requires LineageBody(a) == LineageBody(b)
    ensures a == b
  {
    hide LineageBody, LineagePart;
    forall f | InLineage(f) ensures LineagePart(a, f) == LineagePart(b, f) {
      LineagePartOfBody(a, f);
      LineagePartOfBody(b, f);
    }
    hide SameLineageParts;
    SameParties(a, b);
    SameClaims(a, b);
    SamePlain(a, b);
    SameRefs(a, b);
  }

  // Two handoffs have one hash only if they are the same handoff.
  lemma LineageHashNamesRecord(a: Handoff, b: Handoff, sha: string -> string)
    requires Sound(sha)
    ensures LineageHashOf(a, sha) == LineageHashOf(b, sha) <==> a == b
  {
    hide Object, LineageBody, DumpsText;
    DumpsInjective(Obj(Object(LineageBody(a))), Obj(Object(LineageBody(b))));
    if LineageHashOf(a, sha) == LineageHashOf(b, sha) {
      ObjectInjective(LineageBody(a), LineageBody(b));
      LineageBodyInjective(a, b);
    }
  }

  // ---- What a payload describes ---------------------------------------------------------

  predicate DescribesParties(p: Payload, x: Handoff) {
    && Names(p, TaskId, x.taskId) && Names(p, PredecessorAttemptId, x.predecessorId)
    && Names(p, SuccessorAttemptId, x.successorId) && Names(p, PredecessorOperationId, x.predecessorOperationId)
    && Names(p, PredecessorCheckpointHash, x.predecessorHash)
  }

  predicate DescribesClaims(p: Payload, x: Handoff, py: Python) {
    && Names(p, HandoffReason, x.reason) && Names(p, TerminalState, x.terminalState) && Names(p, FenceEvidenceRef, x.fenceRef)
    && Identifies(p, SourceIdentity, x.sourceIdentity, py) && Numbers(p, PredecessorCheckpointRevision, x.predecessorRevision)
  }

  predicate DescribesPlainly(p: Payload, x: Handoff, py: Python) {
    && Get(p, Schema) == Some(Str(HANDOFF_SCHEMA)) && Get(p, ClaimCeiling) == Some(Str(HANDOFF_CEILING))
    && Spells(p, ReconcileDisposition, x.reconcileDisposition, Handoffs.SAFE, py.shown(Top(ReconcileDisposition)))
    && Reads(p, NextGate, x.nextGate, py) && Reads(p, FreshnessIdentity, x.freshnessIdentity, py)
    && Reads(p, TransitionType, x.transitionType, py)
  }

  ghost predicate DescribesRefs(p: Payload, x: Handoff, py: Python) {
    && Enumerates(p, CompletedEffectRefs, x.effectRefs, py) && Enumerates(p, CompletedEffectKeys, x.effectKeys, py)
    && Enumerates(p, UnknownEffectRefs, x.unknownEffectRefs, py) && Enumerates(p, InheritedEvidenceRefs, x.inheritedEvidence, py)
  }

  predicate Binds(p: Payload, binding: Payload) {
    match Get(p, SuccessorBinding)
    case None => binding == map[]
    case Some(Obj(q)) => q == binding
    case Some(v) => Falsy(v) && binding == map[]
  }

  // The payload says of every member what `x` says: its named texts up to blanks around
  // them, its lists up to repeats, its other members as they are or as something Python
  // takes for them. Members of other names say nothing.
  ghost predicate DescribesHandoff(p: Payload, x: Handoff, py: Python) {
    DescribesParties(p, x) && DescribesClaims(p, x, py) && DescribesPlainly(p, x, py) && DescribesRefs(p, x, py) && Binds(p, x.binding)
  }

  ghost predicate Survives(s: string) { NonBlank(s) && Trimmed(s) }

  lemma NamedTexts(h: Handoff, py: Python)
    requires Valid(h, py) && Handoffs.HandoffReadsBack(h)
    ensures Survives(h.taskId) && Survives(h.predecessorId) && Survives(h.successorId)
    ensures Survives(h.predecessorOperationId) && Survives(h.predecessorHash)
    ensures Survives(h.reason) && Survives(h.terminalState) && Survives(h.fenceRef)
    ensures h.sourceIdentity.Valid() && Checkpoints.IdentityReadsBack(h.sourceIdentity) && h.reconcileDisposition != ""
  {
    hide NonBlank, Trimmed, Distinct, Handoffs.BindingNames;
  }

  lemma PartiesIff(p: Payload, h: Handoff)
    requires Survives(h.taskId) && Survives(h.predecessorId) && Survives(h.successorId)
    requires Survives(h.predecessorOperationId) && Survives(h.predecessorHash)
    ensures PartiesOf(p) == Some(Parties(h.taskId, h.predecessorId, h.successorId, h.predecessorOperationId, h.predecessorHash))
      <==> DescribesParties(p, h)
  {
    hide Get, Required, NonBlank, Trimmed, Names;
    NamesIff(p, TaskId, h.taskId);
    NamesIff(p, PredecessorAttemptId, h.predecessorId);
    NamesIff(p, SuccessorAttemptId, h.successorId);
    NamesIff(p, PredecessorOperationId, h.predecessorOperationId);
    NamesIff(p, PredecessorCheckpointHash, h.predecessorHash);
  }

  ghost predicate ReadClaims(p: Payload, h: Handoff, py: Python) {
    && ClaimsOf(p) == Some(Claims(h.reason, h.terminalState, h.fenceRef))
    && IdentityOf(p, SourceIdentity, py) == Some(h.sourceIdentity)
    && RevisionOf(p, PredecessorCheckpointRevision) == Some(h.predecessorRevision)
  }

  lemma ClaimsIff(p: Payload, h: Handoff, py: Python)
    requires Survives(h.reason) && Survives(h.terminalState) && Survives(h.fenceRef)
    requires h.sourceIdentity.Valid() && Checkpoints.IdentityReadsBack(h.sourceIdentity)
    ensures ReadClaims(p, h, py) <==> DescribesClaims(p, h, py)
  {
    hide Get, Required, NonBlank, Trimmed, Names, Identifies, IdentityOf, Numbers, RevisionOf, Checkpoints.IdentityReadsBack;
    NamesIff(p, HandoffReason, h.reason);
    NamesIff(p, TerminalState, h.terminalState);
    NamesIff(p, FenceEvidenceRef, h.fenceRef);
    IdentifiesIff(p, SourceIdentity, h.sourceIdentity, py);
    NumbersIff(p, PredecessorCheckpointRevision, h.predecessorRevision);
  }

  predicate ReadPlainly(p: Payload, h: Handoff, py: Python) {
    && Get(p, Schema) == Some(Str(HANDOFF_SCHEMA)) && Get(p, ClaimCeiling) == Some(Str(HANDOFF_CEILING))
    && DispositionOf(p, py) == h.reconcileDisposition && TextAt(p, NextGate, py) == h.nextGate
    && TextAt(p, FreshnessIdentity, py) == h.freshnessIdentity && TextAt(p, TransitionType, py) == h.transitionType
  }

  lemma PlainlyIff(p: Payload, h: Handoff, py: Python)
    requires h.reconcileDisposition != ""
    ensures ReadPlainly(p, h, py) <==> DescribesPlainly(p, h, py)
  {
    hide Get, Coerced, Spells, TextAt, Reads;
    SpellsIff(p, ReconcileDisposition, h.reconcileDisposition, Handoffs.SAFE, py.shown(Top(ReconcileDisposition)));
    ReadsIff(p, NextGate, h.nextGate, py);
    ReadsIff(p, FreshnessIdentity, h.freshnessIdentity, py);
    ReadsIff(p, TransitionType, h.transitionType, py);
  }

  ghost predicate ReadRefs(p: Payload, h: Handoff, py: Python) {
    RefsOf(p, py).Some? && var r := RefsOf(p, py).value;
      && Dedupe(r.effects) == h.effectRefs && Dedupe(r.keys) == h.effectKeys
      && Dedupe(r.unknown) == h.unknownEffectRefs && Dedupe(r.evidence) == h.inheritedEvidence
  }

  lemma RefsIff(p: Payload, h: Handoff, py: Python)
    ensures ReadRefs(p, h, py) <==> DescribesRefs(p, h, py)
  {
    hide Get, ListOf, Dedupe, Enumerates;
    EnumeratesIff(p, CompletedEffectRefs, h.effectRefs, py);
    EnumeratesIff(p, CompletedEffectKeys, h.effectKeys, py);
    EnumeratesIff(p, UnknownEffectRefs, h.unknownEffectRefs, py);
    EnumeratesIff(p, InheritedEvidenceRefs, h.inheritedEvidence, py);
  }

  lemma BindsIff(p: Payload, binding: Payload)
    ensures BindingOf(p) == Some(binding) <==> Binds(p, binding)
  {
    hide Get;
  }

  ghost predicate ReadHandoff(p: Payload, x: Handoff, py: Python) {
    && PartiesOf(p) == Some(Parties(x.taskId, x.predecessorId, x.successorId, x.predecessorOperationId, x.predecessorHash))
    && ReadClaims(p, x, py) && ReadPlainly(p, x, py) && ReadRefs(p, x, py) && BindingOf(p) == Some(x.binding)
  }

  lemma DecodeIffRead(p: Payload, x: Handoff, py: Python)
    ensures DecodeHandoff(p, py) == Some(x) <==> Valid(x, py) && ReadHandoff(p, x, py)
  {
    hide Get, TextAt, DispositionOf, PartiesOf, ClaimsOf, RefsOf, BindingOf, IdentityOf, RevisionOf, Valid, Dedupe;
  }

  // A payload is decoded as `x` exactly when `x` is a handoff that reads back and the
  // payload describes it.
  lemma DecodeIffDescribes(p: Payload, x: Handoff, py: Python)
    requires Showing(py)
    ensures DecodeHandoff(p, py) == Some(x) <==> Valid(x, py) && Handoffs.HandoffReadsBack(x) && DescribesHandoff(p, x, py)
  {
    hide Get, DecodeHandoff, Valid, Handoffs.HandoffReadsBack, PartiesOf, ReadClaims, ReadPlainly, ReadRefs;
    hide BindingOf, DescribesParties, DescribesClaims, DescribesPlainly, DescribesRefs, Binds, Survives;
    hide Checkpoints.IdentityReadsBack;
    DecodedReadsBack(p, py);
    DecodeIffRead(p, x, py);
    if Valid(x, py) && Handoffs.HandoffReadsBack(x) {
      NamedTexts(x, py);
      PartiesIff(p, x);
      ClaimsIff(p, x, py);
      PlainlyIff(p, x, py);
      RefsIff(p, x, py);
      BindsIff(p, x.binding);
    }
  }

  // ---- What was written describes what it was written from --------------------------------

  ghost predicate SaysLineage(p: Payload, h: Handoff) { forall f | InLineage(f) :: Get(p, f) == Some(LineagePart(h, f)) }

  lemma WrittenSaysLineage(h: Handoff, sha: string -> string)
    ensures var p := HandoffToDict(h, sha);
      SaysLineage(p, h) && Get(p, LineageHash) == Some(Str(LineageHashOf(h, sha)))
  {
    hide Object, LineageHashOf, Get, LineagePart;
  }

  lemma PartiesSaid(p: Payload, h: Handoff)
    requires SaysLineage(p, h)
    ensures DescribesParties(p, h)
  {
    hide Get, LineagePart, Padded;
    PartyParts(h);
    PaddedItself(h.taskId);
    PaddedItself(h.predecessorId);
    PaddedItself(h.successorId);
    PaddedItself(h.predecessorOperationId);
    PaddedItself(h.predecessorHash);
  }

  lemma ClaimsSaid(p: Payload, h: Handoff, py: Python)
    requires SaysLineage(p, h)
    ensures DescribesClaims(p, h, py)
  {
    hide Get, LineagePart, Padded, Identifies, Object, IdentityMembers;
    ClaimParts(h);
    SourceParts(h);
    PaddedItself(h.reason);
    PaddedItself(h.terminalState);
    PaddedItself(h.fenceRef);
    IdentityNamed(p, SourceIdentity, h.sourceIdentity, py);
  }

  lemma PlainlySaid(p: Payload, h: Handoff, py: Python)
    requires SaysLineage(p, h)
    ensures DescribesPlainly(p, h, py)
  {
    hide Get, LineagePart;
    LineagePlainParts(h);
    LaterParts(h);
  }

  lemma RefsSaid(p: Payload, h: Handoff, py: Python)
    requires SaysLineage(p, h) && Distinct(h.effectRefs) && Distinct(h.effectKeys)
    requires Distinct(h.unknownEffectRefs) && Distinct(h.inheritedEvidence)
    ensures DescribesRefs(p, h, py) && Binds(p, h.binding)
  {
    hide Get, LineagePart, Texts, Repeats, Distinct;
    RefParts(h);
    InheritedParts(h);
    TextsRepeat(h.effectRefs);
    TextsRepeat(h.effectKeys);
    TextsRepeat(h.unknownEffectRefs);
    TextsRepeat(h.inheritedEvidence);
  }

  lemma SaysDescribesHandoff(p: Payload, h: Handoff, py: Python)
    requires SaysLineage(p, h) && Valid(h, py)
    ensures DescribesHandoff(p, h, py)
  {
    hide Get, SaysLineage, DescribesParties, DescribesClaims, DescribesPlainly, DescribesRefs, Binds;
    PartiesSaid(p, h);
    ClaimsSaid(p, h, py);
    PlainlySaid(p, h, py);
    RefsSaid(p, h, py);
  }

  // ---- Main results ---------------------------------------------------------------------

  lemma LineageHashNotBlank(h: Handoff, sha: string -> string)
    requires Sound(sha)
    ensures NonBlank(LineageHashOf(h, sha))
  {
    hide NonBlank;
  }

  // A payload that carries the hash of `x` is read as `x` or refused, whatever else it says;
  // it is read as `x` exactly when it still describes `x`, and `x` is a handoff that any
  // reader would accept.
  lemma TamperedHandoffIsRefused(p: Payload, x: Handoff, py: Python, sha: string -> string)
    requires Showing(py) && Sound(sha) && Get(p, LineageHash) == Some(Str(LineageHashOf(x, sha)))
    ensures HandoffFromDict(p, py, sha) ==
      if Valid(x, py) && Handoffs.HandoffReadsBack(x) && DescribesHandoff(p, x, py) then Some(x) else None
  {
    hide Get, LineageHashOf, DecodeHandoff, NonBlank, Valid, Handoffs.HandoffReadsBack, DescribesHandoff;
    DecodeIffDescribes(p, x, py);
    if DecodeHandoff(p, py).Some? { LineageHashNamesRecord(DecodeHandoff(p, py).value, x, sha); }
    LineageHashNotBlank(x, sha);
  }

  // A written handoff is read back equal exactly when its texts are trimmed and it names
  // a disposition; otherwise it is refused, never read as another record.
  lemma HandoffReadBackEqualOrRefused(h: Handoff, py: Python, sha: string -> string)
    requires Showing(py) && Sound(sha) && Valid(h, py)
    ensures HandoffFromDict(HandoffToDict(h, sha), py, sha) == if Handoffs.HandoffReadsBack(h) then Some(h) else None
  {
    hide Get, HandoffToDict, LineageHashOf, HandoffFromDict, DescribesHandoff, Valid, Handoffs.HandoffReadsBack, SaysLineage;
    WrittenSaysLineage(h, sha);
    SaysDescribesHandoff(HandoffToDict(h, sha), h, py);
    TamperedHandoffIsRefused(HandoffToDict(h, sha), h, py, sha);
  }
}
