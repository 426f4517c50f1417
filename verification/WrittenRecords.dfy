// The two durable records as they are written, member by member.
module WrittenRecords {
  import opened Text
  import opened JsNumbers
  import opened CanonicalJson
  import opened CanonicalText
  import Checkpoints
  import Handoffs
  import opened DurableFields
  import opened RecordCodec
  import HandoffCodec

  type Entry = (string, Value)

  // An object of exactly these members.
  ghost predicate Holds(p: Payload, es: seq<Entry>) {
    && (forall i | 0 <= i < |es| :: es[i].0 in p && p[es[i].0] == es[i].1)
    && forall k | k in p :: exists i | 0 <= i < |es| :: es[i].0 == k
  }

  ghost predicate IsObject(v: Value, es: seq<Entry>) { v.Obj? && Holds(v.fields, es) }

  // ---- Objects made of fields ------------------------------------------------------------

  // The entries name these fields, in this order.
  ghost predicate Spell(fs: seq<Field>, es: seq<Entry>, m: map<Field, Value>) {
    && |fs| == |es|
    && (forall i | 0 <= i < |fs| :: fs[i] in m && es[i] == (Name(fs[i]), m[fs[i]]))
    && forall f | f in m :: f in fs
  }

  lemma ObjectHolds(fs: seq<Field>, es: seq<Entry>, m: map<Field, Value>)
    requires Spell(fs, es, m)
    ensures Holds(Object(m), es)
  {
    hide Name;
    var p := Object(m);
    forall i | 0 <= i < |es| ensures es[i].0 in p && p[es[i].0] == es[i].1 {
      assert Get(p, fs[i]) == Member(m, fs[i]);
    }
    forall k | k in p ensures exists i | 0 <= i < |es| :: es[i].0 == k {
      var f :| f in m && Name(f) == k;
      var i :| 0 <= i < |fs| && fs[i] == f;
      assert es[i].0 == k;
    }
  }

  // Which of the five groups of fields one is in.
  function Group(f: Field): nat {
    match f
    case Schema | ClaimCeiling | TaskId | OperationId | AttemptId | NextGate | CheckpointHash | LineageHash => 0
    case Repository | SourceRevision | RuntimeIdentity | TargetRevision | EffectKey | ReceiptRef | EffectHash => 1
    case Revision | StatusIs | Phase | IdentityIs | ExternalOperationIds | Leases | EvidenceRefs | CompletedEffects | PendingSteps | RetryHistory | BlockedReason => 2
    case PredecessorAttemptId | SuccessorAttemptId | PredecessorOperationId | PredecessorCheckpointHash | PredecessorCheckpointRevision | HandoffReason | SourceIdentity | SuccessorBinding => 3
    case _ => 4
  }

  lemma InShared(f: Field)
    ensures f in SHARED_FIELDS <==> Group(f) == 0
  {
  }

  lemma InPart(f: Field)
    ensures f in PART_FIELDS <==> Group(f) == 1
  {
  }

  lemma InProgress(f: Field)
    ensures f in PROGRESS_FIELDS <==> Group(f) == 2
  {
  }

  lemma InParty(f: Field)
    ensures f in PARTY_FIELDS <==> Group(f) == 3
  {
  }

  lemma NameIs(f: Field)
    ensures Group(f) == 0 ==> Name(f) == SharedName(f)
    ensures Group(f) == 1 ==> Name(f) == PartName(f)
    ensures Group(f) == 2 ==> Name(f) == ProgressName(f)
    ensures Group(f) == 3 ==> Name(f) == PartyName(f)
    ensures Group(f) > 3 ==> Name(f) == ClaimName(f)
  {
    hide Group, SharedName, PartName, ProgressName, PartyName, ClaimName, SHARED_FIELDS, PART_FIELDS, PROGRESS_FIELDS, PARTY_FIELDS;
    InShared(f);
    InPart(f);
    InProgress(f);
    InParty(f);
  }

  lemma SharedNamed(f: Field)
    requires Group(f) == 0
    ensures Name(f) == SharedName(f)
  {
    hide Name, SharedName, PartName, ProgressName, PartyName, ClaimName, Group;
    NameIs(f);
  }

  lemma PartNamed(f: Field)
    requires Group(f) == 1
    ensures Name(f) == PartName(f)
  {
    hide Name, SharedName, PartName, ProgressName, PartyName, ClaimName, Group;
    NameIs(f);
  }

  lemma ProgressNamed(f: Field)
    requires Group(f) == 2
    ensures Name(f) == ProgressName(f)
  {
    hide Name, SharedName, PartName, ProgressName, PartyName, ClaimName, Group;
    NameIs(f);
  }

  lemma PartyNamed(f: Field)
    requires Group(f) == 3
    ensures Name(f) == PartyName(f)
  {
    hide Name, SharedName, PartName, ProgressName, PartyName, ClaimName, Group;
    NameIs(f);
  }

  lemma ClaimNamed(f: Field)
    requires Group(f) > 3
    ensures Name(f) == ClaimName(f)
  {
    hide Name, SharedName, PartName, ProgressName, PartyName, ClaimName, Group;
    NameIs(f);
  }

  lemma IdentityNames()
    ensures Name(Repository) == "repository"
    ensures Name(SourceRevision) == "source_revision"
    ensures Name(RuntimeIdentity) == "runtime_identity"
    ensures Name(TargetRevision) == "target_revision"
  {
    hide Name;
    PartNamed(Repository);
    PartNamed(SourceRevision);
    PartNamed(RuntimeIdentity);
    PartNamed(TargetRevision);
  }

  lemma EffectNames()
    ensures Name(EffectKey) == "effect_key"
    ensures Name(ReceiptRef) == "receipt_ref"
    ensures Name(EffectHash) == "effect_hash"
  {
    hide Name;
    PartNamed(EffectKey);
    PartNamed(ReceiptRef);
    PartNamed(EffectHash);
  }

  lemma HashNames()
    ensures Name(CheckpointHash) == "checkpoint_hash"
    ensures Name(LineageHash) == "lineage_hash"
  {
    hide Name;
    SharedNamed(CheckpointHash);
    SharedNamed(LineageHash);
  }

  // ---- The parts both records are made of ----------------------------------------------------

  function IdentityEntries(i: Checkpoints.Identity): seq<Entry> {
    [("repository", Str(i.repository)), ("source_revision", Str(i.sourceRevision)),
     ("runtime_identity", Str(i.runtimeIdentity)), ("target_revision", Str(i.targetRevision))]
  }

  function EffectEntries(e: Checkpoints.Effect): seq<Entry> {
    [("effect_key", Str(e.key)), ("receipt_ref", Str(e.receiptRef)), ("effect_hash", Str(e.effectHash))]
  }

  ghost predicate AreEffects(v: Value, es: seq<Checkpoints.Effect>) {
    v.Arr? && |v.items| == |es| && forall i | 0 <= i < |es| :: IsObject(v.items[i], EffectEntries(es[i]))
  }

  // A list of these texts, and an object of these.
  predicate AreTexts(v: Value, xs: seq<string>) {
    v.Arr? && |v.items| == |xs| && forall i | 0 <= i < |xs| :: v.items[i] == Str(xs[i])
  }

  ghost predicate AreNamed(v: Value, m: map<string, string>) {
    v.Obj? && v.fields.Keys == m.Keys && forall k | k in m :: v.fields[k] == Str(m[k])
  }

  lemma IdentityWritten(i: Checkpoints.Identity)
    ensures IsObject(Obj(Object(IdentityMembers(i))), IdentityEntries(i))
  {
    hide Name, Object, Holds;
    IdentityNames();
    var (fs, es, m) := ([Repository, SourceRevision, RuntimeIdentity, TargetRevision], IdentityEntries(i), IdentityMembers(i));
    assert fs[0] == Repository && fs[1] == SourceRevision && fs[2] == RuntimeIdentity && fs[3] == TargetRevision;
    ObjectHolds(fs, es, m);
  }

  lemma EffectWritten(e: Checkpoints.Effect)
    ensures IsObject(Obj(Object(EffectMembers(e))), EffectEntries(e))
  {
    hide Name, Object, Holds;
    EffectNames();
    var (fs, es, m) := ([EffectKey, ReceiptRef, EffectHash], EffectEntries(e), EffectMembers(e));
    assert fs[0] == EffectKey && fs[1] == ReceiptRef && fs[2] == EffectHash;
    ObjectHolds(fs, es, m);
  }

  lemma EffectsWritten(es: seq<Checkpoints.Effect>)
    ensures AreEffects(EffectList(es), es)
  {
    hide Object, EffectMembers, IsObject, EffectEntries;
    forall i | 0 <= i < |es| ensures IsObject(EffectList(es).items[i], EffectEntries(es[i])) { EffectWritten(es[i]); }
  }

  lemma TextsWritten(xs: seq<string>)
    ensures AreTexts(Texts(xs), xs)
  {
  }

  lemma NamedWritten(m: map<string, string>)
    ensures AreNamed(Obj(External(m)), m)
  {
  }

  // ---- Checkpoints -----------------------------------------------------------------------------

  // The values of the members that are lists or objects.
  datatype Nested = Nested(identity: Value, external: Value, leases: Value, evidence: Value, effects: Value, pending: Value, retries: Value)

  ghost predicate Nests(n: Nested, c: Checkpoint) {
    && IsObject(n.identity, IdentityEntries(c.identity)) && AreNamed(n.external, c.external) && AreTexts(n.leases, c.leases)
    && AreTexts(n.evidence, c.evidenceRefs) && AreEffects(n.effects, c.completedEffects)
    && AreTexts(n.pending, c.pendingSteps) && AreTexts(n.retries, c.retryHistory)
  }

  function PlaceEntries(c: Checkpoint, n: Nested): (es: seq<Entry>)
    ensures |es| == 4
  {
    [("schema", Str("nexus.runtime.workflow_checkpoint.v1")),
     ("task_id", Str(c.taskId)),
     ("operation_id", Str(c.operationId)),
     ("attempt_id", Str(c.attemptId))]
  }

  function StageEntries(c: Checkpoint, n: Nested): (es: seq<Entry>)
    ensures |es| == 4
  {
    [("revision", Num(Int(c.revision))),
     ("status", Str(c.status)),
     ("phase", Str(c.phase)),
     ("next_gate", Str(c.nextGate))]
  }

  function OutsideEntries(c: Checkpoint, n: Nested): (es: seq<Entry>)
    ensures |es| == 3
  {
    [("identity", n.identity),
     ("external_operation_ids", n.external),
     ("leases", n.leases)]
  }

  function DoneEntries(c: Checkpoint, n: Nested): (es: seq<Entry>)
    ensures |es| == 3
  {
    [("evidence_refs", n.evidence),
     ("completed_effects", n.effects),
     ("pending_steps", n.pending)]
  }

  function RestEntries(c: Checkpoint, n: Nested): (es: seq<Entry>)
    ensures |es| == 3
  {
    [("retry_history", n.retries),
     ("blocked_reason", Str(c.blockedReason)),
     ("claim_ceiling", Str(c.claimCeiling))]
  }

  function RecordEntries(c: Checkpoint, n: Nested): seq<Entry> {
    PlaceEntries(c, n) + StageEntries(c, n) + OutsideEntries(c, n) + DoneEntries(c, n) + RestEntries(c, n)
  }

  // The fields of a checkpoint, in the order of its members.
  function RecordField(i: nat): Field {
    match i
    case 0 => Schema
    case 1 => TaskId
    case 2 => OperationId
    case 3 => AttemptId
    case 4 => Revision
    case 5 => StatusIs
    case 6 => Phase
    case 7 => NextGate
    case 8 => IdentityIs
    case 9 => ExternalOperationIds
    case 10 => Leases
    case 11 => EvidenceRefs
    case 12 => CompletedEffects
    case 13 => PendingSteps
    case 14 => RetryHistory
    case 15 => BlockedReason
    case _ => ClaimCeiling
  }

  function RecordPlace(f: Field): nat {
    match f
    case Schema => 0
    case TaskId => 1
    case OperationId => 2
    case AttemptId => 3
    case Revision => 4
    case StatusIs => 5
    case Phase => 6
    case NextGate => 7
    case IdentityIs => 8
    case ExternalOperationIds => 9
    case Leases => 10
    case EvidenceRefs => 11
    case CompletedEffects => 12
    case PendingSteps => 13
    case RetryHistory => 14
    case BlockedReason => 15
    case ClaimCeiling => 16
    case _ => 17
  }

  function RecordFields(): seq<Field> { seq(17, i requires 0 <= i < 17 => RecordField(i)) }

  function NestedOf(c: Checkpoint): Nested {
    Nested(Part(c, IdentityIs), Part(c, ExternalOperationIds), Part(c, Leases), Part(c, EvidenceRefs), Part(c, CompletedEffects),
           Part(c, PendingSteps), Part(c, RetryHistory))
  }

  lemma NestedWritten(c: Checkpoint)
    ensures Nests(NestedOf(c), c)
  {
    hide Object, IdentityMembers, EffectList, Texts, External, IsObject, AreEffects, AreTexts, AreNamed, IdentityEntries;
    IdentityWritten(c.identity);
    NamedWritten(c.external);
    EffectsWritten(c.completedEffects);
    TextsWritten(c.leases);
    TextsWritten(c.evidenceRefs);
    TextsWritten(c.pendingSteps);
    TextsWritten(c.retryHistory);
  }

  lemma RecordPlaced(f: Field)
    ensures Hashed(f) ==> RecordPlace(f) < 17 && RecordField(RecordPlace(f)) == f
  {
  }

  lemma RecordListed(f: Field)
    ensures Hashed(f) ==> f in RecordFields()
  {
    hide RecordField, RecordPlace;
    RecordPlaced(f);
    if Hashed(f) { assert RecordFields()[RecordPlace(f)] == f; }
  }

  lemma PlaceNames()
    ensures Name(Schema) == "schema"
    ensures Name(TaskId) == "task_id"
    ensures Name(OperationId) == "operation_id"
    ensures Name(AttemptId) == "attempt_id"
  {
    hide Name;
    SharedNamed(Schema);
    SharedNamed(TaskId);
    SharedNamed(OperationId);
    SharedNamed(AttemptId);
  }

  lemma PlaceFields()
    ensures RecordField(0) == Schema && Hashed(Schema)
    ensures RecordField(1) == TaskId && Hashed(TaskId)
    ensures RecordField(2) == OperationId && Hashed(OperationId)
    ensures RecordField(3) == AttemptId && Hashed(AttemptId)
  {
  }

  lemma PlaceValues(c: Checkpoint)
    ensures Part(c, Schema) == Str("nexus.runtime.workflow_checkpoint.v1")
    ensures Part(c, TaskId) == Str(c.taskId)
    ensures Part(c, OperationId) == Str(c.operationId)
    ensures Part(c, AttemptId) == Str(c.attemptId)
  {
    hide Object, IdentityMembers, EffectList, Texts, External;
  }

  lemma PlaceSpelled(c: Checkpoint, i: nat)
    requires i < 4
    ensures Hashed(RecordField(i))
    ensures PlaceEntries(c, NestedOf(c))[i] == (Name(RecordField(i)), Part(c, RecordField(i)))
  {
    hide Name, RecordField, Hashed, Part, NestedOf;
    PlaceNames();
    PlaceFields();
    PlaceValues(c);
  }

  lemma StageNames()
    ensures Name(Revision) == "revision"
    ensures Name(StatusIs) == "status"
    ensures Name(Phase) == "phase"
    ensures Name(NextGate) == "next_gate"
  {
    hide Name;
    ProgressNamed(Revision);
    ProgressNamed(StatusIs);
    ProgressNamed(Phase);
    SharedNamed(NextGate);
  }

  lemma StageFields()
    ensures RecordField(4) == Revision && Hashed(Revision)
    ensures RecordField(5) == StatusIs && Hashed(StatusIs)
    ensures RecordField(6) == Phase && Hashed(Phase)
    ensures RecordField(7) == NextGate && Hashed(NextGate)
  {
  }

  lemma StageValues(c: Checkpoint)
    ensures Part(c, Revision) == Num(Int(c.revision))
    ensures Part(c, StatusIs) == Str(c.status)
    ensures Part(c, Phase) == Str(c.phase)
    ensures Part(c, NextGate) == Str(c.nextGate)
  {
    hide Object, IdentityMembers, EffectList, Texts, External;
  }

  lemma StageSpelled(c: Checkpoint, i: nat)
    requires i < 4
    ensures Hashed(RecordField(i + 4))
    ensures StageEntries(c, NestedOf(c))[i] == (Name(RecordField(i + 4)), Part(c, RecordField(i + 4)))
  {
    hide Name, RecordField, Hashed, Part, NestedOf;
    StageNames();
    StageFields();
    StageValues(c);
  }

  lemma OutsideNames()
    ensures Name(IdentityIs) == "identity"
    ensures Name(ExternalOperationIds) == "external_operation_ids"
    ensures Name(Leases) == "leases"
  {
    hide Name;
    ProgressNamed(IdentityIs);
    ProgressNamed(ExternalOperationIds);
    ProgressNamed(Leases);
  }

  lemma OutsideFields()
    ensures RecordField(8) == IdentityIs && Hashed(IdentityIs)
    ensures RecordField(9) == ExternalOperationIds && Hashed(ExternalOperationIds)
    ensures RecordField(10) == Leases && Hashed(Leases)
  {
  }

  lemma OutsideValues(c: Checkpoint)
    ensures Part(c, IdentityIs) == NestedOf(c).identity
    ensures Part(c, ExternalOperationIds) == NestedOf(c).external
    ensures Part(c, Leases) == NestedOf(c).leases
  {
    hide Object, IdentityMembers, EffectList, Texts, External;
  }

  lemma OutsideSpelled(c: Checkpoint, i: nat)
    requires i < 3
    ensures Hashed(RecordField(i + 8))
    ensures OutsideEntries(c, NestedOf(c))[i] == (Name(RecordField(i + 8)), Part(c, RecordField(i + 8)))
  {
    hide Name, RecordField, Hashed, Part, NestedOf;
    OutsideNames();
    OutsideFields();
    OutsideValues(c);
  }

  lemma DoneNames()
    ensures Name(EvidenceRefs) == "evidence_refs"
    ensures Name(CompletedEffects) == "completed_effects"
    ensures Name(PendingSteps) == "pending_steps"
  {
    hide Name;
    ProgressNamed(EvidenceRefs);
    ProgressNamed(CompletedEffects);
    ProgressNamed(PendingSteps);
  }

  lemma DoneFields()
    ensures RecordField(11) == EvidenceRefs && Hashed(EvidenceRefs)
    ensures RecordField(12) == CompletedEffects && Hashed(CompletedEffects)
    ensures RecordField(13) == PendingSteps && Hashed(PendingSteps)
  {
  }

  lemma DoneValues(c: Checkpoint)
    ensures Part(c, EvidenceRefs) == NestedOf(c).evidence
    ensures Part(c, CompletedEffects) == NestedOf(c).effects
    ensures Part(c, PendingSteps) == NestedOf(c).pending
  {
    hide Object, IdentityMembers, EffectList, Texts, External;
  }

  lemma DoneSpelled(c: Checkpoint, i: nat)
    requires i < 3
    ensures Hashed(RecordField(i + 11))
    ensures DoneEntries(c, NestedOf(c))[i] == (Name(RecordField(i + 11)), Part(c, RecordField(i + 11)))
  {
    hide Name, RecordField, Hashed, Part, NestedOf;
    DoneNames();
    DoneFields();
    DoneValues(c);
  }

  lemma RestNames()
    ensures Name(RetryHistory) == "retry_history"
    ensures Name(BlockedReason) == "blocked_reason"
    ensures Name(ClaimCeiling) == "claim_ceiling"
  {
    hide Name;
    ProgressNamed(RetryHistory);
    ProgressNamed(BlockedReason);
    SharedNamed(ClaimCeiling);
  }

  lemma RestFields()
    ensures RecordField(14) == RetryHistory && Hashed(RetryHistory)
    ensures RecordField(15) == BlockedReason && Hashed(BlockedReason)
    ensures RecordField(16) == ClaimCeiling && Hashed(ClaimCeiling)
  {
  }

  lemma RestValues(c: Checkpoint)
    ensures Part(c, RetryHistory) == NestedOf(c).retries
    ensures Part(c, BlockedReason) == Str(c.blockedReason)
    ensures Part(c, ClaimCeiling) == Str(c.claimCeiling)
  {
    hide Object, IdentityMembers, EffectList, Texts, External;
  }

  lemma RestSpelled(c: Checkpoint, i: nat)
    requires i < 3
    ensures Hashed(RecordField(i + 14))
    ensures RestEntries(c, NestedOf(c))[i] == (Name(RecordField(i + 14)), Part(c, RecordField(i + 14)))
  {
    hide Name, RecordField, Hashed, Part, NestedOf;
    RestNames();
    RestFields();
    RestValues(c);
  }

  lemma RecordSpelled(c: Checkpoint, i: nat)
    requires i < 17
    ensures |RecordEntries(c, NestedOf(c))| == 17 && Hashed(RecordField(i))
    ensures RecordEntries(c, NestedOf(c))[i] == (Name(RecordField(i)), Part(c, RecordField(i)))
  {
    hide Name, PlaceEntries, StageEntries, OutsideEntries, DoneEntries, RestEntries;
    hide NestedOf, RecordField, Hashed, Part;
    if i < 4 { PlaceSpelled(c, i); }
    else if i < 8 { StageSpelled(c, i - 4); }
    else if i < 11 { OutsideSpelled(c, i - 8); }
    else if i < 14 { DoneSpelled(c, i - 11); }
    else { RestSpelled(c, i - 14); }
  }

  lemma BodyWritten(c: Checkpoint)
    ensures Holds(Object(Body(c)), RecordEntries(c, NestedOf(c)))
  {
    hide Name, Object, Part, Hashed, RecordEntries, Holds, NestedOf, RecordField;
    var (fs, es, m) := (RecordFields(), RecordEntries(c, NestedOf(c)), Body(c));
    RecordSpelled(c, 0);
    forall i | 0 <= i < 17 ensures fs[i] in m && es[i] == (Name(fs[i]), m[fs[i]]) { RecordSpelled(c, i); }
    forall f | f in m ensures f in fs { RecordListed(f); }
    ObjectHolds(fs, es, m);
  }

  lemma MembersStay(m: map<Field, Value>, f: Field, v: Value, g: Field)
    requires f !in m
    ensures Get(Object(m[f := v]), g) == if g == f then Some(v) else Get(Object(m), g)
  {
    hide Name, Get;
    assert Get(Object(m), g) == Member(m, g) && Get(Object(m[f := v]), g) == Member(m[f := v], g);
  }

  lemma KeysAreNames(m: map<Field, Value>, k: string) returns (g: Field)
    requires k in Object(m)
    ensures g in m && Name(g) == k
  {
    hide Name;
    g :| g in m && Name(g) == k;
  }

  lemma EntriesStay(m: map<Field, Value>, f: Field, v: Value, e: Entry)
    requires f !in m && e.0 in Object(m) && Object(m)[e.0] == e.1
    ensures e.0 in Object(m[f := v]) && Object(m[f := v])[e.0] == e.1
  {
    hide Name, Object;
    var g := KeysAreNames(m, e.0);
    MembersStay(m, f, v, g);
  }

  lemma KeyEarlier(m: map<Field, Value>, f: Field, v: Value, k: string)
    requires f !in m && k in Object(m[f := v])
    ensures k == Name(f) || k in Object(m)
  {
    hide Name, Object;
    var g := KeysAreNames(m[f := v], k);
    MembersStay(m, f, v, g);
  }

  lemma HashApart(m: map<Field, Value>, f: Field, v: Value, es: seq<Entry>)
    requires Holds(Object(m), es) && f !in m
    ensures Holds(Object(m[f := v]), es + [(Name(f), v)])
  {
    hide Name, Object;
    var (q, fs) := (Object(m[f := v]), es + [(Name(f), v)]);
    MembersStay(m, f, v, f);
    forall i | 0 <= i < |fs| ensures fs[i].0 in q && q[fs[i].0] == fs[i].1 {
      if i < |es| { EntriesStay(m, f, v, es[i]); }
    }
    forall k | k in q ensures exists i | 0 <= i < |fs| :: fs[i].0 == k {
      KeyEarlier(m, f, v, k);
      if k == Name(f) {
        assert fs[|es|].0 == k;
      } else {
        var i :| 0 <= i < |es| && es[i].0 == k;
        assert fs[i].0 == k;
      }
    }
  }

  ghost predicate RecordText(c: Checkpoint, n: Nested, hashed: Payload, whole: Payload, sha: string -> string) {
    && Nests(n, c) && Holds(hashed, RecordEntries(c, n))
    && Holds(whole, RecordEntries(c, n) + [("checkpoint_hash", Str(sha(DumpsText(Obj(hashed)))))])
  }

  lemma HashNotHashed()
    ensures !Hashed(CheckpointHash)
  {
  }

  // A checkpoint is written as an object of these eighteen members and no others; the last
  // is the digest of the canonical text of the object of the seventeen before it.
  lemma RecordWritten(c: Checkpoint, sha: string -> string)
    ensures exists n, q :: RecordText(c, n, q, ToDict(c, sha), sha)
  {
    hide Name, Object, Nests, Holds, NestedOf, RecordEntries, DumpsText, Hashed, Part;
    var (n, q) := (NestedOf(c), Object(Body(c)));
    NestedWritten(c);
    BodyWritten(c);
    HashNames();
    assert CheckpointHash !in Body(c) by { HashNotHashed(); }
    HashApart(Body(c), CheckpointHash, Str(HashOf(c, sha)), RecordEntries(c, n));
    assert RecordText(c, n, q, ToDict(c, sha), sha);
  }

  // ---- Handoffs --------------------------------------------------------------------------------

  type Handoff = Handoffs.Handoff

  // The values of the members that are lists or objects of texts.
  datatype Parts = Parts(identity: Value, refs: Value, keys: Value, unknown: Value, evidence: Value)

  ghost predicate NestsHandoff(n: Parts, h: Handoff) {
    && IsObject(n.identity, IdentityEntries(h.sourceIdentity)) && AreTexts(n.refs, h.effectRefs) && AreTexts(n.keys, h.effectKeys)
    && AreTexts(n.unknown, h.unknownEffectRefs) && AreTexts(n.evidence, h.inheritedEvidence)
  }

  function HeadEntries(h: Handoff, n: Parts): (es: seq<Entry>)
    ensures |es| == 3
  {
    [("schema", Str("nexus.runtime.handoff_lineage.v1")),
     ("claim_ceiling", Str("RUNTIME_HANDOFF_LINEAGE_STATE_ONLY")),
     ("task_id", Str(h.taskId))]
  }

  function AttemptEntries(h: Handoff, n: Parts): (es: seq<Entry>)
    ensures |es| == 2
  {
    [("predecessor_attempt_id", Str(h.predecessorId)),
     ("successor_attempt_id", Str(h.successorId))]
  }

  function PredecessorEntries(h: Handoff, n: Parts): (es: seq<Entry>)
    ensures |es| == 2
  {
    [("predecessor_operation_id", Str(h.predecessorOperationId)),
     ("predecessor_checkpoint_hash", Str(h.predecessorHash))]
  }

  function CountedEntries(h: Handoff, n: Parts): (es: seq<Entry>)
    ensures |es| == 1
  {
    [("predecessor_checkpoint_revision", Num(Int(h.predecessorRevision)))]
  }

  function ReasonEntries(h: Handoff, n: Parts): (es: seq<Entry>)
    ensures |es| == 2
  {
    [("handoff_reason", Str(h.reason)),
     ("source_identity", n.identity)]
  }

  function StateEntries(h: Handoff, n: Parts): (es: seq<Entry>)
    ensures |es| == 2
  {
    [("terminal_state", Str(h.terminalState)),
     ("fence_evidence_ref", Str(h.fenceRef))]
  }

  function ReceiptEntries(h: Handoff, n: Parts): (es: seq<Entry>)
    ensures |es| == 2
  {
    [("completed_effect_refs", n.refs),
     ("completed_effect_keys", n.keys)]
  }

  function OpenEntries(h: Handoff, n: Parts): (es: seq<Entry>)
    ensures |es| == 1
  {
    [("unknown_effect_refs", n.unknown)]
  }

  function DispositionEntries(h: Handoff, n: Parts): (es: seq<Entry>)
    ensures |es| == 1
  {
    [("reconcile_disposition", Str(h.reconcileDisposition))]
  }

  function BindingEntries(h: Handoff, n: Parts): (es: seq<Entry>)
    ensures |es| == 3
  {
    [("successor_binding", Obj(h.binding)),
     ("inherited_evidence_refs", n.evidence),
     ("next_gate", Str(h.nextGate))]
  }

  function KindEntries(h: Handoff, n: Parts): (es: seq<Entry>)
    ensures |es| == 2
  {
    [("freshness_identity", Str(h.freshnessIdentity)),
     ("transition_type", Str(h.transitionType))]
  }

  function HandoffEntries(h: Handoff, n: Parts): seq<Entry> {
    HeadEntries(h, n) + AttemptEntries(h, n) + PredecessorEntries(h, n) + CountedEntries(h, n)
    + ReasonEntries(h, n) + StateEntries(h, n) + ReceiptEntries(h, n) + OpenEntries(h, n)
    + DispositionEntries(h, n) + BindingEntries(h, n) + KindEntries(h, n)
  }

  // The fields of a handoff, in the order of its members.
  function HandoffField(i: nat): Field {
    match i
    case 0 => Schema
    case 1 => ClaimCeiling
    case 2 => TaskId
    case 3 => PredecessorAttemptId
    case 4 => SuccessorAttemptId
    case 5 => PredecessorOperationId
    case 6 => PredecessorCheckpointHash
    case 7 => PredecessorCheckpointRevision
    case 8 => HandoffReason
    case 9 => SourceIdentity
    case 10 => TerminalState
    case 11 => FenceEvidenceRef
    case 12 => CompletedEffectRefs
    case 13 => CompletedEffectKeys
    case 14 => UnknownEffectRefs
    case 15 => ReconcileDisposition
    case 16 => SuccessorBinding
    case 17 => InheritedEvidenceRefs
    case 18 => NextGate
    case 19 => FreshnessIdentity
    case _ => TransitionType
  }

  function HandoffPlace(f: Field): nat {
    match f
    case Schema => 0
    case ClaimCeiling => 1
    case TaskId => 2
    case PredecessorAttemptId => 3
    case SuccessorAttemptId => 4
    case PredecessorOperationId => 5
    case PredecessorCheckpointHash => 6
    case PredecessorCheckpointRevision => 7
    case HandoffReason => 8
    case SourceIdentity => 9
    case TerminalState => 10
    case FenceEvidenceRef => 11
    case CompletedEffectRefs => 12
    case CompletedEffectKeys => 13
    case UnknownEffectRefs => 14
    case ReconcileDisposition => 15
    case SuccessorBinding => 16
    case InheritedEvidenceRefs => 17
    case NextGate => 18
    case FreshnessIdentity => 19
    case TransitionType => 20
    case _ => 21
  }

  function HandoffFields(): seq<Field> { seq(21, i requires 0 <= i < 21 => HandoffField(i)) }

  function ListsIn(h: Handoff): Parts {
    Parts(HandoffCodec.LineagePart(h, SourceIdentity), HandoffCodec.LineagePart(h, CompletedEffectRefs),
          HandoffCodec.LineagePart(h, CompletedEffectKeys), HandoffCodec.LineagePart(h, UnknownEffectRefs),
          HandoffCodec.LineagePart(h, InheritedEvidenceRefs))
  }

  lemma ListsWritten(h: Handoff)
    ensures NestsHandoff(ListsIn(h), h)
  {
    hide Object, IdentityMembers, Texts, IsObject, AreTexts, IdentityEntries;
    IdentityWritten(h.sourceIdentity);
    TextsWritten(h.effectRefs);
    TextsWritten(h.effectKeys);
    TextsWritten(h.unknownEffectRefs);
    TextsWritten(h.inheritedEvidence);
  }

  lemma HandoffPlaced(f: Field)
    ensures HandoffCodec.InLineage(f) ==> HandoffPlace(f) < 21 && HandoffField(HandoffPlace(f)) == f
  {
  }

  lemma HandoffListed(f: Field)
    ensures HandoffCodec.InLineage(f) ==> f in HandoffFields()
  {
    hide HandoffField, HandoffPlace;
    HandoffPlaced(f);
    if HandoffCodec.InLineage(f) { assert HandoffFields()[HandoffPlace(f)] == f; }
  }

  lemma HeadNames()
    ensures Name(Schema) == "schema"
    ensures Name(ClaimCeiling) == "claim_ceiling"
    ensures Name(TaskId) == "task_id"
  {
    hide Name;
    SharedNamed(Schema);
    SharedNamed(ClaimCeiling);
    SharedNamed(TaskId);
  }

  lemma HeadFields()
    ensures HandoffField(0) == Schema && HandoffCodec.InLineage(Schema)
    ensures HandoffField(1) == ClaimCeiling && HandoffCodec.InLineage(ClaimCeiling)
    ensures HandoffField(2) == TaskId && HandoffCodec.InLineage(TaskId)
  {
  }

  lemma HeadValues(h: Handoff)
    ensures HandoffCodec.LineagePart(h, Schema) == Str("nexus.runtime.handoff_lineage.v1")
    ensures HandoffCodec.LineagePart(h, ClaimCeiling) == Str("RUNTIME_HANDOFF_LINEAGE_STATE_ONLY")
    ensures HandoffCodec.LineagePart(h, TaskId) == Str(h.taskId)
  {
    hide Object, IdentityMembers, Texts;
  }

  lemma HeadSpelled(h: Handoff, i: nat)
    requires i < 3
    ensures HandoffCodec.InLineage(HandoffField(i))
    ensures HeadEntries(h, ListsIn(h))[i] == (Name(HandoffField(i)), HandoffCodec.LineagePart(h, HandoffField(i)))
  {
    hide Name, HandoffField, HandoffCodec.InLineage, HandoffCodec.LineagePart, ListsIn;
    HeadNames();
    HeadFields();
    HeadValues(h);
  }

  lemma AttemptNames()
    ensures Name(PredecessorAttemptId) == "predecessor_attempt_id"
    ensures Name(SuccessorAttemptId) == "successor_attempt_id"
  {
    hide Name;
    PartyNamed(PredecessorAttemptId);
    PartyNamed(SuccessorAttemptId);
  }

  lemma AttemptFields()
    ensures HandoffField(3) == PredecessorAttemptId && HandoffCodec.InLineage(PredecessorAttemptId)
    ensures HandoffField(4) == SuccessorAttemptId && HandoffCodec.InLineage(SuccessorAttemptId)
  {
  }

  lemma AttemptValues(h: Handoff)
    ensures HandoffCodec.LineagePart(h, PredecessorAttemptId) == Str(h.predecessorId)
    ensures HandoffCodec.LineagePart(h, SuccessorAttemptId) == Str(h.successorId)
  {
    hide Object, IdentityMembers, Texts;
  }

  lemma AttemptSpelled(h: Handoff, i: nat)
    requires i < 2
    ensures HandoffCodec.InLineage(HandoffField(i + 3))
    ensures AttemptEntries(h, ListsIn(h))[i] == (Name(HandoffField(i + 3)), HandoffCodec.LineagePart(h, HandoffField(i + 3)))
  {
    hide Name, HandoffField, HandoffCodec.InLineage, HandoffCodec.LineagePart, ListsIn;
    AttemptNames();
    AttemptFields();
    AttemptValues(h);
  }

  lemma PredecessorNames()
    ensures Name(PredecessorOperationId) == "predecessor_operation_id"
    ensures Name(PredecessorCheckpointHash) == "predecessor_checkpoint_hash"
  {
    hide Name;
    PartyNamed(PredecessorOperationId);
    PartyNamed(PredecessorCheckpointHash);
  }

  lemma PredecessorFields()
    ensures HandoffField(5) == PredecessorOperationId && HandoffCodec.InLineage(PredecessorOperationId)
    ensures HandoffField(6) == PredecessorCheckpointHash && HandoffCodec.InLineage(PredecessorCheckpointHash)
  {
  }

  lemma PredecessorValues(h: Handoff)
    ensures HandoffCodec.LineagePart(h, PredecessorOperationId) == Str(h.predecessorOperationId)
    ensures HandoffCodec.LineagePart(h, PredecessorCheckpointHash) == Str(h.predecessorHash)
  {
    hide Object, IdentityMembers, Texts;
  }

  lemma PredecessorSpelled(h: Handoff, i: nat)
    requires i < 2
    ensures HandoffCodec.InLineage(HandoffField(i + 5))
    ensures PredecessorEntries(h, ListsIn(h))[i] == (Name(HandoffField(i + 5)), HandoffCodec.LineagePart(h, HandoffField(i + 5)))
  {
    hide Name, HandoffField, HandoffCodec.InLineage, HandoffCodec.LineagePart, ListsIn;
    PredecessorNames();
    PredecessorFields();
    PredecessorValues(h);
  }

  lemma CountedNames()
    ensures Name(PredecessorCheckpointRevision) == "predecessor_checkpoint_revision"
  {
    hide Name;
    PartyNamed(PredecessorCheckpointRevision);
  }

  lemma CountedFields()
    ensures HandoffField(7) == PredecessorCheckpointRevision && HandoffCodec.InLineage(PredecessorCheckpointRevision)
  {
  }

  lemma CountedValues(h: Handoff)
    ensures HandoffCodec.LineagePart(h, PredecessorCheckpointRevision) == Num(Int(h.predecessorRevision))
  {
    hide Object, IdentityMembers, Texts;
  }

  lemma CountedSpelled(h: Handoff, i: nat)
    requires i < 1
    ensures HandoffCodec.InLineage(HandoffField(i + 7))
    ensures CountedEntries(h, ListsIn(h))[i] == (Name(HandoffField(i + 7)), HandoffCodec.LineagePart(h, HandoffField(i + 7)))
  {
    hide Name, HandoffField, HandoffCodec.InLineage, HandoffCodec.LineagePart, ListsIn;
    CountedNames();
    CountedFields();
    CountedValues(h);
  }

  lemma ReasonNames()
    ensures Name(HandoffReason) == "handoff_reason"
    ensures Name(SourceIdentity) == "source_identity"
  {
    hide Name;
    PartyNamed(HandoffReason);
    PartyNamed(SourceIdentity);
  }

  lemma ReasonFields()
    ensures HandoffField(8) == HandoffReason && HandoffCodec.InLineage(HandoffReason)
    ensures HandoffField(9) == SourceIdentity && HandoffCodec.InLineage(SourceIdentity)
  {
  }

  lemma ReasonValues(h: Handoff)
    ensures HandoffCodec.LineagePart(h, HandoffReason) == Str(h.reason)
    ensures HandoffCodec.LineagePart(h, SourceIdentity) == ListsIn(h).identity
  {
    hide Object, IdentityMembers, Texts;
  }

  lemma ReasonSpelled(h: Handoff, i: nat)
    requires i < 2
    ensures HandoffCodec.InLineage(HandoffField(i + 8))
    ensures ReasonEntries(h, ListsIn(h))[i] == (Name(HandoffField(i + 8)), HandoffCodec.LineagePart(h, HandoffField(i + 8)))
  {
    hide Name, HandoffField, HandoffCodec.InLineage, HandoffCodec.LineagePart, ListsIn;
    ReasonNames();
    ReasonFields();
    ReasonValues(h);
  }

  lemma StateNames()
    ensures Name(TerminalState) == "terminal_state"
    ensures Name(FenceEvidenceRef) == "fence_evidence_ref"
  {
    hide Name;
    ClaimNamed(TerminalState);
    ClaimNamed(FenceEvidenceRef);
  }

  lemma StateFields()
    ensures HandoffField(10) == TerminalState && HandoffCodec.InLineage(TerminalState)
    ensures HandoffField(11) == FenceEvidenceRef && HandoffCodec.InLineage(FenceEvidenceRef)
  {
  }

  lemma StateValues(h: Handoff)
    ensures HandoffCodec.LineagePart(h, TerminalState) == Str(h.terminalState)
    ensures HandoffCodec.LineagePart(h, FenceEvidenceRef) == Str(h.fenceRef)
  {
    hide Object, IdentityMembers, Texts;
  }

  lemma StateSpelled(h: Handoff, i: nat)
    requires i < 2
    ensures HandoffCodec.InLineage(HandoffField(i + 10))
    ensures StateEntries(h, ListsIn(h))[i] == (Name(HandoffField(i + 10)), HandoffCodec.LineagePart(h, HandoffField(i + 10)))
  {
    hide Name, HandoffField, HandoffCodec.InLineage, HandoffCodec.LineagePart, ListsIn;
    StateNames();
    StateFields();
    StateValues(h);
  }

  lemma ReceiptNames()
    ensures Name(CompletedEffectRefs) == "completed_effect_refs"
    ensures Name(CompletedEffectKeys) == "completed_effect_keys"
  {
    hide Name;
    ClaimNamed(CompletedEffectRefs);
    ClaimNamed(CompletedEffectKeys);
  }

  lemma ReceiptFields()
    ensures HandoffField(12) == CompletedEffectRefs && HandoffCodec.InLineage(CompletedEffectRefs)
    ensures HandoffField(13) == CompletedEffectKeys && HandoffCodec.InLineage(CompletedEffectKeys)
  {
  }

  lemma ReceiptValues(h: Handoff)
    ensures HandoffCodec.LineagePart(h, CompletedEffectRefs) == ListsIn(h).refs
    ensures HandoffCodec.LineagePart(h, CompletedEffectKeys) == ListsIn(h).keys
  {
    hide Object, IdentityMembers, Texts;
  }

  lemma ReceiptSpelled(h: Handoff, i: nat)
    requires i < 2
    ensures HandoffCodec.InLineage(HandoffField(i + 12))
    ensures ReceiptEntries(h, ListsIn(h))[i] == (Name(HandoffField(i + 12)), HandoffCodec.LineagePart(h, HandoffField(i + 12)))
  {
    hide Name, HandoffField, HandoffCodec.InLineage, HandoffCodec.LineagePart, ListsIn;
    ReceiptNames();
    ReceiptFields();
    ReceiptValues(h);
  }

  lemma OpenNames()
    ensures Name(UnknownEffectRefs) == "unknown_effect_refs"
  {
    hide Name;
    ClaimNamed(UnknownEffectRefs);
  }

  lemma OpenFields()
    ensures HandoffField(14) == UnknownEffectRefs && HandoffCodec.InLineage(UnknownEffectRefs)
  {
  }

  lemma OpenValues(h: Handoff)
    ensures HandoffCodec.LineagePart(h, UnknownEffectRefs) == ListsIn(h).unknown
  {
    hide Object, IdentityMembers, Texts;
  }

  lemma OpenSpelled(h: Handoff, i: nat)
    requires i < 1
    ensures HandoffCodec.InLineage(HandoffField(i + 14))
    ensures OpenEntries(h, ListsIn(h))[i] == (Name(HandoffField(i + 14)), HandoffCodec.LineagePart(h, HandoffField(i + 14)))
  {
    hide Name, HandoffField, HandoffCodec.InLineage, HandoffCodec.LineagePart, ListsIn;
    OpenNames();
    OpenFields();
    OpenValues(h);
  }

  lemma DispositionNames()
    ensures Name(ReconcileDisposition) == "reconcile_disposition"
  {
    hide Name;
    ClaimNamed(ReconcileDisposition);
  }

  lemma DispositionFields()
    ensures HandoffField(15) == ReconcileDisposition && HandoffCodec.InLineage(ReconcileDisposition)
  {
  }

  lemma DispositionValues(h: Handoff)
    ensures HandoffCodec.LineagePart(h, ReconcileDisposition) == Str(h.reconcileDisposition)
  {
    hide Object, IdentityMembers, Texts;
  }

  lemma DispositionSpelled(h: Handoff, i: nat)
    requires i < 1
    ensures HandoffCodec.InLineage(HandoffField(i + 15))
    ensures DispositionEntries(h, ListsIn(h))[i] == (Name(HandoffField(i + 15)), HandoffCodec.LineagePart(h, HandoffField(i + 15)))
  {
    hide Name, HandoffField, HandoffCodec.InLineage, HandoffCodec.LineagePart, ListsIn;
    DispositionNames();
    DispositionFields();
    DispositionValues(h);
  }

  lemma BindingNames()
    ensures Name(SuccessorBinding) == "successor_binding"
    ensures Name(InheritedEvidenceRefs) == "inherited_evidence_refs"
    ensures Name(NextGate) == "next_gate"
  {
    hide Name;
    PartyNamed(SuccessorBinding);
    ClaimNamed(InheritedEvidenceRefs);
    SharedNamed(NextGate);
  }

  lemma BindingFields()
    ensures HandoffField(16) == SuccessorBinding && HandoffCodec.InLineage(SuccessorBinding)
    ensures HandoffField(17) == InheritedEvidenceRefs && HandoffCodec.InLineage(InheritedEvidenceRefs)
    ensures HandoffField(18) == NextGate && HandoffCodec.InLineage(NextGate)
  {
  }

  lemma BindingValues(h: Handoff)
    ensures HandoffCodec.LineagePart(h, SuccessorBinding) == Obj(h.binding)
    ensures HandoffCodec.LineagePart(h, InheritedEvidenceRefs) == ListsIn(h).evidence
    ensures HandoffCodec.LineagePart(h, NextGate) == Str(h.nextGate)
  {
    hide Object, IdentityMembers, Texts;
  }

  lemma BindingSpelled(h: Handoff, i: nat)
    requires i < 3
    ensures HandoffCodec.InLineage(HandoffField(i + 16))
    ensures BindingEntries(h, ListsIn(h))[i] == (Name(HandoffField(i + 16)), HandoffCodec.LineagePart(h, HandoffField(i + 16)))
  {
    hide Name, HandoffField, HandoffCodec.InLineage, HandoffCodec.LineagePart, ListsIn;
    BindingNames();
    BindingFields();
    BindingValues(h);
  }

  lemma KindNames()
    ensures Name(FreshnessIdentity) == "freshness_identity"
    ensures Name(TransitionType) == "transition_type"
  {
    hide Name;
    ClaimNamed(FreshnessIdentity);
    ClaimNamed(TransitionType);
  }

  lemma KindFields()
    ensures HandoffField(19) == FreshnessIdentity && HandoffCodec.InLineage(FreshnessIdentity)
    ensures HandoffField(20) == TransitionType && HandoffCodec.InLineage(TransitionType)
  {
  }

  lemma KindValues(h: Handoff)
    ensures HandoffCodec.LineagePart(h, FreshnessIdentity) == Str(h.freshnessIdentity)
    ensures HandoffCodec.LineagePart(h, TransitionType) == Str(h.transitionType)
  {
    hide Object, IdentityMembers, Texts;
  }

  lemma KindSpelled(h: Handoff, i: nat)
    requires i < 2
    ensures HandoffCodec.InLineage(HandoffField(i + 19))
    ensures KindEntries(h, ListsIn(h))[i] == (Name(HandoffField(i + 19)), HandoffCodec.LineagePart(h, HandoffField(i + 19)))
  {
    hide Name, HandoffField, HandoffCodec.InLineage, HandoffCodec.LineagePart, ListsIn;
    KindNames();
    KindFields();
    KindValues(h);
  }

  lemma HandoffSpelled(h: Handoff, i: nat)
    requires i < 21
    ensures |HandoffEntries(h, ListsIn(h))| == 21 && HandoffCodec.InLineage(HandoffField(i))
    ensures HandoffEntries(h, ListsIn(h))[i] == (Name(HandoffField(i)), HandoffCodec.LineagePart(h, HandoffField(i)))
  {
    hide Name, HeadEntries, AttemptEntries, PredecessorEntries, CountedEntries, ReasonEntries, StateEntries, ReceiptEntries, OpenEntries, DispositionEntries, BindingEntries, KindEntries;
    hide ListsIn, HandoffField, HandoffCodec.InLineage, HandoffCodec.LineagePart;
    if i < 3 { HeadSpelled(h, i); }
    else if i < 5 { AttemptSpelled(h, i - 3); }
    else if i < 7 { PredecessorSpelled(h, i - 5); }
    else if i < 8 { CountedSpelled(h, i - 7); }
    else if i < 10 { ReasonSpelled(h, i - 8); }
    else if i < 12 { StateSpelled(h, i - 10); }
    else if i < 14 { ReceiptSpelled(h, i - 12); }
    else if i < 15 { OpenSpelled(h, i - 14); }
    else if i < 16 { DispositionSpelled(h, i - 15); }
    else if i < 19 { BindingSpelled(h, i - 16); }
    else { KindSpelled(h, i - 19); }
  }

  lemma LineageWritten(h: Handoff)
    ensures Holds(Object(HandoffCodec.LineageBody(h)), HandoffEntries(h, ListsIn(h)))
  {
    hide Name, Object, HandoffCodec.LineagePart, HandoffCodec.InLineage, HandoffEntries, Holds, ListsIn, HandoffField;
    var (fs, es, m) := (HandoffFields(), HandoffEntries(h, ListsIn(h)), HandoffCodec.LineageBody(h));
    HandoffSpelled(h, 0);
    forall i | 0 <= i < 21 ensures fs[i] in m && es[i] == (Name(fs[i]), m[fs[i]]) { HandoffSpelled(h, i); }
    forall f | f in m ensures f in fs { HandoffListed(f); }
    ObjectHolds(fs, es, m);
  }

  ghost predicate HandoffText(h: Handoff, n: Parts, hashed: Payload, whole: Payload, sha: string -> string) {
    && NestsHandoff(n, h) && Holds(hashed, HandoffEntries(h, n))
    && Holds(whole, HandoffEntries(h, n) + [("lineage_hash", Str(sha(DumpsText(Obj(hashed)))))])
  }

  lemma LineageHashApart()
    ensures !HandoffCodec.InLineage(LineageHash)
  {
  }

  // A handoff is written as an object of these twenty-two members and no others; the last is
  // the digest of the canonical text of the object of those before it.
  lemma HandoffWritten(h: Handoff, sha: string -> string)
    ensures exists n, q :: HandoffText(h, n, q, HandoffCodec.HandoffToDict(h, sha), sha)
  {
    hide Name, Object, NestsHandoff, Holds, ListsIn, HandoffEntries, DumpsText, HandoffCodec.InLineage, HandoffCodec.LineagePart;
    var (n, q) := (ListsIn(h), Object(HandoffCodec.LineageBody(h)));
    ListsWritten(h);
    LineageWritten(h);
    HashNames();
    assert LineageHash !in HandoffCodec.LineageBody(h) by { LineageHashApart(); }
    HashApart(HandoffCodec.LineageBody(h), LineageHash, Str(HandoffCodec.LineageHashOf(h, sha)), HandoffEntries(h, n));
    assert HandoffText(h, n, q, HandoffCodec.HandoffToDict(h, sha), sha);
  }
}
