// A durable checkpoint comes back equal or not at all.
module RecordTheorems {
  import opened Text
  import opened JsNumbers
  import opened JsNumberValues
  import opened CanonicalJson
  import opened CanonicalText
  import Checkpoints
  import opened DurableFields
  import opened RecordCodec
  import opened PayloadReading

  // ---- The hash names the record -----------------------------------------------------

  lemma TextsInjective(xs: seq<string>, ys: seq<string>)
    requires Texts(xs) == Texts(ys)
    ensures xs == ys
  {
    var (p, q) := (Texts(xs).items, Texts(ys).items);
    forall i | 0 <= i < |xs| ensures xs[i] == ys[i] { assert p[i] == q[i]; }
  }

  lemma IdentityInjective(i: Checkpoints.Identity, j: Checkpoints.Identity)
    requires Object(IdentityMembers(i)) == Object(IdentityMembers(j))
    ensures i == j
  {
    hide Object;
    var (m, n) := (IdentityMembers(i), IdentityMembers(j));
    ObjectInjective(m, n);
    assert m[Repository] == n[Repository] && m[SourceRevision] == n[SourceRevision];
    assert m[RuntimeIdentity] == n[RuntimeIdentity] && m[TargetRevision] == n[TargetRevision];
  }

  lemma EffectInjective(e: Checkpoints.Effect, f: Checkpoints.Effect)
    requires Object(EffectMembers(e)) == Object(EffectMembers(f))
    ensures e == f
  {
    hide Object;
    var (m, n) := (EffectMembers(e), EffectMembers(f));
    ObjectInjective(m, n);
    assert m[EffectKey] == n[EffectKey] && m[ReceiptRef] == n[ReceiptRef] && m[EffectHash] == n[EffectHash];
  }

  lemma EffectsInjective(es: seq<Checkpoints.Effect>, fs: seq<Checkpoints.Effect>)
    requires EffectList(es) == EffectList(fs)
    ensures es == fs
  {
    hide Object, EffectMembers;
    var (p, q) := (EffectList(es).items, EffectList(fs).items);
    forall i | 0 <= i < |es| ensures es[i] == fs[i] {
      assert p[i] == q[i];
      EffectInjective(es[i], fs[i]);
    }
  }

  lemma ExternalInjective(a: map<string, string>, b: map<string, string>)
    requires External(a) == External(b)
    ensures a == b
  {
    assert External(a).Keys == a.Keys && External(b).Keys == b.Keys;
    forall k | k in a ensures a[k] == b[k] { assert External(a)[k] == External(b)[k]; }
  }

  lemma TextParts(c: Checkpoint)
    ensures Part(c, TaskId) == Str(c.taskId) && Part(c, OperationId) == Str(c.operationId)
    ensures Part(c, AttemptId) == Str(c.attemptId) && Part(c, Revision) == Num(Int(c.revision))
    ensures Part(c, Schema) == Str(CHECKPOINT_SCHEMA)
  {
    hide Object, IdentityMembers, EffectList, Texts, External;
  }

  lemma PlainParts(c: Checkpoint)
    ensures Part(c, StatusIs) == Str(c.status) && Part(c, Phase) == Str(c.phase) && Part(c, NextGate) == Str(c.nextGate)
    ensures Part(c, BlockedReason) == Str(c.blockedReason) && Part(c, ClaimCeiling) == Str(c.claimCeiling)
  {
    hide Object, IdentityMembers, EffectList, Texts, External;
  }

  lemma ListParts(c: Checkpoint)
    ensures Part(c, Leases) == Texts(c.leases) && Part(c, EvidenceRefs) == Texts(c.evidenceRefs)
    ensures Part(c, PendingSteps) == Texts(c.pendingSteps) && Part(c, RetryHistory) == Texts(c.retryHistory)
  {
    hide Object, IdentityMembers, EffectList, Texts, External;
  }

  lemma NestedParts(c: Checkpoint)
    ensures Part(c, IdentityIs) == Obj(Object(IdentityMembers(c.identity)))
    ensures Part(c, ExternalOperationIds) == Obj(External(c.external))
    ensures Part(c, CompletedEffects) == EffectList(c.completedEffects)
  {
    hide Object, IdentityMembers, EffectList, Texts, External;
  }

  ghost predicate SameParts(a: Checkpoint, b: Checkpoint) { forall f | Hashed(f) :: Part(a, f) == Part(b, f) }

  lemma SameTexts(a: Checkpoint, b: Checkpoint)
    requires SameParts(a, b)
    ensures a.taskId == b.taskId && a.operationId == b.operationId && a.attemptId == b.attemptId && a.revision == b.revision
    ensures a.status == b.status && a.phase == b.phase && a.nextGate == b.nextGate
    ensures a.blockedReason == b.blockedReason && a.claimCeiling == b.claimCeiling
  {
    hide Part;
    TextParts(a);
    TextParts(b);
    PlainParts(a);
    PlainParts(b);
  }

  lemma SameNested(a: Checkpoint, b: Checkpoint)
    requires SameParts(a, b)
    ensures a.identity == b.identity && a.external == b.external && a.completedEffects == b.completedEffects
  {
    hide Part, Object, IdentityMembers, EffectList, External;
    NestedParts(a);
    NestedParts(b);
    IdentityInjective(a.identity, b.identity);
    ExternalInjective(a.external, b.external);
    EffectsInjective(a.completedEffects, b.completedEffects);
  }

  lemma SameLists(a: Checkpoint, b: Checkpoint)
    requires SameParts(a, b)
    ensures a.leases == b.leases && a.evidenceRefs == b.evidenceRefs
    ensures a.pendingSteps == b.pendingSteps && a.retryHistory == b.retryHistory
  {
    hide Part, Texts;
    ListParts(a);
    ListParts(b);
    TextsInjective(a.leases, b.leases);
    TextsInjective(a.evidenceRefs, b.evidenceRefs);
    TextsInjective(a.pendingSteps, b.pendingSteps);
    TextsInjective(a.retryHistory, b.retryHistory);
  }

  lemma BodyInjective(a: Checkpoint, b: Checkpoint)
    requires Body(a) == Body(b)
    ensures a == b
  {
    hide Body, Part;
    forall f | Hashed(f) ensures Part(a, f) == Part(b, f) { PartOfBody(a, f); PartOfBody(b, f); }
    hide SameParts;
    SameTexts(a, b);
    SameNested(a, b);
    SameLists(a, b);
  }

  lemma PartOfBody(c: Checkpoint, f: Field)
    requires Hashed(f)
    ensures f in Body(c) && Body(c)[f] == Part(c, f)
  {
    hide Part;
  }

  // Two checkpoints have one hash only if they are the same checkpoint.
  lemma HashNamesRecord(a: Checkpoint, b: Checkpoint, sha: string -> string)
    requires Sound(sha)
    ensures HashOf(a, sha) == HashOf(b, sha) <==> a == b
  {
    hide Object, Body, DumpsText;
    DumpsInjective(Obj(Object(Body(a))), Obj(Object(Body(b))));
    if HashOf(a, sha) == HashOf(b, sha) {
      ObjectInjective(Body(a), Body(b));
      BodyInjective(a, b);
    }
  }

  // ---- What a reader can produce ----------------------------------------------------------

  lemma IdentityTrimmed(p: Payload, f: Field, py: Python)
    ensures IdentityOf(p, f, py).Some? ==> Checkpoints.IdentityReadsBack(IdentityOf(p, f, py).value)
  {
    hide Get, NonBlank;
  }

  lemma EffectsTrimmed(p: Payload, py: Python)
    ensures EffectsOf(p, py).Some? ==> forall e | e in EffectsOf(p, py).value :: Trimmed(e.key) && Trimmed(e.receiptRef)
  {
    hide Get, NonBlank, Coerced;
  }

  lemma ConstructKeepsTrimmed(raw: Checkpoint)
    requires Checkpoints.Construct(raw).Some?
    requires Trimmed(raw.taskId) && Trimmed(raw.operationId) && Trimmed(raw.attemptId)
    requires Checkpoints.IdentityReadsBack(raw.identity) && raw.claimCeiling == Checkpoints.CHECKPOINT_CLAIM_CEILING
    requires forall e | e in raw.completedEffects :: Trimmed(e.key) && Trimmed(e.receiptRef)
    ensures Checkpoints.ReadsBack(Checkpoints.Construct(raw).value) && Checkpoints.Valid(Checkpoints.Construct(raw).value)
  {
    Checkpoints.ConstructIsValid(raw);
    Checkpoints.InKeyOrderSorts(raw.completedEffects);
    hide Trimmed, Checkpoints.InKeyOrder, Checkpoints.Valid, Dedupe, NonBlank;
  }

  // Whatever a reader accepts is a valid record in trimmed form.
  lemma DecodedReadsBack(p: Payload, py: Python)
    ensures Decode(p, py).Some? ==> Checkpoints.Valid(Decode(p, py).value) && Checkpoints.ReadsBack(Decode(p, py).value)
  {
    hide Get, Coerced, IdentityOf, EffectsOf, ExternalOf, ListsOf, RevisionOf, Checkpoints.Construct;
    hide Checkpoints.Valid, Checkpoints.ReadsBack, Trimmed, Checkpoints.IdentityReadsBack, NonBlank;
    IdentityTrimmed(p, IdentityIs, py);
    EffectsTrimmed(p, py);
    if Decode(p, py).Some? {
      ConstructKeepsTrimmed(Raw(p, py, RecordCodec.PlaceOf(p).value, IdentityOf(p, IdentityIs, py).value, RevisionOf(p, Revision).value,
                                ExternalOf(p, py).value, ListsOf(p, py).value, EffectsOf(p, py).value));
    }
  }

  // ---- What a payload describes -----------------------------------------------------------

  predicate DescribesTexts(p: Payload, x: Checkpoint, py: Python) {
    && Reads(p, Schema, CHECKPOINT_SCHEMA, py) && Get(p, ClaimCeiling) == Some(Str(Checkpoints.CHECKPOINT_CLAIM_CEILING))
    && Reads(p, StatusIs, x.status, py) && Reads(p, Phase, x.phase, py) && Reads(p, NextGate, x.nextGate, py)
    && Reads(p, BlockedReason, x.blockedReason, py)
  }

  predicate DescribesPlace(p: Payload, x: Checkpoint, py: Python) {
    && Names(p, TaskId, x.taskId) && Names(p, OperationId, x.operationId) && Names(p, AttemptId, x.attemptId)
    && Identifies(p, IdentityIs, x.identity, py) && Numbers(p, Revision, x.revision)
  }

  ghost predicate DescribesLists(p: Payload, x: Checkpoint, py: Python) {
    && Enumerates(p, Leases, x.leases, py) && Enumerates(p, EvidenceRefs, x.evidenceRefs, py)
    && Enumerates(p, PendingSteps, x.pendingSteps, py) && Enumerates(p, RetryHistory, x.retryHistory, py)
  }

  // The payload says of every member what `x` says: its named texts up to blanks around
  // them, its lists up to repeats, its effects in any order, its other members as they are
  // or as something Python takes for them. Members of other names say nothing.
  ghost predicate Describes(p: Payload, x: Checkpoint, py: Python) {
    && DescribesTexts(p, x, py) && DescribesPlace(p, x, py) && DescribesLists(p, x, py)
    && Tracks(p, x.external, py) && Shows(p, x.completedEffects, py)
  }

  // What the constructor makes of its arguments, field by field.
  ghost predicate NormalizesTo(raw: Checkpoint, x: Checkpoint) {
    && raw.(leases := x.leases, evidenceRefs := x.evidenceRefs, pendingSteps := x.pendingSteps,
            retryHistory := x.retryHistory, completedEffects := x.completedEffects) == x
    && Dedupe(raw.leases) == x.leases && Dedupe(raw.evidenceRefs) == x.evidenceRefs
    && Dedupe(raw.pendingSteps) == x.pendingSteps && Dedupe(raw.retryHistory) == x.retryHistory
    && Orders(raw.completedEffects, x.completedEffects)
  }

  lemma NonBlanksOfDedupe(xs: seq<string>)
    ensures Checkpoints.NonBlanks(xs) <==> Checkpoints.NonBlanks(Dedupe(xs))
    ensures Dedupe(xs) == [] ==> xs == []
  {
    hide NonBlank;
    var r := Dedupe(xs);
    forall i | 0 <= i < |xs| ensures xs[i] in r {}
    forall i | 0 <= i < |r| ensures r[i] in xs {}
    if Checkpoints.NonBlanks(xs) { Checkpoints.DedupeNonBlanks(xs); }
    if Checkpoints.NonBlanks(r) {
      forall i | 0 <= i < |xs| ensures NonBlank(xs[i]) {
        var j :| 0 <= j < |r| && r[j] == xs[i];
      }
    }
  }

  lemma OrderedValid(ds: seq<Checkpoints.Effect>, es: seq<Checkpoints.Effect>)
    requires Orders(ds, es) && forall i | 0 <= i < |es| :: es[i].Valid()
    ensures forall i | 0 <= i < |ds| :: ds[i].Valid()
  {
    hide Checkpoints.InKeyOrder, NonBlank;
    Checkpoints.InKeyOrderSorts(ds);
    forall i | 0 <= i < |ds| ensures ds[i].Valid() { assert ds[i] in es; }
  }

  lemma ConstructIff(raw: Checkpoint, x: Checkpoint)
    ensures Checkpoints.Construct(raw) == Some(x) <==> Checkpoints.Valid(x) && NormalizesTo(raw, x)
  {
    hide NonBlank, Checkpoints.NonBlanks, Dedupe, Checkpoints.InKeyOrder, Checkpoints.KnownStatus, Increasing, Distinct, Checkpoints.Terminal;
    Checkpoints.ConstructIsValid(raw);
    NonBlanksOfDedupe(raw.leases);
    NonBlanksOfDedupe(raw.evidenceRefs);
    NonBlanksOfDedupe(raw.pendingSteps);
    NonBlanksOfDedupe(raw.retryHistory);
    if Checkpoints.Valid(x) && NormalizesTo(raw, x) {
      OrderedValid(raw.completedEffects, x.completedEffects);
      assert !Checkpoints.Refused(raw) && Checkpoints.Normalized(raw) == x;
    }
  }

  // What the reader has made of each member when it has made `x` of them all.
  ghost predicate ReadParts(p: Payload, x: Checkpoint, py: Python) {
    && RecordCodec.PlaceOf(p) == Some(Place(x.taskId, x.operationId, x.attemptId))
    && IdentityOf(p, IdentityIs, py) == Some(x.identity) && RevisionOf(p, Revision) == Some(x.revision)
    && ExternalOf(p, py) == Some(x.external) && EffectsOf(p, py).Some? && Orders(EffectsOf(p, py).value, x.completedEffects)
  }

  ghost predicate ReadLists(p: Payload, x: Checkpoint, py: Python) {
    ListsOf(p, py).Some? && var l := ListsOf(p, py).value;
      && Dedupe(l.leases) == x.leases && Dedupe(l.evidence) == x.evidenceRefs
      && Dedupe(l.pending) == x.pendingSteps && Dedupe(l.retries) == x.retryHistory
  }

  predicate ReadTexts(p: Payload, x: Checkpoint, py: Python) {
    && Get(p, ClaimCeiling) == Some(Str(Checkpoints.CHECKPOINT_CLAIM_CEILING)) && TextAt(p, Schema, py) == CHECKPOINT_SCHEMA
    && TextAt(p, StatusIs, py) == x.status && TextAt(p, Phase, py) == x.phase && TextAt(p, NextGate, py) == x.nextGate
    && TextAt(p, BlockedReason, py) == x.blockedReason && x.claimCeiling == Checkpoints.CHECKPOINT_CLAIM_CEILING
  }

  lemma DecodeIffRead(p: Payload, x: Checkpoint, py: Python)
    ensures Decode(p, py) == Some(x) <==> Checkpoints.Valid(x) && ReadParts(p, x, py) && ReadLists(p, x, py) && ReadTexts(p, x, py)
  {
    hide Get, TextAt, RecordCodec.PlaceOf, IdentityOf, EffectsOf, ExternalOf, ListsOf, RevisionOf, Checkpoints.Construct;
    hide Checkpoints.Valid, Orders, Dedupe;
    match (RecordCodec.PlaceOf(p), IdentityOf(p, IdentityIs, py), RevisionOf(p, Revision), ExternalOf(p, py), ListsOf(p, py), EffectsOf(p, py))
    case (Some(at), Some(i), Some(revision), Some(external), Some(lists), Some(es)) =>
      ConstructIff(Raw(p, py, at, i, revision, external, lists, es), x);
    case _ =>
  }

  lemma ReadTextsIff(p: Payload, x: Checkpoint, py: Python)
    requires x.claimCeiling == Checkpoints.CHECKPOINT_CLAIM_CEILING
    ensures ReadTexts(p, x, py) <==> DescribesTexts(p, x, py)
  {
    hide Get, TextAt, Reads;
    ReadsIff(p, Schema, CHECKPOINT_SCHEMA, py);
    ReadsIff(p, StatusIs, x.status, py);
    ReadsIff(p, Phase, x.phase, py);
    ReadsIff(p, NextGate, x.nextGate, py);
    ReadsIff(p, BlockedReason, x.blockedReason, py);
  }

  lemma ReadListsIff(p: Payload, x: Checkpoint, py: Python)
    ensures ReadLists(p, x, py) <==> DescribesLists(p, x, py)
  {
    hide Get, ListOf, Dedupe, Enumerates;
    EnumeratesIff(p, Leases, x.leases, py);
    EnumeratesIff(p, EvidenceRefs, x.evidenceRefs, py);
    EnumeratesIff(p, PendingSteps, x.pendingSteps, py);
    EnumeratesIff(p, RetryHistory, x.retryHistory, py);
  }

  lemma ReadPlaceIff(p: Payload, x: Checkpoint, py: Python)
    requires NonBlank(x.taskId) && NonBlank(x.operationId) && NonBlank(x.attemptId) && x.identity.Valid()
    requires Trimmed(x.taskId) && Trimmed(x.operationId) && Trimmed(x.attemptId) && Checkpoints.IdentityReadsBack(x.identity)
    ensures DescribesPlace(p, x, py) <==>
      && RecordCodec.PlaceOf(p) == Some(Place(x.taskId, x.operationId, x.attemptId))
      && IdentityOf(p, IdentityIs, py) == Some(x.identity) && RevisionOf(p, Revision) == Some(x.revision)
  {
    hide Get, Names, Required, NonBlank, Trimmed, Identifies, IdentityOf, Numbers, RevisionOf;
    NamesIff(p, TaskId, x.taskId);
    NamesIff(p, OperationId, x.operationId);
    NamesIff(p, AttemptId, x.attemptId);
    IdentifiesIff(p, IdentityIs, x.identity, py);
    NumbersIff(p, Revision, x.revision);
  }

  lemma PlainEffects(x: Checkpoint)
    requires Checkpoints.Valid(x) && Checkpoints.ReadsBack(x)
    ensures (forall e | e in x.completedEffects :: PlainEffect(e)) && Increasing(Checkpoints.Keys(x.completedEffects))
    ensures NonBlank(x.taskId) && NonBlank(x.operationId) && NonBlank(x.attemptId) && x.identity.Valid()
    ensures Trimmed(x.taskId) && Trimmed(x.operationId) && Trimmed(x.attemptId) && Checkpoints.IdentityReadsBack(x.identity)
    ensures x.claimCeiling == Checkpoints.CHECKPOINT_CLAIM_CEILING
  {
    hide NonBlank, Trimmed, Increasing;
    forall e | e in x.completedEffects ensures PlainEffect(e) {
      var i :| 0 <= i < |x.completedEffects| && x.completedEffects[i] == e;
    }
  }

  // A payload is decoded as `x` exactly when `x` is a record that reads back and the
  // payload describes it.
  lemma DecodeIffDescribes(p: Payload, x: Checkpoint, py: Python)
    ensures Decode(p, py) == Some(x) <==> Checkpoints.Valid(x) && Checkpoints.ReadsBack(x) && Describes(p, x, py)
  {
    hide Get, Decode, Checkpoints.Valid, Checkpoints.ReadsBack, ReadTexts, ReadLists, RecordCodec.PlaceOf, IdentityOf, RevisionOf;
    hide ExternalOf, EffectsOf, DescribesTexts, DescribesLists, DescribesPlace, Tracks, Shows, Orders, PlainEffect, Increasing;
    DecodedReadsBack(p, py);
    DecodeIffRead(p, x, py);
    if Checkpoints.Valid(x) && Checkpoints.ReadsBack(x) {
      PlainEffects(x);
      ReadTextsIff(p, x, py);
      ReadListsIff(p, x, py);
      ReadPlaceIff(p, x, py);
      TracksIff(p, x.external, py);
      ShowsIff(p, x.completedEffects, py);
    }
  }

  // ---- What was written describes what it was written from --------------------------------------

  // The payload says what the checkpoint's own body says.
  ghost predicate Says(p: Payload, c: Checkpoint) { forall f | Hashed(f) :: Get(p, f) == Some(Part(c, f)) }

  lemma WrittenSays(c: Checkpoint, sha: string -> string)
    ensures Says(ToDict(c, sha), c) && Get(ToDict(c, sha), CheckpointHash) == Some(Str(HashOf(c, sha)))
  {
    hide Object, HashOf, Get, Part;
  }

  lemma PaddedItself(s: string)
    ensures Padded(s, s)
  {
    assert Inside(s, 0, s);
  }

  lemma TextsRepeat(xs: seq<string>)
    requires Distinct(xs)
    ensures Repeats(Texts(xs).items, xs)
  {
    hide Texts;
  }

  lemma IdentityNamed(p: Payload, f: Field, i: Checkpoints.Identity, py: Python)
    requires Get(p, f) == Some(Obj(Object(IdentityMembers(i))))
    ensures Identifies(p, f, i, py)
  {
    hide Object, Padded, Name;
    PaddedItself(i.repository);
    PaddedItself(i.sourceRevision);
    PaddedItself(i.runtimeIdentity);
  }

  lemma EffectShown(e: Checkpoints.Effect, shown: string)
    ensures ShowsEffect(Obj(Object(EffectMembers(e))), e, shown)
  {
    hide Object, Padded, Name;
    PaddedItself(e.key);
    PaddedItself(e.receiptRef);
  }

  lemma EffectsShown(p: Payload, es: seq<Checkpoints.Effect>, py: Python)
    requires Get(p, CompletedEffects) == Some(EffectList(es))
    ensures Shows(p, es, py)
  {
    hide Get, Object, EffectMembers, ShowsEffect;
    var items := EffectList(es).items;
    forall i: nat | i < |es| ensures ShowsOneOf(items[i], es, py.shown(HashOfEffect(i))) && ShownAmong(es[i], items, py) {
      EffectShown(es[i], py.shown(HashOfEffect(i)));
    }
  }

  lemma ExternalTracked(p: Payload, m: map<string, string>, py: Python)
    requires Get(p, ExternalOperationIds) == Some(Obj(External(m)))
    ensures Tracks(p, m, py)
  {
    hide Get;
  }

  lemma TextsSaid(p: Payload, c: Checkpoint, py: Python)
    requires Says(p, c)
    ensures DescribesTexts(p, c, py) <==> c.claimCeiling == Checkpoints.CHECKPOINT_CLAIM_CEILING
  {
    hide Get, Part;
    TextParts(c);
    PlainParts(c);
  }

  lemma PlaceSaid(p: Payload, c: Checkpoint, py: Python)
    requires Says(p, c)
    ensures DescribesPlace(p, c, py)
  {
    hide Get, Part, Object, External, EffectList, Padded, Identifies, IdentityMembers;
    TextParts(c);
    NestedParts(c);
    PaddedItself(c.taskId);
    PaddedItself(c.operationId);
    PaddedItself(c.attemptId);
    IdentityNamed(p, IdentityIs, c.identity, py);
  }

  lemma ListsSaid(p: Payload, c: Checkpoint, py: Python)
    requires Says(p, c) && Checkpoints.Valid(c)
    ensures DescribesLists(p, c, py)
  {
    hide Get, Part, Texts, Repeats, NonBlank, Distinct, Checkpoints.KeysDistinct, Checkpoints.Keys, Checkpoints.KnownStatus;
    ListParts(c);
    TextsRepeat(c.leases);
    TextsRepeat(c.evidenceRefs);
    TextsRepeat(c.pendingSteps);
    TextsRepeat(c.retryHistory);
  }

  lemma SaysDescribes(p: Payload, c: Checkpoint, py: Python)
    requires Says(p, c) && Checkpoints.Valid(c)
    ensures Describes(p, c, py) <==> c.claimCeiling == Checkpoints.CHECKPOINT_CLAIM_CEILING
  {
    hide Get, DescribesTexts, DescribesPlace, DescribesLists, Tracks, Shows, Checkpoints.Valid, External, EffectList;
    hide Object, IdentityMembers, Part;
    NestedParts(c);
    TextsSaid(p, c, py);
    PlaceSaid(p, c, py);
    ListsSaid(p, c, py);
    ExternalTracked(p, c.external, py);
    EffectsShown(p, c.completedEffects, py);
  }

  // ---- Main results -----------------------------------------------------------------------

  lemma HashNotBlank(c: Checkpoint, sha: string -> string)
    requires Sound(sha)
    ensures NonBlank(HashOf(c, sha))
  {
  }

  // Whatever is changed in a payload, while it carries the hash of `x` it is read as `x`
  // or refused; it is read as `x` exactly when it still describes `x`, and `x` is a record
  // that any reader would accept.
  lemma TamperedIsRefused(p: Payload, x: Checkpoint, py: Python, sha: string -> string)
    requires Sound(sha) && Get(p, CheckpointHash) == Some(Str(HashOf(x, sha)))
    ensures FromDict(p, py, sha) ==
      if Checkpoints.Valid(x) && Checkpoints.ReadsBack(x) && Describes(p, x, py) then Some(x) else None
  {
    hide Get, HashOf, Decode, NonBlank, Checkpoints.Valid, Checkpoints.ReadsBack, Describes;
    DecodeIffDescribes(p, x, py);
    if Decode(p, py).Some? { HashNamesRecord(Decode(p, py).value, x, sha); }
    HashNotBlank(x, sha);
  }

  // A written checkpoint is read back equal exactly when its texts are trimmed and its
  // claim ceiling is the contract's; otherwise it is refused, never read as another record.
  lemma ReadBackEqualOrRefused(c: Checkpoint, py: Python, sha: string -> string)
    requires Sound(sha) && Checkpoints.Valid(c)
    ensures FromDict(ToDict(c, sha), py, sha) == if Checkpoints.ReadsBack(c) then Some(c) else None
  {
    hide Get, ToDict, HashOf, FromDict, Checkpoints.Valid, Describes, Says, Trimmed, Checkpoints.IdentityReadsBack;
    WrittenSays(c, sha);
    SaysDescribes(ToDict(c, sha), c, py);
    TamperedIsRefused(ToDict(c, sha), c, py, sha);
  }

  // So changing a plain text, or the revision to anything else, is always refused.
  lemma PlainChangeIsRefused(p: Payload, x: Checkpoint, f: Field, s: string, py: Python, sha: string -> string)
    requires Sound(sha) && Get(p, CheckpointHash) == Some(Str(HashOf(x, sha)))
    ensures f in {StatusIs, Phase, NextGate, BlockedReason, ClaimCeiling} && Get(p, f) == Some(Str(s)) && Str(s) != Part(x, f) ==>
      FromDict(p, py, sha) == None
    ensures Get(p, Revision).Some? && Get(p, Revision).value != Num(Int(x.revision)) ==> FromDict(p, py, sha) == None
  {
    hide FromDict, HashOf, Get, Checkpoints.Valid, DescribesLists, Tracks, Shows, Trimmed, Identifies, Names;
    TamperedIsRefused(p, x, py, sha);
    if Describes(p, x, py) && Checkpoints.ReadsBack(x) {
      ClaimsContract(x);
      if f in {StatusIs, Phase, NextGate, BlockedReason, ClaimCeiling} && Get(p, f) == Some(Str(s)) { PlainlyDescribed(p, x, f, s, py); }
    }
  }

  lemma PlainlyDescribed(p: Payload, x: Checkpoint, f: Field, s: string, py: Python)
    requires DescribesTexts(p, x, py) && x.claimCeiling == Checkpoints.CHECKPOINT_CLAIM_CEILING
    requires f in {StatusIs, Phase, NextGate, BlockedReason, ClaimCeiling} && Get(p, f) == Some(Str(s))
    ensures Str(s) == Part(x, f)
  {
    hide Get, Part;
    PlainParts(x);
  }

  // ---- One member changed under the kept hash ------------------------------------------------

  // What the payload says of one member.
  ghost predicate SaysOf(p: Payload, x: Checkpoint, f: Field, py: Python) {
    match f
    case Schema => Reads(p, f, CHECKPOINT_SCHEMA, py)
    case ClaimCeiling => Get(p, f) == Some(Str(Checkpoints.CHECKPOINT_CLAIM_CEILING))
    case StatusIs => Reads(p, f, x.status, py)
    case Phase => Reads(p, f, x.phase, py)
    case NextGate => Reads(p, f, x.nextGate, py)
    case BlockedReason => Reads(p, f, x.blockedReason, py)
    case TaskId => Names(p, f, x.taskId)
    case OperationId => Names(p, f, x.operationId)
    case AttemptId => Names(p, f, x.attemptId)
    case IdentityIs => Identifies(p, f, x.identity, py)
    case Revision => Numbers(p, f, x.revision)
    case Leases => Enumerates(p, f, x.leases, py)
    case EvidenceRefs => Enumerates(p, f, x.evidenceRefs, py)
    case PendingSteps => Enumerates(p, f, x.pendingSteps, py)
    case RetryHistory => Enumerates(p, f, x.retryHistory, py)
    case ExternalOperationIds => Tracks(p, x.external, py)
    case CompletedEffects => Shows(p, x.completedEffects, py)
    case _ => true
  }

  lemma TextsEach(p: Payload, x: Checkpoint, py: Python)
    ensures DescribesTexts(p, x, py) <==>
      && SaysOf(p, x, Schema, py) && SaysOf(p, x, ClaimCeiling, py) && SaysOf(p, x, StatusIs, py)
      && SaysOf(p, x, Phase, py) && SaysOf(p, x, NextGate, py) && SaysOf(p, x, BlockedReason, py)
  {
    hide Get, Reads;
  }

  lemma PlaceEach(p: Payload, x: Checkpoint, py: Python)
    ensures DescribesPlace(p, x, py) <==>
      && SaysOf(p, x, TaskId, py) && SaysOf(p, x, OperationId, py) && SaysOf(p, x, AttemptId, py)
      && SaysOf(p, x, IdentityIs, py) && SaysOf(p, x, Revision, py)
  {
    hide Get, Names, Identifies, Numbers;
  }

  lemma ListsEach(p: Payload, x: Checkpoint, py: Python)
    ensures DescribesLists(p, x, py) <==>
      && SaysOf(p, x, Leases, py) && SaysOf(p, x, EvidenceRefs, py)
      && SaysOf(p, x, PendingSteps, py) && SaysOf(p, x, RetryHistory, py)
  {
    hide Get, Enumerates;
  }

  lemma NestedEach(p: Payload, x: Checkpoint, py: Python)
    ensures Tracks(p, x.external, py) <==> SaysOf(p, x, ExternalOperationIds, py)
    ensures Shows(p, x.completedEffects, py) <==> SaysOf(p, x, CompletedEffects, py)
  {
    hide Get, Tracks, Shows;
  }

  // Describing a record is saying each member of it.
  lemma DescribesEach(p: Payload, x: Checkpoint, py: Python)
    ensures Describes(p, x, py) <==> forall f | Hashed(f) :: SaysOf(p, x, f, py)
  {
    hide SaysOf, DescribesTexts, DescribesPlace, DescribesLists, Tracks, Shows;
    TextsEach(p, x, py);
    PlaceEach(p, x, py);
    ListsEach(p, x, py);
    NestedEach(p, x, py);
  }

  lemma SaysOfMember(p: Payload, q: Payload, x: Checkpoint, f: Field, py: Python)
    requires Get(p, f) == Get(q, f)
    ensures SaysOf(p, x, f, py) <==> SaysOf(q, x, f, py)
  {
    hide Get, Repeats, Characters, Falsy, Dedupe, ShowsAll, PyStr, Padded, NamesIdentity, Tells, ArePairs;
  }

  function Changed(c: Checkpoint, f: Field, v: Value, sha: string -> string): Payload { ToDict(c, sha)[Name(f) := v] }

  lemma ChangedMembers(c: Checkpoint, f: Field, v: Value, sha: string -> string)
    ensures Get(Changed(c, f, v, sha), f) == Some(v)
    ensures forall g | g != f :: Get(Changed(c, f, v, sha), g) == Get(ToDict(c, sha), g)
  {
    hide Name, ToDict;
    NamesDiffer();
  }

  // With one member changed and the hash kept, a written record is read as before exactly
  // when that member still says the same; otherwise it is refused.
  lemma OneMemberChanged(c: Checkpoint, f: Field, v: Value, py: Python, sha: string -> string)
    requires Sound(sha) && Checkpoints.Valid(c) && Checkpoints.ReadsBack(c) && Hashed(f)
    ensures FromDict(Changed(c, f, v, sha), py, sha) == if SaysOf(Changed(c, f, v, sha), c, f, py) then Some(c) else None
  {
    hide ToDict, HashOf, FromDict, Checkpoints.Valid, Checkpoints.ReadsBack, Says, Describes, Get, SaysOf, Changed;
    var (p, q) := (Changed(c, f, v, sha), ToDict(c, sha));
    WrittenSays(c, sha);
    ClaimsContract(c);
    SaysDescribes(q, c, py);
    ChangedMembers(c, f, v, sha);
    DescribesEach(q, c, py);
    DescribesEach(p, c, py);
    forall g | Hashed(g) && g != f ensures SaysOf(p, c, g, py) { SaysOfMember(p, q, c, g, py); }
    TamperedIsRefused(p, c, py, sha);
  }

  lemma ClaimsContract(c: Checkpoint)
    requires Checkpoints.ReadsBack(c)
    ensures c.claimCeiling == Checkpoints.CHECKPOINT_CLAIM_CEILING
  {
    hide Trimmed;
  }

  // So white space around an identifying text is forgiven.
  lemma PaddingIsAccepted(c: Checkpoint, py: Python, sha: string -> string)
    requires Sound(sha) && Checkpoints.Valid(c) && Checkpoints.ReadsBack(c)
    ensures var p := Changed(c, TaskId, Str(" " + c.taskId), sha);
      p != ToDict(c, sha) && FromDict(p, py, sha) == Some(c)
  {
    hide ToDict, FromDict, Checkpoints.Valid, Checkpoints.ReadsBack, Get, Changed, Padded, Says;
    var v := Str(" " + c.taskId);
    OneMemberChanged(c, TaskId, v, py, sha);
    ChangedMembers(c, TaskId, v, sha);
    BlankPads(c.taskId);
    WrittenSays(c, sha);
    SaidTask(ToDict(c, sha), c);
    assert |" " + c.taskId| != |c.taskId|;
  }

  lemma SaidTask(q: Payload, c: Checkpoint)
    requires Says(q, c)
    ensures Get(q, TaskId) == Some(Str(c.taskId))
  {
    hide Get;
    assert Get(q, TaskId) == Some(Part(c, TaskId));
  }

  lemma BlankPads(s: string)
    ensures Padded(" " + s, s)
  {
    assert Inside(" " + s, 1, s);
  }

  function ListOfTexts(c: Checkpoint, f: Field): seq<string> {
    match f
    case Leases => c.leases
    case EvidenceRefs => c.evidenceRefs
    case PendingSteps => c.pendingSteps
    case _ => c.retryHistory
  }

  // An object is read for a list exactly when its keys are the list's texts in order,
  // whatever it holds under them.
  lemma ObjectForListIsRead(c: Checkpoint, f: Field, q: Payload, py: Python, sha: string -> string)
    requires Sound(sha) && Checkpoints.Valid(c) && Checkpoints.ReadsBack(c)
    requires f in {Leases, EvidenceRefs, PendingSteps, RetryHistory} && q != map[] && Fits(Changed(c, f, Obj(q), sha), py)
    ensures FromDict(Changed(c, f, Obj(q), sha), py, sha) == if py.keys(Top(f)) == ListOfTexts(c, f) then Some(c) else None
  {
    hide FromDict, Checkpoints.Valid, Checkpoints.ReadsBack, Get, Changed, Repeats, Fits, Dedupe, ListsKeys;
    OneMemberChanged(c, f, Obj(q), py, sha);
    ChangedMembers(c, f, Obj(q), sha);
    KeysListed(Changed(c, f, Obj(q), sha), f, q, py);
  }

  lemma KeysListed(p: Payload, f: Field, q: Payload, py: Python)
    requires Fits(p, py) && Get(p, f) == Some(Obj(q))
    ensures Dedupe(py.keys(Top(f))) == py.keys(Top(f))
  {
    hide Get;
    assert ListsKeys(py.keys(Top(f)), q);
  }

  // For the object of external operations a list of one pair is read, and even a text of
  // two characters in a list.
  lemma PairsForObjectAreRead(c: Checkpoint, k: string, t: string, py: Python, sha: string -> string)
    requires Sound(sha) && Checkpoints.Valid(c) && Checkpoints.ReadsBack(c) && c.external == map[k := t]
    ensures FromDict(Changed(c, ExternalOperationIds, Arr([Arr([Str(k), Str(t)])]), sha), py, sha) == Some(c)
    ensures |k| == 1 && |t| == 1 ==>
      FromDict(Changed(c, ExternalOperationIds, Arr([Str(k + t)]), sha), py, sha) == Some(c)
  {
    hide FromDict, Checkpoints.Valid, Checkpoints.ReadsBack, Get, Changed, Tells;
    PairIsRead(c, Arr([Str(k), Str(t)]), k, t, py, sha);
    if |k| == 1 && |t| == 1 {
      assert [(k + t)[0]] == k && [(k + t)[1]] == t;
      PairIsRead(c, Str(k + t), k, t, py, sha);
    }
  }

  lemma PairIsRead(c: Checkpoint, v: Value, k: string, t: string, py: Python, sha: string -> string)
    requires Sound(sha) && Checkpoints.Valid(c) && Checkpoints.ReadsBack(c) && c.external == map[k := t]
    requires PairOf(v, 0, py) == Some(KeyValue(Str(k), t))
    ensures FromDict(Changed(c, ExternalOperationIds, Arr([v]), sha), py, sha) == Some(c)
  {
    hide FromDict, Checkpoints.Valid, Checkpoints.ReadsBack, Get, Changed, Tells, PairOf;
    OneMemberChanged(c, ExternalOperationIds, Arr([v]), py, sha);
    ChangedMembers(c, ExternalOperationIds, Arr([v]), sha);
    OnePairTells(PairsOf([v], py).value, k, t);
  }

  lemma OnePairTells(ps: Pairs, k: string, t: string)
    requires ps == [KeyValue(Str(k), t)]
    ensures Tells(ps, map[k := t])
  {
    assert Decides(ps, 0) && KeyText(ps, 0) == k;
  }

  // And a list is read for a plain text exactly when the text is what `str` makes of it.
  lemma ListForTextIsRead(c: Checkpoint, items: seq<Value>, py: Python, sha: string -> string)
    requires Sound(sha) && Checkpoints.Valid(c) && Checkpoints.ReadsBack(c) && items != []
    ensures FromDict(Changed(c, Phase, Arr(items), sha), py, sha) == if c.phase == py.shown(Top(Phase)) then Some(c) else None
  {
    hide FromDict, Checkpoints.Valid, Checkpoints.ReadsBack, Get, Changed;
    OneMemberChanged(c, Phase, Arr(items), py, sha);
    ChangedMembers(c, Phase, Arr(items), sha);
  }
}
