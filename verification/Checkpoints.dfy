// The workflow checkpoint record: construction, the two ways to derive the next
// revision, and what each keeps.
module Checkpoints {
  import opened Text

  const RUNNING := "RUNNING"
  const WAITING_APPROVAL := "WAITING_APPROVAL"
  const WAITING_EXTERNAL := "WAITING_EXTERNAL"
  const RECONCILE := "RECONCILE"
  const COMPLETED := "COMPLETED"
  const FAILED := "FAILED"
  const CHECKPOINT_CLAIM_CEILING := "RUNTIME_SESSION_CHECKPOINT_EXECUTION_STATE_ONLY"

  predicate KnownStatus(s: string) {
    s in {RUNNING, WAITING_APPROVAL, WAITING_EXTERNAL, RECONCILE, COMPLETED, FAILED}
  }

  predicate Terminal(s: string) { s == COMPLETED || s == FAILED }

  datatype Identity = Identity(
    repository: string, sourceRevision: string, runtimeIdentity: string, targetRevision: string)
  {
    predicate Valid() {
      && NonBlank(repository) && NonBlank(sourceRevision) && NonBlank(runtimeIdentity)
      && (targetRevision != "" ==> NonBlank(targetRevision))
    }
  }

  datatype Effect = Effect(key: string, receiptRef: string, effectHash: string)
  {
    predicate Valid() {
      NonBlank(key) && NonBlank(receiptRef) && (effectHash != "" ==> NonBlank(effectHash))
    }
  }

  datatype Checkpoint = Checkpoint(
    taskId: string, operationId: string, attemptId: string, identity: Identity,
    revision: int, status: string, phase: string, nextGate: string,
    external: map<string, string>, leases: seq<string>, evidenceRefs: seq<string>,
    completedEffects: seq<Effect>, pendingSteps: seq<string>, retryHistory: seq<string>,
    blockedReason: string, claimCeiling: string)
  {
    predicate HasEffect(key: string) { key in Keys(completedEffects) }
  }

  // ---- Effects in key order -------------------------------------------------------

  function Keys(es: seq<Effect>): (ks: seq<string>)
    ensures |ks| == |es| && forall i | 0 <= i < |es| :: ks[i] == es[i].key
  {
    seq(|es|, i requires 0 <= i < |es| => es[i].key)
  }

  predicate KeysDistinct(es: seq<Effect>) { Distinct(Keys(es)) }

  function WithKey(es: seq<Effect>, k: string): (e: Effect)
    requires k in Keys(es)
    ensures e in es && e.key == k
  {
    if es[0].key == k then es[0]
    else
      assert k in Keys(es[1..]) by {
        var i :| 0 <= i < |es| && Keys(es)[i] == k;
        assert Keys(es[1..])[i - 1] == k;
      }
      WithKey(es[1..], k)
  }

  // `tuple(sorted(effects, key=lambda e: e.effect_key))` on distinct keys.
  function InKeyOrder(es: seq<Effect>): seq<Effect> {
    Picks(es, Sorted(set k | k in Keys(es)))
  }

  function Picks(es: seq<Effect>, ks: seq<string>): (r: seq<Effect>)
    requires forall k | k in ks :: k in Keys(es)
    ensures |r| == |ks| && forall i | 0 <= i < |ks| :: r[i] in es && r[i].key == ks[i]
  {
    if ks == [] then [] else [WithKey(es, ks[0])] + Picks(es, ks[1..])
  }

  lemma InKeyOrderSorts(es: seq<Effect>)
    requires KeysDistinct(es)
    ensures Increasing(Keys(InKeyOrder(es)))
    ensures forall e :: e in InKeyOrder(es) <==> e in es
  {
    var ks := Sorted(set k | k in Keys(es));
    var r := InKeyOrder(es);
    assert Keys(r) == ks;
    forall e | e in es ensures e in r {
      var i :| 0 <= i < |es| && es[i] == e;
      assert Keys(es)[i] in ks;
      var j :| 0 <= j < |ks| && ks[j] == e.key;
      SameKeySameEffect(es, r[j], e);
    }
  }

  lemma PicksOwnKeys(es: seq<Effect>)
    requires KeysDistinct(es)
    ensures Picks(es, Keys(es)) == es
  {
    var r := Picks(es, Keys(es));
    forall i | 0 <= i < |es| ensures r[i] == es[i] { SameKeySameEffect(es, r[i], es[i]); }
  }

  lemma SortedKeys(ks: seq<string>)
    requires Increasing(ks)
    ensures Sorted(set k | k in ks) == ks
  {
    IncreasingUnique(Sorted(set k | k in ks), ks);
  }

  lemma InKeyOrderKeeps(es: seq<Effect>)
    requires Increasing(Keys(es))
    ensures KeysDistinct(es) && InKeyOrder(es) == es
  {
    IncreasingIsDistinct(Keys(es));
    SortedKeys(Keys(es));
    PicksOwnKeys(es);
  }

  lemma SameKeySameEffect(es: seq<Effect>, a: Effect, b: Effect)
    requires KeysDistinct(es) && a in es && b in es && a.key == b.key
    ensures a == b
  {
    var i :| 0 <= i < |es| && es[i] == a;
    var j :| 0 <= j < |es| && es[j] == b;
    assert Keys(es)[i] == Keys(es)[j];
  }

  lemma IncreasingIsDistinct(keys: seq<string>)
    requires Increasing(keys)
    ensures Distinct(keys)
  {
    forall i, j | 0 <= i < j < |keys| ensures keys[i] != keys[j] { LessTotal(keys[i], keys[j]); }
  }

  // ---- Construction ----------------------------------------------------------------

  predicate NonBlanks(xs: seq<string>) { forall i | 0 <= i < |xs| :: NonBlank(xs[i]) }

  // A constructed checkpoint.
  predicate Valid(c: Checkpoint) {
    && NonBlank(c.taskId) && NonBlank(c.operationId) && NonBlank(c.attemptId) && c.identity.Valid()
    && c.revision >= 1 && KnownStatus(c.status)
    && NonBlanks(c.leases) && NonBlanks(c.evidenceRefs) && NonBlanks(c.pendingSteps) && NonBlanks(c.retryHistory)
    && Distinct(c.leases) && Distinct(c.evidenceRefs) && Distinct(c.pendingSteps) && Distinct(c.retryHistory)
    && (forall i | 0 <= i < |c.completedEffects| :: c.completedEffects[i].Valid())
    && Increasing(Keys(c.completedEffects))
    && (Terminal(c.status) ==> c.pendingSteps == [])
  }

  // A record whose durable text is read back as it was written: its identifying
  // texts carry no surrounding white space and its claim ceiling is the contract's.
  predicate ReadsBack(c: Checkpoint) {
    && Trimmed(c.taskId) && Trimmed(c.operationId) && Trimmed(c.attemptId) && IdentityReadsBack(c.identity)
    && (forall i | 0 <= i < |c.completedEffects| ::
      Trimmed(c.completedEffects[i].key) && Trimmed(c.completedEffects[i].receiptRef))
    && c.claimCeiling == CHECKPOINT_CLAIM_CEILING
  }

  predicate IdentityReadsBack(i: Identity) {
    Trimmed(i.repository) && Trimmed(i.sourceRevision) && Trimmed(i.runtimeIdentity)
  }

  // `WorkflowCheckpoint(...)`: validated and normalized, or refused.
  function Construct(raw: Checkpoint): Option<Checkpoint> {
    if Refused(raw) then None else Some(Normalized(raw))
  }

  predicate Refused(raw: Checkpoint) {
    || !NonBlank(raw.taskId) || !NonBlank(raw.operationId) || !NonBlank(raw.attemptId) || !raw.identity.Valid()
    || raw.revision < 1 || !KnownStatus(raw.status)
    || !NonBlanks(raw.leases) || !NonBlanks(raw.evidenceRefs)
    || !NonBlanks(raw.pendingSteps) || !NonBlanks(raw.retryHistory)
    || (exists i | 0 <= i < |raw.completedEffects| :: !raw.completedEffects[i].Valid())
    || !KeysDistinct(raw.completedEffects)
    || (Terminal(raw.status) && raw.pendingSteps != [])
  }

  function Normalized(raw: Checkpoint): Checkpoint {
    raw.(
      leases := Dedupe(raw.leases), evidenceRefs := Dedupe(raw.evidenceRefs),
      pendingSteps := Dedupe(raw.pendingSteps), retryHistory := Dedupe(raw.retryHistory),
      completedEffects := InKeyOrder(raw.completedEffects))
  }

  lemma DedupeNonBlanks(xs: seq<string>)
    requires NonBlanks(xs)
    ensures NonBlanks(Dedupe(xs))
  {
    var r := Dedupe(xs);
    forall i | 0 <= i < |r| ensures NonBlank(r[i]) { assert r[i] in xs; }
  }

  // Construction yields valid records, and a valid record constructs to itself.
  lemma ConstructIsValid(raw: Checkpoint)
    ensures !Refused(raw) ==> Valid(Normalized(raw))
    ensures Valid(raw) ==> Construct(raw) == Some(raw)
  {
    if Valid(raw) { InKeyOrderKeeps(raw.completedEffects); }
    if !Refused(raw) {
      DedupeNonBlanks(raw.leases);
      DedupeNonBlanks(raw.evidenceRefs);
      DedupeNonBlanks(raw.pendingSteps);
      DedupeNonBlanks(raw.retryHistory);
      InKeyOrderSorts(raw.completedEffects);
      var es := InKeyOrder(raw.completedEffects);
      forall i | 0 <= i < |es| ensures es[i].Valid() { assert es[i] in raw.completedEffects; }
    }
  }

  // ---- The next revision --------------------------------------------------------------

  datatype Advance = Advance(
    status: string, phase: Option<string>, nextGate: Option<string>, pendingSteps: Option<seq<string>>,
    blockedReason: Option<string>, retryEntry: string, external: map<string, string>, evidenceRefs: seq<string>)

  function Or<T>(o: Option<T>, d: T): T { match o case None => d case Some(x) => x }

  function Advanced(c: Checkpoint, a: Advance): Option<Checkpoint> {
    if a.retryEntry != "" && !NonBlank(a.retryEntry) then None
    else Construct(AdvanceRaw(c, a))
  }

  function AdvanceRaw(c: Checkpoint, a: Advance): Checkpoint {
    Checkpoint(
      c.taskId, c.operationId, c.attemptId, c.identity, c.revision + 1,
      if a.status != "" then a.status else c.status,
      Or(a.phase, c.phase), Or(a.nextGate, c.nextGate), c.external + a.external, c.leases,
      if a.evidenceRefs != [] then Dedupe(c.evidenceRefs + a.evidenceRefs) else c.evidenceRefs,
      c.completedEffects, Or(a.pendingSteps, c.pendingSteps),
      if a.retryEntry != "" then c.retryHistory + [Strip(a.retryEntry)] else c.retryHistory,
      Or(a.blockedReason, c.blockedReason), CHECKPOINT_CLAIM_CEILING)
  }

  function WithEffect(c: Checkpoint, e: Effect): Option<Checkpoint> {
    if !e.Valid() then None
    else if c.HasEffect(e.key) then Some(c)
    else Construct(EffectRaw(c, e))
  }

  function EffectRaw(c: Checkpoint, e: Effect): Checkpoint {
    c.(revision := c.revision + 1, completedEffects := c.completedEffects + [e],
      claimCeiling := CHECKPOINT_CLAIM_CEILING)
  }

  // What every derived revision owes the one it was derived from.
  ghost predicate Extends(c: Checkpoint, d: Checkpoint) {
    && d.taskId == c.taskId && d.attemptId == c.attemptId
    && d.operationId == c.operationId && d.identity == c.identity
    && (forall e | e in c.completedEffects :: e in d.completedEffects)
  }

  // The revision after `c` that the derivations can produce.
  ghost predicate NextOf(c: Checkpoint, d: Checkpoint) {
    && Valid(d) && Extends(c, d) && d.revision == c.revision + 1
    && d.leases == c.leases
    && (forall r | r in c.evidenceRefs :: r in d.evidenceRefs)
    && (forall r | r in c.retryHistory :: r in d.retryHistory)
    && c.external.Keys <= d.external.Keys
  }

  // `advanced` succeeds or refuses; when it succeeds it forgets no effect, evidence
  // or retry, and changes neither identity nor effects.
  lemma AdvancedIsNext(c: Checkpoint, a: Advance)
    requires Valid(c) && Advanced(c, a).Some?
    ensures NextOf(c, Advanced(c, a).value)
    ensures Advanced(c, a).value.completedEffects == c.completedEffects
  {
    InKeyOrderKeeps(c.completedEffects);
    ConstructIsValid(AdvanceRaw(c, a));
  }

  // `with_effect` never refuses a valid effect. A known key changes nothing, not even
  // the revision; a new key adds that effect and no other.
  lemma WithEffectIsNext(c: Checkpoint, e: Effect)
    requires Valid(c) && e.Valid()
    ensures WithEffect(c, e).Some?
    ensures var d := WithEffect(c, e).value;
      if c.HasEffect(e.key) then d == c else NextOf(c, d) && OnlyAdds(c.completedEffects, e, d.completedEffects)
  {
    if !c.HasEffect(e.key) {
      NewEffectAccepted(c, e);
      NewEffectIsNext(c, e);
    }
    hide Valid, Refused, Normalized, NextOf, OnlyAdds, EffectRaw;
  }

  lemma NewEffectIsNext(c: Checkpoint, e: Effect)
    requires Valid(c) && !Refused(EffectRaw(c, e)) && KeysDistinct(c.completedEffects + [e])
    ensures NextOf(c, Normalized(EffectRaw(c, e)))
    ensures OnlyAdds(c.completedEffects, e, Normalized(EffectRaw(c, e)).completedEffects)
  {
    hide Valid, Refused, InKeyOrder, KeysDistinct;
    InKeyOrderSorts(c.completedEffects + [e]);
    ConstructIsValid(EffectRaw(c, e));
    AppendAdds(c.completedEffects, e);
    ValidListsAreDistinct(c);
  }

  lemma ValidListsAreDistinct(c: Checkpoint)
    requires Valid(c)
    ensures Dedupe(c.leases) == c.leases && Dedupe(c.evidenceRefs) == c.evidenceRefs
    ensures Dedupe(c.pendingSteps) == c.pendingSteps && Dedupe(c.retryHistory) == c.retryHistory
  {
  }

  lemma AppendAdds(es: seq<Effect>, e: Effect)
    ensures forall x :: x in es + [e] <==> x in es || x == e
  {
  }

  ghost predicate OnlyAdds(before: seq<Effect>, e: Effect, after: seq<Effect>) {
    forall x :: x in after <==> x in before || x == e
  }

  lemma NewEffectAccepted(c: Checkpoint, e: Effect)
    requires Valid(c) && e.Valid() && !c.HasEffect(e.key)
    ensures !Refused(EffectRaw(c, e)) && KeysDistinct(c.completedEffects + [e])
  {
    NewKeyDistinct(c.completedEffects, e);
  }

  lemma DistinctAppend(xs: seq<string>, x: string)
    requires Distinct(xs) && x !in xs
    ensures Distinct(xs + [x])
  {
  }

  lemma NewKeyDistinct(es: seq<Effect>, e: Effect)
    requires Increasing(Keys(es)) && e.key !in Keys(es)
    ensures KeysDistinct(es + [e])
  {
    IncreasingIsDistinct(Keys(es));
    DistinctAppend(Keys(es), e.key);
    assert Keys(es + [e]) == Keys(es) + [e.key];
  }
}
