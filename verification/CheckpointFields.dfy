// Field by field: what the constructor and the two ways to the next revision make of
// their arguments, and exactly which arguments they refuse.
module CheckpointFields {
  import opened Text
  import opened Checkpoints

  // ---- Lists without repeats -------------------------------------------------------

  // `x` occurs before `y` first does.
  ghost predicate Precedes(xs: seq<string>, x: string, y: string) {
    exists k | 0 <= k < |xs| :: xs[k] == x && y !in xs[..k + 1]
  }

  // The texts of `xs` once each, in the order of their first occurrences.
  ghost predicate OnceEach(xs: seq<string>, r: seq<string>) {
    && Distinct(r) && (forall x :: x in r <==> x in xs)
    && forall i, j | 0 <= i < j < |r| :: Precedes(xs, r[i], r[j])
  }

  lemma PrecedesLonger(xs: seq<string>, z: string, x: string, y: string)
    requires Precedes(xs, x, y)
    ensures Precedes(xs + [z], x, y)
  {
    var k :| 0 <= k < |xs| && xs[k] == x && y !in xs[..k + 1];
    assert (xs + [z])[k] == x && (xs + [z])[..k + 1] == xs[..k + 1];
  }

  lemma PrecedesNew(xs: seq<string>, x: string, z: string)
    requires x in xs && z !in xs
    ensures Precedes(xs + [z], x, z)
  {
    var k :| 0 <= k < |xs| && xs[k] == x;
    assert (xs + [z])[k] == x && (xs + [z])[..k + 1] == xs[..k + 1];
  }

  lemma {:induction false} DedupeOnceEach(xs: seq<string>)
    ensures OnceEach(xs, Dedupe(xs))
  {
    hide Precedes, Distinct;
    if xs != [] {
      var (front, last, r) := (xs[..|xs| - 1], xs[|xs| - 1], Dedupe(xs));
      DedupeOnceEach(front);
      assert xs == front + [last];
      forall i, j | 0 <= i < j < |r| ensures Precedes(xs, r[i], r[j]) {
        if j < |Dedupe(front)| {
          PrecedesLonger(front, last, r[i], r[j]);
        } else {
          assert r[i] in Dedupe(front);
          PrecedesNew(front, r[i], last);
        }
      }
    }
  }

  // ---- Construction ------------------------------------------------------------------

  predicate SomeBlank(xs: seq<string>) { exists x | x in xs :: !NonBlank(x) }

  lemma BlankIff(xs: seq<string>)
    ensures NonBlanks(xs) <==> !SomeBlank(xs)
  {
    hide NonBlank;
    forall i | 0 <= i < |xs| ensures xs[i] in xs {}
  }

  // The identity and every effect carry the texts they must.
  predicate Identified(i: Identity) {
    && NonBlank(i.repository) && NonBlank(i.sourceRevision) && NonBlank(i.runtimeIdentity)
    && (i.targetRevision == "" || NonBlank(i.targetRevision))
  }

  predicate Performed(es: seq<Effect>) {
    && (forall e | e in es :: NonBlank(e.key) && NonBlank(e.receiptRef) && (e.effectHash == "" || NonBlank(e.effectHash)))
    && forall i, j | 0 <= i < j < |es| :: es[i].key != es[j].key
  }

  lemma PerformedIff(es: seq<Effect>)
    ensures Performed(es) <==> (forall i | 0 <= i < |es| :: es[i].Valid()) && KeysDistinct(es)
  {
    hide NonBlank;
    assert forall i | 0 <= i < |es| :: es[i] in es;
  }

  // The constructor accepts exactly the arguments that the contract of a checkpoint allows.
  lemma ConstructAccepts(raw: Checkpoint)
    ensures Construct(raw).Some? <==>
      && NonBlank(raw.taskId) && NonBlank(raw.operationId) && NonBlank(raw.attemptId) && Identified(raw.identity)
      && raw.revision >= 1
      && raw.status in {"RUNNING", "WAITING_APPROVAL", "WAITING_EXTERNAL", "RECONCILE", "COMPLETED", "FAILED"}
      && !SomeBlank(raw.leases) && !SomeBlank(raw.evidenceRefs) && !SomeBlank(raw.pendingSteps) && !SomeBlank(raw.retryHistory)
      && Performed(raw.completedEffects)
      && (raw.status in {"COMPLETED", "FAILED"} ==> raw.pendingSteps == [])
  {
    hide NonBlank, NonBlanks, SomeBlank, KeysDistinct, Performed;
    BlankIff(raw.leases);
    BlankIff(raw.evidenceRefs);
    BlankIff(raw.pendingSteps);
    BlankIff(raw.retryHistory);
    PerformedIff(raw.completedEffects);
  }

  // What it makes of the arguments it accepts: the lists without their repeats, the effects
  // in the order of their keys, everything else as given.
  lemma ConstructMakes(raw: Checkpoint)
    requires Construct(raw).Some?
    ensures var c := Construct(raw).value;
      && OnceEach(raw.leases, c.leases) && OnceEach(raw.evidenceRefs, c.evidenceRefs)
      && OnceEach(raw.pendingSteps, c.pendingSteps) && OnceEach(raw.retryHistory, c.retryHistory)
      && Increasing(Keys(c.completedEffects)) && (forall e :: e in c.completedEffects <==> e in raw.completedEffects)
      && c.taskId == raw.taskId && c.operationId == raw.operationId && c.attemptId == raw.attemptId
      && c.identity == raw.identity && c.revision == raw.revision && c.status == raw.status && c.phase == raw.phase
      && c.nextGate == raw.nextGate && c.external == raw.external && c.blockedReason == raw.blockedReason
      && c.claimCeiling == raw.claimCeiling
  {
    hide OnceEach, Increasing, InKeyOrder, Dedupe, KnownStatus, NonBlanks, NonBlank;
    DedupeOnceEach(raw.leases);
    DedupeOnceEach(raw.evidenceRefs);
    DedupeOnceEach(raw.pendingSteps);
    DedupeOnceEach(raw.retryHistory);
    InKeyOrderSorts(raw.completedEffects);
  }

  // ---- `advanced` --------------------------------------------------------------------------

  // `d` holds what was given, or what was there before.
  predicate Takes<T(==)>(given: Option<T>, before: T, after: T) { after == (if given.Some? then given.value else before) }

  predicate Overrides(before: map<string, string>, given: map<string, string>, after: map<string, string>) {
    && after.Keys == before.Keys + given.Keys
    && forall k | k in after :: after[k] == (if k in given then given[k] else before[k])
  }

  // The entry trimmed, at the end, unless there is none or it is there already.
  predicate Retried(before: seq<string>, entry: string, after: seq<string>) {
    if entry == "" || Strip(entry) in before then after == before else after == before + [Strip(entry)]
  }

  lemma OnceEachItself(xs: seq<string>, r: seq<string>)
    requires OnceEach(xs, r) && Distinct(xs)
    ensures r == xs
  {
    DedupeOnceEach(xs);
    OnceEachUnique(xs, r, Dedupe(xs));
  }

  lemma NotBefore(xs: seq<string>, x: string, y: string)
    requires Precedes(xs, x, y)
    ensures !Precedes(xs, y, x)
  {
  }

  // Only one list is that.
  lemma {:induction false} OnceEachUnique(xs: seq<string>, r: seq<string>, t: seq<string>)
    requires OnceEach(xs, r) && OnceEach(xs, t)
    ensures r == t
  {
    SameMembers(r, t);
    forall i | 0 <= i < |r| ensures i < |t| && r[i] == t[i] { SamePlace(xs, r, t, i); }
  }

  lemma SameMembers(r: seq<string>, t: seq<string>)
    requires Distinct(r) && Distinct(t) && forall x :: x in r <==> x in t
    ensures |r| == |t|
  {
    DistinctCount(r);
    DistinctCount(t);
    assert (set x | x in r) == (set x | x in t);
  }

  lemma {:induction false} DistinctCount(xs: seq<string>)
    requires Distinct(xs)
    ensures |set x | x in xs| == |xs|
  {
    if xs == [] {
      assert (set x | x in xs) == {};
    } else {
      var (front, last) := (xs[..|xs| - 1], xs[|xs| - 1]);
      assert xs == front + [last];
      DistinctSnoc(front, last);
      DistinctCount(front);
      assert (set x | x in xs) == (set x | x in front) + {last};
    }
  }

  lemma {:induction false} SamePlace(xs: seq<string>, r: seq<string>, t: seq<string>, i: nat)
    requires OnceEach(xs, r) && OnceEach(xs, t) && |r| == |t| && i < |r|
    ensures r[i] == t[i]
  {
    hide Precedes;
    forall h | 0 <= h < i ensures r[h] == t[h] { SamePlace(xs, r, t, h); }
    if r[i] != t[i] {
      assert r[i] in t && t[i] in r;
      var j :| 0 <= j < |t| && t[j] == r[i];
      var l :| 0 <= l < |r| && r[l] == t[i];
      assert j > i && l > i;
      assert Precedes(xs, t[i], t[j]) && Precedes(xs, r[i], r[l]);
      NotBefore(xs, r[i], t[i]);
    }
  }

  // Whatever `advanced` is given takes the place of what was there, or is added to it; what
  // it is not given stays.
  lemma AdvancedFields(c: Checkpoint, a: Advance)
    requires Valid(c) && Advanced(c, a).Some?
    ensures var d := Advanced(c, a).value;
      && d.taskId == c.taskId && d.operationId == c.operationId && d.attemptId == c.attemptId && d.identity == c.identity
      && d.revision == c.revision + 1 && d.leases == c.leases && d.completedEffects == c.completedEffects
      && d.claimCeiling == "RUNTIME_SESSION_CHECKPOINT_EXECUTION_STATE_ONLY"
      && Takes(if a.status == "" then None else Some(a.status), c.status, d.status)
      && Takes(a.phase, c.phase, d.phase) && Takes(a.nextGate, c.nextGate, d.nextGate)
      && Takes(a.blockedReason, c.blockedReason, d.blockedReason)
      && (if a.pendingSteps.Some? then OnceEach(a.pendingSteps.value, d.pendingSteps) else d.pendingSteps == c.pendingSteps)
      && Overrides(c.external, a.external, d.external)
      && OnceEach(c.evidenceRefs + a.evidenceRefs, d.evidenceRefs) && Retried(c.retryHistory, a.retryEntry, d.retryHistory)
  {
    hide OnceEach, Strip, Valid, Construct, NextOf, Dedupe, Retried;
    var (raw, d) := (AdvanceRaw(c, a), Advanced(c, a).value);
    AdvancedIsNext(c, a);
    ConstructMakes(raw);
    ValidLists(c);
    MergedEvidence(c.evidenceRefs, a.evidenceRefs, d.evidenceRefs);
    AddedRetry(c.retryHistory, a.retryEntry, d.retryHistory);
  }

  lemma MergedEvidence(before: seq<string>, added: seq<string>, r: seq<string>)
    requires OnceEach(if added != [] then Dedupe(before + added) else before, r)
    ensures OnceEach(before + added, r)
  {
    hide OnceEach;
    if added == [] {
      assert before + added == before;
    } else {
      DedupeOnceEach(before + added);
      OnceEachItself(Dedupe(before + added), r);
    }
  }

  lemma AddedRetry(before: seq<string>, entry: string, r: seq<string>)
    requires Distinct(before) && OnceEach(if entry != "" then before + [Strip(entry)] else before, r)
    ensures Retried(before, entry, r)
  {
    hide OnceEach, Strip, Distinct;
    if entry == "" {
      OnceEachItself(before, r);
    } else {
      var xs := before + [Strip(entry)];
      DedupeOnceEach(xs);
      OnceEachUnique(xs, r, Dedupe(xs));
      assert xs[..|xs| - 1] == before;
    }
  }

  lemma ValidLists(c: Checkpoint)
    requires Valid(c)
    ensures Distinct(c.leases) && Distinct(c.pendingSteps) && Distinct(c.evidenceRefs) && Distinct(c.retryHistory)
    ensures forall r | OnceEach(c.leases, r) :: r == c.leases
    ensures forall r | OnceEach(c.pendingSteps, r) :: r == c.pendingSteps
    ensures forall r | OnceEach(c.retryHistory, r) :: r == c.retryHistory
    ensures forall r | OnceEach(c.evidenceRefs, r) :: r == c.evidenceRefs
  {
    hide OnceEach, Increasing, NonBlank, KnownStatus;
    forall r | OnceEach(c.leases, r) ensures r == c.leases { OnceEachItself(c.leases, r); }
    forall r | OnceEach(c.pendingSteps, r) ensures r == c.pendingSteps { OnceEachItself(c.pendingSteps, r); }
    forall r | OnceEach(c.retryHistory, r) ensures r == c.retryHistory { OnceEachItself(c.retryHistory, r); }
    forall r | OnceEach(c.evidenceRefs, r) ensures r == c.evidenceRefs { OnceEachItself(c.evidenceRefs, r); }
  }

  // It refuses exactly a blank retry entry, a status there is none of, a blank evidence
  // reference or pending step, and an end with steps still pending.
  lemma AdvancedRefuses(c: Checkpoint, a: Advance)
    requires Valid(c)
    ensures Advanced(c, a).None? <==>
      || (a.retryEntry != "" && !NonBlank(a.retryEntry))
      || a.status !in {"", "RUNNING", "WAITING_APPROVAL", "WAITING_EXTERNAL", "RECONCILE", "COMPLETED", "FAILED"}
      || SomeBlank(a.evidenceRefs) || (a.pendingSteps.Some? && SomeBlank(a.pendingSteps.value))
      || ((a.status in {"COMPLETED", "FAILED"} || (a.status == "" && c.status in {"COMPLETED", "FAILED"}))
          && (if a.pendingSteps.Some? then a.pendingSteps.value else c.pendingSteps) != [])
  {
    hide Construct, NonBlank, SomeBlank, Performed, Identified, Strip, Dedupe;
    ConstructAccepts(AdvanceRaw(c, a));
    ConstructIsValid(c);
    ConstructAccepts(c);
    BlankMerged(c.evidenceRefs, a.evidenceRefs);
    if a.retryEntry != "" && NonBlank(a.retryEntry) { BlankRetried(c.retryHistory, a.retryEntry); }
    hide Valid;
  }

  lemma BlankMerged(before: seq<string>, added: seq<string>)
    requires !SomeBlank(before)
    ensures SomeBlank(if added != [] then Dedupe(before + added) else before) <==> SomeBlank(added)
  {
    hide NonBlank;
    assert forall x :: x in before + added <==> x in before || x in added;
  }

  lemma BlankRetried(before: seq<string>, entry: string)
    requires !SomeBlank(before) && NonBlank(entry)
    ensures !SomeBlank(before + [Strip(entry)])
  {
    hide NonBlank;
    NonBlankIffStrips(entry);
    NonBlankIffStrips(Strip(entry));
  }

  // ---- `with_effect` --------------------------------------------------------------------

  // Recording an effect changes the effects and the revision, and nothing else but that the
  // record claims no more than the contract does.
  lemma WithEffectFields(c: Checkpoint, e: Effect)
    requires Valid(c) && e.Valid() && !c.HasEffect(e.key)
    ensures WithEffect(c, e).Some?
    ensures var d := WithEffect(c, e).value;
      && d.completedEffects != c.completedEffects && e in d.completedEffects && d.revision == c.revision + 1
      && d.claimCeiling == "RUNTIME_SESSION_CHECKPOINT_EXECUTION_STATE_ONLY"
      && d.(completedEffects := c.completedEffects, revision := c.revision, claimCeiling := c.claimCeiling) == c
  {
    hide OnceEach, Valid, Construct, NextOf;
    WithEffectIsNext(c, e);
    HeldKey(c.completedEffects, e);
    ConstructMakes(EffectRaw(c, e));
    ValidLists(c);
  }

  lemma HeldKey(es: seq<Effect>, e: Effect)
    ensures e in es ==> e.key in Keys(es)
  {
    if i :| 0 <= i < |es| && es[i] == e { assert Keys(es)[i] == e.key; }
  }
}
