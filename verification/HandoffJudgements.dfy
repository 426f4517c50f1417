// Which judgement a handoff and a checkpoint get, and for which reason: the first check, in
// the fixed order, that does not pass.
module HandoffJudgements {
  import opened Text
  import opened CanonicalText
  import opened Checkpoints
  import opened Handoffs
  import opened CheckpointFields

  // ---- Canonical fence references ------------------------------------------------------

  const PREFIXES := [
    "urn:nexus:fence:", "urn:nexus:claim:", "fence:", "fence-receipt:", "fence-receipt-", "fence_receipt:", "fence-",
    "claim_fence:", "claim-fence:", "claim:"]

  // The first prefix the text begins with has something after it.
  predicate FenceForm(s: string) { Prefixed(s, PREFIXES) }

  predicate Prefixed(s: string, prefixes: seq<string>) {
    exists k | 0 <= k < |prefixes| :: prefixes[k] < s && forall j | 0 <= j < k :: !(prefixes[j] <= s)
  }

  lemma {:induction false} MatchedFirst(ref: string, prefixes: seq<string>)
    ensures MatchesFence(ref, prefixes) <==>
      exists k | 0 <= k < |prefixes| :: prefixes[k] <= ref && NonBlank(ref[|prefixes[k]|..]) && forall j | 0 <= j < k :: !(prefixes[j] <= ref)
  {
    hide NonBlank;
    if prefixes != [] {
      var rest := prefixes[1..];
      MatchedFirst(ref, rest);
      if k :| 0 <= k < |rest| && rest[k] <= ref && NonBlank(ref[|rest[k]|..]) && forall j | 0 <= j < k :: !(rest[j] <= ref) {
        if !(prefixes[0] <= ref) {
          assert prefixes[k + 1] == rest[k];
          forall j | 0 <= j < k + 1 ensures !(prefixes[j] <= ref) { if j > 0 { assert prefixes[j] == rest[j - 1]; } }
        }
      }
      if k :| 0 <= k < |prefixes| && prefixes[k] <= ref && NonBlank(ref[|prefixes[k]|..]) && forall j | 0 <= j < k :: !(prefixes[j] <= ref) {
        if k > 0 {
          assert rest[k - 1] == prefixes[k];
          forall j | 0 <= j < k - 1 ensures !(rest[j] <= ref) { assert rest[j] == prefixes[j + 1]; }
        }
      }
    }
  }

  // What follows a prefix of a trimmed text is not blank, or is nothing.
  lemma TailNotBlank(s: string, n: nat)
    requires Trimmed(s) && n <= |s|
    ensures NonBlank(s[n..]) <==> n < |s|
  {
    if n < |s| {
      LastNotBlank(s[n..]);
    }
  }

  lemma {:induction false} LastNotBlank(s: string)
    requires s != "" && !IsSpace(s[|s| - 1])
    ensures NonBlank(s)
  {
    hide IsSpace;
    if IsSpace(s[0]) { LastNotBlank(s[1..]); }
  }

  lemma PrefixedIff(s: string, prefixes: seq<string>)
    requires Trimmed(s)
    ensures MatchesFence(s, prefixes) <==> Prefixed(s, prefixes)
  {
    hide NonBlank, MatchesFence;
    MatchedFirst(s, prefixes);
    forall k | 0 <= k < |prefixes| && prefixes[k] <= s ensures NonBlank(s[|prefixes[k]|..]) <==> prefixes[k] < s {
      TailNotBlank(s, |prefixes[k]|);
    }
  }

  lemma FenceIs(ref: string)
    ensures CanonicalFence(ref) <==> FenceForm(Strip(ref))
  {
    hide NonBlank, MatchesFence, Strip, Prefixed;
    PrefixedIff(Strip(ref), FENCE_PREFIXES);
    assert FENCE_PREFIXES == PREFIXES;
  }

  // ---- A handoff -------------------------------------------------------------------------

  // The externally verified facts bear the reference out.
  predicate BorneOut(fences: Fences, ref: string) {
    (fences.FenceRefs? && ref in fences.refs) || (fences.FenceFacts? && ref in fences.facts && fences.facts[ref])
  }

  function Faults(h: Handoff, current: Identity, p: Option<Checkpoint>, fences: Fences, hash: CheckpointHash): seq<(bool, string)> {
    var c := if p.Some? then p.value else Checkpoint("", "", "", current, 0, "", "", "", map[], [], [], [], [], [], "", "");
    [(current != h.sourceIdentity, "IDENTITY_DRIFT"),
     (p != None && (c.status == "RECONCILE" || c.blockedReason != ""), "PREDECESSOR_RECONCILIATION_REQUIRED"),
     (|h.unknownEffectRefs| > 0, "UNRESOLVED_UNKNOWN_EFFECTS"),
     (p == None, "MISSING_CANONICAL_PREDECESSOR_CHECKPOINT"),
     (Strip(h.fenceRef) == "", "MISSING_OLD_WRITER_FENCE_REFERENCE"),
     (!FenceForm(Strip(h.fenceRef)), "INVALID_FENCE_EVIDENCE_FORMAT"),
     (!BorneOut(fences, h.fenceRef), "UNVERIFIED_OLD_WRITER_FENCE_REFERENCE"),
     (c.taskId != h.taskId, "PREDECESSOR_TASK_ID_MISMATCH"),
     (c.attemptId != h.predecessorId, "PREDECESSOR_ATTEMPT_ID_MISMATCH"),
     (c.operationId != h.predecessorOperationId, "PREDECESSOR_OPERATION_ID_MISMATCH"),
     (c.identity != h.sourceIdentity, "PREDECESSOR_IDENTITY_MISMATCH"),
     (hash(c) != h.predecessorHash, "STALE_PREDECESSOR_CHECKPOINT_HASH"),
     (c.revision != h.predecessorRevision, "STALE_PREDECESSOR_CHECKPOINT_REVISION"),
     (c.status != h.terminalState, "TERMINAL_STATE_MISMATCH")]
  }

  // The first fault, if there is one.
  predicate First(faults: seq<(bool, string)>, k: nat) { k < |faults| && faults[k].0 && forall j | 0 <= j < k :: !faults[j].0 }

  ghost predicate JudgedBy(faults: seq<(bool, string)>, otherwise: Evaluation, r: Evaluation) {
    if exists k: nat :: First(faults, k) then exists k: nat :: First(faults, k) && r == Evaluation("RECONCILE", faults[k].1)
    else r == otherwise
  }

  function Pick(fs: seq<(bool, string)>): nat
    requires |fs| == 14
  {
    if fs[0].0 then 0 else if fs[1].0 then 1 else if fs[2].0 then 2 else if fs[3].0 then 3 else if fs[4].0 then 4
    else if fs[5].0 then 5 else if fs[6].0 then 6 else if fs[7].0 then 7 else if fs[8].0 then 8 else if fs[9].0 then 9
    else if fs[10].0 then 10 else if fs[11].0 then 11 else if fs[12].0 then 12 else if fs[13].0 then 13 else 14
  }

  lemma PickIsFirst(fs: seq<(bool, string)>)
    requires |fs| == 14
    ensures if Pick(fs) < 14 then First(fs, Pick(fs)) else forall k: nat :: !First(fs, k)
  {
  }

  function Unfaulted(h: Handoff): Evaluation {
    if h.reconcileDisposition == "SAFE" then Evaluation("SAFE", "LINEAGE_BOUND_AND_FENCED")
    else Evaluation(h.reconcileDisposition, "EXPLICIT_HANDOFF_DISPOSITION_" + h.reconcileDisposition)
  }

  lemma EvaluatePicks(h: Handoff, current: Identity, p: Option<Checkpoint>, fences: Fences, hash: CheckpointHash)
    ensures var fs := Faults(h, current, p, fences, hash);
      |fs| == 14
      && Evaluate(h, current, p, fences, hash) == if Pick(fs) < 14 then Evaluation("RECONCILE", fs[Pick(fs)].1) else Unfaulted(h)
  {
    hide Evaluate, Pick, Faults;
    if p.Some? { SomePicks(h, current, p.value, fences, hash); } else { NonePicks(h, current, fences, hash); }
  }

  lemma NonePicks(h: Handoff, current: Identity, fences: Fences, hash: CheckpointHash)
    ensures var fs := Faults(h, current, None, fences, hash);
      |fs| == 14 && Pick(fs) < 14 && Evaluate(h, current, None, fences, hash) == Evaluation("RECONCILE", fs[Pick(fs)].1)
  {
    hide NonBlank, CanonicalFence, FenceForm, Strip, Verified, BorneOut;
  }

  lemma SomePicks(h: Handoff, current: Identity, c: Checkpoint, fences: Fences, hash: CheckpointHash)
    ensures var fs := Faults(h, current, Some(c), fences, hash);
      |fs| == 14
      && Evaluate(h, current, Some(c), fences, hash) == if Pick(fs) < 14 then Evaluation("RECONCILE", fs[Pick(fs)].1) else Unfaulted(h)
  {
    hide NonBlank, CanonicalFence, FenceForm, Strip, Verified, BorneOut;
    NonBlankIffStrips(h.fenceRef);
    FenceIs(h.fenceRef);
    VerifiedIff(fences, h.fenceRef);
  }

  lemma VerifiedIff(fences: Fences, ref: string)
    ensures Verified(fences, ref) <==> BorneOut(fences, ref)
  {
  }

  // A handoff with a fault is to be reconciled, for the first fault it has; one without gets
  // the disposition it names.
  lemma HandoffJudged(h: Handoff, current: Identity, p: Option<Checkpoint>, fences: Fences, hash: CheckpointHash)
    ensures JudgedBy(Faults(h, current, p, fences, hash), Unfaulted(h), Evaluate(h, current, p, fences, hash))
  {
    hide Evaluate, Faults, Pick, First;
    EvaluatePicks(h, current, p, fences, hash);
    PickIsFirst(Faults(h, current, p, fences, hash));
  }

  // ---- A checkpoint -------------------------------------------------------------------------

  // A session may resume a checkpoint of its own identity, the target's revision apart, while
  // it runs; it waits for an approval or an external condition, is blocked by either end, and
  // reconciles everything else.
  lemma ResumeIs(c: Checkpoint, current: Identity)
    requires c.status in {"RUNNING", "WAITING_APPROVAL", "WAITING_EXTERNAL", "RECONCILE", "COMPLETED", "FAILED"}
    ensures var r := Resume(c, current);
      if c.identity.repository != current.repository || c.identity.sourceRevision != current.sourceRevision
        || c.identity.runtimeIdentity != current.runtimeIdentity
      then r == Evaluation("RECONCILE", "IDENTITY_DRIFT")
      else
        && (c.status == "RUNNING" ==> r == Evaluation("SAFE", "IDENTITY_BOUND_AND_NON_TERMINAL"))
        && (c.status == "WAITING_APPROVAL" ==> r == Evaluation("WAIT", "APPROVAL_PENDING"))
        && (c.status == "WAITING_EXTERNAL" ==> r == Evaluation("WAIT", "EXTERNAL_CONDITION_PENDING"))
        && (c.status == "COMPLETED" ==> r == Evaluation("BLOCKED", "ALREADY_COMPLETED"))
        && (c.status == "FAILED" ==> r == Evaluation("BLOCKED", "TERMINAL_FAILURE"))
        && (c.status == "RECONCILE" ==>
            r == Evaluation("RECONCILE", if c.blockedReason == "" then "RECONCILIATION_REQUIRED" else c.blockedReason))
  {
  }

  // ---- What a handoff must carry ------------------------------------------------------------

  // A handoff is well formed exactly when it names its task, two different attempts, the
  // predecessor's operation, hash and a positive revision, why, from where, in which state and
  // behind which fence; lists only named and distinct texts; binds no other attempt than its
  // successor; and is of no transition there is none of.
  lemma HandoffAccepted(h: Handoff, shown: Show)
    ensures ValidHandoff(h, shown) <==>
      && NonBlank(h.taskId) && NonBlank(h.predecessorId) && NonBlank(h.successorId) && h.predecessorId != h.successorId
      && NonBlank(h.predecessorOperationId) && NonBlank(h.predecessorHash) && h.predecessorRevision > 0
      && NonBlank(h.reason) && Identified(h.sourceIdentity) && NonBlank(h.terminalState) && NonBlank(h.fenceRef)
      && (forall xs | xs in [h.effectRefs, h.effectKeys, h.unknownEffectRefs, h.inheritedEvidence] :: Distinct(xs) && !SomeBlank(xs))
      && ("attempt_id" in h.binding ==>
          Strip(PyStr(h.binding["attempt_id"], shown(h.binding["attempt_id"]))) in {"", h.successorId})
      && h.transitionType in {"", "LOCAL_TO_ONLINE", "ONLINE_A_TO_ONLINE_B", "RDC_TO_MAIN_GPT", "MAIN_GPT_TO_DELEGATED"}
  {
    hide NonBlank, NonBlanks, SomeBlank, Distinct, Strip;
    BlankIff(h.effectRefs);
    BlankIff(h.effectKeys);
    BlankIff(h.unknownEffectRefs);
    BlankIff(h.inheritedEvidence);
    var lists := [h.effectRefs, h.effectKeys, h.unknownEffectRefs, h.inheritedEvidence];
    assert lists[0] in lists && lists[1] in lists && lists[2] in lists && lists[3] in lists;
  }
}
