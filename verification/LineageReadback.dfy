// What the readback of an attempt's lineage says, check by check.
module LineageReadback {
  import opened Text
  import opened CanonicalText
  import opened Checkpoints
  import opened Handoffs
  import opened Lineage
  import opened StoreFiles
  import opened HandoffJudgements
  import opened StoreContracts
  import B = BindReadback

  // What may be wrong with a successor whose handoff is safe, in the order it is asked.
  ghost function SuccessorFaults(h: Handoff, p: Checkpoint, s: Option<Checkpoint>, current: Identity, shown: Show): seq<(bool, string)> {
    var c := if s.Some? then s.value else p;
    [(s == None, "MISSING_SUCCESSOR_CHECKPOINT"),
     (c.taskId != h.taskId || c.attemptId != h.successorId, "SUCCESSOR_IDENTITY_MISMATCH"),
     (c.operationId != BoundOperation(h, shown), "SUCCESSOR_OPERATION_ID_MISMATCH"),
     (c.identity != current, "SUCCESSOR_SOURCE_IDENTITY_MISMATCH"),
     (exists e :: e in p.completedEffects && e !in c.completedEffects, "SUCCESSOR_EFFECT_LINEAGE_MISMATCH"),
     (!DeclaresKeys(h, p), "HANDOFF_EFFECT_KEYS_MISMATCH"),
     (!DeclaresRefs(h, p), "HANDOFF_EFFECT_REFS_MISMATCH")]
  }

  // Without a fault the successor's own state decides.
  function Continues(c: Checkpoint, current: Identity, safe: Evaluation): Evaluation {
    var own := Resume(c, current);
    if own.disposition != "SAFE" then Evaluation(own.disposition, "SUCCESSOR_" + own.reason)
    else if c.blockedReason != "" then Evaluation("RECONCILE", "SUCCESSOR_" + c.blockedReason)
    else safe
  }

  lemma KeysIff(h: Handoff, p: Checkpoint)
    ensures h.effectKeys != [] && Elements(h.effectKeys) != (set e | e in p.completedEffects :: e.key) <==> !DeclaresKeys(h, p)
    ensures h.effectRefs != [] && Elements(h.effectRefs) != (set e | e in p.completedEffects :: e.receiptRef) <==> !DeclaresRefs(h, p)
  {
    var (ks, rs) := (set e | e in p.completedEffects :: e.key, set e | e in p.completedEffects :: e.receiptRef);
    assert forall k :: k in Elements(h.effectKeys) <==> k in h.effectKeys;
    assert forall k :: k in Elements(h.effectRefs) <==> k in h.effectRefs;
    assert forall k :: k in ks <==> exists e :: e in p.completedEffects && e.key == k;
    assert forall k :: k in rs <==> exists e :: e in p.completedEffects && e.receiptRef == k;
  }

  lemma HeldIff(p: Checkpoint, c: Checkpoint)
    ensures (exists i | 0 <= i < |p.completedEffects| :: p.completedEffects[i] !in c.completedEffects)
      <==> exists e :: e in p.completedEffects && e !in c.completedEffects
  {
    if e :| e in p.completedEffects && e !in c.completedEffects {
      var i :| 0 <= i < |p.completedEffects| && p.completedEffects[i] == e;
    }
  }

  function PickOf(fs: seq<(bool, string)>): nat
    requires |fs| == 7
  {
    if fs[0].0 then 0 else if fs[1].0 then 1 else if fs[2].0 then 2 else if fs[3].0 then 3 else if fs[4].0 then 4
    else if fs[5].0 then 5 else if fs[6].0 then 6 else 7
  }

  lemma PickOfIsFirst(fs: seq<(bool, string)>)
    requires |fs| == 7
    ensures if PickOf(fs) < 7 then First(fs, PickOf(fs)) else forall k: nat :: !First(fs, k)
  {
  }

  lemma SuccessorPicks(h: Handoff, p: Checkpoint, s: Option<Checkpoint>, current: Identity, safe: Evaluation, shown: Show)
    ensures var fs := SuccessorFaults(h, p, s, current, shown);
      |fs| == 7 && (PickOf(fs) >= 7 ==> s.Some?)
      && B.JudgeSuccessor(h, p, s, current, safe, shown) ==
        if PickOf(fs) < 7 then Evaluation("RECONCILE", fs[PickOf(fs)].1) else Continues(s.value, current, safe)
  {
    hide BoundOperation, SuccessorOperation, Elements, Resume, DeclaresKeys, DeclaresRefs;
    KeysIff(h, p);
    OperationIs(h, shown);
    if s.Some? { HeldIff(p, s.value); }
  }

  // A successor is judged by the first fault it has; without one, by its own state.
  lemma SuccessorJudged(h: Handoff, p: Checkpoint, s: Option<Checkpoint>, current: Identity, safe: Evaluation, shown: Show)
    ensures JudgedBy(
      SuccessorFaults(h, p, s, current, shown), if s.Some? then Continues(s.value, current, safe) else safe,
      B.JudgeSuccessor(h, p, s, current, safe, shown))
  {
    hide B.JudgeSuccessor, SuccessorFaults, PickOf, First, Continues;
    SuccessorPicks(h, p, s, current, safe, shown);
    PickOfIsFirst(SuccessorFaults(h, p, s, current, shown));
  }

  // A readback fails where the lineage does not reconstruct; says nothing without a handoff or
  // an identity to compare with; passes on what the handoff itself comes to unless that is
  // safe; and then judges the successor.
  lemma ReadbackIs(f: Files, task: string, attempt: string, current: Option<Identity>, fences: Fences, hashes: Hashes)
    ensures var r := B.Readback(f, task, attempt, current, fences, hashes);
      var edges: Edges := if task in f.handoffs then f.handoffs[task] else map[];
      match Reconstruct(edges, task, attempt, {})
      case Err(e) => r == Err(e)
      case Ok(_) =>
        if current == None || attempt !in edges then r == Ok(None)
        else
          var (h, s) := (edges[attempt], if (task, attempt) in f.current then Some(f.current[(task, attempt)]) else None);
          var at := (task, h.predecessorId);
          var p := if at in f.current then Some(f.current[at]) else None;
          var own := Evaluate(h, current.value, p, fences, hashes.checkpoint);
          r.Ok? && r.value.Some?
          && if own.disposition != "SAFE" then r.value.value == own
             else p.Some? && JudgedBy(
               SuccessorFaults(h, p.value, s, current.value, hashes.shown),
               if s.Some? then Continues(s.value, current.value, own) else own, r.value.value)
  {
    hide Evaluate, B.JudgeSuccessor, SuccessorFaults, JudgedBy, Continues, Reconstruct;
    var edges := Within(f.handoffs, task);
    if Reconstruct(edges, task, attempt, {}).Ok? && attempt in edges && current.Some? {
      var h := edges[attempt];
      var p := Find(f.current, (task, h.predecessorId));
      SafeMeans(h, current.value, p, fences, hashes.checkpoint);
      if p.Some? {
        SuccessorJudged(h, p.value, Find(f.current, (task, attempt)), current.value,
                        Evaluate(h, current.value, p, fences, hashes.checkpoint), hashes.shown);
      }
    }
  }
}
