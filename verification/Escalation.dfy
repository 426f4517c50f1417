// Which provider runs next, and when a failed worker may be followed by another.
module Escalation {
  import opened Text

  datatype Outcome = ExecutionCompleted | Incomplete | Failed | OtherOutcome(text: string)

  // What a worker, or a deterministic resolution, reports of one execution.
  datatype Receipt = Receipt(
    provider: string, outcome: Outcome, evidence: bool, timedOut: bool, reason: string,
    committed: bool, merged: bool, pushed: bool, calls: int, attempts: Option<int>)

  predicate Completed(r: Receipt) { r.outcome == ExecutionCompleted && r.evidence }

  predicate Mutated(r: Receipt) { r.committed || r.merged || r.pushed }

  // `str.lower()` of the letters the markers are made of.
  function LowerChar(c: char): char { if 'A' <= c <= 'Z' then (c as int + 32) as char else c }

  function Lower(s: string): string { seq(|s|, i requires 0 <= i < |s| => LowerChar(s[i])) }

  const MARKERS := [
    "malformed", "invalid contract", "contract invalid", "syntaxerror", "syntax error", "verifier", "scope",
    "forbidden", "policy", "unsupported", "parse error", "argument error"]

  // `_failure_is_deterministic`
  predicate FailureIsDeterministic(r: Receipt) {
    && !r.timedOut && r.outcome != Incomplete
    && exists m | m in MARKERS :: Contains(Lower(r.reason), m)
  }

  datatype Decision = RunCheap(first: string) | Block | Verify | Escalate(next: string)

  function Providers(attempts: seq<Receipt>): set<string> { set r | r in attempts :: r.provider }

  // Where the order first has a provider that `admits` allows.
  function FirstIndex(order: seq<string>, admits: string -> bool): (i: nat)
    ensures i <= |order| && (i < |order| ==> admits(order[i])) && forall j | 0 <= j < i :: !admits(order[j])
  {
    if order == [] || admits(order[0]) then 0 else 1 + FirstIndex(order[1..], admits)
  }

  function FirstOf(order: seq<string>, admits: string -> bool): (r: Option<string>)
    ensures r.Some? ==> r.value in order && admits(r.value)
    ensures r.None? ==> forall p | p in order :: !admits(p)
  {
    var i := FirstIndex(order, admits);
    if i == |order| then None else Some(order[i])
  }

  // `WorkerEscalationPolicy.decide`
  function Decide(order: seq<string>, attempts: seq<Receipt>): Decision
    requires attempts == [] ==> order != []
  {
    if attempts == [] then RunCheap(order[0])
    else
      var latest := attempts[|attempts| - 1];
      if Mutated(latest) then Block
      else if Completed(latest) then Verify
      else if FailureIsDeterministic(latest) then Block
      else match FirstOf(order, p => p !in Providers(attempts))
        case Some(next) => Escalate(next)
        case None => Block
  }

  // Escalation is decided exactly for an incomplete, clean, non-deterministic last
  // receipt while a provider is left, and then names the first one left.
  lemma EscalatesExactlyWhen(order: seq<string>, attempts: seq<Receipt>)
    requires attempts != []
    ensures var latest := attempts[|attempts| - 1];
      Decide(order, attempts).Escalate? <==>
        !Completed(latest) && !Mutated(latest) && !FailureIsDeterministic(latest) && exists p | p in order :: p !in Providers(attempts)
    ensures Decide(order, attempts).Escalate? ==>
      var next := Decide(order, attempts).next;
      next !in Providers(attempts) && exists i | 0 <= i < |order| :: order[i] == next && AllAttempted(order[..i], attempts)
  {
    hide FailureIsDeterministic, Completed, Mutated;
    var admits := (p: string) => p !in Providers(attempts);
    var i := FirstIndex(order, admits);
    if i == |order| { assert forall p | p in order :: !admits(p); } else { assert AllAttempted(order[..i], attempts); }
  }

  // The other three decisions: the first provider of the order before anything was tried, then
  // verification for a clean complete receipt, and nothing more where nothing is escalated.
  lemma DecidesOtherwise(order: seq<string>, attempts: seq<Receipt>)
    requires attempts == [] ==> order != []
    ensures Decide(order, attempts).RunCheap? <==> attempts == []
    ensures Decide(order, attempts).RunCheap? ==> [Decide(order, attempts).first] <= order
    ensures attempts != [] ==> var latest := attempts[|attempts| - 1];
      && (Decide(order, attempts).Verify? <==>
          latest.outcome.ExecutionCompleted? && latest.evidence && !latest.committed && !latest.merged && !latest.pushed)
      && (Decide(order, attempts).Block? <==> !Decide(order, attempts).Verify? && !Decide(order, attempts).Escalate?)
  {
    hide FailureIsDeterministic, FirstOf;
  }

  predicate AllAttempted(order: seq<string>, attempts: seq<Receipt>) { forall p | p in order :: p in Providers(attempts) }

  // `_next_ready_provider`: the first provider not yet attempted whose preflight is ready.
  function NextReady(order: seq<string>, attempts: seq<Receipt>, ready: string -> bool): (r: Option<string>)
    ensures r.Some? ==> r.value in order && r.value !in Providers(attempts) && ready(r.value)
    ensures r.None? ==> forall p | p in order && p !in Providers(attempts) :: !ready(p)
  {
    FirstOf(order, p => p !in Providers(attempts) && ready(p))
  }

  method NextReadyProvider(order: seq<string>, attempts: seq<Receipt>, ready: string -> bool) returns (r: Option<string>)
    ensures r == NextReady(order, attempts, ready)
  {
    ghost var admits := (p: string) => p !in Providers(attempts) && ready(p);
    var attempted := Providers(attempts);
    var i := 0;
    while i < |order|
      invariant i <= |order| && forall j | 0 <= j < i :: !admits(order[j])
    {
      if order[i] !in attempted && ready(order[i]) { return Some(order[i]); }
      i := i + 1;
    }
    return None;
  }

  // `_select_initial_provider`: the first provider whose preflight is ready.
  method SelectInitialProvider(order: seq<string>, preferred: string, ready: string -> bool) returns (r: Option<string>)
    ensures r == FirstOf(if order == [] then [preferred] else order, ready)
  {
    var providers := if order == [] then [preferred] else order;
    var i := 0;
    while i < |providers|
      invariant i <= |providers| && forall j | 0 <= j < i :: !ready(providers[j])
    {
      if ready(providers[i]) { return Some(providers[i]); }
      i := i + 1;
    }
    return None;
  }
}
