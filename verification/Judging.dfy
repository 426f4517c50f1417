// How a call judges the last receipt: when it goes on to finalization, when and to whom it
// escalates, and when it ends, over every reachable state and every answer of the ports.
module Judging {
  import opened Text
  import opened Escalation
  import opened Coordinator
  import opened CoordinatorRuns
  import opened CoordinatorTheorems

  // ---- Failures that repeat -----------------------------------------------------------

  // One letter, in either case.
  predicate SameLetter(a: char, b: char) {
    || a == b || ('a' <= a <= 'z' && b as int == a as int - 32) || ('a' <= b <= 'z' && a as int == b as int - 32)
  }

  predicate SpelledLike(s: string, t: string) { |s| == |t| && forall i | 0 <= i < |s| :: SameLetter(s[i], t[i]) }

  // Somewhere in the text, in any letter case.
  ghost predicate Mentions(text: string, m: string) { exists x, n, y :: text == x + n + y && SpelledLike(n, m) }

  const TELLTALES := {
    "malformed", "invalid contract", "contract invalid", "syntaxerror", "syntax error", "verifier", "scope",
    "forbidden", "policy", "unsupported", "parse error", "argument error"}

  // A failure that would come again: reported as one of these, and not for want of time or
  // of completeness.
  ghost predicate Repeats(r: Receipt) {
    !r.timedOut && r.outcome != Incomplete && exists m | m in TELLTALES :: Mentions(r.reason, m)
  }

  predicate Plain(m: string) { forall i | 0 <= i < |m| :: !('A' <= m[i] <= 'Z') }

  lemma LowerSpells(s: string, m: string)
    requires Plain(m)
    ensures Lower(s) == m <==> SpelledLike(s, m)
  {
    if SpelledLike(s, m) { assert forall i | 0 <= i < |s| :: Lower(s)[i] == m[i]; }
    if Lower(s) == m {
      forall i | 0 <= i < |s| ensures SameLetter(s[i], m[i]) { assert Lower(s)[i] == m[i]; }
    }
  }

  lemma LowerParts(a: string, b: string, c: string)
    ensures Lower(a + b + c) == Lower(a) + Lower(b) + Lower(c)
  {
  }

  lemma MentionsIff(s: string, m: string)
    requires Plain(m)
    ensures Contains(Lower(s), m) <==> Mentions(s, m)
  {
    hide Contains, Lower, SpelledLike, Plain;
    ContainsMeans(Lower(s), m);
    if Mentions(s, m) {
      var x, n, y :| s == x + n + y && SpelledLike(n, m);
      LowerSpells(n, m);
      LowerParts(x, n, y);
    }
    if a, b :| Lower(s) == a + m + b { Unlowered(s, a, m, b); }
  }

  lemma Unlowered(s: string, a: string, m: string, b: string)
    requires Plain(m) && Lower(s) == a + m + b
    ensures Mentions(s, m)
  {
    var (x, n, y) := (s[..|a|], s[|a|..|a| + |m|], s[|a| + |m|..]);
    assert s == x + n + y;
    assert Lower(n) == Lower(s)[|a|..|a| + |m|] == m;
    LowerSpells(n, m);
  }

  lemma MarkersListed()
    ensures forall m :: m in MARKERS <==> m in TELLTALES
  {
  }

  lemma MarkersPlain()
    ensures forall m | m in TELLTALES :: Plain(m)
  {
    assert Plain("malformed") && Plain("invalid contract") && Plain("contract invalid") && Plain("syntaxerror");
    assert Plain("syntax error") && Plain("verifier") && Plain("scope") && Plain("forbidden") && Plain("policy");
    assert Plain("unsupported") && Plain("parse error") && Plain("argument error");
    hide Plain;
  }

  // A worker's failure is taken for deterministic exactly when it says one of the listed
  // things, in any letter case, and neither timed out nor was incomplete.
  lemma DeterministicIffRepeats(r: Receipt)
    ensures FailureIsDeterministic(r) <==> Repeats(r)
  {
    hide Contains, Lower, Mentions, Plain;
    MarkersListed();
    MarkersPlain();
    forall m | m in TELLTALES ensures Contains(Lower(r.reason), m) <==> Mentions(r.reason, m) { MentionsIff(r.reason, m); }
  }

  // ---- The judgement ----------------------------------------------------------------------

  predicate Tried(rs: seq<Receipt>, p: string) { exists i | 0 <= i < |rs| :: rs[i].provider == p }

  predicate Always(p: string) { true }

  // The first of the order that no receipt names and that is ready.
  predicate NextUp(order: seq<string>, rs: seq<Receipt>, ready: string -> bool, i: nat) {
    && i < |order| && !Tried(rs, order[i]) && ready(order[i])
    && forall j | 0 <= j < i :: Tried(rs, order[j]) || !ready(order[j])
  }

  // A receipt that calls for another worker: nothing forbidden was done, and the failure may
  // not come again.
  ghost predicate WorthAnother(r: Receipt) {
    && !(r.outcome == ExecutionCompleted && r.evidence) && !r.committed && !r.merged && !r.pushed && !Repeats(r)
  }

  // The call ends; the attempt is closed if the failure handler runs.
  predicate Ended(d: Durable, c: Choice, after: Durable, l: Local) {
    l == IDLE && after == (if c.closes then d.(flow := d.flow.(status := Closed)) else d)
  }

  // The place in the policy of the provider the call goes on with, if any.
  ghost predicate HandsOver(cfg: Config, rs: seq<Receipt>, ready: string -> bool, i: nat) {
    && !cfg.fastLane && cfg.policy.Some? && rs != [] && WorthAnother(rs[|rs| - 1])
    && NextUp(cfg.policy.value, rs, ready, i) && cfg.policy.value[i] != ""
    && (exists k: nat :: NextUp(cfg.policy.value, rs, Always, k) && cfg.policy.value[k] != "")
  }

  lemma TriedIff(rs: seq<Receipt>, p: string)
    ensures p in Providers(rs) <==> Tried(rs, p)
  {
    if Tried(rs, p) { var i :| 0 <= i < |rs| && rs[i].provider == p; assert rs[i] in rs; }
    if p in Providers(rs) { var r :| r in rs && r.provider == p; }
  }

  lemma NextUpIs(order: seq<string>, rs: seq<Receipt>, ready: string -> bool, i: nat)
    requires NextUp(order, rs, ready, i)
    ensures i < |order| && FirstOf(order, p => p !in Providers(rs) && ready(p)) == Some(order[i])
  {
    hide Tried;
    forall p ensures p in Providers(rs) <==> Tried(rs, p) { TriedIff(rs, p); }
    var admits := (p: string) => p !in Providers(rs) && ready(p);
    assert FirstIndex(order, admits) == i;
  }

  lemma NextUpExists(order: seq<string>, rs: seq<Receipt>, ready: string -> bool) returns (i: nat)
    requires FirstOf(order, p => p !in Providers(rs) && ready(p)).Some?
    ensures NextUp(order, rs, ready, i) && i < |order|
  {
    hide Tried;
    forall p ensures p in Providers(rs) <==> Tried(rs, p) { TriedIff(rs, p); }
    i := FirstIndex(order, (p: string) => p !in Providers(rs) && ready(p));
  }

  lemma WorthIffDecided(order: seq<string>, rs: seq<Receipt>)
    requires rs != []
    ensures Escalates(order, rs) <==>
      WorthAnother(rs[|rs| - 1]) && exists k: nat :: NextUp(order, rs, Always, k) && order[k] != ""
  {
    hide NextUp, FailureIsDeterministic, Repeats, Providers;
    DeterministicIffRepeats(rs[|rs| - 1]);
    UntriedFirst(order, rs);
  }

  lemma UntriedFirst(order: seq<string>, rs: seq<Receipt>)
    ensures FirstOf(order, p => p !in Providers(rs)).Some? ==>
      exists k: nat :: NextUp(order, rs, Always, k) && order[k] == FirstOf(order, p => p !in Providers(rs)).value
    ensures forall k: nat | NextUp(order, rs, Always, k) ::
      k < |order| && FirstOf(order, p => p !in Providers(rs)) == Some(order[k])
  {
    hide Tried;
    var admits := (p: string) => p !in Providers(rs);
    forall p ensures p in Providers(rs) <==> Tried(rs, p) { TriedIff(rs, p); }
    var n := FirstIndex(order, admits);
    if n < |order| { assert NextUp(order, rs, Always, n); }
    forall k: nat | NextUp(order, rs, Always, k) ensures k < |order| && FirstOf(order, admits) == Some(order[k]) {
      assert admits(order[k]) && n <= k;
    }
  }

  lemma OneNextUp(order: seq<string>, rs: seq<Receipt>, ready: string -> bool, i: nat, j: nat)
    requires NextUp(order, rs, ready, i) && NextUp(order, rs, ready, j)
    ensures i == j
  {
    hide Tried;
  }

  // What a judgement comes to. It goes on to finalization exactly when the last durable
  // receipt is complete and, for a recovered call, the host is prepared; it escalates exactly
  // when there is no fast lane, the receipt calls for another worker and the policy has one
  // that is ready, then to the first such; in both cases that is all it changes; and
  // otherwise the call ends.
  ghost predicate Judged(cfg: Config, d: Durable, l: Local, c: Choice, m: Move) {
    var (rs, last) := (d.flow.executions, LastReceipt(d.flow));
    && (m.l.phase.Finalizing? <==>
        && c.stop == Go && last.Some? && last.value.outcome == ExecutionCompleted && last.value.evidence
        && (l.recovered && cfg.hostPrepared ==> d.prepared))
    && (m.l.phase.Finalizing? ==> m == Move(d, l.(phase := Finalizing), None))
    && (m.l.phase.Releasing? <==> c.stop == Go && exists i: nat :: HandsOver(cfg, rs, c.ready, i))
    && (forall i: nat | m.l.phase.Releasing? && HandsOver(cfg, rs, c.ready, i) ::
          m == Move(d.(flow := d.flow.(status := WorkerEscalating, next := cfg.policy.value[i])), l.(phase := Releasing),
                    Some(Escalated(rs[|rs| - 1], cfg.policy.value[i]))))
    && (!m.l.phase.Finalizing? && !m.l.phase.Releasing? ==> Ended(d, c, m.d, m.l) && m.event == None)
  }

  // So it is in every reachable state in which a call judges, whatever the ports answer.
  lemma JudgementIs(cfg: Config, d: Durable, choices: seq<Choice>, c: Choice)
    requires Run(cfg, Begin(d), choices).l.phase.Judging?
    ensures var w := Run(cfg, Begin(d), choices); Judged(cfg, w.d, w.l, c, Step(cfg, w.d, w.l, c))
  {
    hide Run, Inv, Judged, Judge;
    var w := Run(cfg, Begin(d), choices);
    Reached(cfg, d, choices);
    JudgedReceipt(cfg, w);
    JudgedAttempts(cfg, w);
    JudgeIs(cfg, w.d, w.l, c);
  }

  lemma JudgedAttempts(cfg: Config, w: World)
    requires Inv(cfg, w) && w.l.phase.Judging?
    ensures w.l.attempts == w.d.flow.executions
  {
    hide EnvelopeOk, PreparedOk, Balanced, Accounted, WatchOk, Completed, Respected, BudgetLeft;
  }

  lemma JudgeIs(cfg: Config, d: Durable, l: Local, c: Choice)
    requires l.phase.Judging? && l.attempts == d.flow.executions && Latest(l) == LastReceipt(d.flow)
    ensures Judged(cfg, d, l, c, Judge(cfg, d, l, c))
  {
    hide Judge, HandsOver, NextReady, Escalates, Heir;
    JudgeComplete(cfg, d, l, c);
    JudgeIncomplete(cfg, d, l, c);
    HandsOverIff(cfg, l.attempts, c.ready);
    WorthIsIncomplete(cfg, l.attempts, c.ready);
  }

  lemma JudgeComplete(cfg: Config, d: Durable, l: Local, c: Choice)
    ensures Latest(l).Some? && Latest(l).value.outcome == ExecutionCompleted && Latest(l).value.evidence ==>
      Judge(cfg, d, l, c) ==
        if c.stop == Go && (l.recovered && cfg.hostPrepared ==> d.prepared) then Move(d, l.(phase := Finalizing), None)
        else Halt(d, c, None)
  {
    hide NextReady, Escalates, Halt;
  }

  // The provider the policy and the answers of the ports come to.
  ghost function Heir(cfg: Config, rs: seq<Receipt>, ready: string -> bool): Option<string> {
    if cfg.fastLane || cfg.policy.None? || rs == [] || !Escalates(cfg.policy.value, rs) then None
    else if NextReady(cfg.policy.value, rs, ready) == Some("") then None
    else NextReady(cfg.policy.value, rs, ready)
  }

  lemma JudgeIncomplete(cfg: Config, d: Durable, l: Local, c: Choice)
    requires l.attempts == d.flow.executions
    ensures !(Latest(l).Some? && Latest(l).value.outcome == ExecutionCompleted && Latest(l).value.evidence) ==>
      Judge(cfg, d, l, c) ==
        if c.stop == Go && Heir(cfg, l.attempts, c.ready).Some? then
          Move(d.(flow := d.flow.(status := WorkerEscalating, next := Heir(cfg, l.attempts, c.ready).value)), l.(phase := Releasing),
               Some(Escalated(l.attempts[|l.attempts| - 1], Heir(cfg, l.attempts, c.ready).value)))
        else Halt(d, c, None)
  {
    hide NextReady, Escalates, Halt;
  }

  lemma HandsOverIff(cfg: Config, rs: seq<Receipt>, ready: string -> bool)
    ensures Heir(cfg, rs, ready).Some? <==> exists i: nat :: HandsOver(cfg, rs, ready, i)
    ensures forall i: nat | HandsOver(cfg, rs, ready, i) :: Heir(cfg, rs, ready) == Some(cfg.policy.value[i])
  {
    hide NextUp, WorthAnother, Escalates, FirstOf, Providers;
    if cfg.policy.Some? && rs != [] {
      var order := cfg.policy.value;
      WorthIffDecided(order, rs);
      forall i: nat | HandsOver(cfg, rs, ready, i) ensures i < |order| && NextReady(order, rs, ready) == Some(order[i]) { NextUpIs(order, rs, ready, i); }
      if Heir(cfg, rs, ready).Some? {
        var i := NextUpExists(order, rs, ready);
        NextUpIs(order, rs, ready, i);
        assert HandsOver(cfg, rs, ready, i);
      }
    }
  }

  lemma WorthIsIncomplete(cfg: Config, rs: seq<Receipt>, ready: string -> bool)
    ensures forall i: nat | HandsOver(cfg, rs, ready, i) :: rs != [] && !(rs[|rs| - 1].outcome == ExecutionCompleted && rs[|rs| - 1].evidence)
  {
    hide NextUp, Repeats;
  }
}
