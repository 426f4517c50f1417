// The successor-to-predecessor graph that stored handoffs form, and the walk
// that reconstructs an attempt's lineage from it.
module Lineage {
  import opened Text
  import opened Handoffs

  // The handoff files of one task, by the successor their path names.
  type Edges = map<string, Handoff>

  datatype LineageError = Cycle | WrongTask | WrongSuccessor | SelfCycle

  predicate WellFormed(edges: Edges, task: string, at: string)
    requires at in edges
  {
    var h := edges[at]; h.taskId == task && h.successorId == at && h.predecessorId != h.successorId
  }

  // ---- Reconstruction ----------------------------------------------------------------

  // `reconstruct_lineage_chain`, from `current` with `visited` already walked.
  function Reconstruct(edges: Edges, task: string, current: string, visited: set<string>)
    : Result<seq<Handoff>, LineageError>
    decreases edges.Keys - visited
  {
    if current in visited then Err(Cycle)
    else if current !in edges then Ok([])
    else var h := edges[current];
      if h.taskId != task then Err(WrongTask)
      else if h.successorId != current then Err(WrongSuccessor)
      else if h.predecessorId == h.successorId then Err(SelfCycle)
      else match Reconstruct(edges, task, h.predecessorId, visited + {current})
        case Err(e) => Err(e)
        case Ok(older) => Ok(older + [h])
  }

  function Reversed<T>(xs: seq<T>): seq<T> {
    if xs == [] then [] else Reversed(xs[1..]) + [xs[0]]
  }

  lemma {:induction false} ReversedAppend<T>(xs: seq<T>, x: T)
    ensures Reversed(xs + [x]) == [x] + Reversed(xs)
  {
    if xs != [] {
      ReversedAppend(xs[1..], x);
      assert (xs + [x])[1..] == xs[1..] + [x];
    }
  }

  // The loop itself: it ends on every finite graph, cyclic or not.
  method ReconstructLineageChain(edges: Edges, task: string, attempt: string)
    returns (r: Result<seq<Handoff>, LineageError>)
    ensures r == Reconstruct(edges, task, attempt, {})
  {
    var chain := [];
    var current := attempt;
    var visited := {};
    assert forall older: seq<Handoff> :: older + [] == older;
    while true
      invariant visited <= edges.Keys
      invariant Reconstruct(edges, task, attempt, {}) ==
        match Reconstruct(edges, task, current, visited)
        case Err(e) => Err(e)
        case Ok(older) => Ok(older + Reversed(chain))
      decreases edges.Keys - visited
    {
      if current in visited { return Err(Cycle); }
      if current !in edges { break; }
      var h := edges[current];
      if h.taskId != task { return Err(WrongTask); }
      if h.successorId != current { return Err(WrongSuccessor); }
      if h.predecessorId == h.successorId { return Err(SelfCycle); }
      ReversedAppend(chain, h);
      assert forall older: seq<Handoff> :: older + [h] + Reversed(chain) == older + Reversed(chain + [h]);
      visited := visited + {current};
      chain := chain + [h];
      current := h.predecessorId;
    }
    assert [] + Reversed(chain) == Reversed(chain);
    return Ok(Reversed(chain));
  }

  // ---- What a returned chain is --------------------------------------------------------

  // The attempts a chain passes through, oldest first, ending at the asked attempt.
  function Attempts(chain: seq<Handoff>, attempt: string): (r: seq<string>)
    ensures |r| == |chain| + 1 && r[|chain|] == attempt
    ensures forall i | 0 <= i < |chain| :: r[i] == chain[i].predecessorId
  {
    if chain == [] then [attempt] else [chain[0].predecessorId] + Attempts(chain[1..], attempt)
  }

  // Each edge is the well-formed stored record of the attempt after it, and links it to the one before.
  ghost predicate Linked(edges: Edges, task: string, nodes: seq<string>, chain: seq<Handoff>)
    requires |nodes| == |chain| + 1
  {
    forall i | 0 <= i < |chain| :: Link(edges, task, nodes[i + 1], chain[i])
  }

  ghost predicate Link(edges: Edges, task: string, successor: string, h: Handoff) {
    successor in edges && h == edges[successor] && WellFormed(edges, task, successor)
  }

  // The lineage of `attempt`: oldest first, linked edge by edge, the oldest predecessor
  // without a handoff of its own, and no attempt twice.
  ghost predicate IsLineage(edges: Edges, task: string, attempt: string, chain: seq<Handoff>) {
    var nodes := Attempts(chain, attempt);
    nodes[0] !in edges && Linked(edges, task, nodes, chain) && Distinct(nodes)
  }

  lemma AttemptsSnoc(older: seq<Handoff>, h: Handoff)
    ensures Attempts(older + [h], h.successorId) == Attempts(older, h.predecessorId) + [h.successorId]
  {
    var (xs, ys) := (Attempts(older + [h], h.successorId), Attempts(older, h.predecessorId) + [h.successorId]);
    forall i | 0 <= i < |xs| ensures xs[i] == ys[i] {
      if i < |older| { assert (older + [h])[i] == older[i]; }
    }
  }

  lemma LinkedSnoc(edges: Edges, task: string, nodes: seq<string>, chain: seq<Handoff>, h: Handoff, s: string)
    requires |nodes| == |chain| + 1
    ensures Linked(edges, task, nodes + [s], chain + [h])
      <==> Linked(edges, task, nodes, chain) && Link(edges, task, s, h)
  {
    var (ns, cs) := (nodes + [s], chain + [h]);
    assert forall i | 0 <= i < |nodes| :: ns[i] == nodes[i];
    assert forall i | 0 <= i < |chain| :: cs[i] == chain[i];
    if Linked(edges, task, ns, cs) {
      assert cs[|chain|] == h && ns[|chain| + 1] == s;
      forall i | 0 <= i < |chain| ensures Link(edges, task, nodes[i + 1], chain[i]) {
        assert Link(edges, task, ns[i + 1], cs[i]);
      }
    }
  }

  lemma LineageSnoc(edges: Edges, task: string, h: Handoff, older: seq<Handoff>)
    requires h.successorId in edges && edges[h.successorId] == h && WellFormed(edges, task, h.successorId)
    ensures IsLineage(edges, task, h.successorId, older + [h])
      <==> IsLineage(edges, task, h.predecessorId, older) && h.successorId !in Attempts(older, h.predecessorId)
  {
    var prior := Attempts(older, h.predecessorId);
    AttemptsSnoc(older, h);
    DistinctSnoc(prior, h.successorId);
    LinkedSnoc(edges, task, prior, older, h, h.successorId);
    assert (prior + [h.successorId])[0] == prior[0];
  }

  ghost predicate Avoids(nodes: seq<string>, visited: set<string>) { forall a | a in nodes :: a !in visited }

  lemma AvoidsSnoc(nodes: seq<string>, a: string, visited: set<string>)
    ensures Avoids(nodes + [a], visited) && a !in nodes <==> Avoids(nodes, visited + {a}) && a !in visited
  {
    assert a in nodes + [a];
    assert forall n | n in nodes :: n in nodes + [a];
  }

  lemma {:induction false} ReconstructIffLineage(
    edges: Edges, task: string, current: string, visited: set<string>, chain: seq<Handoff>)
    ensures Reconstruct(edges, task, current, visited) == Ok(chain)
      <==> IsLineage(edges, task, current, chain) && Avoids(Attempts(chain, current), visited)
    decreases edges.Keys - visited
  {
    hide IsLineage, Attempts, Avoids;
    EndsAtCurrent(current, visited, chain);
    if current in visited {
    } else if current !in edges {
      LineageOfRoot(edges, task, current, chain);
      RootAvoids(current, visited);
    } else if WellFormed(edges, task, current) && chain != [] && chain[|chain| - 1] == edges[current] {
      var (h, older) := (edges[current], chain[..|chain| - 1]);
      assert chain == older + [h];
      ReconstructIffLineage(edges, task, h.predecessorId, visited + {current}, older);
      LineageSnoc(edges, task, h, older);
      AttemptsSnoc(older, h);
      AvoidsSnoc(Attempts(older, h.predecessorId), current, visited);
      SnocCancels(edges, task, current, visited, older);
    } else {
      if IsLineage(edges, task, current, chain) { LastIsStored(edges, task, current, chain); }
      if Reconstruct(edges, task, current, visited) == Ok(chain) { LastReconstructed(edges, task, current, visited, chain); }
    }
  }

  lemma EndsAtCurrent(current: string, visited: set<string>, chain: seq<Handoff>)
    ensures current in visited ==> !Avoids(Attempts(chain, current), visited)
  {
    assert Attempts(chain, current)[|chain|] == current;
  }

  lemma RootAvoids(current: string, visited: set<string>)
    requires current !in visited
    ensures Avoids(Attempts([], current), visited)
  {
  }

  lemma LastReconstructed(edges: Edges, task: string, current: string, visited: set<string>, chain: seq<Handoff>)
    requires current in edges && Reconstruct(edges, task, current, visited) == Ok(chain)
    ensures chain != [] && chain[|chain| - 1] == edges[current] && WellFormed(edges, task, current)
  {
  }

  lemma SnocCancels(edges: Edges, task: string, current: string, visited: set<string>, older: seq<Handoff>)
    requires current !in visited && current in edges && WellFormed(edges, task, current)
    ensures Reconstruct(edges, task, current, visited) == Ok(older + [edges[current]])
      <==> Reconstruct(edges, task, edges[current].predecessorId, visited + {current}) == Ok(older)
  {
    match Reconstruct(edges, task, edges[current].predecessorId, visited + {current})
    case Err(_) =>
    case Ok(other) =>
      if other + [edges[current]] == older + [edges[current]] {
        assert other == (other + [edges[current]])[..|other|] == (older + [edges[current]])[..|older|] == older;
      }
  }

  lemma LineageOfRoot(edges: Edges, task: string, current: string, chain: seq<Handoff>)
    requires current !in edges
    ensures IsLineage(edges, task, current, chain) <==> chain == []
    ensures Avoids(Attempts([], current), {})
    ensures forall visited: set<string> :: Avoids(Attempts([], current), visited) <==> current !in visited
  {
    assert Attempts([], current) == [current];
    if IsLineage(edges, task, current, chain) { LastIsStored(edges, task, current, chain); }
  }

  lemma LastIsStored(edges: Edges, task: string, current: string, chain: seq<Handoff>)
    requires IsLineage(edges, task, current, chain)
    ensures chain != [] <==> current in edges
    ensures chain != [] ==> chain[|chain| - 1] == edges[current] && WellFormed(edges, task, current)
  {
    if chain != [] { assert Link(edges, task, Attempts(chain, current)[(|chain| - 1) + 1], chain[|chain| - 1]); }
  }

  // Reconstruction returns exactly the lineage of the attempt, when it has one.
  lemma ReconstructionExact(edges: Edges, task: string, attempt: string, chain: seq<Handoff>)
    ensures Reconstruct(edges, task, attempt, {}) == Ok(chain) <==> IsLineage(edges, task, attempt, chain)
  {
    ReconstructIffLineage(edges, task, attempt, {}, chain);
  }

  // ---- Walking back, step by step --------------------------------------------------------

  // The attempt `n` handoffs before `a`.
  function Back(edges: Edges, a: string, n: nat): Option<string> {
    if n == 0 then Some(a)
    else match Back(edges, a, n - 1)
      case None => None
      case Some(b) => if b in edges then Some(edges[b].predecessorId) else None
  }

  lemma {:induction false} BackAdd(edges: Edges, a: string, m: nat, n: nat)
    ensures Back(edges, a, m + n) == (match Back(edges, a, m) case None => None case Some(b) => Back(edges, b, n))
    decreases n
  {
    if n > 0 { BackAdd(edges, a, m, n - 1); }
  }

  ghost predicate Repeats(edges: Edges, a: string) {
    exists m: nat, n: nat :: m < n && Back(edges, a, m).Some? && Back(edges, a, m) == Back(edges, a, n)
  }

  ghost predicate AllWellFormed(edges: Edges, task: string, a: string) {
    forall n: nat | Back(edges, a, n).Some? && Back(edges, a, n).value in edges ::
      WellFormed(edges, task, Back(edges, a, n).value)
  }

  // The walk from `attempt` has taken `n` steps, to `current`, through `visited`.
  ghost predicate Walked(edges: Edges, attempt: string, n: nat, current: string, visited: set<string>) {
    && Back(edges, attempt, n) == Some(current)
    && (forall v | v in visited :: exists m: nat :: m < n && Back(edges, attempt, m) == Some(v))
    && (forall m: nat | m < n :: Back(edges, attempt, m).Some? && Back(edges, attempt, m).value in visited)
  }

  lemma {:induction false} ReconstructFollowsWalk(
    edges: Edges, task: string, attempt: string, n: nat, current: string, visited: set<string>)
    requires Walked(edges, attempt, n, current, visited)
    ensures match Reconstruct(edges, task, current, visited)
      case Err(Cycle) => Repeats(edges, attempt)
      case Err(_) => !AllWellFormed(edges, task, attempt)
      case Ok(chain) => forall k: nat | k > n + |chain| :: Back(edges, attempt, k).None?
    decreases edges.Keys - visited
  {
    if current in visited {
    } else if current !in edges {
      forall k: nat | k > n ensures Back(edges, attempt, k).None? { BackAdd(edges, attempt, n + 1, k - n - 1); }
    } else if WellFormed(edges, task, current) {
      ReconstructFollowsWalk(edges, task, attempt, n + 1, edges[current].predecessorId, visited + {current});
    } else {
      assert Back(edges, attempt, n).value == current;
    }
  }

  // The walk passes through exactly the chain's attempts, newest first.
  lemma {:induction false} BackAlongLineage(edges: Edges, task: string, attempt: string, chain: seq<Handoff>, n: nat)
    requires IsLineage(edges, task, attempt, chain)
    ensures n <= |chain| ==> Back(edges, attempt, n) == Some(Attempts(chain, attempt)[|chain| - n])
    ensures n > |chain| ==> Back(edges, attempt, n) == None
  {
    if n > 0 {
      BackAlongLineage(edges, task, attempt, chain, n - 1);
      var nodes := Attempts(chain, attempt);
      hide Attempts, Distinct, WellFormed;
      if n <= |chain| {
        var i := |chain| - n;
        assert Link(edges, task, nodes[i + 1], chain[i]);
      }
    }
  }

  lemma LineageNeverRepeats(edges: Edges, task: string, attempt: string, chain: seq<Handoff>)
    requires IsLineage(edges, task, attempt, chain)
    ensures !Repeats(edges, attempt) && AllWellFormed(edges, task, attempt)
  {
    var nodes := Attempts(chain, attempt);
    forall m: nat, n: nat | m < n && Back(edges, attempt, m).Some? ensures Back(edges, attempt, m) != Back(edges, attempt, n) {
      BackAlongLineage(edges, task, attempt, chain, m);
      BackAlongLineage(edges, task, attempt, chain, n);
    }
    forall n: nat | Back(edges, attempt, n).Some? && Back(edges, attempt, n).value in edges
      ensures WellFormed(edges, task, Back(edges, attempt, n).value)
    {
      BackAlongLineage(edges, task, attempt, chain, n);
      var i := |chain| - n;
      if i > 0 { assert Link(edges, task, nodes[(i - 1) + 1], chain[i - 1]); }
    }
  }

  // Reconstruction succeeds exactly when the walk repeats no attempt and every
  // record on it is well formed; it reports a cycle only when there is one.
  lemma ReconstructionSucceedsIff(edges: Edges, task: string, attempt: string)
    ensures Reconstruct(edges, task, attempt, {}).Ok?
      <==> !Repeats(edges, attempt) && AllWellFormed(edges, task, attempt)
    ensures Reconstruct(edges, task, attempt, {}) == Err(Cycle) ==> Repeats(edges, attempt)
  {
    ReconstructFollowsWalk(edges, task, attempt, 0, attempt, {});
    if Reconstruct(edges, task, attempt, {}).Ok? {
      var chain := Reconstruct(edges, task, attempt, {}).value;
      ReconstructionExact(edges, task, attempt, chain);
      LineageNeverRepeats(edges, task, attempt, chain);
    }
  }

  // ---- Which failure is reported ------------------------------------------------------------

  ghost predicate Revisits(edges: Edges, a: string, n: nat) {
    exists m: nat :: m < n && Back(edges, a, m) == Back(edges, a, n)
  }

  // The walk's first `n` attempts are pairwise different and have well-formed records.
  ghost predicate Clear(edges: Edges, task: string, a: string, n: nat) {
    forall m: nat | m < n :: ClearAt(edges, task, a, m)
  }

  ghost predicate ClearAt(edges: Edges, task: string, a: string, m: nat) {
    var b := Back(edges, a, m);
    b.Some? && b.value in edges && WellFormed(edges, task, b.value) && !Revisits(edges, a, m)
  }

  // After `n` clear steps the walk meets an attempt it has passed, or else a stored record
  // of another task, of another successor, or of an attempt that succeeds itself.
  ghost predicate StopsWith(edges: Edges, task: string, a: string, n: nat, e: LineageError) {
    && Clear(edges, task, a, n)
    && Back(edges, a, n).Some?
    && var b := Back(edges, a, n).value;
       if e.Cycle? then Revisits(edges, a, n)
       else
         && !Revisits(edges, a, n) && b in edges
         && var h := edges[b];
            match e
            case Cycle => false
            case WrongTask => h.taskId != task
            case WrongSuccessor => h.taskId == task && h.successorId != b
            case SelfCycle => h.taskId == task && h.successorId == b && h.predecessorId == b
  }

  lemma VisitedIffRevisits(edges: Edges, attempt: string, n: nat, current: string, visited: set<string>)
    requires Walked(edges, attempt, n, current, visited)
    ensures current in visited <==> Revisits(edges, attempt, n)
  {
    if current in visited {
      var m: nat :| m < n && Back(edges, attempt, m) == Some(current);
    }
  }

  lemma WalkedOn(edges: Edges, task: string, attempt: string, n: nat, current: string, visited: set<string>)
    requires Walked(edges, attempt, n, current, visited) && current in edges
    ensures Walked(edges, attempt, n + 1, edges[current].predecessorId, visited + {current})
  {
    assert Back(edges, attempt, n) == Some(current);
  }

  lemma ClearOn(edges: Edges, task: string, attempt: string, n: nat)
    ensures Clear(edges, task, attempt, n + 1) <==> Clear(edges, task, attempt, n) && ClearAt(edges, task, attempt, n)
  {
    hide ClearAt;
    if Clear(edges, task, attempt, n + 1) {
      forall m: nat | m < n ensures ClearAt(edges, task, attempt, m) {}
    }
  }

  lemma {:induction false} FailureStops(
    edges: Edges, task: string, attempt: string, n: nat, current: string, visited: set<string>)
    requires Walked(edges, attempt, n, current, visited) && Clear(edges, task, attempt, n)
    ensures var r := Reconstruct(edges, task, current, visited);
      r.Err? ==> exists k: nat :: StopsWith(edges, task, attempt, k, r.error)
    decreases edges.Keys - visited
  {
    hide Clear, Revisits, Walked;
    VisitedIffRevisits(edges, attempt, n, current, visited);
    assert Back(edges, attempt, n) == Some(current) by { WalkedAt(edges, attempt, n, current, visited); }
    if current !in visited && current in edges && WellFormed(edges, task, current) {
      WalkedOn(edges, task, attempt, n, current, visited);
      ClearOn(edges, task, attempt, n);
      FailureStops(edges, task, attempt, n + 1, edges[current].predecessorId, visited + {current});
    } else if Reconstruct(edges, task, current, visited).Err? {
      assert StopsWith(edges, task, attempt, n, Reconstruct(edges, task, current, visited).error);
    }
  }

  lemma WalkedAt(edges: Edges, attempt: string, n: nat, current: string, visited: set<string>)
    requires Walked(edges, attempt, n, current, visited)
    ensures Back(edges, attempt, n) == Some(current)
  {
  }

  lemma {:induction false} StopFails(
    edges: Edges, task: string, attempt: string, n: nat, current: string, visited: set<string>, k: nat, e: LineageError)
    requires n <= k && Walked(edges, attempt, n, current, visited) && StopsWith(edges, task, attempt, k, e)
    ensures Reconstruct(edges, task, current, visited) == Err(e)
    decreases k - n
  {
    hide Revisits, Walked;
    VisitedIffRevisits(edges, attempt, n, current, visited);
    assert Back(edges, attempt, n) == Some(current) by { WalkedAt(edges, attempt, n, current, visited); }
    if n < k {
      assert ClearAt(edges, task, attempt, n);
      WalkedOn(edges, task, attempt, n, current, visited);
      StopFails(edges, task, attempt, n + 1, edges[current].predecessorId, visited + {current}, k, e);
    }
  }

  // Reconstruction reports the first failure the walk meets, whichever it is.
  lemma FailureIs(edges: Edges, task: string, attempt: string, e: LineageError)
    ensures Reconstruct(edges, task, attempt, {}) == Err(e)
      <==> exists n: nat :: StopsWith(edges, task, attempt, n, e)
  {
    hide StopsWith;
    FailureStops(edges, task, attempt, 0, attempt, {});
    if n: nat :| StopsWith(edges, task, attempt, n, e) {
      StopFails(edges, task, attempt, 0, attempt, {}, n, e);
    }
  }

  // ---- Forests ----------------------------------------------------------------------------

  // No attempt is its own ancestor.
  ghost predicate Acyclic(edges: Edges) {
    forall a: string, n: nat | n > 0 :: Back(edges, a, n) != Some(a)
  }

  lemma AcyclicNeverRepeats(edges: Edges, a: string)
    requires Acyclic(edges)
    ensures !Repeats(edges, a)
  {
    forall m: nat, n: nat | m < n && Back(edges, a, m).Some? ensures Back(edges, a, m) != Back(edges, a, n) {
      BackAdd(edges, a, m, n - m);
      assert Back(edges, Back(edges, a, m).value, n - m) != Back(edges, a, m);
    }
  }

  lemma {:induction false} BackUnaffected(edges: Edges, s: string, h: Handoff, a: string, n: nat)
    requires forall k: nat | k < n :: Back(edges, a, k) != Some(s)
    ensures Back(edges[s := h], a, n) == Back(edges, a, n)
  {
    if n > 0 { BackUnaffected(edges, s, h, a, n - 1); }
  }

  // The first step at which the walk from `a` reaches `s`, within `n` steps.
  lemma {:induction false} FirstVisit(edges: Edges, a: string, s: string, n: nat) returns (k: nat)
    ensures k <= n && forall j: nat | j < k :: Back(edges, a, j) != Some(s)
    ensures k < n ==> Back(edges, a, k) == Some(s)
  {
    if n == 0 {
      k := 0;
    } else {
      k := FirstVisit(edges, a, s, n - 1);
      if k == n - 1 && Back(edges, a, k) != Some(s) { k := n; }
    }
  }

  lemma ReachesSuccessor(edges: Edges, a: string, k: nat, n: nat, s: string)
    requires Back(edges, a, n) == Some(a) && Back(edges, a, k) == Some(s)
    ensures Back(edges, s, n) == Some(s)
  {
    BackAdd(edges, a, k, n);
    BackAdd(edges, a, n, k);
  }

  // Adding an edge from a successor outside its predecessor's ancestry keeps the graph a forest.
  lemma ForestGrows(edges: Edges, s: string, h: Handoff)
    requires Acyclic(edges)
    requires forall n: nat :: Back(edges, h.predecessorId, n) != Some(s)
    ensures Acyclic(edges[s := h])
  {
    var grown := edges[s := h];
    forall a: string, n: nat | n > 0 ensures Back(grown, a, n) != Some(a) {
      if Back(grown, a, n) == Some(a) {
        var k := FirstVisit(edges, a, s, n);
        BackUnaffected(edges, s, h, a, k);
        if k < n {
          ReachesSuccessor(grown, a, k, n, s);
          BackAdd(grown, s, 1, n - 1);
          assert Back(grown, s, 1) == Some(h.predecessorId) by { assert Back(grown, s, 0) == Some(s); }
          BackUnaffected(edges, s, h, h.predecessorId, n - 1);
          assert false;
        }
      }
    }
  }
}
