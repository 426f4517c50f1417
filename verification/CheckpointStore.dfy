// The store object: each operation updates the files one atomic replacement at a time,
// and comes to what the matching function of `StoreFiles` says.
module CheckpointStore {
  import opened Text
  import opened Checkpoints
  import opened Handoffs
  import opened Lineage
  import F = StoreFiles
  import opened StoreFiles

  class WorkflowCheckpointStore {
    const hashes: Hashes
    var current: map<Place, Checkpoint>
    var history: map<Place, map<string, Checkpoint>>
    var handoffs: map<string, Edges>

    constructor (hashes: Hashes)
      ensures this.hashes == hashes && State() == EMPTY
    {
      this.hashes := hashes;
      current, history, handoffs := map[], map[], map[];
    }

    function State(): Files
      reads this
    {
      Files(current, history, handoffs)
    }

    // The two atomic replacements under the attempt's lock.
    method ReplaceFiles(c: Checkpoint, stop: Stop) returns (r: Reply)
      requires c.revision >= 1
      modifies this`current, this`history
      ensures State() == Put(old(State()), c, stop) && r == Replied(c, stop)
    {
      if stop == BeforeCurrent { return Err(Crashed); }
      current := current[PlaceOf(c) := c];
      if stop == BeforeHistory { return Err(Crashed); }
      history := history[PlaceOf(c) := Within(history, PlaceOf(c))[FileName(c.revision) := c]];
      return Ok(c);
    }

    method Write(c: Checkpoint, expected: Option<int>, stop: Stop) returns (r: Reply)
      modifies this`current, this`history
      ensures (State(), r) == F.Write(old(State()), c, expected, stop)
    {
      if !Storable(c) { return Err(Refused); }
      var existing := Find(current, PlaceOf(c));
      if expected.Some? {
        var actual := if existing.Some? then existing.value.revision else 0;
        if actual != expected.value { return Err(Conflict); }
      } else if existing.Some? && c.revision <= existing.value.revision {
        return Err(Conflict);
      }
      r := ReplaceFiles(c, stop);
    }

    method Read(at: Place) returns (r: Option<Checkpoint>)
      ensures r == Find(State().current, at)
    {
      r := Find(current, at);
    }

    method History(at: Place) returns (r: seq<Checkpoint>)
      ensures r == F.History(State(), at)
    {
      var files := Within(history, at);
      var names := Sorted(files.Keys);
      r := [];
      for i := 0 to |names|
        invariant |r| == i && forall j | 0 <= j < i :: names[j] in files && r[j] == files[names[j]]
      {
        assert names[i] in names;
        r := r + [files[names[i]]];
      }
      assert r == F.History(State(), at);
    }

    method RecordEffect(at: Place, e: Effect, expected: int, stop: Stop) returns (r: Reply)
      modifies this`current, this`history
      ensures (State(), r) == F.RecordEffect(old(State()), at, e, expected, stop)
    {
      if at !in current { return Err(Unknown); }
      var c := current[at];
      if c.revision != expected { return Err(Conflict); }
      if c.HasEffect(e.key) { return Ok(c); }
      var updated := WithEffect(c, e);
      if updated.None? || !Storable(updated.value) { return Err(Refused); }
      r := ReplaceFiles(updated.value, stop);
    }

    method WriteHandoff(h: Handoff) returns (conflict: bool)
      modifies this`handoffs
      ensures conflict == !SameHandoff(old(State()), h, hashes)
      ensures State() == if conflict then old(State()) else PutHandoff(old(State()), h)
    {
      var edges := Within(handoffs, h.taskId);
      if h.successorId in edges {
        return hashes.lineage(edges[h.successorId]) != hashes.lineage(h);
      }
      handoffs := handoffs[h.taskId := edges[h.successorId := h]];
      return false;
    }

    method BindSuccessorCheckpoint(b: BindRequest, stop: Stop) returns (r: Reply)
      modifies this
      ensures (State(), r) == Bind(old(State()), b, hashes, stop)
    {
      var h := b.handoff;
      if !StorableHandoff(h, hashes.shown) { return Err(Refused); }
      var predecessor := Read((h.taskId, h.predecessorId));
      if predecessor.None? { return Err(MissingPredecessor); }
      var ancestry := ReconstructLineageChain(Within(handoffs, h.taskId), h.taskId, h.predecessorId);
      if ancestry.Err? { return Err(BadLineage(ancestry.error)); }
      if h.successorId in Attempts(ancestry.value, h.predecessorId) { return Err(MakesCycle); }
      var judged := Evaluate(h, b.current, predecessor, b.fences, hashes.checkpoint);
      if judged.disposition != SAFE { return Err(NotSafe(judged)); }
      if !DeclaredEffectsMatch(h, predecessor.value) { return Err(EffectsMismatch); }
      var successor := Construct(Successor(h, predecessor.value, b.current, b.status, b.phase, hashes.shown));
      if successor.None? || !Storable(successor.value) { return Err(Refused); }
      assert BindChecks(State(), b, hashes) == Ok(successor.value);
      if stop == BeforeHandoff {
        return Err(if SameHandoff(State(), h, hashes) then Crashed else Conflict);
      }
      var conflict := WriteHandoff(h);
      if conflict { return Err(Conflict); }
      r := Write(successor.value, None, stop);
    }
  }
}
