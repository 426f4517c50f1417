// The files of the durable checkpoint store, and each operation on them as a function
// from the files before to the files after: compare-and-set writes, effect records,
// history, handoffs and the bind of a successor attempt.
module StoreFiles {
  import opened Text
  import opened Checkpoints
  import opened Handoffs
  import opened Lineage
  import JsNumbers

  // An attempt's directory: task id and attempt id.
  type Place = (string, string)

  datatype Files = Files(
    current: map<Place, Checkpoint>,
    history: map<Place, map<string, Checkpoint>>,
    handoffs: map<string, Edges>)

  const EMPTY := Files(map[], map[], map[])

  // Where the process dies, if it does, between an operation's atomic writes.
  datatype Stop = Never | BeforeHandoff | BeforeCurrent | BeforeHistory

  datatype StoreError =
    | Refused | Conflict | Unknown | Crashed
    | MissingPredecessor | BadLineage(fault: LineageError) | MakesCycle | NotSafe(judged: Evaluation) | EffectsMismatch

  type Reply = Result<Checkpoint, StoreError>

  // The hashes of whole records, and what `str` makes of a list or an object.
  datatype Hashes = Hashes(checkpoint: Checkpoint -> string, lineage: Handoff -> string, shown: Show) {
    ghost predicate Injective() {
      && (forall a, b | checkpoint(a) == checkpoint(b) :: a == b)
      && (forall a, b | lineage(a) == lineage(b) :: a == b)
    }
  }

  predicate SafeSegment(s: string) {
    NonBlank(s) && Trimmed(s) && s != "." && s != ".." && forall i | 0 <= i < |s| :: s[i] !in "/\\\0"
  }

  // "handoffs" is where the handoff files live.
  predicate AttemptSegment(s: string) { SafeSegment(s) && s != "handoffs" }

  predicate Storable(c: Checkpoint) {
    Valid(c) && ReadsBack(c) && SafeSegment(c.taskId) && AttemptSegment(c.attemptId)
  }

  predicate StorableHandoff(h: Handoff, shown: Show) {
    && ValidHandoff(h, shown) && HandoffReadsBack(h)
    && SafeSegment(h.taskId) && AttemptSegment(h.successorId) && AttemptSegment(h.predecessorId)
  }

  function PlaceOf(c: Checkpoint): Place { (c.taskId, c.attemptId) }

  // Every attempt's checkpoint is storable and at its own place.
  ghost predicate Kept(f: Files) { forall at | at in f.current :: Storable(f.current[at]) && PlaceOf(f.current[at]) == at }

  function Find<K(==), V>(m: map<K, V>, k: K): Option<V> { if k in m then Some(m[k]) else None }

  function Within<K(==), V>(m: map<K, map<string, V>>, k: K): map<string, V> { if k in m then m[k] else map[] }

  // `f"{revision:08d}.json"`
  function FileName(revision: int): string
    requires revision >= 0
  {
    Padded(revision) + ".json"
  }

  function Padded(revision: nat): string {
    var t := JsNumbers.NatText(revision);
    if |t| < 8 then Zeros(8 - |t|) + t else t
  }

  // ---- Operations on the files -----------------------------------------------------------

  // Replace `current.json`, then write the history file.
  function Put(f: Files, c: Checkpoint, stop: Stop): Files
    requires c.revision >= 1
  {
    if stop == BeforeCurrent then f
    else
      var g := f.(current := f.current[PlaceOf(c) := c]);
      if stop == BeforeHistory then g
      else g.(history := g.history[PlaceOf(c) := Within(g.history, PlaceOf(c))[FileName(c.revision) := c]])
  }

  function Replied(c: Checkpoint, stop: Stop): Reply {
    if stop == BeforeCurrent || stop == BeforeHistory then Err(Crashed) else Ok(c)
  }

  predicate Conflicts(existing: Option<Checkpoint>, c: Checkpoint, expected: Option<int>) {
    match expected
    case Some(revision) => (if existing.Some? then existing.value.revision else 0) != revision
    case None => existing.Some? && c.revision <= existing.value.revision
  }

  function Write(f: Files, c: Checkpoint, expected: Option<int>, stop: Stop): (Files, Reply) {
    if !Storable(c) then (f, Err(Refused))
    else if Conflicts(Find(f.current, PlaceOf(c)), c, expected) then (f, Err(Conflict))
    else (Put(f, c, stop), Replied(c, stop))
  }

  function RecordEffect(f: Files, at: Place, e: Effect, expected: int, stop: Stop): (Files, Reply) {
    if at !in f.current then (f, Err(Unknown))
    else var c := f.current[at];
      if c.revision != expected then (f, Err(Conflict))
      else if c.HasEffect(e.key) then (f, Ok(c))
      else match WithEffect(c, e)
        case None => (f, Err(Refused))
        case Some(d) => if Storable(d) then (Put(f, d, stop), Replied(d, stop)) else (f, Err(Refused))
  }

  // `history()`: the files by name.
  function History(f: Files, at: Place): seq<Checkpoint> {
    var files := Within(f.history, at);
    var names := Sorted(files.Keys);
    seq(|names|, i requires 0 <= i < |names| => assert names[i] in names; files[names[i]])
  }

  predicate SameHandoff(f: Files, h: Handoff, hashes: Hashes) {
    var edges := Within(f.handoffs, h.taskId);
    h.successorId in edges ==> hashes.lineage(edges[h.successorId]) == hashes.lineage(h)
  }

  function PutHandoff(f: Files, h: Handoff): Files {
    var edges := Within(f.handoffs, h.taskId);
    if h.successorId in edges then f
    else f.(handoffs := f.handoffs[h.taskId := edges[h.successorId := h]])
  }

  function Elements(xs: seq<string>): set<string> { set x | x in xs }

  // The declared effect keys and receipts, when given, are exactly the predecessor's.
  predicate DeclaredEffectsMatch(h: Handoff, p: Checkpoint) {
    && (h.effectKeys != [] ==> Elements(h.effectKeys) == set e | e in p.completedEffects :: e.key)
    && (h.effectRefs != [] ==> Elements(h.effectRefs) == set e | e in p.completedEffects :: e.receiptRef)
  }

  function Successor(h: Handoff, p: Checkpoint, current: Identity, status: string, phase: string, shown: Show): Checkpoint {
    Checkpoint(
      h.taskId, SuccessorOperation(h, shown), h.successorId, current, 1, status, phase, h.nextGate,
      map[], [], h.inheritedEvidence, p.completedEffects, [],
      ["handoff:" + h.predecessorId + "->" + h.successorId + ":" + h.reason], "", CHECKPOINT_CLAIM_CEILING)
  }

  datatype BindRequest = BindRequest(
    handoff: Handoff, current: Identity, fences: Fences, status: string, phase: string)

  // What `bind_successor_checkpoint` establishes before it writes anything.
  function BindChecks(f: Files, b: BindRequest, hashes: Hashes): Reply {
    var h := b.handoff;
    var edges := Within(f.handoffs, h.taskId);
    if !StorableHandoff(h, hashes.shown) then Err(Refused)
    else if (h.taskId, h.predecessorId) !in f.current then Err(MissingPredecessor)
    else var p := f.current[(h.taskId, h.predecessorId)];
      match Reconstruct(edges, h.taskId, h.predecessorId, {})
      case Err(e) => Err(BadLineage(e))
      case Ok(ancestry) =>
        if h.successorId in Attempts(ancestry, h.predecessorId) then Err(MakesCycle)
        else var judged := Evaluate(h, b.current, Some(p), b.fences, hashes.checkpoint);
          if judged.disposition != SAFE then Err(NotSafe(judged))
          else if !DeclaredEffectsMatch(h, p) then Err(EffectsMismatch)
          else match Construct(Successor(h, p, b.current, b.status, b.phase, hashes.shown))
            case None => Err(Refused)
            case Some(c) => if Storable(c) then Ok(c) else Err(Refused)
  }

  function Bind(f: Files, b: BindRequest, hashes: Hashes, stop: Stop): (Files, Reply) {
    match BindChecks(f, b, hashes)
    case Err(e) => (f, Err(e))
    case Ok(c) =>
      if !SameHandoff(f, b.handoff, hashes) then (f, Err(Conflict))
      else if stop == BeforeHandoff then (f, Err(Crashed))
      else Write(PutHandoff(f, b.handoff), c, None, stop)
  }
}
