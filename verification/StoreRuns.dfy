// Runs of the store: clients read, derive the next revision from what they read and
// compare-and-set on its revision; others record effects or bind successors; the
// process may die between any two atomic writes. What every such run keeps.
module StoreRuns {
  import opened Text
  import opened Checkpoints
  import opened Handoffs
  import opened Lineage
  import opened StoreFiles
  import opened HistoryOrder

  // How a successor came to be bound: from which attempt, which then held these effects.
  datatype Bound = Bound(predecessor: string, effects: seq<Effect>)

  // The files, what each client last read or wrote, and a record of the past:
  // every content that was ever current, the revisions whose history write a crash
  // cut off, and the binds that wrote their successor.
  datatype World = World(
    files: Files, views: map<nat, Checkpoint>,
    ever: map<Place, map<int, Checkpoint>>, torn: set<(Place, int)>, bound: map<Place, Bound>)

  const START := World(EMPTY, map[], map[], {}, map[])

  datatype Event =
    | Look(client: nat, at: Place)
    | Create(client: nat, c: Checkpoint, stop: Stop)
    | CasAdvance(client: nat, change: Advance, stop: Stop)
    | CasEffect(client: nat, e: Effect, stop: Stop)
    | Record(at: Place, e: Effect, expected: int, stop: Stop)
    | BindSuccessor(b: BindRequest, stop: Stop)

  function Seen(ever: map<Place, map<int, Checkpoint>>, c: Checkpoint): map<Place, map<int, Checkpoint>> {
    ever[PlaceOf(c) := (if PlaceOf(c) in ever then ever[PlaceOf(c)] else map[])[c.revision := c]]
  }

  // The outcome of an operation that wrote `c`, or died trying.
  predicate Landed(reply: Reply, stop: Stop) { reply.Ok? || (reply == Err(Crashed) && stop == BeforeHistory) }

  function Land(w: World, c: Checkpoint, out: (Files, Reply), stop: Stop): World {
    if Landed(out.1, stop) then
      w.(files := out.0, ever := Seen(w.ever, c),
        torn := if out.1.Ok? then w.torn - {(PlaceOf(c), c.revision)} else w.torn + {(PlaceOf(c), c.revision)})
    else w.(files := out.0)
  }

  function ClientLand(w: World, client: nat, c: Checkpoint, expected: int, stop: Stop): World {
    var out := Write(w.files, c, Some(expected), stop);
    var next := Land(w, c, out, stop);
    if out.1.Ok? then next.(views := next.views[client := c]) else next
  }

  function BindLand(w: World, b: BindRequest, stop: Stop, hashes: Hashes): World {
    var out := Bind(w.files, b, hashes, stop);
    match BindChecks(w.files, b, hashes)
    case Err(_) => w
    case Ok(c) =>
      var next := Land(w, c, out, stop);
      if Landed(out.1, stop) then
        next.(bound := next.bound[PlaceOf(c) := Bound(b.handoff.predecessorId, c.completedEffects)])
      else next
  }

  function Step(w: World, event: Event, hashes: Hashes): World {
    match event
    case Look(client, at) =>
      w.(views := if at in w.files.current then w.views[client := w.files.current[at]] else w.views - {client})
    case Create(client, c, stop) =>
      if c.revision == 1 then ClientLand(w, client, c, 0, stop) else w
    case CasAdvance(client, change, stop) =>
      if client !in w.views then w
      else (match Advanced(w.views[client], change)
        case None => w
        case Some(d) => ClientLand(w, client, d, w.views[client].revision, stop))
    case CasEffect(client, e, stop) =>
      if client !in w.views then w
      else (match WithEffect(w.views[client], e)
        case None => w
        case Some(d) => ClientLand(w, client, d, w.views[client].revision, stop))
    case Record(at, e, expected, stop) =>
      if at !in w.files.current || w.files.current[at].HasEffect(e.key) then w
      else (match WithEffect(w.files.current[at], e)
        case None => w
        case Some(d) => Land(w, d, RecordEffect(w.files, at, e, expected, stop), stop))
    case BindSuccessor(b, stop) => BindLand(w, b, stop, hashes)
  }

  function Run(w: World, events: seq<Event>, hashes: Hashes): World {
    if events == [] then w else Step(Run(w, events[..|events| - 1], hashes), events[|events| - 1], hashes)
  }

  // ---- What every reachable world satisfies ---------------------------------------------

  type Current = map<Place, Checkpoint>
  type Past = map<Place, map<int, Checkpoint>>
  type Listing = map<Place, map<string, Checkpoint>>

  ghost predicate CellOk(current: Current, ever: Past, at: Place)
    requires at in current
  {
    var c := current[at];
    && Storable(c) && PlaceOf(c) == at && at in ever
    && c.revision in ever[at] && ever[at][c.revision] == c
    && forall r | r in ever[at] :: r <= c.revision
  }

  // Revision `r` of an attempt, and the one it was derived from.
  ghost predicate RevisionOk(past: map<int, Checkpoint>, at: Place, r: int)
    requires r in past
  {
    && r >= 1 && Storable(past[r]) && PlaceOf(past[r]) == at && past[r].revision == r
    && (r > 1 ==> r - 1 in past && NextOf(past[r - 1], past[r]))
  }

  ghost predicate WasCurrent(ever: map<Place, map<int, Checkpoint>>, at: Place, name: string, c: Checkpoint) {
    at in ever && c.revision in ever[at] && ever[at][c.revision] == c && c.revision >= 1 && name == FileName(c.revision)
  }

  ghost predicate CellsOk(current: Current, ever: Past) {
    && (forall at | at in current :: CellOk(current, ever, at))
    && (forall at | at in ever :: at in current && forall r | r in ever[at] :: RevisionOk(ever[at], at, r))
  }

  ghost predicate ViewsOk(views: map<nat, Checkpoint>, ever: Past) {
    forall client | client in views :: ViewOk(ever, views[client])
  }

  ghost predicate ViewOk(ever: Past, v: Checkpoint) {
    PlaceOf(v) in ever && v.revision in ever[PlaceOf(v)] && ever[PlaceOf(v)][v.revision] == v
  }

  ghost predicate HistoryOk(history: Listing, ever: Past, torn: set<(Place, int)>) {
    && (forall at, name | at in history && name in history[at] :: WasCurrent(ever, at, name, history[at][name]))
    && (forall at, r | at in ever && r in ever[at] && (at, r) !in torn :: Listed(history, at, r))
  }

  predicate Listed(history: Listing, at: Place, r: int) { r >= 0 && FileName(r) in Within(history, at) }

  ghost predicate EdgesOk(edges: Edges, task: string) {
    Acyclic(edges) && forall s | s in edges :: WellFormed(edges, task, s)
  }

  ghost predicate ForestOk(handoffs: map<string, Edges>) {
    forall task | task in handoffs :: EdgesOk(handoffs[task], task)
  }

  ghost predicate Holds(es: seq<Effect>, fs: seq<Effect>) { forall e | e in fs :: e in es }

  ghost predicate BoundOk(current: Current, handoffs: map<string, Edges>, bound: map<Place, Bound>, s: Place)
    requires s in bound
  {
    var (b, p) := (bound[s], (s.0, bound[s].predecessor));
    && s in current && p in current
    && Holds(current[s].completedEffects, b.effects)
    && (p in bound ==> Holds(b.effects, bound[p].effects))
    && s.1 in Within(handoffs, s.0) && handoffs[s.0][s.1].predecessorId == b.predecessor
  }

  ghost predicate Inv(w: World) {
    && CellsOk(w.files.current, w.ever) && ViewsOk(w.views, w.ever) && HistoryOk(w.files.history, w.ever, w.torn)
    && ForestOk(w.files.handoffs) && forall s | s in w.bound :: BoundOk(w.files.current, w.files.handoffs, w.bound, s)
  }

  // ---- What never goes back -----------------------------------------------------------------

  ghost predicate CellGrows(c: Checkpoint, d: Checkpoint) {
    c.revision <= d.revision && Holds(d.completedEffects, c.completedEffects)
  }

  ghost predicate Grows(w: World, w': World) {
    && (forall at | at in w.files.current ::
      at in w'.files.current && CellGrows(w.files.current[at], w'.files.current[at]))
    && (forall at, r | at in w.ever && r in w.ever[at] ::
      at in w'.ever && r in w'.ever[at] && w'.ever[at][r] == w.ever[at][r])
    && (forall task, s | task in w.files.handoffs && s in w.files.handoffs[task] ::
      task in w'.files.handoffs && s in w'.files.handoffs[task] && w'.files.handoffs[task][s] == w.files.handoffs[task][s])
    && (forall s | s in w.bound :: s in w'.bound && w'.bound[s] == w.bound[s])
  }

  // ---- One write ------------------------------------------------------------------------------

  // A content that may replace what is current: a first revision, the next one, or the same.
  ghost predicate Succeeds(current: Current, c: Checkpoint) {
    && Storable(c)
    && if PlaceOf(c) !in current then c.revision == 1
       else c == current[PlaceOf(c)] || NextOf(current[PlaceOf(c)], c)
  }

  lemma NextMeans(c: Checkpoint, d: Checkpoint)
    requires NextOf(c, d)
    ensures d.revision == c.revision + 1 && PlaceOf(d) == PlaceOf(c) && CellGrows(c, d)
  {
  }

  // The contents one attempt has had, with `c` added after `now`.
  lemma AddedRevision(past: map<int, Checkpoint>, at: Place, now: Checkpoint, c: Checkpoint, r: int)
    requires now.revision in past && past[now.revision] == now && RevisionOk(past, at, now.revision)
    requires Storable(c) && (c == now || NextOf(now, c))
    requires r in past ==> RevisionOk(past, at, r) && r <= now.revision
    requires r in past || r == c.revision
    ensures RevisionOk(past[c.revision := c], at, r) && r <= c.revision
    ensures r in past ==> past[c.revision := c][r] == past[r]
  {
    hide Storable, NextOf, CellGrows;
    if c != now { NextMeans(now, c); }
  }

  lemma FirstRevision(c: Checkpoint)
    requires Storable(c) && c.revision == 1
    ensures RevisionOk(map[1 := c], PlaceOf(c), 1)
  {
    hide Storable;
  }

  // The contents all attempts have had, with `c` added as its attempt's latest.
  lemma LandKeepsRevisions(current: Current, ever: Past, c: Checkpoint, a: Place, r: int)
    requires CellsOk(current, ever) && Succeeds(current, c) && c.revision >= 1
    requires a in Seen(ever, c) && r in Seen(ever, c)[a]
    ensures RevisionOk(Seen(ever, c)[a], a, r)
    ensures a in ever && r in ever[a] ==> Seen(ever, c)[a][r] == ever[a][r]
    ensures a == PlaceOf(c) ==> r <= c.revision
  {
    hide Storable, NextOf, RevisionOk;
    var at := PlaceOf(c);
    if a == at && at in current {
      assert CellOk(current, ever, at);
      AddedRevision(ever[at], at, current[at], c, r);
    } else if a == at {
      assert at !in ever;
      FirstRevision(c);
    }
  }

  lemma LandKeepsCell(current: Current, ever: Past, c: Checkpoint, at: Place)
    requires CellsOk(current, ever) && Succeeds(current, c) && c.revision >= 1
    ensures var now := current[PlaceOf(c) := c];
      at in now ==> CellOk(now, Seen(ever, c), at) && (at in current ==> CellGrows(current[at], now[at]))
  {
    hide Storable, NextOf;
    if at in current {
      assert CellOk(current, ever, at);
      if at == PlaceOf(c) && c != current[at] { NextMeans(current[at], c); }
    }
    if at == PlaceOf(c) {
      forall r | r in Seen(ever, c)[at] ensures r <= c.revision { LandKeepsRevisions(current, ever, c, at, r); }
    }
  }

  lemma LandKeepsCells(w: World, c: Checkpoint, reply: Reply, stop: Stop)
    requires CellsOk(w.files.current, w.ever) && Succeeds(w.files.current, c) && Landed(reply, stop) && stop != BeforeCurrent && c.revision >= 1
    ensures var next := Land(w, c, (Put(w.files, c, stop), reply), stop);
      CellsOk(next.files.current, next.ever) && (forall at | at in w.files.current ::
        at in next.files.current && CellGrows(w.files.current[at], next.files.current[at]))
      && (forall at, r | at in w.ever && r in w.ever[at] ::
        at in next.ever && r in next.ever[at] && next.ever[at][r] == w.ever[at][r])
  {
    hide Storable, NextOf, CellOk, CellGrows, RevisionOk, Succeeds, FileName;
    var next := Land(w, c, (Put(w.files, c, stop), reply), stop);
    assert next.files.current == w.files.current[PlaceOf(c) := c] && next.ever == Seen(w.ever, c);
    forall at | at in next.files.current ensures CellOk(next.files.current, next.ever, at) { LandKeepsCell(w.files.current, w.ever, c, at); }
    forall at | at in w.files.current ensures CellGrows(w.files.current[at], next.files.current[at]) { LandKeepsCell(w.files.current, w.ever, c, at); }
    forall a, r | a in next.ever && r in next.ever[a] ensures RevisionOk(next.ever[a], a, r) { LandKeepsRevisions(w.files.current, w.ever, c, a, r); }
    forall at, r | at in w.ever && r in w.ever[at]
      ensures at in next.ever && r in next.ever[at] && next.ever[at][r] == w.ever[at][r]
    {
      LandKeepsRevisions(w.files.current, w.ever, c, at, r);
    }
  }

  lemma LandKeepsListed(w: World, c: Checkpoint, stop: Stop, at: Place, name: string)
    requires CellsOk(w.files.current, w.ever) && HistoryOk(w.files.history, w.ever, w.torn) && Succeeds(w.files.current, c) && stop != BeforeCurrent && c.revision >= 1
    requires at in Put(w.files, c, stop).history && name in Put(w.files, c, stop).history[at]
    ensures WasCurrent(Seen(w.ever, c), at, name, Put(w.files, c, stop).history[at][name])
  {
    hide FileName, CellsOk, Succeeds;
    if at != PlaceOf(c) || stop == BeforeHistory || name != FileName(c.revision) {
      var d := w.files.history[at][name];
      assert WasCurrent(w.ever, at, name, d);
      LandKeepsRevisions(w.files.current, w.ever, c, at, d.revision);
    }
  }

  lemma LandKeepsComplete(w: World, c: Checkpoint, stop: Stop, at: Place, r: int)
    requires HistoryOk(w.files.history, w.ever, w.torn) && stop != BeforeCurrent && c.revision >= 1
    requires at in Seen(w.ever, c) && r in Seen(w.ever, c)[at]
    requires if at == PlaceOf(c) && r == c.revision then stop != BeforeHistory else (at, r) !in w.torn
    ensures Listed(Put(w.files, c, stop).history, at, r)
  {
    hide FileName;
    if !(at == PlaceOf(c) && r == c.revision) {
      assert at in w.ever && r in w.ever[at];
      assert Listed(w.files.history, at, r);
    }
  }

  lemma LandKeepsHistory(w: World, c: Checkpoint, reply: Reply, stop: Stop)
    requires CellsOk(w.files.current, w.ever) && HistoryOk(w.files.history, w.ever, w.torn) && Succeeds(w.files.current, c) && c.revision >= 1
    requires Landed(reply, stop) && stop != BeforeCurrent && (reply.Ok? <==> stop != BeforeHistory)
    ensures var next := Land(w, c, (Put(w.files, c, stop), reply), stop); HistoryOk(next.files.history, next.ever, next.torn)
  {
    hide CellsOk, Succeeds, FileName, Put, Seen, Listed, WasCurrent, CellGrows;
    var next := Land(w, c, (Put(w.files, c, stop), reply), stop);
    forall at, name | at in next.files.history && name in next.files.history[at]
      ensures WasCurrent(next.ever, at, name, next.files.history[at][name])
    {
      LandKeepsListed(w, c, stop, at, name);
    }
    forall at, r | at in next.ever && r in next.ever[at] && (at, r) !in next.torn
      ensures Listed(next.files.history, at, r)
    {
      LandKeepsComplete(w, c, stop, at, r);
    }
  }

  lemma BoundSurvives(w: World, next: World, s: Place)
    requires s in w.bound && BoundOk(w.files.current, w.files.handoffs, w.bound, s) && next.bound == w.bound && Grows(w, next)
    ensures BoundOk(next.files.current, next.files.handoffs, next.bound, s)
  {
    hide CellGrows;
    var p := (s.0, w.bound[s].predecessor);
    assert CellGrows(w.files.current[s], next.files.current[s]);
    GrownHolds(w.files.current[s], next.files.current[s], w.bound[s].effects);
  }

  lemma GrownHolds(c: Checkpoint, d: Checkpoint, es: seq<Effect>)
    requires CellGrows(c, d) && Holds(c.completedEffects, es)
    ensures Holds(d.completedEffects, es)
  {
  }

  // A write that lands keeps the invariant and loses nothing.
  lemma LandKeeps(w: World, c: Checkpoint, reply: Reply, stop: Stop)
    requires Inv(w) && Succeeds(w.files.current, c) && c.revision >= 1
    requires Landed(reply, stop) && stop != BeforeCurrent && (reply.Ok? <==> stop != BeforeHistory)
    ensures var next := Land(w, c, (Put(w.files, c, stop), reply), stop);
      Inv(next) && Grows(w, next) && PlaceOf(c) in next.files.current && next.files.current[PlaceOf(c)] == c
      && PlaceOf(c) in next.ever && c.revision in next.ever[PlaceOf(c)] && next.ever[PlaceOf(c)][c.revision] == c
  {
    hide Succeeds, CellsOk, HistoryOk, EdgesOk, BoundOk, CellGrows;
    LandKeepsCells(w, c, reply, stop);
    LandKeepsHistory(w, c, reply, stop);
    var next := Land(w, c, (Put(w.files, c, stop), reply), stop);
    assert Grows(w, next);
    assert ViewsOk(next.views, next.ever) by {
      forall client | client in next.views ensures ViewOk(next.ever, next.views[client]) {
        assert ViewOk(w.ever, w.views[client]);
      }
    }
    forall s | s in next.bound ensures BoundOk(next.files.current, next.files.handoffs, next.bound, s) { BoundSurvives(w, next, s); }
  }

  lemma GrowsReflexive(w: World)
    ensures Grows(w, w)
  {
  }

  lemma GrowsTransitive(a: World, b: World, c: World)
    requires Grows(a, b) && Grows(b, c)
    ensures Grows(a, c)
  {
    forall at | at in a.files.current ensures at in c.files.current && CellGrows(a.files.current[at], c.files.current[at]) {
      assert CellGrows(b.files.current[at], c.files.current[at]);
    }
  }

  // Outcomes of a compare-and-set: the value lands on the revision it names, or nothing changes.
  lemma WriteOutcome(f: Files, c: Checkpoint, expected: Option<int>, stop: Stop)
    ensures var out := Write(f, c, expected, stop);
      if Landed(out.1, stop) then
        && Storable(c) && !Conflicts(Find(f.current, PlaceOf(c)), c, expected)
        && stop != BeforeCurrent && out.0 == Put(f, c, stop) && (out.1.Ok? <==> stop != BeforeHistory)
      else out.0 == f
  {
    hide Storable;
  }

  lemma ClientLandKeeps(w: World, client: nat, c: Checkpoint, expected: int, stop: Stop)
    requires Inv(w) && c.revision >= 1
    requires Storable(c) && !Conflicts(Find(w.files.current, PlaceOf(c)), c, Some(expected)) ==> Succeeds(w.files.current, c)
    ensures Inv(ClientLand(w, client, c, expected, stop)) && Grows(w, ClientLand(w, client, c, expected, stop))
  {
    hide Succeeds, CellsOk, HistoryOk, EdgesOk, BoundOk, CellGrows, Storable, Conflicts, Put;
    var out := Write(w.files, c, Some(expected), stop);
    WriteOutcome(w.files, c, Some(expected), stop);
    if Landed(out.1, stop) {
      LandKeeps(w, c, out.1, stop);
      var next := Land(w, c, out, stop);
      if out.1.Ok? { ViewsKeep(next, next.views[client := c]); }
    } else {
      GrowsReflexive(w);
      assert w.(files := w.files) == w;
    }
  }

  lemma ViewsKeep(w: World, views: map<nat, Checkpoint>)
    requires Inv(w) && ViewsOk(views, w.ever)
    ensures Inv(w.(views := views))
    ensures forall past :: Grows(past, w) ==> Grows(past, w.(views := views))
  {
    hide CellsOk, HistoryOk, EdgesOk, BoundOk, CellGrows;
  }

  // What a client last saw is still current if its revision is.
  lemma ViewIsPast(w: World, v: Checkpoint)
    requires CellsOk(w.files.current, w.ever) && ViewOk(w.ever, v)
    ensures Valid(v) && v.revision >= 1 && PlaceOf(v) in w.files.current
    ensures w.files.current[PlaceOf(v)].revision == v.revision ==> w.files.current[PlaceOf(v)] == v
  {
    assert RevisionOk(w.ever[PlaceOf(v)], PlaceOf(v), v.revision);
    assert CellOk(w.files.current, w.ever, PlaceOf(v));
  }

  lemma CasKeeps(w: World, client: nat, d: Checkpoint, stop: Stop)
    requires Inv(w) && client in w.views
    requires Valid(w.views[client]) ==> d == w.views[client] || NextOf(w.views[client], d)
    ensures var next := ClientLand(w, client, d, w.views[client].revision, stop); Inv(next) && Grows(w, next)
  {
    hide Valid, Storable, CellGrows, HistoryOk, ForestOk, BoundOk;
    var v := w.views[client];
    assert ViewOk(w.ever, v);
    ViewIsPast(w, v);
    if d != v { NextMeans(v, d); }
    ClientLandKeeps(w, client, d, v.revision, stop);
  }

  // ---- One bind ---------------------------------------------------------------------------

  lemma ChecksMean(f: Files, b: BindRequest, hashes: Hashes, c: Checkpoint)
    requires BindChecks(f, b, hashes) == Ok(c)
    ensures var (h, edges) := (b.handoff, Within(f.handoffs, b.handoff.taskId));
      && StorableHandoff(h, hashes.shown) && Storable(c) && c.revision == 1 && PlaceOf(c) == (h.taskId, h.successorId)
      && (h.taskId, h.predecessorId) in f.current
      && Evaluate(h, b.current, Some(f.current[(h.taskId, h.predecessorId)]), b.fences, hashes.checkpoint).disposition == SAFE
      && DeclaredEffectsMatch(h, f.current[(h.taskId, h.predecessorId)])
      && (Valid(f.current[(h.taskId, h.predecessorId)]) ==>
        c.completedEffects == f.current[(h.taskId, h.predecessorId)].completedEffects)
      && Reconstruct(edges, h.taskId, h.predecessorId, {}).Ok?
      && h.successorId !in Attempts(Reconstruct(edges, h.taskId, h.predecessorId, {}).value, h.predecessorId)
  {
    hide StorableHandoff, Storable, Evaluate, DeclaredEffectsMatch, Checkpoints.Refused, Reconstruct;
    var p := f.current[(b.handoff.taskId, b.handoff.predecessorId)];
    if Valid(p) { InKeyOrderKeeps(p.completedEffects); }
  }

  lemma OutsideAncestry(edges: Edges, task: string, predecessor: string, s: string)
    requires Reconstruct(edges, task, predecessor, {}).Ok?
    requires s !in Attempts(Reconstruct(edges, task, predecessor, {}).value, predecessor)
    ensures forall n: nat :: Back(edges, predecessor, n) != Some(s)
  {
    var chain := Reconstruct(edges, task, predecessor, {}).value;
    ReconstructionExact(edges, task, predecessor, chain);
    forall n: nat ensures Back(edges, predecessor, n) != Some(s) {
      BackAlongLineage(edges, task, predecessor, chain, n);
    }
  }

  lemma EmptyIsForest(task: string)
    ensures EdgesOk(map[], task)
  {
    forall a: string, n: nat | n > 0 ensures Back(map[], a, n) != Some(a) { BackAdd(map[], a, 1, n - 1); }
  }

  lemma ForestAdds(handoffs: map<string, Edges>, h: Handoff)
    requires ForestOk(handoffs) && h.predecessorId != h.successorId
    requires forall n: nat :: Back(Within(handoffs, h.taskId), h.predecessorId, n) != Some(h.successorId)
    ensures ForestOk(handoffs[h.taskId := Within(handoffs, h.taskId)[h.successorId := h]])
  {
    var edges := Within(handoffs, h.taskId);
    EmptyIsForest(h.taskId);
    assert EdgesOk(edges, h.taskId);
    ForestGrows(edges, h.successorId, h);
    var grown := edges[h.successorId := h];
    forall s | s in grown ensures WellFormed(grown, h.taskId, s) {
      if s != h.successorId { assert WellFormed(edges, h.taskId, s); }
    }
  }

  lemma HandoffWritten(w: World, h: Handoff)
    requires Inv(w) && h.predecessorId != h.successorId
    requires var edges := Within(w.files.handoffs, h.taskId);
      h.successorId in edges || forall n: nat :: Back(edges, h.predecessorId, n) != Some(h.successorId)
    ensures var v := w.(files := PutHandoff(w.files, h)); Inv(v) && Grows(w, v)
  {
    hide CellsOk, HistoryOk, EdgesOk, ViewsOk;
    var v := w.(files := PutHandoff(w.files, h));
    if h.successorId in Within(w.files.handoffs, h.taskId) {
      assert v == w;
      GrowsReflexive(w);
    } else {
      ForestAdds(w.files.handoffs, h);
      forall at | at in w.files.current ensures CellGrows(w.files.current[at], v.files.current[at]) {}
      forall s | s in v.bound ensures BoundOk(v.files.current, v.files.handoffs, v.bound, s) {
        assert BoundOk(w.files.current, w.files.handoffs, w.bound, s);
      }
    }
  }

  lemma BindKeeps(w: World, b: BindRequest, stop: Stop, hashes: Hashes)
    requires Inv(w) && hashes.Injective()
    ensures var next := BindLand(w, b, stop, hashes); Inv(next) && Grows(w, next)
  {
    hide Storable, StorableHandoff, Evaluate, CellsOk, HistoryOk, EdgesOk, ViewsOk, CellGrows, DeclaredEffectsMatch;
    GrowsReflexive(w);
    if BindChecks(w.files, b, hashes).Ok? {
      var c := BindChecks(w.files, b, hashes).value;
      var h := b.handoff;
      ChecksMean(w.files, b, hashes, c);
      if SameHandoff(w.files, h, hashes) && stop != BeforeHandoff {
        OutsideAncestry(Within(w.files.handoffs, h.taskId), h.taskId, h.predecessorId, h.successorId);
        HandoffNamesTwo(h, hashes.shown);
        HandoffWritten(w, h);
        BindWrites(w, b, stop, hashes, c);
      }
    }
  }

  lemma HandoffNamesTwo(h: Handoff, shown: Show)
    requires StorableHandoff(h, shown)
    ensures h.predecessorId != h.successorId
  {
  }

  lemma HandoffStored(f: Files, h: Handoff, hashes: Hashes)
    requires SameHandoff(f, h, hashes) && hashes.Injective()
    ensures PutHandoff(f, h).current == f.current && h.successorId in Within(PutHandoff(f, h).handoffs, h.taskId)
    ensures PutHandoff(f, h).handoffs[h.taskId][h.successorId] == h
  {
  }

  // A bind that writes its handoff is the write of the successor on the grown graph.
  lemma BindIsWrite(w: World, b: BindRequest, stop: Stop, hashes: Hashes, c: Checkpoint)
    requires BindChecks(w.files, b, hashes) == Ok(c)
    requires SameHandoff(w.files, b.handoff, hashes) && stop != BeforeHandoff
    ensures var v := w.(files := PutHandoff(w.files, b.handoff));
      var out := Write(v.files, c, None, stop);
      var next := Land(v, c, out, stop);
      BindLand(w, b, stop, hashes) ==
        if Landed(out.1, stop) then
          next.(bound := next.bound[PlaceOf(c) := Bound(b.handoff.predecessorId, c.completedEffects)])
        else next
  {
    hide BindChecks, SameHandoff, PutHandoff, Write, Seen;
  }

  lemma BindWrites(w: World, b: BindRequest, stop: Stop, hashes: Hashes, c: Checkpoint)
    requires Inv(w) && hashes.Injective() && BindChecks(w.files, b, hashes) == Ok(c)
    requires SameHandoff(w.files, b.handoff, hashes) && stop != BeforeHandoff
    requires var v := w.(files := PutHandoff(w.files, b.handoff)); Inv(v) && Grows(w, v)
    ensures var next := BindLand(w, b, stop, hashes); Inv(next) && Grows(w, next)
  {
    var h := b.handoff;
    var v := w.(files := PutHandoff(w.files, h));
    ChecksMean(w.files, b, hashes, c);
    HandoffStored(w.files, h, hashes);
    WriteOutcome(v.files, c, None, stop);
    BindIsWrite(w, b, stop, hashes, c);
    hide *;
    var out := Write(v.files, c, None, stop);
    var next := Land(v, c, out, stop);
    SuccessorWrites(w, v, h, c, out, stop);
    assert BindLand(w, b, stop, hashes) ==
      if Landed(out.1, stop) then next.(bound := next.bound[PlaceOf(c) := Bound(h.predecessorId, c.completedEffects)]) else next;
  }

  lemma SuccessorWrites(w: World, v: World, h: Handoff, c: Checkpoint, out: (Files, Reply), stop: Stop)
    requires Inv(w) && Inv(v) && Grows(w, v) && v.files.current == w.files.current
    requires PlaceOf(c) == (h.taskId, h.successorId) && c.revision == 1
    requires (h.taskId, h.predecessorId) in w.files.current
    requires Valid(w.files.current[(h.taskId, h.predecessorId)]) ==>
      c.completedEffects == w.files.current[(h.taskId, h.predecessorId)].completedEffects
    requires h.successorId in Within(v.files.handoffs, h.taskId)
    requires v.files.handoffs[h.taskId][h.successorId] == h
    requires if Landed(out.1, stop) then
        && Storable(c) && !Conflicts(Find(v.files.current, PlaceOf(c)), c, None)
        && stop != BeforeCurrent && out.0 == Put(v.files, c, stop) && (out.1.Ok? <==> stop != BeforeHistory)
      else out.0 == v.files
    ensures var next := Land(v, c, out, stop);
      var done := if Landed(out.1, stop) then
        next.(bound := next.bound[PlaceOf(c) := Bound(h.predecessorId, c.completedEffects)]) else next;
      Inv(done) && Grows(w, done)
  {
    hide Storable, CellsOk, HistoryOk, ForestOk, BoundOk, ViewsOk, CellGrows, Valid;
    CurrentPositive(w, (h.taskId, h.predecessorId));
    if PlaceOf(c) in v.files.current { CurrentPositive(v, PlaceOf(c)); }
    var next := Land(v, c, out, stop);
    if Landed(out.1, stop) {
      LandKeeps(v, c, out.1, stop);
      BindRecorded(v, next, h, c);
      GrowsTransitive(w, v, next.(bound := next.bound[PlaceOf(c) := Bound(h.predecessorId, c.completedEffects)]));
    } else {
      assert next == v;
    }
  }

  // Recording the bind: the new successor was bound from a live predecessor, and nothing
  // was ever bound from it, since it did not exist.
  lemma BindRecorded(v: World, next: World, h: Handoff, c: Checkpoint)
    requires Inv(v) && Inv(next) && Grows(v, next) && next.bound == v.bound
    requires PlaceOf(c) == (h.taskId, h.successorId) && PlaceOf(c) !in v.files.current
    requires next.files.current == v.files.current[PlaceOf(c) := c]
    requires (h.taskId, h.predecessorId) in v.files.current
    requires c.completedEffects == v.files.current[(h.taskId, h.predecessorId)].completedEffects
    requires h.successorId in Within(next.files.handoffs, h.taskId)
    requires next.files.handoffs[h.taskId][h.successorId].predecessorId == h.predecessorId
    ensures var done := next.(bound := next.bound[PlaceOf(c) := Bound(h.predecessorId, c.completedEffects)]);
      Inv(done) && Grows(v, done)
  {
    hide CellsOk, HistoryOk, ForestOk, ViewsOk, CellGrows, BoundOk;
    var (s, p, b) := (PlaceOf(c), (h.taskId, h.predecessorId), Bound(h.predecessorId, c.completedEffects));
    var done := next.(bound := next.bound[s := b]);
    if s in v.bound { assert BoundOk(v.files.current, v.files.handoffs, v.bound, s); BoundExists(v, s); }
    forall x | x in done.bound ensures BoundOk(done.files.current, done.files.handoffs, done.bound, x) {
      if x in v.bound {
        BoundExists(v, x);
        OtherBoundStays(next, s, b, x);
      } else {
        NewBoundOk(v, next, h, c);
      }
    }
  }

  lemma BoundExists(v: World, x: Place)
    requires Inv(v) && x in v.bound
    ensures x in v.files.current && (x.0, v.bound[x].predecessor) in v.files.current
  {
    hide CellsOk, HistoryOk, ForestOk, ViewsOk;
    assert BoundOk(v.files.current, v.files.handoffs, v.bound, x);
  }

  lemma OtherBoundStays(next: World, s: Place, b: Bound, x: Place)
    requires Inv(next) && x in next.bound && x != s && (x.0, next.bound[x].predecessor) != s
    ensures BoundOk(next.files.current, next.files.handoffs, next.bound[s := b], x)
  {
    hide CellsOk, HistoryOk, ForestOk, ViewsOk;
    assert BoundOk(next.files.current, next.files.handoffs, next.bound, x);
  }

  lemma NewBoundOk(v: World, next: World, h: Handoff, c: Checkpoint)
    requires Inv(v) && next.bound == v.bound && PlaceOf(c) == (h.taskId, h.successorId)
    requires PlaceOf(c) !in v.files.current && next.files.current == v.files.current[PlaceOf(c) := c]
    requires (h.taskId, h.predecessorId) in v.files.current
    requires c.completedEffects == v.files.current[(h.taskId, h.predecessorId)].completedEffects
    requires h.successorId in Within(next.files.handoffs, h.taskId)
    requires next.files.handoffs[h.taskId][h.successorId].predecessorId == h.predecessorId
    ensures BoundOk(next.files.current, next.files.handoffs,
      next.bound[PlaceOf(c) := Bound(h.predecessorId, c.completedEffects)], PlaceOf(c))
  {
    hide CellsOk, HistoryOk, ForestOk, ViewsOk;
    var p := (h.taskId, h.predecessorId);
    if p in v.bound { assert BoundOk(v.files.current, v.files.handoffs, v.bound, p); }
  }

  // ---- Every step, every run -----------------------------------------------------------------

  lemma StepKeeps(w: World, event: Event, hashes: Hashes)
    requires Inv(w) && hashes.Injective()
    ensures Inv(Step(w, event, hashes)) && Grows(w, Step(w, event, hashes))
  {
    hide Storable, CellsOk, HistoryOk, ForestOk, BoundOk, Valid, WithEffect, Advanced, Grows;
    GrowsReflexive(w);
    match event
    case Look(client, at) => LookKeeps(w, client, at);
    case Create(client, c, stop) => if c.revision == 1 { CreateKeeps(w, client, c, stop); }
    case CasAdvance(client, change, stop) =>
      if client in w.views && Advanced(w.views[client], change).Some? {
        if Valid(w.views[client]) { AdvancedIsNext(w.views[client], change); }
        CasKeeps(w, client, Advanced(w.views[client], change).value, stop);
      }
    case CasEffect(client, e, stop) =>
      if client in w.views && WithEffect(w.views[client], e).Some? {
        if Valid(w.views[client]) { EffectIsNext(w.views[client], e); }
        CasKeeps(w, client, WithEffect(w.views[client], e).value, stop);
      }
    case Record(at, e, expected, stop) => RecordKeeps(w, at, e, expected, stop, hashes);
    case BindSuccessor(b, stop) => BindKeeps(w, b, stop, hashes);
  }

  lemma EffectIsNext(c: Checkpoint, e: Effect)
    requires Valid(c) && WithEffect(c, e).Some?
    ensures WithEffect(c, e).value == c || NextOf(c, WithEffect(c, e).value)
  {
    hide Valid;
    assert e.Valid();
    WithEffectIsNext(c, e);
  }

  lemma LookKeeps(w: World, client: nat, at: Place)
    requires Inv(w)
    ensures var next := w.(views := if at in w.files.current then w.views[client := w.files.current[at]] else w.views - {client});
      Inv(next) && Grows(w, next)
  {
    hide Storable, RevisionOk, HistoryOk, ForestOk, BoundOk;
    GrowsReflexive(w);
    if at in w.files.current { assert CellOk(w.files.current, w.ever, at); }
    ViewsKeep(w, if at in w.files.current then w.views[client := w.files.current[at]] else w.views - {client});
  }

  lemma CreateKeeps(w: World, client: nat, c: Checkpoint, stop: Stop)
    requires Inv(w) && c.revision == 1
    ensures var next := ClientLand(w, client, c, 0, stop); Inv(next) && Grows(w, next)
  {
    hide RevisionOk, HistoryOk, ForestOk, BoundOk, ClientLand, ViewsOk, Valid;
    if PlaceOf(c) in w.files.current { assert CellOk(w.files.current, w.ever, PlaceOf(c)); CurrentPositive(w, PlaceOf(c)); }
    ClientLandKeeps(w, client, c, 0, stop);
  }

  lemma CurrentPositive(w: World, at: Place)
    requires CellsOk(w.files.current, w.ever) && at in w.files.current
    ensures w.files.current[at].revision >= 1 && Valid(w.files.current[at]) && PlaceOf(w.files.current[at]) == at
  {
    hide NextOf;
    assert CellOk(w.files.current, w.ever, at);
    assert RevisionOk(w.ever[at], at, w.files.current[at].revision);
  }

  lemma RecordKeeps(w: World, at: Place, e: Effect, expected: int, stop: Stop, hashes: Hashes)
    requires Inv(w)
    ensures var next := Step(w, Record(at, e, expected, stop), hashes); Inv(next) && Grows(w, next)
  {
    hide Storable, CellsOk, HistoryOk, ForestOk, BoundOk, ViewsOk, Valid, WithEffect, Grows, NextOf;
    GrowsReflexive(w);
    if at in w.files.current && !w.files.current[at].HasEffect(e.key) && WithEffect(w.files.current[at], e).Some? {
      var c := w.files.current[at];
      var d := WithEffect(c, e).value;
      CurrentPositive(w, at);
      assert e.Valid() by { EffectAccepted(c, e); }
      WithEffectIsNext(c, e);
      NextMeans(c, d);
      var out := RecordEffect(w.files, at, e, expected, stop);
      if Landed(out.1, stop) { LandKeeps(w, d, out.1, stop); }
    }
  }

  lemma EffectAccepted(c: Checkpoint, e: Effect)
    requires WithEffect(c, e).Some?
    ensures e.Valid()
  {
  }
}
