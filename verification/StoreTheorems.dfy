// What every run of the checkpoint store guarantees: interleaved clients, effect
// records, binds, and crashes between any two atomic writes.
module StoreTheorems {
  import opened Text
  import opened Checkpoints
  import opened Handoffs
  import opened Lineage
  import opened StoreFiles
  import opened HistoryOrder
  import opened StoreRuns

  lemma StartOk()
    ensures Inv(START)
  {
  }

  lemma {:induction false} RunKeeps(w: World, events: seq<Event>, hashes: Hashes)
    requires Inv(w) && hashes.Injective()
    ensures Inv(Run(w, events, hashes)) && Grows(w, Run(w, events, hashes))
  {
    hide Inv, Grows, Step;
    if events == [] {
      GrowsReflexive(w);
    } else {
      var front := events[..|events| - 1];
      RunKeeps(w, front, hashes);
      StepKeeps(Run(w, front, hashes), events[|events| - 1], hashes);
      GrowsTransitive(w, Run(w, front, hashes), Run(w, events, hashes));
    }
  }

  lemma {:induction false} RunAppend(w: World, events: seq<Event>, more: seq<Event>, hashes: Hashes)
    ensures Run(w, events + more, hashes) == Run(Run(w, events, hashes), more, hashes)
  {
    hide Step;
    if more == [] {
      assert events + more == events;
    } else {
      var front := more[..|more| - 1];
      RunAppend(w, events, front, hashes);
      assert (events + more)[..|events + more| - 1] == events + front;
    }
  }

  lemma Reached(events: seq<Event>, more: seq<Event>, hashes: Hashes)
    requires hashes.Injective()
    ensures Inv(Run(START, events, hashes)) && Inv(Run(START, events + more, hashes))
    ensures Grows(Run(START, events, hashes), Run(START, events + more, hashes))
  {
    hide Inv, Grows, Step;
    StartOk();
    RunKeeps(START, events, hashes);
    RunKeeps(Run(START, events, hashes), more, hashes);
    RunAppend(START, events, more, hashes);
  }

  // A revision number of an attempt never gets a second content, the current revision
  // never goes down, and an effect once held is held unchanged for ever, under a unique key.
  lemma NothingIsLost(events: seq<Event>, more: seq<Event>, hashes: Hashes, at: Place)
    requires hashes.Injective()
    ensures var (w, w') := (Run(START, events, hashes), Run(START, events + more, hashes));
      && (forall r | at in w.ever && r in w.ever[at] :: at in w'.ever && r in w'.ever[at] && w'.ever[at][r] == w.ever[at][r])
      && (at in w.files.current ==>
        && at in w'.files.current
        && w.files.current[at].revision <= w'.files.current[at].revision
        && Holds(w'.files.current[at].completedEffects, w.files.current[at].completedEffects)
        && KeysDistinct(w'.files.current[at].completedEffects))
  {
    hide HistoryOk, ForestOk, BoundOk, ViewsOk;
    Reached(events, more, hashes);
    var (w, w') := (Run(START, events, hashes), Run(START, events + more, hashes));
    if at in w.files.current {
      assert CellGrows(w.files.current[at], w'.files.current[at]);
      CurrentPositive(w', at);
      InKeyOrderKeeps(w'.files.current[at].completedEffects);
    }
  }

  // No update is lost: the contents an attempt has had are numbered 1 to the current
  // revision without gaps, and each was derived from the one before it.
  lemma EveryRevisionBuildsOnTheLast(events: seq<Event>, hashes: Hashes, at: Place, r: int)
    requires hashes.Injective() && at in Run(START, events, hashes).files.current
    ensures var w := Run(START, events, hashes);
      && at in w.ever && (r in w.ever[at] <==> 1 <= r <= w.files.current[at].revision)
      && w.files.current[at].revision in w.ever[at] && w.ever[at][w.files.current[at].revision] == w.files.current[at]
      && (r in w.ever[at] && r > 1 ==> r - 1 in w.ever[at] && NextOf(w.ever[at][r - 1], w.ever[at][r]))
  {
    hide HistoryOk, ForestOk, BoundOk, ViewsOk, Storable, NextOf;
    Reached(events, [], hashes);
    var w := Run(START, events, hashes);
    assert CellOk(w.files.current, w.ever, at);
    if 1 <= r <= w.files.current[at].revision { NoGap(w, at, r); }
    if r in w.ever[at] { assert RevisionOk(w.ever[at], at, r); }
  }

  lemma {:induction false} NoGap(w: World, at: Place, r: int)
    requires CellsOk(w.files.current, w.ever) && at in w.files.current && 1 <= r <= w.files.current[at].revision
    ensures at in w.ever && r in w.ever[at]
    decreases w.files.current[at].revision - r
  {
    hide Storable, NextOf;
    assert CellOk(w.files.current, w.ever, at);
    if r < w.files.current[at].revision {
      NoGap(w, at, r + 1);
      assert RevisionOk(w.ever[at], at, r + 1);
    }
  }

  ghost predicate Listable(files: map<string, Checkpoint>) {
    forall n | n in files :: files[n].revision >= 1 && n == FileName(files[n].revision)
  }

  predicate InOrder(list: seq<Checkpoint>) { forall i, j | 0 <= i < j < |list| :: list[i].revision < list[j].revision }

  // No two listed revisions are out of place.
  predicate WellPlaced(list: seq<Checkpoint>) {
    forall c, d | c in list && d in list && 0 <= c.revision < d.revision :: Sooner(c.revision, d.revision)
  }

  lemma ListedByName(f: Files, at: Place, i: nat, j: nat)
    requires Listable(Within(f.history, at)) && i < j < |StoreFiles.History(f, at)|
    ensures var (r, s) := (StoreFiles.History(f, at)[i].revision, StoreFiles.History(f, at)[j].revision);
      1 <= r && 1 <= s && r != s && Sooner(r, s) && !Sooner(s, r)
  {
    hide FileName, Sooner;
    var names := Sorted(Within(f.history, at).Keys);
    assert names[i] in names && names[j] in names && Less(names[i], names[j]);
    var (r, s) := (StoreFiles.History(f, at)[i].revision, StoreFiles.History(f, at)[j].revision);
    FileNameOrder(r, s);
    FileNameOrder(s, r);
    LessTotal(FileName(r), FileName(s));
  }

  lemma InOrderIffWellPlaced(f: Files, at: Place)
    requires Listable(Within(f.history, at))
    ensures InOrder(StoreFiles.History(f, at)) <==> WellPlaced(StoreFiles.History(f, at))
  {
    hide Sooner, Listable, StoreFiles.History;
    var list := StoreFiles.History(f, at);
    forall i, j | 0 <= i < j < |list|
      ensures 1 <= list[i].revision && 1 <= list[j].revision && list[i].revision != list[j].revision
      ensures Sooner(list[i].revision, list[j].revision) && !Sooner(list[j].revision, list[i].revision)
    {
      ListedByName(f, at, i, j);
    }
    if InOrder(list) {
      forall c, d | c in list && d in list && 0 <= c.revision < d.revision ensures Sooner(c.revision, d.revision) {
        var i :| 0 <= i < |list| && list[i] == c;
        var j :| 0 <= j < |list| && list[j] == d;
        assert i < j;
      }
    }
    if WellPlaced(list) {
      forall i, j | 0 <= i < j < |list| ensures list[i].revision < list[j].revision {
        assert list[i] in list && list[j] in list;
      }
    }
  }

  predicate Untorn(w: World, at: Place) { forall gap | gap in w.torn :: gap.0 != at }

  // The history lists only what was once current, never runs ahead of the current
  // revision, and misses only revisions whose history write a crash cut off. It is in
  // revision order exactly when no two listed revisions are out of place; with nothing
  // missing, exactly while revisions have at most eight digits.
  lemma HistoryTellsThePast(events: seq<Event>, hashes: Hashes, at: Place)
    requires hashes.Injective() && at in Run(START, events, hashes).files.current
    ensures var w := Run(START, events, hashes);
      var list := StoreFiles.History(w.files, at);
      && at in w.ever
      && (forall c | c in list ::
        c.revision in w.ever[at] && w.ever[at][c.revision] == c && 1 <= c.revision <= w.files.current[at].revision)
      && (forall r | r in w.ever[at] && (at, r) !in w.torn :: w.ever[at][r] in list)
      && (InOrder(list) <==> WellPlaced(list))
      && (w.files.current[at].revision < 100_000_000 ==> InOrder(list))
      && (Untorn(w, at) ==> (InOrder(list) <==> w.files.current[at].revision < 100_000_000))
  {
    hide Inv, Grows, Listable, Storable, InOrder, WellPlaced, StoreFiles.History, Untorn;
    Reached(events, [], hashes);
    var w := Run(START, events, hashes);
    ListedWasCurrent(w, at);
    PastIsListed(w, at);
    ListingOrder(w, at);
  }

  lemma ListingOrder(w: World, at: Place)
    requires Inv(w) && at in w.files.current
    ensures var list := StoreFiles.History(w.files, at);
      && (InOrder(list) <==> WellPlaced(list))
      && (w.files.current[at].revision < 100_000_000 ==> InOrder(list))
      && (Untorn(w, at) ==> (InOrder(list) <==> w.files.current[at].revision < 100_000_000))
  {
    hide Inv, Listable, InOrder, WellPlaced, StoreFiles.History;
    var list := StoreFiles.History(w.files, at);
    ListedWasCurrent(w, at);
    PastIsListed(w, at);
    InOrderIffWellPlaced(w.files, at);
    if w.files.current[at].revision < 100_000_000 {
      EightDigitsPlaced(list, w.files.current[at].revision);
    } else if Untorn(w, at) {
      RevisionHad(w, at, 99_999_999);
      RevisionHad(w, at, 100_000_000);
      NinthDigitMisplaced(list, w.ever[at][99_999_999], w.ever[at][100_000_000]);
    }
  }

  lemma RevisionHad(w: World, at: Place, r: int)
    requires Inv(w) && at in w.files.current && 1 <= r <= w.files.current[at].revision
    ensures at in w.ever && r in w.ever[at] && w.ever[at][r].revision == r
  {
    hide HistoryOk, ForestOk, BoundOk, ViewsOk, Storable, NextOf;
    NoGap(w, at, r);
    assert CellOk(w.files.current, w.ever, at);
    assert RevisionOk(w.ever[at], at, r);
  }

  lemma EightDigitsPlaced(list: seq<Checkpoint>, most: int)
    requires (forall c | c in list :: 1 <= c.revision <= most) && most < 100_000_000
    ensures WellPlaced(list)
  {
  }

  lemma NinthDigitMisplaced(list: seq<Checkpoint>, c: Checkpoint, d: Checkpoint)
    requires c in list && d in list && c.revision == 99_999_999 && d.revision == 100_000_000
    ensures !WellPlaced(list)
  {
    hide Sooner;
    LastOfEightDigits();
  }

  lemma ListedWasCurrent(w: World, at: Place)
    requires Inv(w) && at in w.files.current
    ensures Listable(Within(w.files.history, at))
    ensures forall n | n in Within(w.files.history, at) :: Within(w.files.history, at)[n].revision <= w.files.current[at].revision
    ensures forall c | c in StoreFiles.History(w.files, at) ::
      at in w.ever && c.revision in w.ever[at] && w.ever[at][c.revision] == c && 1 <= c.revision <= w.files.current[at].revision
  {
    hide ForestOk, BoundOk, ViewsOk, FileName, Storable, RevisionOk;
    var files := Within(w.files.history, at);
    assert CellOk(w.files.current, w.ever, at);
    forall n | n in files ensures WasCurrent(w.ever, at, n, files[n]) {}
    var names := Sorted(files.Keys);
    forall c | c in StoreFiles.History(w.files, at)
      ensures c.revision in w.ever[at] && w.ever[at][c.revision] == c && 1 <= c.revision <= w.files.current[at].revision
    {
      var i :| 0 <= i < |names| && StoreFiles.History(w.files, at)[i] == c;
      assert names[i] in names;
      assert WasCurrent(w.ever, at, names[i], c);
    }
  }

  lemma PastIsListed(w: World, at: Place)
    requires Inv(w) && at in w.files.current
    ensures at in w.ever && forall r | r in w.ever[at] && (at, r) !in w.torn :: w.ever[at][r] in StoreFiles.History(w.files, at)
  {
    hide ForestOk, BoundOk, ViewsOk, FileName, Storable, RevisionOk;
    var files := Within(w.files.history, at);
    var names := Sorted(files.Keys);
    assert CellOk(w.files.current, w.ever, at);
    forall r | r in w.ever[at] && (at, r) !in w.torn ensures w.ever[at][r] in StoreFiles.History(w.files, at) {
      assert Listed(w.files.history, at, r);
      assert FileName(r) in names;
      var i :| 0 <= i < |names| && names[i] == FileName(r);
      var c := StoreFiles.History(w.files, at)[i];
      assert c == files[FileName(r)];
      assert WasCurrent(w.ever, at, FileName(r), c);
      FileNameInjective(r, c.revision);
    }
  }

  // Whatever is bound, in whatever order, and wherever a bind is cut short, every
  // attempt's lineage reconstructs, and a stored handoff never changes.
  lemma LineageAlwaysReconstructs(events: seq<Event>, more: seq<Event>, hashes: Hashes, task: string, attempt: string)
    requires hashes.Injective()
    ensures var w := Run(START, events, hashes);
      Acyclic(Within(w.files.handoffs, task)) && Reconstruct(Within(w.files.handoffs, task), task, attempt, {}).Ok?
    ensures var (w, w') := (Run(START, events, hashes), Run(START, events + more, hashes));
      attempt in Within(w.files.handoffs, task) ==>
        attempt in Within(w'.files.handoffs, task) && w'.files.handoffs[task][attempt] == w.files.handoffs[task][attempt]
  {
    hide CellsOk, HistoryOk, BoundOk, ViewsOk, WellFormed, CellGrows;
    Reached(events, more, hashes);
    var w := Run(START, events, hashes);
    var edges := Within(w.files.handoffs, task);
    EmptyIsForest(task);
    assert EdgesOk(edges, task);
    AcyclicNeverRepeats(edges, attempt);
    ReconstructionSucceedsIff(edges, task, attempt);
  }

  // The attempt `n` binds before `d`.
  function Upstream(bound: map<Place, Bound>, d: Place, n: nat): Option<Place> {
    if n == 0 then Some(d)
    else match Upstream(bound, d, n - 1)
      case None => None
      case Some(x) => if x in bound then Some((x.0, bound[x].predecessor)) else None
  }

  lemma {:induction false} UpstreamHeld(w: World, d: Place, n: nat)
    requires Inv(w) && Upstream(w.bound, d, n).Some? && Upstream(w.bound, d, n).value in w.bound
    ensures d in w.files.current
    ensures Holds(w.files.current[d].completedEffects, w.bound[Upstream(w.bound, d, n).value].effects)
  {
    hide CellsOk, HistoryOk, ForestOk, ViewsOk;
    if n == 0 {
      assert BoundOk(w.files.current, w.files.handoffs, w.bound, d);
    } else {
      UpstreamHeld(w, d, n - 1);
      var x := Upstream(w.bound, d, n - 1).value;
      assert BoundOk(w.files.current, w.files.handoffs, w.bound, x);
    }
  }

  // Every attempt downstream of a bind holds every effect its ancestor held at that bind.
  lemma DownstreamHoldsEffects(events: seq<Event>, hashes: Hashes, d: Place, n: nat)
    requires hashes.Injective()
    ensures var w := Run(START, events, hashes);
      Upstream(w.bound, d, n).Some? && Upstream(w.bound, d, n).value in w.bound ==>
        d in w.files.current
        && Holds(w.files.current[d].completedEffects, w.bound[Upstream(w.bound, d, n).value].effects)
  {
    hide Inv, Grows;
    Reached(events, [], hashes);
    var w := Run(START, events, hashes);
    if Upstream(w.bound, d, n).Some? && Upstream(w.bound, d, n).value in w.bound { UpstreamHeld(w, d, n); }
  }

  // And what is on record for a bind is what the predecessor held when it was bound.
  lemma BindRecordsPredecessor(events: seq<Event>, b: BindRequest, stop: Stop, hashes: Hashes)
    requires hashes.Injective()
    ensures var (w, w') := (Run(START, events, hashes), Run(START, events + [BindSuccessor(b, stop)], hashes));
      var (s, p) := ((b.handoff.taskId, b.handoff.successorId), (b.handoff.taskId, b.handoff.predecessorId));
      s in w'.bound && s !in w.bound ==>
        p in w.files.current && w'.bound[s] == Bound(b.handoff.predecessorId, w.files.current[p].completedEffects)
  {
    hide HistoryOk, ForestOk, BoundOk, ViewsOk, CellGrows, Evaluate, Write, Storable, StorableHandoff, Land;
    Reached(events, [BindSuccessor(b, stop)], hashes);
    RunAppend(START, events, [BindSuccessor(b, stop)], hashes);
    var w := Run(START, events, hashes);
    assert [BindSuccessor(b, stop)][..0] == [];
    assert Run(w, [BindSuccessor(b, stop)], hashes) == BindLand(w, b, stop, hashes);
    var p := (b.handoff.taskId, b.handoff.predecessorId);
    match BindChecks(w.files, b, hashes)
    case Err(_) =>
    case Ok(c) =>
      ChecksMean(w.files, b, hashes, c);
      CurrentPositive(w, p);
      LandKeepsBound(w, c, Bind(w.files, b, hashes, stop), stop);
  }

  lemma LandKeepsBound(w: World, c: Checkpoint, out: (Files, Reply), stop: Stop)
    ensures Land(w, c, out, stop).bound == w.bound
  {
  }
}
