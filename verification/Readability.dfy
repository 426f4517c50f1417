// What becomes of records that the constructors accept and the readers do not. A store
// writes them all the same; from then on the attempt they landed in is lost.
module Readability {
  import opened Text
  import opened Checkpoints
  import opened DurableFields
  import PayloadReading
  import RecordCodec
  import opened RecordTheorems
  import opened StoreFiles

  // How payloads are read: what Python makes of lists and objects in them, and the digest.
  datatype Reader = Reader(py: RecordCodec.Python, sha: string -> string) {
    ghost predicate Sound() { RecordCodec.Sound(sha) }
  }

  // Every attempt's `current.json`, by the directory it is in.
  type Disk = map<Place, RecordCodec.Payload>

  // The directories are named by the trimmed ids.
  function Directory(task: string, attempt: string): Place { (Strip(task), Strip(attempt)) }

  function Home(c: Checkpoint): Place { Directory(c.taskId, c.attemptId) }

  predicate SafePath(task: string, attempt: string) { SafeSegment(Strip(task)) && SafeSegment(Strip(attempt)) }

  // What a session finds at an attempt: nothing, its record, or a file it cannot read.
  datatype Found = Nothing | Record(c: Checkpoint) | Unreadable

  // `read`
  function Read(disk: Disk, at: Place, k: Reader): Found {
    if at !in disk then Nothing
    else match RecordCodec.FromDict(disk[at], k.py, k.sha) case None => Unreadable case Some(c) => Record(c)
  }

  function Save(disk: Disk, at: Place, c: Checkpoint, k: Reader): Disk { disk[at := RecordCodec.ToDict(c, k.sha)] }

  // `write`
  function Write(disk: Disk, c: Checkpoint, expected: Option<int>, k: Reader): (Disk, Reply) {
    if !SafePath(c.taskId, c.attemptId) then (disk, Err(Refused))
    else match Read(disk, Home(c), k)
      case Unreadable => (disk, Err(Refused))
      case Nothing => if Conflicts(None, c, expected) then (disk, Err(Conflict)) else (Save(disk, Home(c), c, k), Ok(c))
      case Record(d) => if Conflicts(Some(d), c, expected) then (disk, Err(Conflict)) else (Save(disk, Home(c), c, k), Ok(c))
  }

  // `record_effect`
  function RecordEffect(disk: Disk, task: string, attempt: string, e: Effect, expected: int, k: Reader): (Disk, Reply) {
    if !SafePath(task, attempt) then (disk, Err(Refused))
    else match Read(disk, Directory(task, attempt), k)
      case Nothing => (disk, Err(Unknown))
      case Unreadable => (disk, Err(Refused))
      case Record(c) =>
        if c.revision != expected then (disk, Err(Conflict))
        else if c.HasEffect(e.key) then (disk, Ok(c))
        else match WithEffect(c, e)
          case None => (disk, Err(Refused))
          case Some(d) => (Save(disk, Directory(task, attempt), d, k), Ok(d))
  }

  datatype Op = WriteIt(c: Checkpoint, expected: Option<int>) | RecordIt(task: string, attempt: string, e: Effect, revision: int)

  // The arguments are records and effects that were constructed.
  predicate Built(op: Op) {
    match op case WriteIt(c, _) => Valid(c) case RecordIt(_, _, e, _) => e.Valid()
  }

  function Target(op: Op): Place {
    match op case WriteIt(c, _) => Home(c) case RecordIt(task, attempt, _, _) => Directory(task, attempt)
  }

  function Do(disk: Disk, op: Op, k: Reader): (Disk, Reply) {
    match op
    case WriteIt(c, expected) => Write(disk, c, expected, k)
    case RecordIt(task, attempt, e, expected) => RecordEffect(disk, task, attempt, e, expected, k)
  }

  function Run(disk: Disk, ops: seq<Op>, k: Reader): Disk {
    if ops == [] then disk else Do(Run(disk, ops[..|ops| - 1], k), ops[|ops| - 1], k).0
  }

  // What an operation asks to be kept: all its texts trimmed, and the contract's ceiling.
  predicate Readable(op: Op) {
    match op
    case WriteIt(c, _) => ReadsBack(c)
    case RecordIt(_, _, e, _) => Trimmed(e.key) && Trimmed(e.receiptRef)
  }

  // Ids lead to an attempt's directory exactly when they are its ids with blanks around them.
  lemma PaddedIdsLeadHome(t: string, a: string, task: string, attempt: string)
    requires SafeSegment(task) && SafeSegment(attempt)
    ensures SafePath(t, a) && Directory(t, a) == (task, attempt) <==> PayloadReading.Padded(t, task) && PayloadReading.Padded(a, attempt)
  {
    hide NonBlank, Strip, PayloadReading.Padded, Trimmed;
    PayloadReading.StripIffPadded(t, task);
    PayloadReading.StripIffPadded(a, attempt);
    NonBlankIffStrips(task);
    NonBlankIffStrips(attempt);
    NonBlankIffStrips(t);
    NonBlankIffStrips(a);
  }

  // ---- One operation -----------------------------------------------------------------

  // What was saved is found again exactly when it reads back.
  lemma SavedIsFound(disk: Disk, at: Place, c: Checkpoint, k: Reader)
    requires k.Sound() && Valid(c)
    ensures Read(Save(disk, at, c, k), at, k) == if ReadsBack(c) then Record(c) else Unreadable
  {
    hide RecordCodec.FromDict, RecordCodec.ToDict, Valid, ReadsBack, RecordCodec.Sound;
    ReadBackEqualOrRefused(c, k.py, k.sha);
  }

  lemma FoundReadsBack(disk: Disk, at: Place, k: Reader)
    ensures Read(disk, at, k).Record? ==> Valid(Read(disk, at, k).c) && ReadsBack(Read(disk, at, k).c)
  {
    hide RecordCodec.Decode, Valid, ReadsBack, RecordCodec.Get, RecordCodec.HashOf, NonBlank;
    if at in disk { DecodedReadsBack(disk[at], k.py); }
  }

  lemma EffectTrims(c: Checkpoint, e: Effect)
    requires Valid(c) && ReadsBack(c) && e.Valid() && !c.HasEffect(e.key)
    ensures WithEffect(c, e).Some? && Valid(WithEffect(c, e).value)
    ensures ReadsBack(WithEffect(c, e).value) <==> Trimmed(e.key) && Trimmed(e.receiptRef)
  {
    hide Trimmed, NextOf, Valid, NonBlank, IdentityReadsBack;
    WithEffectIsNext(c, e);
    var d := WithEffect(c, e).value;
    assert NextOf(c, d) by { hide OnlyAdds; }
    NextIsValid(c, d);
    EffectsDecide(c, e, d);
  }

  lemma NextIsValid(c: Checkpoint, d: Checkpoint)
    requires NextOf(c, d)
    ensures Valid(d)
  {
    hide Valid;
  }

  lemma EffectsDecide(c: Checkpoint, e: Effect, d: Checkpoint)
    requires ReadsBack(c) && OnlyAdds(c.completedEffects, e, d.completedEffects) && !c.HasEffect(e.key) && WithEffect(c, e) == Some(d)
    ensures ReadsBack(d) <==> Trimmed(e.key) && Trimmed(e.receiptRef)
  {
    hide Trimmed, IdentityReadsBack, Checkpoints.Refused, InKeyOrder;
    var (es, fs) := (c.completedEffects, d.completedEffects);
    assert e in fs;
    var j :| 0 <= j < |fs| && fs[j] == e;
    if Trimmed(e.key) && Trimmed(e.receiptRef) {
      forall i | 0 <= i < |fs| ensures Trimmed(fs[i].key) && Trimmed(fs[i].receiptRef) {
        assert fs[i] in fs;
        if fs[i] in es { var h :| 0 <= h < |es| && es[h] == fs[i]; }
      }
    }
  }

  // ---- Runs -------------------------------------------------------------------------------

  // An accepted operation changes its own attempt only, and what it changes is readable
  // exactly when what it asks to be kept is.
  lemma DoneIsFound(disk: Disk, op: Op, k: Reader, at: Place)
    requires k.Sound() && Built(op)
    ensures var after := Do(disk, op, k).0;
      && (at != Target(op) ==> Read(after, at, k) == Read(disk, at, k))
      && (Read(disk, at, k).Unreadable? ==> Read(after, at, k).Unreadable? && (at == Target(op) ==> Do(disk, op, k).1.Err?))
      && (!Read(disk, at, k).Unreadable? ==> (Read(after, at, k).Unreadable? <==>
            at == Target(op) && !Readable(op) && after != disk))
  {
    hide Read, Save, Valid, ReadsBack, Trimmed, SafePath, Conflicts, Directory, WithEffect, RecordCodec.Sound;
    match op
    case WriteIt(c, expected) =>
      SavedIsFound(disk, Home(c), c, k);
      SavedElsewhere(disk, Home(c), c, k, at);
    case RecordIt(task, attempt, e, expected) =>
      var home := Directory(task, attempt);
      FoundReadsBack(disk, home, k);
      if Read(disk, home, k).Record? && !Read(disk, home, k).c.HasEffect(e.key) {
        var c := Read(disk, home, k).c;
        EffectTrims(c, e);
        SavedIsFound(disk, home, WithEffect(c, e).value, k);
        SavedElsewhere(disk, home, WithEffect(c, e).value, k, at);
      }
  }

  lemma SavedElsewhere(disk: Disk, home: Place, c: Checkpoint, k: Reader, at: Place)
    ensures at != home ==> Read(Save(disk, home, c, k), at, k) == Read(disk, at, k)
  {
    hide RecordCodec.FromDict, RecordCodec.ToDict;
  }

  // Operation `i` of the run wrote something unreadable to the attempt.
  ghost predicate Spoils(ops: seq<Op>, i: nat, at: Place, k: Reader)
    requires i < |ops|
  {
    Target(ops[i]) == at && !Readable(ops[i]) && Run(map[], ops[..i + 1], k) != Run(map[], ops[..i], k)
  }

  ghost predicate Spoiled(ops: seq<Op>, at: Place, k: Reader) { exists i: nat | i < |ops| :: Spoils(ops, i, at, k) }

  lemma SpoilsBefore(ops: seq<Op>, i: nat, at: Place, k: Reader)
    requires i < |ops| - 1
    ensures Spoils(ops, i, at, k) <==> Spoils(ops[..|ops| - 1], i, at, k)
  {
    hide Run, Readable, Target;
    var front := ops[..|ops| - 1];
    assert front[..i] == ops[..i] && front[..i + 1] == ops[..i + 1] && front[i] == ops[i];
  }

  lemma SpoiledLast(ops: seq<Op>, at: Place, k: Reader)
    requires ops != []
    ensures Spoiled(ops, at, k) <==> Spoiled(ops[..|ops| - 1], at, k) || Spoils(ops, |ops| - 1, at, k)
  {
    hide Spoils;
    var front := ops[..|ops| - 1];
    forall i: nat | i < |front| ensures Spoils(ops, i, at, k) <==> Spoils(front, i, at, k) { SpoilsBefore(ops, i, at, k); }
  }

  lemma SpoilsAtEnd(ops: seq<Op>, at: Place, k: Reader)
    requires ops != []
    ensures var (before, op) := (Run(map[], ops[..|ops| - 1], k), ops[|ops| - 1]);
      Spoils(ops, |ops| - 1, at, k) <==> Target(op) == at && !Readable(op) && Do(before, op, k).0 != before
  {
    hide Readable, Target, Do;
    assert ops[..|ops| - 1 + 1] == ops;
  }

  // Over every run of writes and effect records from an empty store: an attempt is
  // unreadable exactly when one of them has written there a record with untrimmed
  // identifying texts or another claim ceiling.
  lemma {:induction false} UnreadableIffSpoiled(ops: seq<Op>, at: Place, k: Reader)
    requires k.Sound() && forall i | 0 <= i < |ops| :: Built(ops[i])
    ensures Read(Run(map[], ops, k), at, k).Unreadable? <==> Spoiled(ops, at, k)
  {
    if ops == [] {
      NothingYet(at, k);
    } else {
      var front := ops[..|ops| - 1];
      UnreadableIffSpoiled(front, at, k);
      SpoiledLast(ops, at, k);
      SpoilsAtEnd(ops, at, k);
      DoneIsFound(Run(map[], front, k), ops[|ops| - 1], k, at);
      hide Do, Read, Readable, Target, Spoiled, Spoils, Built;
    }
  }

  lemma NothingYet(at: Place, k: Reader)
    ensures Read(map[], at, k).Nothing?
  {
  }

  // And it stays so: whatever is tried later, nothing is written there again.
  lemma {:induction false} UnreadableForGood(disk: Disk, ops: seq<Op>, at: Place, k: Reader)
    requires k.Sound() && (forall i | 0 <= i < |ops| :: Built(ops[i])) && Read(disk, at, k).Unreadable?
    ensures Read(Run(disk, ops, k), at, k).Unreadable?
    ensures forall i | 0 <= i < |ops| && Target(ops[i]) == at :: Do(Run(disk, ops[..i], k), ops[i], k).1.Err?
  {
    hide Do, Read, Target;
    if ops != [] {
      var (n, front) := (|ops| - 1, ops[..|ops| - 1]);
      UnreadableForGood(disk, front, at, k);
      DoneIsFound(Run(disk, front, k), ops[n], k, at);
      forall i | 0 <= i < |ops| && Target(ops[i]) == at ensures Do(Run(disk, ops[..i], k), ops[i], k).1.Err? {
        if i < n { assert front[..i] == ops[..i] && front[i] == ops[i]; } else { assert ops[..n] == front; }
      }
    }
  }

  // So recording an effect whose key or receipt is padded is accepted, and the attempt is
  // lost by it.
  lemma PaddedEffectLosesAttempt(disk: Disk, task: string, attempt: string, e: Effect, k: Reader)
    requires k.Sound() && SafePath(task, attempt) && e.Valid() && !(Trimmed(e.key) && Trimmed(e.receiptRef))
    requires var found := Read(disk, Directory(task, attempt), k); found.Record? && !found.c.HasEffect(e.key)
    ensures var (after, reply) := RecordEffect(disk, task, attempt, e, Read(disk, Directory(task, attempt), k).c.revision, k);
      reply.Ok? && Read(after, Directory(task, attempt), k).Unreadable?
  {
    hide Read, Save, Valid, ReadsBack, Trimmed, SafePath, Directory, WithEffect, RecordCodec.Sound;
    var at := Directory(task, attempt);
    var c := Read(disk, at, k).c;
    FoundReadsBack(disk, at, k);
    EffectTrims(c, e);
    SavedIsFound(disk, at, WithEffect(c, e).value, k);
  }

  // And a record of a padded attempt id takes the place of the attempt without the blanks.
  lemma PaddedIdLosesAnother(disk: Disk, c: Checkpoint, k: Reader)
    requires k.Sound() && Valid(c) && SafePath(c.taskId, c.attemptId) && !Trimmed(c.attemptId)
    requires var found := Read(disk, Home(c), k); found.Record? && found.c.revision < c.revision
    ensures var (after, reply) := Write(disk, c, None, k);
      reply == Ok(c) && Read(after, Home(c), k).Unreadable?
  {
    hide Read, Save, Valid, Trimmed, SafePath, Home, RecordCodec.Sound;
    SavedIsFound(disk, Home(c), c, k);
  }

  // ---- Where the model of the store agrees ------------------------------------------------------

  // The files of the store as payloads.
  function Stored(f: Files, k: Reader): Disk { map at | at in f.current :: RecordCodec.ToDict(f.current[at], k.sha) }

  lemma StoredIsFound(f: Files, at: Place, k: Reader)
    requires k.Sound() && Kept(f)
    ensures Read(Stored(f, k), at, k) == if at in f.current then Record(f.current[at]) else Nothing
  {
    hide RecordCodec.FromDict, RecordCodec.ToDict, RecordCodec.Sound, Trimmed, SafeSegment;
    if at in f.current { KeptReadsBack(f.current[at], k); }
  }

  lemma KeptReadsBack(c: Checkpoint, k: Reader)
    requires k.Sound() && Storable(c)
    ensures RecordCodec.FromDict(RecordCodec.ToDict(c, k.sha), k.py, k.sha) == Some(c)
  {
    hide RecordCodec.FromDict, RecordCodec.ToDict, RecordCodec.Sound, Valid, ReadsBack, SafeSegment;
    ReadBackEqualOrRefused(c, k.py, k.sha);
  }

  lemma TrimmedHome(c: Checkpoint)
    requires Valid(c) && ReadsBack(c)
    ensures Home(c) == PlaceOf(c) && (SafePath(c.taskId, c.attemptId) && c.attemptId != "handoffs" <==> Storable(c))
  {
    hide NonBlank, NonBlanks, Increasing, Distinct, IdentityReadsBack, KnownStatus;
  }

  lemma StoredPut(f: Files, c: Checkpoint, k: Reader)
    requires c.revision >= 1
    ensures Stored(Put(f, c, Never), k) == Stored(f, k)[PlaceOf(c) := RecordCodec.ToDict(c, k.sha)]
  {
    hide RecordCodec.ToDict, FileName;
  }

  lemma WriteKept(f: Files, c: Checkpoint, expected: Option<int>, k: Reader)
    requires k.Sound() && Kept(f) && c.revision >= 1 && Home(c) == PlaceOf(c) && (SafePath(c.taskId, c.attemptId) <==> Storable(c))
    ensures var (g, r) := StoreFiles.Write(f, c, expected, Never); Write(Stored(f, k), c, expected, k) == (Stored(g, k), r)
  {
    hide SafePath, Read, Stored, Home, PlaceOf, Put, Kept, RecordCodec.Sound, Storable, Conflicts, RecordCodec.ToDict;
    StoredIsFound(f, Home(c), k);
    StoredPut(f, c, k);
  }

  lemma WriteLost(f: Files, c: Checkpoint, expected: Option<int>, k: Reader)
    requires k.Sound() && Kept(f) && Valid(c) && !ReadsBack(c)
    ensures var (disk, reply) := Write(Stored(f, k), c, expected, k); disk == Stored(f, k) <==> reply.Err?
  {
    hide SafePath, Read, Stored, Home, Kept, RecordCodec.Sound, Conflicts, Save, Valid, ReadsBack;
    StoredIsFound(f, Home(c), k);
    SavedIsFound(Stored(f, k), Home(c), c, k);
  }

  // The store of `StoreFiles` refuses what would be lost, and only there does it differ:
  // after a write the two hold the same files exactly when the record reads back, or the
  // code, too, has refused it.
  lemma WriteAgrees(f: Files, c: Checkpoint, expected: Option<int>, k: Reader)
    requires k.Sound() && Kept(f) && Valid(c) && Strip(c.attemptId) != "handoffs"
    ensures var ((disk, reply), (g, r)) := (Write(Stored(f, k), c, expected, k), StoreFiles.Write(f, c, expected, Never));
      (disk == Stored(g, k) <==> ReadsBack(c) || reply.Err?) && (ReadsBack(c) ==> reply == r)
  {
    hide Write, Valid, ReadsBack, Kept, Stored, Storable, Put, Conflicts, RecordCodec.Sound, SafePath, Home, PlaceOf, Trimmed;
    if ReadsBack(c) {
      TrimmedHome(c);
      TrimmedAttempt(c);
      PositiveRevision(c);
      WriteKept(f, c, expected, k);
    } else {
      NotStorable(c);
      WriteLost(f, c, expected, k);
    }
  }

  lemma TrimmedAttempt(c: Checkpoint)
    requires ReadsBack(c)
    ensures Strip(c.attemptId) == c.attemptId
  {
    hide IdentityReadsBack;
  }

  lemma PositiveRevision(c: Checkpoint)
    requires Valid(c)
    ensures c.revision >= 1
  {
  }

  lemma NotStorable(c: Checkpoint)
    requires !ReadsBack(c)
    ensures !Storable(c)
  {
    hide ReadsBack, Valid;
  }

  lemma AddedStorable(c: Checkpoint, e: Effect)
    requires Storable(c) && e.Valid() && !c.HasEffect(e.key)
    ensures WithEffect(c, e).Some?
    ensures var d := WithEffect(c, e).value;
      && Valid(d) && d.revision >= 1 && PlaceOf(d) == PlaceOf(c)
      && (Storable(d) <==> Trimmed(e.key) && Trimmed(e.receiptRef)) && (Storable(d) <==> ReadsBack(d))
  {
    hide Valid, ReadsBack, Trimmed, SafeSegment, OnlyAdds, WithEffect;
    EffectTrims(c, e);
    WithEffectIsNext(c, e);
    assert NextOf(c, WithEffect(c, e).value);
    PositiveRevision(WithEffect(c, e).value);
  }

  // The same of recording an effect.
  lemma RecordAgrees(f: Files, task: string, attempt: string, e: Effect, expected: int, k: Reader)
    requires k.Sound() && Kept(f) && e.Valid() && SafePath(task, attempt)
    ensures var ((disk, reply), (g, r)) :=
        (RecordEffect(Stored(f, k), task, attempt, e, expected, k),
         StoreFiles.RecordEffect(f, Directory(task, attempt), e, expected, Never));
      && (disk == Stored(g, k) <==> (Trimmed(e.key) && Trimmed(e.receiptRef)) || disk == Stored(f, k))
      && (Trimmed(e.key) && Trimmed(e.receiptRef) ==> reply == r)
  {
    hide Directory, Stored, Read, Save, SafePath, Storable, Valid, ReadsBack, Trimmed, Put, WithEffect, RecordCodec.Sound;
    var at := Directory(task, attempt);
    StoredIsFound(f, at, k);
    if at in f.current && !f.current[at].HasEffect(e.key) {
      AddedStorable(f.current[at], e);
      var d := WithEffect(f.current[at], e).value;
      StoredPut(f, d, k);
      SavedIsFound(Stored(f, k), at, d, k);
      SaveIs(Stored(f, k), at, d, k);
    }
  }

  lemma SaveIs(disk: Disk, at: Place, c: Checkpoint, k: Reader)
    ensures Save(disk, at, c, k) == disk[at := RecordCodec.ToDict(c, k.sha)]
  {
    hide RecordCodec.ToDict;
  }
}
