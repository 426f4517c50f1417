// The durable JSON of checkpoints: what is written, what a reader makes of it, and
// what the stored hash protects.
module RecordCodec {
  import opened Text
  import opened JsNumbers
  import opened JsNumberValues
  import opened CanonicalJson
  import opened CanonicalText
  import Checkpoints
  import opened DurableFields

  type Value = Json<Number>
  type Payload = map<string, Value>
  type Checkpoint = Checkpoints.Checkpoint

  const CHECKPOINT_SCHEMA := "nexus.runtime.workflow_checkpoint.v1"

  // A digest of texts: it never collides and is never blank.
  ghost predicate Sound(sha: string -> string) {
    && (forall s, t | sha(s) == sha(t) :: s == t)
    && (forall s :: NonBlank(sha(s)))
  }

  // ---- Objects by their members --------------------------------------------------

  // `data.get(name)`
  function Get(p: Payload, f: Field): Option<Value> { if Name(f) in p then Some(p[Name(f)]) else None }

  function Member(m: map<Field, Value>, f: Field): Option<Value> { if f in m then Some(m[f]) else None }

  function Object(m: map<Field, Value>): (p: Payload)
    ensures forall f :: Get(p, f) == Member(m, f)
  {
    NamesDiffer();
    map f | f in m :: Name(f) := m[f]
  }

  lemma NamesDiffer()
    ensures forall f, g | Name(f) == Name(g) :: f == g
  {
    hide Name;
    forall f, g | Name(f) == Name(g) ensures f == g {
      NamedName(f);
      NamedName(g);
    }
  }

  lemma ObjectInjective(a: map<Field, Value>, b: map<Field, Value>)
    requires Object(a) == Object(b)
    ensures a == b
  {
    hide Name, Get;
    var p := Object(a);
    forall f ensures (f in a <==> f in b) && (f in a ==> a[f] == b[f]) {
      assert Get(p, f) == Member(a, f) && Get(p, f) == Member(b, f);
    }
  }

  // ---- Writing ---------------------------------------------------------------------

  function Texts(xs: seq<string>): (r: Value)
    ensures r.Arr? && |r.items| == |xs| && forall i | 0 <= i < |xs| :: r.items[i] == Str(xs[i])
  {
    Arr(seq(|xs|, i requires 0 <= i < |xs| => Str(xs[i])))
  }

  function IdentityMembers(i: Checkpoints.Identity): map<Field, Value> {
    map[Repository := Str(i.repository), SourceRevision := Str(i.sourceRevision),
        RuntimeIdentity := Str(i.runtimeIdentity), TargetRevision := Str(i.targetRevision)]
  }

  function EffectMembers(e: Checkpoints.Effect): map<Field, Value> {
    map[EffectKey := Str(e.key), ReceiptRef := Str(e.receiptRef), EffectHash := Str(e.effectHash)]
  }

  function EffectList(es: seq<Checkpoints.Effect>): (r: Value)
    ensures r.Arr? && |r.items| == |es| && forall i | 0 <= i < |es| :: r.items[i] == Obj(Object(EffectMembers(es[i])))
  {
    Arr(seq(|es|, i requires 0 <= i < |es| => Obj(Object(EffectMembers(es[i])))))
  }

  function External(m: map<string, string>): Payload { map k | k in m :: Str(m[k]) }

  // Everything the hash is taken over.
  predicate Hashed(f: Field) {
    match f
    case Schema | TaskId | OperationId | AttemptId | Revision | StatusIs | Phase | NextGate | IdentityIs => true
    case ExternalOperationIds | Leases | EvidenceRefs | CompletedEffects | PendingSteps | RetryHistory => true
    case BlockedReason | ClaimCeiling => true
    case _ => false
  }

  function Part(c: Checkpoint, f: Field): Value {
    match f
    case Schema => Str(CHECKPOINT_SCHEMA)
    case TaskId => Str(c.taskId)
    case OperationId => Str(c.operationId)
    case AttemptId => Str(c.attemptId)
    case Revision => Num(Int(c.revision))
    case StatusIs => Str(c.status)
    case Phase => Str(c.phase)
    case NextGate => Str(c.nextGate)
    case IdentityIs => Obj(Object(IdentityMembers(c.identity)))
    case ExternalOperationIds => Obj(External(c.external))
    case Leases => Texts(c.leases)
    case EvidenceRefs => Texts(c.evidenceRefs)
    case CompletedEffects => EffectList(c.completedEffects)
    case PendingSteps => Texts(c.pendingSteps)
    case RetryHistory => Texts(c.retryHistory)
    case BlockedReason => Str(c.blockedReason)
    case ClaimCeiling => Str(c.claimCeiling)
    case _ => Null
  }

  function Body(c: Checkpoint): map<Field, Value> { map f: Field | Hashed(f) :: Part(c, f) }

  // `checkpoint_hash`
  function HashOf(c: Checkpoint, sha: string -> string): string {
    sha(DumpsText(Obj(Object(Body(c)))))
  }

  // `to_dict`
  function ToDict(c: Checkpoint, sha: string -> string): Payload {
    Object(Body(c)[CheckpointHash := Str(HashOf(c, sha))])
  }

  // ---- What a payload tells beyond its members ---------------------------------------------

  // Where in a payload a list or an object may stand that is read as something else.
  datatype Spot =
    | Top(f: Field) | HashOfEffect(i: nat) | OperationOf(key: string) | Pair(i: nat) | PairValue(i: nat) | BoundAttempt

  // In which order an object there lists its keys, and what `str` makes of a list or an
  // object there: the payload itself is a map and says neither.
  datatype Python = Python(keys: Spot -> seq<string>, shown: Spot -> string)

  predicate ListsKeys(keys: seq<string>, fields: Payload) {
    Distinct(keys) && (forall k | k in keys :: k in fields) && forall k | k in fields :: k in keys
  }

  // `str` of a list or an object begins with its bracket.
  ghost predicate Showing(py: Python) { forall at :: py.shown(at) != "" && py.shown(at)[0] in "[{" }

  // What `py` says fits the payload.
  ghost predicate Fits(p: Payload, py: Python) {
    && Showing(py)
    && (forall f | Get(p, f).Some? && Get(p, f).value.Obj? :: ListsKeys(py.keys(Top(f)), Get(p, f).value.fields))
    && (Get(p, ExternalOperationIds).Some? && Get(p, ExternalOperationIds).value.Arr? ==>
        var items := Get(p, ExternalOperationIds).value.items;
        forall i: nat | i < |items| && items[i].Obj? :: ListsKeys(py.keys(Pair(i)), items[i].fields))
  }

  // ---- Reading -----------------------------------------------------------------------

  // `_text(data.get(name))`: a string with something in it, trimmed.
  function Required(p: Payload, f: Field): Option<string> {
    match Get(p, f)
    case Some(Str(s)) => if NonBlank(s) then Some(Strip(s)) else None
    case _ => None
  }

  // `str(data.get(name) or default)`
  function Coerced(p: Payload, f: Field, default: string, shown: string): string {
    match Get(p, f)
    case Some(v) => if Falsy(v) then default else PyStr(v, shown)
    case None => default
  }

  function Strings(items: seq<Value>): (r: Option<seq<string>>)
    ensures r.Some? <==> forall i | 0 <= i < |items| :: items[i].Str?
    ensures r.Some? ==> |r.value| == |items| && forall i | 0 <= i < |items| :: items[i] == Str(r.value[i])
  {
    if forall i | 0 <= i < |items| :: items[i].Str?
    then Some(seq(|items|, i requires 0 <= i < |items| => items[i].s))
    else None
  }

  function TextAt(p: Payload, f: Field, py: Python): string { Coerced(p, f, "", py.shown(Top(f))) }

  function Characters(s: string): seq<string> { seq(|s|, i requires 0 <= i < |s| => [s[i]]) }

  // `tuple(data.get(name) or ())`, of which only strings are kept; a text is its
  // characters, an object its keys.
  function ListOf(p: Payload, f: Field, py: Python): Option<seq<string>> {
    match Get(p, f)
    case None => Some([])
    case Some(v) =>
      if Falsy(v) then Some([])
      else match v
        case Arr(items) => Strings(items)
        case Str(s) => Some(Characters(s))
        case Obj(_) => Some(py.keys(Top(f)))
        case _ => None
  }

  function DecodeIdentity(p: Payload, py: Python): Option<Checkpoints.Identity> {
    match (Required(p, Repository), Required(p, SourceRevision), Required(p, RuntimeIdentity))
    case (Some(r), Some(s), Some(t)) => Some(Checkpoints.Identity(r, s, t, Coerced(p, TargetRevision, "", py.shown(Top(TargetRevision)))))
    case _ => None
  }

  function DecodeEffect(v: Value, shown: string): Option<Checkpoints.Effect> {
    if !v.Obj? then None
    else match (Required(v.fields, EffectKey), Required(v.fields, ReceiptRef))
      case (Some(k), Some(r)) => Some(Checkpoints.Effect(k, r, Coerced(v.fields, EffectHash, "", shown)))
      case _ => None
  }

  function DecodeEffects(items: seq<Value>, py: Python): (r: Option<seq<Checkpoints.Effect>>)
    ensures r.Some? <==> forall i: nat | i < |items| :: DecodeEffect(items[i], py.shown(HashOfEffect(i))).Some?
    ensures r.Some? ==> |r.value| == |items|
    ensures r.Some? ==> forall i: nat | i < |items| :: Some(r.value[i]) == DecodeEffect(items[i], py.shown(HashOfEffect(i)))
  {
    if forall i: nat | i < |items| :: DecodeEffect(items[i], py.shown(HashOfEffect(i))).Some?
    then Some(seq(|items|, i requires 0 <= i < |items| => DecodeEffect(items[i], py.shown(HashOfEffect(i))).value))
    else None
  }

  function EffectsOf(p: Payload, py: Python): Option<seq<Checkpoints.Effect>> {
    match Get(p, CompletedEffects)
    case None => Some([])
    case Some(v) => if Falsy(v) then Some([]) else if v.Arr? then DecodeEffects(v.items, py) else None
  }

  function RevisionOf(p: Payload, f: Field): Option<int> {
    match Get(p, f)
    case None => Some(1)
    case Some(Num(Int(i))) => Some(i)
    case _ => None
  }

  // `dict(value)` of an object, or of a list of pairs, with keys and values then made texts.
  function ExternalOf(p: Payload, py: Python): Option<map<string, string>> {
    match Get(p, ExternalOperationIds)
    case None => Some(map[])
    case Some(v) =>
      if Falsy(v) then Some(map[])
      else match v
        case Obj(fields) => Some(map k | k in fields :: PyStr(fields[k], py.shown(OperationOf(k))))
        case Arr(items) => (match PairsOf(items, py) case None => None case Some(pairs) => Some(Dictionary(pairs)))
        case _ => None
  }

  // Anything of two parts makes a pair whose first part can be a key: a list, a text of two
  // characters, an object of two keys.
  datatype KeyValue = KeyValue(key: Value, text: string)

  predicate Hashable(v: Value) { !v.Arr? && !v.Obj? }

  function PairOf(v: Value, i: nat, py: Python): (r: Option<KeyValue>)
    ensures r.Some? ==> Hashable(r.value.key)
  {
    match v
    case Arr(items) =>
      if |items| == 2 && Hashable(items[0]) then Some(KeyValue(items[0], PyStr(items[1], py.shown(PairValue(i))))) else None
    case Str(s) => if |s| == 2 then Some(KeyValue(Str([s[0]]), [s[1]])) else None
    case Obj(_) =>
      var keys := py.keys(Pair(i));
      if |keys| == 2 then Some(KeyValue(Str(keys[0]), keys[1])) else None
    case _ => None
  }

  function PairsOf(items: seq<Value>, py: Python): (r: Option<seq<KeyValue>>)
    ensures r.Some? <==> forall i: nat | i < |items| :: PairOf(items[i], i, py).Some?
    ensures r.Some? ==> |r.value| == |items| && forall i: nat | i < |items| :: Some(r.value[i]) == PairOf(items[i], i, py)
  {
    if forall i: nat | i < |items| :: PairOf(items[i], i, py).Some?
    then Some(seq(|items|, i requires 0 <= i < |items| => PairOf(items[i], i, py).value))
    else None
  }

  // Keys up to Python's `==`: `True == 1 == 1.0`.
  datatype DictKey = NoneKey | TextKey(s: string) | NumberKey(v: real) | SpecialKey(kind: Special)

  function KeyOf(v: Value): DictKey
    requires Hashable(v)
  {
    match v
    case Null => NoneKey
    case Bool(b) => NumberKey(if b then 1.0 else 0.0)
    case Num(Float(NonFinite(kind))) => SpecialKey(kind)
    case Num(n) => NumberKey(JsNumbers.Value(n))
    case Str(s) => TextKey(s)
  }

  type Pairs = ps: seq<KeyValue> | forall i | 0 <= i < |ps| :: Hashable(ps[i].key)

  predicate SameKey(ps: Pairs, i: nat, j: nat)
    requires i < |ps| && j < |ps|
  {
    KeyOf(ps[i].key) == KeyOf(ps[j].key)
  }

  // Of equal keys a dictionary keeps the first, at its place.
  predicate KeepsKey(ps: Pairs, i: nat) { i < |ps| && forall h: nat | h < i :: !SameKey(ps, h, i) }

  // It keeps the last of their values.
  predicate KeepsValue(ps: Pairs, i: nat, j: nat) {
    i <= j < |ps| && SameKey(ps, i, j) && forall k: nat | j < k < |ps| :: !SameKey(ps, i, k)
  }

  function KeyText(ps: Pairs, i: nat): string
    requires i < |ps|
  {
    PyStr(ps[i].key, "")
  }

  // Of kept keys with one text, the last one decides.
  predicate Decides(ps: Pairs, i: nat) {
    KeepsKey(ps, i) && forall k: nat | i < k < |ps| && KeepsKey(ps, k) :: KeyText(ps, k) != KeyText(ps, i)
  }

  function LastValue(ps: Pairs, i: nat, j: nat): (r: nat)
    requires i <= j < |ps| && forall k: nat | j < k < |ps| :: !SameKey(ps, i, k)
    ensures i <= r < |ps| && KeepsValue(ps, i, r)
    decreases j
  {
    if SameKey(ps, i, j) then j else LastValue(ps, i, j - 1)
  }

  function Dictionary(ps: Pairs): map<string, string> { Entries(ps, |ps|) }

  // The entries that the first `n` pairs decide.
  function Entries(ps: Pairs, n: nat): map<string, string>
    requires n <= |ps|
  {
    if n == 0 then map[]
    else if Decides(ps, n - 1) then Entries(ps, n - 1)[KeyText(ps, n - 1) := ps[LastValue(ps, n - 1, |ps| - 1)].text]
    else Entries(ps, n - 1)
  }

  datatype Lists = Lists(leases: seq<string>, evidence: seq<string>, pending: seq<string>, retries: seq<string>)

  function ListsOf(p: Payload, py: Python): Option<Lists> {
    match (ListOf(p, Leases, py), ListOf(p, EvidenceRefs, py), ListOf(p, PendingSteps, py), ListOf(p, RetryHistory, py))
    case (Some(a), Some(b), Some(c), Some(d)) => Some(Lists(a, b, c, d))
    case _ => None
  }

  datatype Place = Place(task: string, operation: string, attempt: string)

  function PlaceOf(p: Payload): Option<Place> {
    match (Required(p, TaskId), Required(p, OperationId), Required(p, AttemptId))
    case (Some(t), Some(o), Some(a)) => Some(Place(t, o, a))
    case _ => None
  }

  function IdentityOf(p: Payload, f: Field, py: Python): Option<Checkpoints.Identity> {
    match Get(p, f)
    case Some(Obj(fields)) => DecodeIdentity(fields, py)
    case _ => None
  }

  // The constructor call of `from_dict`.
  function Raw(p: Payload, py: Python, at: Place, i: Checkpoints.Identity, revision: int, external: map<string, string>,
               lists: Lists, es: seq<Checkpoints.Effect>): Checkpoint
  {
    Checkpoints.Checkpoint(
      at.task, at.operation, at.attempt, i, revision, TextAt(p, StatusIs, py), TextAt(p, Phase, py), TextAt(p, NextGate, py),
      external, lists.leases, lists.evidence, es, lists.pending, lists.retries,
      TextAt(p, BlockedReason, py), Checkpoints.CHECKPOINT_CLAIM_CEILING)
  }

  // The record a payload describes, its hash apart.
  function Decode(p: Payload, py: Python): Option<Checkpoint> {
    if Get(p, ClaimCeiling) != Some(Str(Checkpoints.CHECKPOINT_CLAIM_CEILING)) || TextAt(p, Schema, py) != CHECKPOINT_SCHEMA then None
    else match (PlaceOf(p), IdentityOf(p, IdentityIs, py), RevisionOf(p, Revision), ExternalOf(p, py))
      case (Some(at), Some(i), Some(revision), Some(external)) =>
        (match (ListsOf(p, py), EffectsOf(p, py))
         case (Some(lists), Some(es)) => Checkpoints.Construct(Raw(p, py, at, i, revision, external, lists, es))
         case _ => None)
      case _ => None
  }

  // `from_dict`
  function FromDict(p: Payload, py: Python, sha: string -> string): Option<Checkpoint> {
    match (Get(p, CheckpointHash), Decode(p, py))
    case (Some(Str(stored)), Some(c)) => if NonBlank(stored) && HashOf(c, sha) == stored then Some(c) else None
    case _ => None
  }
}
