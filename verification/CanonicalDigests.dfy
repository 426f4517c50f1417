// Digests without collisions exist: the canonical text of what is digested tells any two
// records apart. So do clocks that read what they write. The results that rest on them
// therefore speak of something.
module CanonicalDigests {
  import opened Text
  import opened JsNumbers
  import opened JsNumberValues
  import opened CanonicalJson
  import opened CanonicalText
  import Context = ContextStore
  import Placement
  import Leases = PlacementLeases
  import RecordCodec
  import RecordTheorems
  import HandoffCodec
  import StoreFiles
  import BindReadback
  import Coordinator

  type Doc = Json<Number>

  ghost predicate Tells<T(!new)>(f: T -> Doc) { forall a, b | f(a) == f(b) :: a == b }

  function List(items: seq<Doc>): (r: Doc)
    ensures r.Arr? && r.items == items
  {
    Arr(items)
  }

  function Listed<T>(xs: seq<T>, f: T -> Doc): (r: Doc)
    ensures r.Arr? && |r.items| == |xs| && forall i | 0 <= i < |xs| :: r.items[i] == f(xs[i])
  {
    List(seq(|xs|, i requires 0 <= i < |xs| => f(xs[i])))
  }

  lemma ListedSame<T(!new)>(xs: seq<T>, ys: seq<T>, f: T -> Doc)
    requires Tells(f) && Listed(xs, f) == Listed(ys, f)
    ensures xs == ys
  {
    forall i | 0 <= i < |xs| ensures xs[i] == ys[i] { assert f(xs[i]) == f(ys[i]); }
  }

  function Name(s: string): Doc { Str(s) }

  function Count(n: int): Doc { Num(Int(n)) }

  function Maybe(s: Option<string>): Doc { match s case None => Null case Some(t) => Str(t) }

  function Names(names: seq<string>): Doc { Listed(names, Name) }

  function NameSet(names: set<string>): Doc { Names(Sorted(names)) }

  lemma NamesTell()
    ensures Tells(Names) && Tells(NameSet) && Tells(Maybe) && Tells(Count)
  {
    assert Tells(Name);
    forall a, b | Names(a) == Names(b) ensures a == b { ListedSame(a, b, Name); }
    forall a, b | NameSet(a) == NameSet(b) ensures a == b {
      assert Sorted(a) == Sorted(b);
      assert forall k :: k in a <==> k in Sorted(a);
      assert forall k :: k in b <==> k in Sorted(b);
    }
  }

  function TextOfDoc(v: Doc): string { DumpsText(v) }

  lemma TextTells(v: Doc, w: Doc)
    ensures TextOfDoc(v) == TextOfDoc(w) <==> v == w
  {
    DumpsInjective(v, w);
  }

  // ---- The context store ------------------------------------------------------------

  function BytesText(b: Context.Bytes): string { seq(|b|, i requires 0 <= i < |b| => b[i] as char) }

  lemma BytesTell(a: Context.Bytes, b: Context.Bytes)
    ensures BytesText(a) == BytesText(b) <==> a == b
  {
    if BytesText(a) == BytesText(b) {
      assert |a| == |b|;
      forall i | 0 <= i < |a| ensures a[i] == b[i] { assert BytesText(a)[i] == BytesText(b)[i]; }
    }
  }

  function ScopeDoc(s: Context.Scope): Doc {
    List([Name(s.projectId), Name(s.repositoryId), Name(s.taskId), Maybe(s.campaignId), Maybe(s.attemptId)])
  }

  function RequestDoc(q: Context.Request): Doc { List([SenderDoc(q), ContentDoc(q)]) }

  function SenderDoc(q: Context.Request): Doc {
    List([ScopeDoc(q.scope), Name(q.sessionId), Name(q.windowId), Name(q.producerId), Name(q.role), Name(q.key)])
  }

  function ContentDoc(q: Context.Request): Doc {
    List([Name(BytesText(q.payload)), Name(q.sourceType), Maybe(q.sourceRef), Maybe(q.subjectRevision),
          Maybe(q.toolNamespace), Maybe(q.toolName), Name(q.retention)])
  }

  function RecordDoc(r: Context.Record): Doc {
    List([Name(r.id), Name(r.scopeDigest), ScopeDoc(r.scope), Count(r.createdAt), Name(r.key), Name(r.requestDigest),
          Name(r.contentDigest), Name(r.authority), Name(r.retention)])
  }

  lemma ScopesTell(a: Context.Scope, b: Context.Scope)
    requires ScopeDoc(a) == ScopeDoc(b)
    ensures a == b
  {
    NamesTell();
    var (x, y) := (ScopeDoc(a).items, ScopeDoc(b).items);
    assert x[0] == y[0] && x[1] == y[1] && x[2] == y[2] && x[3] == y[3] && x[4] == y[4];
    assert Maybe(a.campaignId) == Maybe(b.campaignId) && Maybe(a.attemptId) == Maybe(b.attemptId);
  }

  lemma MaybesTell(a: Option<string>, b: Option<string>)
    ensures Maybe(a) == Maybe(b) <==> a == b
  {
  }

  lemma SendersTell(a: Context.Request, b: Context.Request)
    requires SenderDoc(a) == SenderDoc(b)
    ensures a.scope == b.scope && a.sessionId == b.sessionId && a.windowId == b.windowId
    ensures a.producerId == b.producerId && a.role == b.role && a.key == b.key
  {
    var (x, y) := (SenderDoc(a).items, SenderDoc(b).items);
    assert x[0] == y[0] && x[1] == y[1] && x[2] == y[2] && x[3] == y[3] && x[4] == y[4] && x[5] == y[5];
    ScopesTell(a.scope, b.scope);
  }

  lemma ContentsTell(a: Context.Request, b: Context.Request)
    requires ContentDoc(a) == ContentDoc(b)
    ensures a.payload == b.payload && a.sourceType == b.sourceType && a.sourceRef == b.sourceRef
    ensures a.subjectRevision == b.subjectRevision && a.toolNamespace == b.toolNamespace && a.toolName == b.toolName
    ensures a.retention == b.retention
  {
    hide Maybe, BytesText;
    var (x, y) := (ContentDoc(a).items, ContentDoc(b).items);
    assert x[0] == y[0] && x[1] == y[1] && x[2] == y[2] && x[3] == y[3] && x[4] == y[4] && x[5] == y[5] && x[6] == y[6];
    BytesTell(a.payload, b.payload);
    MaybesTell(a.sourceRef, b.sourceRef);
    MaybesTell(a.subjectRevision, b.subjectRevision);
    MaybesTell(a.toolNamespace, b.toolNamespace);
    MaybesTell(a.toolName, b.toolName);
  }

  lemma RequestsTell(a: Context.Request, b: Context.Request)
    requires RequestDoc(a) == RequestDoc(b)
    ensures a == b
  {
    hide SenderDoc, ContentDoc;
    var (x, y) := (RequestDoc(a).items, RequestDoc(b).items);
    assert x[0] == y[0] && x[1] == y[1];
    SendersTell(a, b);
    ContentsTell(a, b);
  }

  lemma RecordsTell(a: Context.Record, b: Context.Record)
    requires RecordDoc(a) == RecordDoc(b)
    ensures a == b
  {
    var (x, y) := (RecordDoc(a).items, RecordDoc(b).items);
    assert x[0] == y[0] && x[1] == y[1] && x[2] == y[2] && x[3] == y[3] && x[4] == y[4] && x[5] == y[5] && x[6] == y[6]
      && x[7] == y[7] && x[8] == y[8];
    ScopesTell(a.scope, b.scope);
  }

  function ContextDigests(): Context.Digests {
    Context.Digests(s => TextOfDoc(ScopeDoc(s)), BytesText, q => TextOfDoc(RequestDoc(q)), r => TextOfDoc(RecordDoc(r)))
  }

  lemma ContextDigestsExist()
    ensures ContextDigests().Injective()
  {
    var d := ContextDigests();
    forall a, b | d.scope(a) == d.scope(b) ensures a == b { TextTells(ScopeDoc(a), ScopeDoc(b)); ScopesTell(a, b); }
    forall a, b | d.content(a) == d.content(b) ensures a == b { BytesTell(a, b); }
    forall a, b | d.request(a) == d.request(b) ensures a == b { TextTells(RequestDoc(a), RequestDoc(b)); RequestsTell(a, b); }
    forall a, b | d.record(a) == d.record(b) ensures a == b { TextTells(RecordDoc(a), RecordDoc(b)); RecordsTell(a, b); }
  }

  // ---- Placement -----------------------------------------------------------------------

  function FailureDoc(f: Placement.Failure): Doc {
    match f
    case Connectivity => Count(0)
    case WrongPlatform => Count(1)
    case WrongArchitecture => Count(2)
    case Memory => Count(3)
    case Capability(name) => Name(name)
  }

  function CriterionDoc(c: Placement.Criterion): Doc {
    match c case HostOrder => Count(0) case MoreMemory => Count(1) case LowerLoad => Count(2)
  }

  function RankDoc(r: Placement.Rank): Doc {
    match r
    case Whole(n) => Count(n)
    case Negated(l) => Num(Float(l))
  }

  function RequirementsDoc(r: Placement.Requirements): Doc {
    List([Maybe(r.platform), Maybe(r.architecture), Count(r.minTotalMemory), NameSet(r.capabilities)])
  }

  function PreferencesDoc(p: Placement.Preferences): Doc {
    List([Listed(p.criteria, CriterionDoc), Names(p.preferred)])
  }

  function DetailDoc(d: Placement.Detail): Doc {
    match d
    case InventorySize(n) => List([Count(0), Count(n)])
    case HardConstraintsPass => Count(1)
    case SoleSelection => Count(2)
    case EligibleHosts(n) => List([Count(3), Count(n)])
    case Ineligible(id, failures) => List([Count(4), Name(id), Listed(failures, FailureDoc)])
    case CriteriaAre(criteria) => List([Count(5), Listed(criteria, CriterionDoc)])
    case PreferencesAre(p) => List([Count(6), PreferencesDoc(p)])
    case ScoreOf(id, score) => List([Count(7), Name(id), Listed(score, RankDoc)])
    case TieBreakById => Count(8)
    case Selection(id) => List([Count(9), Name(id)])
  }

  function ReasonDoc(r: Placement.Reason): Doc {
    match r
    case SoleEligible => Count(0)
    case SoleEligibleAfterFilter => Count(1)
    case SoftPreferenceScore => Count(2)
    case DeterministicTieBreak => Count(3)
  }

  function CoreDoc(c: Placement.Core): Doc {
    List([Name(c.requestId), RequirementsDoc(c.requirements), Name(c.hostId), Name(c.snapshotId), ReasonDoc(c.reason),
          Listed(c.details, DetailDoc)])
  }

  function LeaseDoc(l: Leases.LeaseCore): Doc {
    List([Name(l.decisionId), Name(l.requestId), RequirementsDoc(l.requirements), Name(l.hostId), Name(l.snapshotId),
          Name(l.observedAt), Name(l.validUntil)])
  }

  lemma LeavesTell()
    ensures Tells(FailureDoc) && Tells(CriterionDoc) && Tells(RankDoc)
  {
  }

  lemma RequirementsTell(a: Placement.Requirements, b: Placement.Requirements)
    requires RequirementsDoc(a) == RequirementsDoc(b)
    ensures a == b
  {
    NamesTell();
    var (x, y) := (RequirementsDoc(a).items, RequirementsDoc(b).items);
    assert x[0] == y[0] && x[1] == y[1] && x[2] == y[2] && x[3] == y[3];
    assert NameSet(a.capabilities) == NameSet(b.capabilities);
    assert Maybe(a.platform) == Maybe(b.platform) && Maybe(a.architecture) == Maybe(b.architecture);
  }

  lemma PreferencesTell(a: Placement.Preferences, b: Placement.Preferences)
    requires PreferencesDoc(a) == PreferencesDoc(b)
    ensures a == b
  {
    LeavesTell();
    NamesTell();
    var (x, y) := (PreferencesDoc(a).items, PreferencesDoc(b).items);
    assert x[0] == y[0] && x[1] == y[1];
    ListedSame(a.criteria, b.criteria, CriterionDoc);
    assert Names(a.preferred) == Names(b.preferred);
  }

  lemma DetailsTell(a: Placement.Detail, b: Placement.Detail)
    requires DetailDoc(a) == DetailDoc(b)
    ensures a == b
  {
    LeavesTell();
    var (v, w) := (DetailDoc(a), DetailDoc(b));
    if v.Arr? {
      var (x, y) := (v.items, w.items);
      assert |x| == |y| && x[0] == y[0] && x[1] == y[1] && (|x| > 2 ==> x[2] == y[2]);
      match (a, b)
      case (Ineligible(_, f), Ineligible(_, g)) => ListedSame(f, g, FailureDoc);
      case (CriteriaAre(c), CriteriaAre(e)) => ListedSame(c, e, CriterionDoc);
      case (PreferencesAre(p), PreferencesAre(q)) => PreferencesTell(p, q);
      case (ScoreOf(_, s), ScoreOf(_, t)) => ListedSame(s, t, RankDoc);
      case _ =>
    }
  }

  lemma CoresTell(a: Placement.Core, b: Placement.Core)
    requires CoreDoc(a) == CoreDoc(b)
    ensures a == b
  {
    var (x, y) := (CoreDoc(a).items, CoreDoc(b).items);
    assert x[0] == y[0] && x[1] == y[1] && x[2] == y[2] && x[3] == y[3] && x[4] == y[4] && x[5] == y[5];
    RequirementsTell(a.requirements, b.requirements);
    forall d, e | DetailDoc(d) == DetailDoc(e) ensures d == e { DetailsTell(d, e); }
    ListedSame(a.details, b.details, DetailDoc);
  }

  lemma LeaseCoresTell(a: Leases.LeaseCore, b: Leases.LeaseCore)
    requires LeaseDoc(a) == LeaseDoc(b)
    ensures a == b
  {
    var (x, y) := (LeaseDoc(a).items, LeaseDoc(b).items);
    assert x[0] == y[0] && x[1] == y[1] && x[2] == y[2] && x[3] == y[3] && x[4] == y[4] && x[5] == y[5] && x[6] == y[6];
    RequirementsTell(a.requirements, b.requirements);
  }

  function PlacementDigests(): Leases.Digests {
    Leases.Digests(c => TextOfDoc(CoreDoc(c)), l => TextOfDoc(LeaseDoc(l)))
  }

  lemma PlacementDigestsExist()
    ensures PlacementDigests().Injective()
  {
    var d := PlacementDigests();
    forall a, b | d.decision(a) == d.decision(b) ensures a == b { TextTells(CoreDoc(a), CoreDoc(b)); CoresTell(a, b); }
    forall a, b | d.lease(a) == d.lease(b) ensures a == b { TextTells(LeaseDoc(a), LeaseDoc(b)); LeaseCoresTell(a, b); }
  }

  // ---- Checkpoints and handoffs --------------------------------------------------------

  // Stands for a digest of texts.
  function Marked(s: string): string { "#" + s + "#" }

  // It never collides and is never blank, nor has it blanks around it.
  lemma MarkedIsSound()
    ensures RecordCodec.Sound(Marked) && forall s :: BindReadback.DigestText(Marked(s))
  {
    forall s, t | Marked(s) == Marked(t) ensures s == t {
      assert Marked(s)[1..|s| + 1] == s && Marked(t)[1..|t| + 1] == t;
    }
    forall s ensures NonBlank(Marked(s)) && BindReadback.DigestText(Marked(s)) { assert Marked(s)[0] == '#'; }
  }

  // The hashes the store compares, over a digest of texts.
  function RecordHashes(sha: string -> string, shown: Json<Number> -> string): StoreFiles.Hashes {
    StoreFiles.Hashes(c => RecordCodec.HashOf(c, sha), h => HandoffCodec.LineageHashOf(h, sha), shown)
  }

  // They never collide either, so what is proved of the store holds under them.
  lemma RecordHashesExist(sha: string -> string, shown: Json<Number> -> string)
    requires RecordCodec.Sound(sha)
    ensures RecordHashes(sha, shown).Injective()
  {
    hide RecordCodec.HashOf, HandoffCodec.LineageHashOf, RecordCodec.Sound;
    var d := RecordHashes(sha, shown);
    forall a, b | d.checkpoint(a) == d.checkpoint(b) ensures a == b { RecordTheorems.HashNamesRecord(a, b, sha); }
    forall a, b | d.lineage(a) == d.lineage(b) ensures a == b { HandoffCodec.LineageHashNamesRecord(a, b, sha); }
  }

  // ---- Authorizations ------------------------------------------------------------------

  function AuthorizationText(a: Coordinator.Authorization): string { TextOfDoc(List([Name(a.subject), a.effects])) }

  lemma AuthorizationsTell(a: Coordinator.Authorization, b: Coordinator.Authorization)
    ensures AuthorizationText(a) == AuthorizationText(b) <==> a == b
  {
    hide TextOfDoc;
    TextTells(List([Name(a.subject), a.effects]), List([Name(b.subject), b.effects]));
    assert List([Name(a.subject), a.effects]).items[0] == Name(a.subject);
  }

  // ---- Clocks --------------------------------------------------------------------------

  // A moment as its microseconds after a letter for the offset.
  function MicrosText(m: Leases.Moment): string { (if m.aware then "Z" else "L") + PyExponent(m.micros) }

  function ReadMicros(s: string): Option<Leases.Moment> {
    if s == "" then None else Some(Leases.Moment(ParseExponent(s[1..]), s[0] == 'Z'))
  }

  lemma FaithfulClockExists()
    ensures Leases.Clock(ReadMicros, MicrosText).Faithful()
  {
    hide PyExponent, ParseExponent;
    forall m: Leases.Moment ensures ReadMicros(MicrosText(m)) == Some(m) {
      ExponentReads(m.micros);
      assert MicrosText(m)[1..] == PyExponent(m.micros);
    }
  }
}
