// What a durable payload may say differently and still be read as the same: blanks around
// a named text, repeats in a list, effects in another order, an empty member left out, an
// object or a text for a list, pairs for an object, anything at all for a text it spells.
module PayloadReading {
  import opened Text
  import opened JsNumbers
  import opened JsNumberValues
  import opened CanonicalJson
  import opened CanonicalText
  import Checkpoints
  import opened DurableFields
  import opened RecordCodec

  // ---- Named texts -------------------------------------------------------------------

  predicate AllSpace(s: string) { forall i | 0 <= i < |s| :: IsSpace(s[i]) }

  predicate Inside(t: string, n: nat, s: string) {
    n + |s| <= |t| && t[n..n + |s|] == s && AllSpace(t[..n]) && AllSpace(t[n + |s|..])
  }

  // `t` is `s` with blanks around it.
  predicate Padded(t: string, s: string) { exists n | 0 <= n <= |t| :: Inside(t, n, s) }

  lemma {:induction false} LStripDropsSpace(t: string)
    ensures AllSpace(t[..|t| - |LStrip(t)|])
  {
    if t != "" && IsSpace(t[0]) {
      LStripDropsSpace(t[1..]);
      var k := |t| - |LStrip(t)|;
      assert t[..k] == [t[0]] + t[1..][..k - 1];
    }
  }

  lemma {:induction false} RStripDropsSpace(t: string)
    ensures AllSpace(t[|RStrip(t)|..])
  {
    if t != "" && IsSpace(t[|t| - 1]) {
      var u := t[..|t| - 1];
      RStripDropsSpace(u);
      assert t[|RStrip(t)|..] == u[|RStrip(u)|..] + [t[|t| - 1]];
    }
  }

  lemma {:induction false} LStripTo(t: string, n: nat)
    requires n < |t| && AllSpace(t[..n]) && !IsSpace(t[n])
    ensures LStrip(t) == t[n..]
  {
    if n > 0 {
      assert t[0] == t[..n][0];
      assert t[1..][..n - 1] == t[..n][1..] && t[1..][n - 1..] == t[n..];
      LStripTo(t[1..], n - 1);
    }
  }

  lemma {:induction false} RStripTo(t: string, n: nat)
    requires 0 < n <= |t| && AllSpace(t[n..]) && !IsSpace(t[n - 1])
    ensures RStrip(t) == t[..n]
  {
    if n < |t| {
      var u := t[..|t| - 1];
      assert t[|t| - 1] == t[n..][|t| - n - 1];
      assert u[n..] == t[n..][..|t| - n - 1] && u[..n] == t[..n];
      RStripTo(u, n);
    }
  }

  lemma PaddedStrips(t: string, s: string, n: nat)
    requires s != "" && Trimmed(s) && Inside(t, n, s)
    ensures Strip(t) == s
  {
    hide LStrip, RStrip, IsSpace;
    assert t[n] == s[0] && t[n + |s| - 1] == s[|s| - 1];
    LStripTo(t, n);
    var u := t[n..];
    assert u[|s|..] == t[n + |s|..] && u[..|s|] == s;
    RStripTo(u, |s|);
  }

  lemma StripsPadded(t: string)
    ensures Padded(t, Strip(t))
  {
    hide IsSpace;
    var (u, s) := (LStrip(t), Strip(t));
    var n := |t| - |u|;
    LStripDropsSpace(t);
    RStripDropsSpace(u);
    hide LStrip, RStrip, AllSpace;
    assert t[n..n + |s|] == u[..|s|] && t[n + |s|..] == u[|s|..];
    assert Inside(t, n, s);
  }

  // The trimmed text is what stands between the blanks.
  lemma StripIffPadded(t: string, s: string)
    requires NonBlank(s) && Trimmed(s)
    ensures NonBlank(t) && Strip(t) == s <==> Padded(t, s)
  {
    hide Strip, IsSpace, Inside, Trimmed;
    StripsPadded(t);
    NonBlankIffStrips(s);
    NonBlankIffStrips(t);
    TrimmedStrips(s);
    if Padded(t, s) {
      var n :| 0 <= n <= |t| && Inside(t, n, s);
      PaddedStrips(t, s, n);
    }
  }

  lemma TrimmedStrips(s: string)
    requires Trimmed(s)
    ensures Strip(s) == s
  {
  }

  // A member that must be a text.
  predicate Names(p: Payload, f: Field, s: string) {
    match Get(p, f)
    case Some(Str(t)) => Padded(t, s)
    case _ => false
  }

  lemma NamesIff(p: Payload, f: Field, s: string)
    requires NonBlank(s) && Trimmed(s)
    ensures Required(p, f) == Some(s) <==> Names(p, f, s)
  {
    hide Get, Strip, NonBlank, Padded, Trimmed;
    match Get(p, f)
    case Some(Str(t)) => StripIffPadded(t, s);
    case _ =>
  }

  // ---- Plain texts, revisions, lists ------------------------------------------------------

  // A member read with `str`: the text itself, something of that text, or, for the default,
  // nothing or an empty value.
  predicate Spells(p: Payload, f: Field, s: string, default: string, shown: string) {
    match Get(p, f)
    case None => s == default
    case Some(Str(t)) => t == s || (t == "" && s == default)
    case Some(v) => if Falsy(v) then s == default else s == PyStr(v, shown)
  }

  lemma SpellsIff(p: Payload, f: Field, s: string, default: string, shown: string)
    requires s == "" ==> default == ""
    ensures Coerced(p, f, default, shown) == s <==> Spells(p, f, s, default, shown)
  {
    hide Get;
  }

  lemma TextIs(p: Payload, f: Field, py: Python)
    ensures TextAt(p, f, py) == Coerced(p, f, "", py.shown(Top(f)))
  {
  }

  // A plain text of the payload's own.
  predicate Reads(p: Payload, f: Field, s: string, py: Python) { Spells(p, f, s, "", py.shown(Top(f))) }

  lemma ReadsIff(p: Payload, f: Field, s: string, py: Python)
    ensures TextAt(p, f, py) == s <==> Reads(p, f, s, py)
  {
    hide Get, Coerced, Spells;
    SpellsIff(p, f, s, "", py.shown(Top(f)));
  }

  predicate Numbers(p: Payload, f: Field, revision: int) {
    Get(p, f) == Some(Num(Int(revision))) || (Get(p, f) == None && revision == 1)
  }

  lemma NumbersIff(p: Payload, f: Field, revision: int)
    ensures RevisionOf(p, f) == Some(revision) <==> Numbers(p, f, revision)
  {
    hide Get;
  }

  // `xs` once each, in the order of their first occurrences in `items`.
  ghost predicate Repeats(items: seq<Value>, xs: seq<string>) {
    exists ts: seq<string> | items == Texts(ts).items :: Dedupe(ts) == xs
  }

  // A list read with `tuple`: its texts with or without repeats, for no texts nothing or an
  // empty value, for single characters a text of them, for the keys of an object the object.
  ghost predicate Enumerates(p: Payload, f: Field, xs: seq<string>, py: Python) {
    match Get(p, f)
    case None => xs == []
    case Some(Arr(items)) => Repeats(items, xs)
    case Some(Str(s)) => Dedupe(Characters(s)) == xs
    case Some(Obj(q)) => if q == map[] then xs == [] else Dedupe(py.keys(Top(f))) == xs
    case Some(v) => Falsy(v) && xs == []
  }

  lemma TextsOnly(items: seq<Value>, ts: seq<string>)
    ensures items == Texts(ts).items <==> Strings(items) == Some(ts)
  {
    if Strings(items) == Some(ts) { assert items == Texts(ts).items; }
    if items == Texts(ts).items { assert Strings(items).value == ts; }
  }

  lemma RepeatsIff(items: seq<Value>, xs: seq<string>)
    ensures Strings(items).Some? && Dedupe(Strings(items).value) == xs <==> Repeats(items, xs)
  {
    hide Strings, Dedupe, Texts;
    if Strings(items).Some? { TextsOnly(items, Strings(items).value); }
    if Repeats(items, xs) {
      var ts: seq<string> :| items == Texts(ts).items && Dedupe(ts) == xs;
      TextsOnly(items, ts);
    }
  }

  lemma ItemsIff(p: Payload, f: Field, items: seq<Value>, xs: seq<string>, py: Python)
    requires Get(p, f) == Some(Arr(items))
    ensures ListOf(p, f, py).Some? && Dedupe(ListOf(p, f, py).value) == xs <==> Repeats(items, xs)
  {
    hide Get, Strings, Repeats, Dedupe;
    RepeatsIff(items, xs);
    if items == [] { NoTexts(); }
  }

  lemma CharactersIff(p: Payload, f: Field, s: string, xs: seq<string>, py: Python)
    requires Get(p, f) == Some(Str(s))
    ensures ListOf(p, f, py).Some? && Dedupe(ListOf(p, f, py).value) == xs <==> Dedupe(Characters(s)) == xs
  {
    hide Get, Strings, Dedupe;
    if s == "" { assert Characters(s) == []; }
  }

  lemma AbsentIff(p: Payload, f: Field, xs: seq<string>, py: Python)
    requires Get(p, f).Some? ==> !Get(p, f).value.Arr? && !Get(p, f).value.Str?
    ensures ListOf(p, f, py).Some? && Dedupe(ListOf(p, f, py).value) == xs <==> Enumerates(p, f, xs, py)
  {
    hide Get, Strings, Repeats, Characters, Dedupe;
    DedupeNone();
  }

  lemma EnumeratesIff(p: Payload, f: Field, xs: seq<string>, py: Python)
    ensures ListOf(p, f, py).Some? && Dedupe(ListOf(p, f, py).value) == xs <==> Enumerates(p, f, xs, py)
  {
    hide Get, Strings, Repeats, Characters, Dedupe, ListOf;
    match Get(p, f)
    case Some(Arr(items)) => ItemsIff(p, f, items, xs, py);
    case Some(Str(s)) => CharactersIff(p, f, s, xs, py);
    case _ => AbsentIff(p, f, xs, py);
  }

  lemma DedupeNone()
    ensures Dedupe<string>([]) == []
  {
  }

  lemma NoTexts()
    ensures Strings([]) == Some([])
  {
  }

  // ---- Identities and external operations ----------------------------------------------------

  predicate Identifies(p: Payload, f: Field, i: Checkpoints.Identity, py: Python) {
    match Get(p, f) case Some(Obj(q)) => NamesIdentity(q, i, py) case _ => false
  }

  predicate NamesIdentity(q: Payload, i: Checkpoints.Identity, py: Python) {
    && Names(q, Repository, i.repository) && Names(q, SourceRevision, i.sourceRevision)
    && Names(q, RuntimeIdentity, i.runtimeIdentity) && Reads(q, TargetRevision, i.targetRevision, py)
  }

  lemma NamesIdentityIff(q: Payload, i: Checkpoints.Identity, py: Python)
    requires i.Valid() && Checkpoints.IdentityReadsBack(i)
    ensures DecodeIdentity(q, py) == Some(i) <==> NamesIdentity(q, i, py)
  {
    hide NonBlank, Names, Required, TextAt, Reads, Trimmed;
    assert TextAt(q, TargetRevision, py) == Coerced(q, TargetRevision, "", py.shown(Top(TargetRevision))) by { TextIs(q, TargetRevision, py); }
    NamesIff(q, Repository, i.repository);
    NamesIff(q, SourceRevision, i.sourceRevision);
    NamesIff(q, RuntimeIdentity, i.runtimeIdentity);
    ReadsIff(q, TargetRevision, i.targetRevision, py);
  }

  lemma IdentifiesIff(p: Payload, f: Field, i: Checkpoints.Identity, py: Python)
    requires i.Valid() && Checkpoints.IdentityReadsBack(i)
    ensures IdentityOf(p, f, py) == Some(i) <==> Identifies(p, f, i, py)
  {
    hide Get, DecodeIdentity, NamesIdentity, Checkpoints.IdentityReadsBack;
    match Get(p, f)
    case Some(Obj(q)) => NamesIdentityIff(q, i, py);
    case _ =>
  }

  // The operations: an object of them, or a list of pairs, read as a dictionary is made of
  // them: of equal keys the first stays, with the last of their values; and of keys spelled
  // alike the last decides.
  predicate Tracks(p: Payload, m: map<string, string>, py: Python) {
    match Get(p, ExternalOperationIds)
    case None => m == map[]
    case Some(Obj(q)) => q.Keys == m.Keys && forall k | k in m :: PyStr(q[k], py.shown(OperationOf(k))) == m[k]
    case Some(Arr(items)) => ArePairs(items, py) && Tells(PairsOf(items, py).value, m)
    case Some(v) => Falsy(v) && m == map[]
  }

  predicate ArePairs(items: seq<Value>, py: Python) { forall i: nat | i < |items| :: PairOf(items[i], i, py).Some? }

  predicate Tells(ps: Pairs, m: map<string, string>) {
    && (forall k | k in m :: exists i: nat | i < |ps| :: Decides(ps, i) && KeyText(ps, i) == k)
    && (forall i: nat, j: nat | i < |ps| && j < |ps| && Decides(ps, i) && KeepsValue(ps, i, j) ::
          KeyText(ps, i) in m && m[KeyText(ps, i)] == ps[j].text)
  }

  lemma OneLastValue(ps: Pairs, i: nat, j: nat, k: nat)
    requires i < |ps| && KeepsValue(ps, i, j) && KeepsValue(ps, i, k)
    ensures j == k
  {
  }

  lemma OneDecides(ps: Pairs, i: nat, j: nat)
    requires Decides(ps, i) && Decides(ps, j) && KeyText(ps, i) == KeyText(ps, j)
    ensures i == j
  {
    hide KeyText, SameKey;
  }

  // The entries that the first `n` pairs decide, read off the pairs.
  ghost predicate TellsTo(ps: Pairs, n: nat, m: map<string, string>)
    requires n <= |ps|
  {
    && (forall k | k in m :: exists i: nat | i < n :: Decides(ps, i) && KeyText(ps, i) == k)
    && (forall i: nat | i < n && Decides(ps, i) ::
          KeyText(ps, i) in m && m[KeyText(ps, i)] == ps[LastValue(ps, i, |ps| - 1)].text)
  }

  lemma {:induction false} EntriesTell(ps: Pairs, n: nat)
    requires n <= |ps|
    ensures TellsTo(ps, n, Entries(ps, n))
  {
    hide Decides, KeyText, LastValue, KeepsValue;
    if n > 0 {
      EntriesTell(ps, n - 1);
      var (before, m) := (Entries(ps, n - 1), Entries(ps, n));
      forall k | k in m ensures exists i: nat | i < n :: Decides(ps, i) && KeyText(ps, i) == k {
        if k in before && !(Decides(ps, n - 1) && k == KeyText(ps, n - 1)) {
          var i: nat :| i < n - 1 && Decides(ps, i) && KeyText(ps, i) == k;
          assert i < n;
        } else {
          assert Decides(ps, n - 1) && KeyText(ps, n - 1) == k;
        }
      }
      forall i: nat | i < n && Decides(ps, i)
        ensures KeyText(ps, i) in m && m[KeyText(ps, i)] == ps[LastValue(ps, i, |ps| - 1)].text
      {
        if i < n - 1 && Decides(ps, n - 1) && KeyText(ps, i) == KeyText(ps, n - 1) { OneDecides(ps, i, n - 1); }
      }
    }
  }

  lemma TellsIff(ps: Pairs, m: map<string, string>)
    ensures Dictionary(ps) == m <==> Tells(ps, m)
  {
    hide Decides, KeyText, LastValue, KeepsValue, Entries;
    EntriesTell(ps, |ps|);
    var d := Dictionary(ps);
    forall i: nat, j: nat | i < |ps| && j < |ps| && KeepsValue(ps, i, j) ensures j == LastValue(ps, i, |ps| - 1) {
      OneLastValue(ps, i, j, LastValue(ps, i, |ps| - 1));
    }
    if Tells(ps, m) {
      forall k | k in m ensures k in d && d[k] == m[k] {
        var i: nat :| i < |ps| && Decides(ps, i) && KeyText(ps, i) == k;
        assert KeepsValue(ps, i, LastValue(ps, i, |ps| - 1));
      }
      forall k | k in d ensures k in m {
        var i: nat :| i < |ps| && Decides(ps, i) && KeyText(ps, i) == k;
        assert KeepsValue(ps, i, LastValue(ps, i, |ps| - 1));
      }
      assert d == m;
    }
  }

  lemma ObjectTracked(q: Payload, m: map<string, string>, py: Python)
    ensures (map k | k in q :: PyStr(q[k], py.shown(OperationOf(k)))) == m
      <==> q.Keys == m.Keys && forall k | k in m :: PyStr(q[k], py.shown(OperationOf(k))) == m[k]
  {
    hide PyStr;
    var n := map k | k in q :: PyStr(q[k], py.shown(OperationOf(k)));
    assert n.Keys == q.Keys;
    if q.Keys == m.Keys && forall k | k in m :: PyStr(q[k], py.shown(OperationOf(k))) == m[k] { assert n == m; }
  }

  lemma TracksIff(p: Payload, m: map<string, string>, py: Python)
    ensures ExternalOf(p, py) == Some(m) <==> Tracks(p, m, py)
  {
    hide Get, PyStr, Tells, Dictionary, PairOf;
    match Get(p, ExternalOperationIds)
    case Some(Obj(q)) =>
      ObjectTracked(q, m, py);
      if q == map[] { assert q.Keys == {}; assert m.Keys == {} ==> m == map[]; }
    case Some(Arr(items)) =>
      if PairsOf(items, py).Some? {
        TellsIff(PairsOf(items, py).value, m);
        if items == [] { NoPairs(PairsOf(items, py).value, m); }
      }
    case _ =>
  }

  lemma NoPairs(ps: Pairs, m: map<string, string>)
    requires ps == []
    ensures Tells(ps, m) <==> m == map[]
  {
  }

  // ---- Completed effects ------------------------------------------------------------------------

  predicate ShowsEffect(v: Value, e: Checkpoints.Effect, shown: string) {
    v.Obj? && Names(v.fields, EffectKey, e.key) && Names(v.fields, ReceiptRef, e.receiptRef)
    && Spells(v.fields, EffectHash, e.effectHash, "", shown)
  }

  predicate PlainEffect(e: Checkpoints.Effect) { e.Valid() && Trimmed(e.key) && Trimmed(e.receiptRef) }

  lemma ShowsEffectIff(v: Value, e: Checkpoints.Effect, shown: string)
    requires PlainEffect(e)
    ensures DecodeEffect(v, shown) == Some(e) <==> ShowsEffect(v, e, shown)
  {
    hide NonBlank, Names, Required, Coerced, Spells, Trimmed;
    if v.Obj? {
      NamesIff(v.fields, EffectKey, e.key);
      NamesIff(v.fields, ReceiptRef, e.receiptRef);
      SpellsIff(v.fields, EffectHash, e.effectHash, "", shown);
    }
  }

  // The effects, each shown once, in any order.
  predicate ShowsAll(items: seq<Value>, es: seq<Checkpoints.Effect>, py: Python) {
    && |items| == |es|
    && (forall i: nat | i < |items| :: ShowsOneOf(items[i], es, py.shown(HashOfEffect(i))))
    && (forall j | 0 <= j < |es| :: ShownAmong(es[j], items, py))
  }

  predicate ShowsOneOf(v: Value, es: seq<Checkpoints.Effect>, shown: string) {
    exists j | 0 <= j < |es| :: ShowsEffect(v, es[j], shown)
  }

  predicate ShownAmong(e: Checkpoints.Effect, items: seq<Value>, py: Python) {
    exists i: nat | i < |items| :: ShowsEffect(items[i], e, py.shown(HashOfEffect(i)))
  }

  predicate Shows(p: Payload, es: seq<Checkpoints.Effect>, py: Python) {
    match Get(p, CompletedEffects)
    case None => es == []
    case Some(Arr(items)) => ShowsAll(items, es, py)
    case Some(v) => Falsy(v) && es == []
  }

  ghost predicate Orders(ds: seq<Checkpoints.Effect>, es: seq<Checkpoints.Effect>) {
    Checkpoints.KeysDistinct(ds) && Checkpoints.InKeyOrder(ds) == es
  }

  // Sorted by key, `ds` is `es` exactly when it is `es` in some order.
  lemma OrdersIff(ds: seq<Checkpoints.Effect>, es: seq<Checkpoints.Effect>)
    requires Increasing(Checkpoints.Keys(es))
    ensures Orders(ds, es) <==> |ds| == |es| && forall e :: e in ds <==> e in es
  {
    Checkpoints.IncreasingIsDistinct(Checkpoints.Keys(es));
    if Orders(ds, es) {
      Checkpoints.InKeyOrderSorts(ds);
      DistinctSize(Checkpoints.Keys(ds));
      assert |es| == |Sorted(set k | k in Checkpoints.Keys(ds))|;
    }
    if |ds| == |es| && forall e :: e in ds <==> e in es { SameEffectsInOrder(ds, es); }
  }

  lemma {:induction false} DistinctSize(xs: seq<string>)
    ensures |set x | x in xs| <= |xs|
    ensures |set x | x in xs| == |xs| <==> Distinct(xs)
  {
    if xs == [] {
      assert (set x | x in xs) == {};
    } else {
      var (front, last) := (xs[..|xs| - 1], xs[|xs| - 1]);
      DistinctSize(front);
      DistinctSnoc(front, last);
      assert xs == front + [last];
      assert (set x | x in xs) == (set x | x in front) + {last};
    }
  }

  lemma KeysOf(ds: seq<Checkpoints.Effect>, es: seq<Checkpoints.Effect>)
    requires forall e :: e in ds <==> e in es
    ensures forall k :: k in Checkpoints.Keys(ds) ==> k in Checkpoints.Keys(es)
  {
    var (ks, ls) := (Checkpoints.Keys(ds), Checkpoints.Keys(es));
    forall k | k in ks ensures k in ls {
      var i :| 0 <= i < |ds| && ks[i] == k;
      assert ds[i] in es;
      var j :| 0 <= j < |es| && es[j] == ds[i];
      assert ls[j] == k;
    }
  }

  lemma SameKeySet(ds: seq<Checkpoints.Effect>, es: seq<Checkpoints.Effect>)
    requires forall e :: e in ds <==> e in es
    ensures (set k | k in Checkpoints.Keys(ds)) == (set k | k in Checkpoints.Keys(es))
  {
    hide Checkpoints.Keys;
    KeysOf(ds, es);
    KeysOf(es, ds);
  }

  lemma SameEffectsInOrder(ds: seq<Checkpoints.Effect>, es: seq<Checkpoints.Effect>)
    requires Increasing(Checkpoints.Keys(es)) && Checkpoints.KeysDistinct(es)
    requires |ds| == |es| && forall e :: e in ds <==> e in es
    ensures Orders(ds, es)
  {
    hide Distinct, Increasing, Sorted;
    SameKeySet(ds, es);
    DistinctSize(Checkpoints.Keys(ds));
    DistinctSize(Checkpoints.Keys(es));
    Checkpoints.SortedKeys(Checkpoints.Keys(es));
    var r := Checkpoints.InKeyOrder(ds);
    forall i | 0 <= i < |es| ensures r[i] == es[i] { Checkpoints.SameKeySameEffect(es, r[i], es[i]); }
  }

  lemma OneOfIff(v: Value, es: seq<Checkpoints.Effect>, shown: string)
    requires forall e | e in es :: PlainEffect(e)
    ensures ShowsOneOf(v, es, shown) <==> DecodeEffect(v, shown).Some? && DecodeEffect(v, shown).value in es
  {
    hide ShowsEffect, DecodeEffect, PlainEffect;
    if ShowsOneOf(v, es, shown) {
      var j :| 0 <= j < |es| && ShowsEffect(v, es[j], shown);
      ShowsEffectIff(v, es[j], shown);
    }
    if DecodeEffect(v, shown).Some? && DecodeEffect(v, shown).value in es {
      var j :| 0 <= j < |es| && es[j] == DecodeEffect(v, shown).value;
      ShowsEffectIff(v, es[j], shown);
    }
  }

  lemma AmongIff(e: Checkpoints.Effect, items: seq<Value>, py: Python)
    requires PlainEffect(e) && DecodeEffects(items, py).Some?
    ensures ShownAmong(e, items, py) <==> e in DecodeEffects(items, py).value
  {
    hide ShowsEffect, DecodeEffect, PlainEffect, DecodeEffects;
    var ds := DecodeEffects(items, py).value;
    if ShownAmong(e, items, py) {
      var i: nat :| i < |items| && ShowsEffect(items[i], e, py.shown(HashOfEffect(i)));
      ShowsEffectIff(items[i], e, py.shown(HashOfEffect(i)));
      assert ds[i] == e;
    }
    if e in ds {
      var i: nat :| i < |ds| && ds[i] == e;
      ShowsEffectIff(items[i], e, py.shown(HashOfEffect(i)));
    }
  }

  lemma ShowsAllIff(items: seq<Value>, es: seq<Checkpoints.Effect>, py: Python)
    requires forall e | e in es :: PlainEffect(e)
    ensures ShowsAll(items, es, py) <==>
      DecodeEffects(items, py).Some? && |items| == |es| && forall e :: e in DecodeEffects(items, py).value <==> e in es
  {
    hide ShowsEffect, DecodeEffect, PlainEffect, ShowsOneOf, ShownAmong, DecodeEffects;
    forall i: nat | i < |items|
      ensures var shown := py.shown(HashOfEffect(i));
        ShowsOneOf(items[i], es, shown) <==> DecodeEffect(items[i], shown).Some? && DecodeEffect(items[i], shown).value in es
    {
      OneOfIff(items[i], es, py.shown(HashOfEffect(i)));
    }
    if DecodeEffects(items, py).Some? {
      forall e | e in es ensures ShownAmong(e, items, py) <==> e in DecodeEffects(items, py).value { AmongIff(e, items, py); }
    }
  }

  lemma ItemsShown(items: seq<Value>, es: seq<Checkpoints.Effect>, py: Python)
    requires (forall e | e in es :: PlainEffect(e)) && Increasing(Checkpoints.Keys(es))
    ensures DecodeEffects(items, py).Some? && Orders(DecodeEffects(items, py).value, es) <==> ShowsAll(items, es, py)
  {
    hide PlainEffect, DecodeEffects, Orders, Increasing, ShowsAll;
    ShowsAllIff(items, es, py);
    if DecodeEffects(items, py).Some? { OrdersIff(DecodeEffects(items, py).value, es); }
  }

  lemma ShowsIff(p: Payload, es: seq<Checkpoints.Effect>, py: Python)
    requires (forall e | e in es :: PlainEffect(e)) && Increasing(Checkpoints.Keys(es))
    ensures EffectsOf(p, py).Some? && Orders(EffectsOf(p, py).value, es) <==> Shows(p, es, py)
  {
    hide Get, ShowsAll, PlainEffect, DecodeEffects, Orders, Increasing;
    NoEffects(es);
    match Get(p, CompletedEffects)
    case Some(Arr(items)) =>
      ItemsShown(items, es, py);
      if items == [] { DecodeNone(py); }
    case _ =>
  }

  lemma NoEffects(es: seq<Checkpoints.Effect>)
    ensures Orders([], es) <==> es == []
  {
    assert Checkpoints.Keys([]) == [];
    assert (set k | k in Checkpoints.Keys([])) == {};
  }

  lemma DecodeNone(py: Python)
    ensures DecodeEffects([], py) == Some([])
  {
  }
}
