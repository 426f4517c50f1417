// What the context store keeps over every sequence of ingests.
module ContextTheorems {
  import opened Text
  import opened ContextStore

  // ---- Runs of ingests ---------------------------------------------------------------

  datatype Insert = Insert(q: Request, now: int, hex: string)

  function Run(items: Items, inserts: seq<Insert>, maxItems: Option<int>, d: Digests): Items {
    if inserts == [] then items
    else
      var before := Run(items, inserts[..|inserts| - 1], maxItems, d);
      var i := inserts[|inserts| - 1];
      Ingested(before, i.q, i.now, i.hex, maxItems, d).0
  }

  ghost predicate Sound(items: Items, d: Digests) {
    && (forall id | id in items :: id != "" && items[id].id == id && RowValid(items[id].request.scope, items[id], d))
    && (forall a, b | a in items && b in items && SameKey(items[a], items[b]) :: a == b)
  }

  predicate SameKey(i: Item, j: Item) { i.scopeDigest == j.scopeDigest && i.request.key == j.request.key }

  ghost predicate Extends(before: Items, after: Items) {
    forall id | id in before :: id in after && after[id] == before[id]
  }

  lemma NewKeyed(items: Items, q: Request, d: Digests)
    ensures Keyed(items, d.scope(q.scope), q.key) == {} <==>
      forall id | id in items :: !(items[id].scopeDigest == d.scope(q.scope) && items[id].request.key == q.key)
  {
    forall id | id in items && items[id].scopeDigest == d.scope(q.scope) && items[id].request.key == q.key
      ensures Keyed(items, d.scope(q.scope), q.key) != {}
    {
      assert id in Keyed(items, d.scope(q.scope), q.key);
    }
  }

  lemma AddKeeps(items: Items, i: Insert, d: Digests)
    requires Sound(items, d) && ItemId(i.hex) !in items && Utf8(i.q.payload)
    requires forall id | id in items :: !(items[id].scopeDigest == d.scope(i.q.scope) && items[id].request.key == i.q.key)
    ensures Sound(items[ItemId(i.hex) := NewItem(i.q, i.now, ItemId(i.hex), d)], d)
  {
    hide RowValid, NewItem, Utf8;
    NewRow(i.q, i.now, ItemId(i.hex), d);
  }

  lemma AcceptedIsText(q: Request)
    requires Refused(q).None?
    ensures Utf8(q.payload)
  {
    hide Utf8;
  }

  lemma IngestKeeps(items: Items, i: Insert, maxItems: Option<int>, d: Digests)
    requires Sound(items, d)
    ensures var after := Ingested(items, i.q, i.now, i.hex, maxItems, d).0; Sound(after, d) && Extends(items, after)
  {
    hide RowValid, Refused, Keyed, Replay, InScope, Sound, NewItem, ItemId;
    NewKeyed(items, i.q, d);
    NewRow(i.q, i.now, ItemId(i.hex), d);
    if ItemId(i.hex) !in items && Keyed(items, d.scope(i.q.scope), i.q.key) == {} && Refused(i.q).None? {
      AcceptedIsText(i.q);
      AddKeeps(items, i, d);
    }
  }

  lemma NewRow(q: Request, now: int, id: string, d: Digests)
    ensures NewItem(q, now, id, d).scopeDigest == d.scope(q.scope)
  {
  }

  lemma {:induction false} RunKeeps(items: Items, inserts: seq<Insert>, maxItems: Option<int>, d: Digests)
    requires Sound(items, d)
    ensures Sound(Run(items, inserts, maxItems, d), d) && Extends(items, Run(items, inserts, maxItems, d))
  {
    hide Sound, Ingested;
    if inserts != [] {
      RunKeeps(items, inserts[..|inserts| - 1], maxItems, d);
      IngestKeeps(Run(items, inserts[..|inserts| - 1], maxItems, d), inserts[|inserts| - 1], maxItems, d);
    }
  }

  // ---- One item per key, and never more than the quota -----------------------------------

  lemma InScopeAdds(items: Items, id: string, row: Item, scopeDigest: string)
    requires id !in items
    ensures InScope(items[id := row], scopeDigest) == InScope(items, scopeDigest) + (if row.scopeDigest == scopeDigest then {id} else {})
  {
  }

  lemma IngestAdds(items: Items, i: Insert, most: nat, d: Digests)
    ensures var after := Ingested(items, i.q, i.now, i.hex, Some(most), d).0;
      after == items ||
        (&& ItemId(i.hex) !in items && after == items[ItemId(i.hex) := NewItem(i.q, i.now, ItemId(i.hex), d)]
         && |InScope(items, d.scope(i.q.scope))| < most)
  {
    hide Refused, Keyed, Replay, InScope, NewItem, ItemId;
  }

  lemma IngestWithinQuota(items: Items, i: Insert, most: nat, d: Digests, scopeDigest: string)
    requires |InScope(items, scopeDigest)| <= most
    ensures |InScope(Ingested(items, i.q, i.now, i.hex, Some(most), d).0, scopeDigest)| <= most
  {
    hide Ingested, InScope, NewItem, ItemId;
    NewRow(i.q, i.now, ItemId(i.hex), d);
    IngestAdds(items, i, most, d);
    if ItemId(i.hex) !in items { InScopeAdds(items, ItemId(i.hex), NewItem(i.q, i.now, ItemId(i.hex), d), scopeDigest); }
  }

  // From an empty store, whatever is ingested, a scope never holds two items under one
  // key nor more items than its quota.
  lemma {:induction false} KeyedAndBounded(inserts: seq<Insert>, most: nat, d: Digests, scope: Scope, key: string)
    ensures var items := Run(map[], inserts, Some(most), d);
      |Keyed(items, d.scope(scope), key)| <= 1 && |InScope(items, d.scope(scope))| <= most
  {
    RunKeeps(map[], inserts, Some(most), d);
    AtMostOne(Run(map[], inserts, Some(most), d), d, d.scope(scope), key);
    Bounded(inserts, most, d, d.scope(scope));
  }

  lemma AtMostOne(items: Items, d: Digests, scopeDigest: string, key: string)
    requires Sound(items, d)
    ensures |Keyed(items, scopeDigest, key)| <= 1
  {
    hide RowValid;
    var ids := Keyed(items, scopeDigest, key);
    if ids != {} {
      var a :| a in ids;
      forall b | b in ids ensures b == a { assert SameKey(items[a], items[b]); }
      assert ids == {a};
    }
  }

  lemma {:induction false} Bounded(inserts: seq<Insert>, most: nat, d: Digests, scopeDigest: string)
    ensures |InScope(Run(map[], inserts, Some(most), d), scopeDigest)| <= most
  {
    if inserts == [] {
      assert InScope(map[], scopeDigest) == {};
    } else {
      hide Ingested, InScope;
      Bounded(inserts[..|inserts| - 1], most, d, scopeDigest);
      IngestWithinQuota(Run(map[], inserts[..|inserts| - 1], Some(most), d), inserts[|inserts| - 1], most, d, scopeDigest);
    }
  }

  // ---- Replays ----------------------------------------------------------------------------

  lemma OnlyKeyed(items: Items, d: Digests, id: string)
    requires Sound(items, d) && id in items
    ensures Keyed(items, items[id].scopeDigest, items[id].request.key) == {id}
  {
    hide RowValid;
    forall b | b in Keyed(items, items[id].scopeDigest, items[id].request.key) ensures b == id { assert SameKey(items[id], items[b]); }
  }

  lemma LeastOfOne(id: string)
    ensures Least({id}) == id
  {
  }

  // What a second ingest of the same request, or of another one under its key, comes to.
  lemma KeyDecides(items: Items, id: string, q: Request, now: int, hex: string, maxItems: Option<int>, d: Digests)
    requires Sound(items, d) && d.Injective() && id in items && Refused(q).None?
    requires items[id].scopeDigest == d.scope(q.scope) && items[id].request.key == q.key
    ensures Ingested(items, q, now, hex, maxItems, d) == (items,
      if q == items[id].request then Ok(Receipt(id, d.content(q.payload), d.request(q), q.key, true)) else Err(IdempotencyConflict))
  {
    OnlyKeyed(items, d, id);
    LeastOfOne(id);
    hide Refused, Keyed, Least;
    var i := items[id];
    assert RowValid(i.request.scope, i, d) && i.request.scope == q.scope;
  }

  // An accepted ingest is answered the same way ever after: the same request, at any later
  // time, returns the original item and stores nothing; another request under its key is refused.
  lemma ReplayReturnsOriginal(
    past: seq<Insert>, q: Request, now: int, hex: string, more: seq<Insert>, again: Request, later: int, other: string,
    maxItems: Option<int>, d: Digests)
    requires d.Injective()
    requires var items := Run(map[], past, maxItems, d); Ingested(items, q, now, hex, maxItems, d).1.Ok?
    requires again.scope == q.scope && again.key == q.key && Refused(again).None?
    ensures var (stored, reply) := Ingested(Run(map[], past, maxItems, d), q, now, hex, maxItems, d);
      var items := Run(stored, more, maxItems, d);
      Ingested(items, again, later, other, maxItems, d) ==
        (items, if again == q then Ok(reply.value.(replayed := true)) else Err(IdempotencyConflict))
  {
    hide Ingested, Sound, Refused;
    var items := Run(map[], past, maxItems, d);
    RunKeeps0(past, maxItems, d);
    AcceptedIsStored(items, q, now, hex, maxItems, d);
    var (stored, reply) := Ingested(items, q, now, hex, maxItems, d);
    RunKeeps(stored, more, maxItems, d);
    KeyDecides(Run(stored, more, maxItems, d), reply.value.id, again, later, other, maxItems, d);
  }

  lemma RunKeeps0(past: seq<Insert>, maxItems: Option<int>, d: Digests)
    ensures Sound(Run(map[], past, maxItems, d), d)
  {
    RunKeeps(map[], past, maxItems, d);
  }

  lemma AcceptedIsStored(items: Items, q: Request, now: int, hex: string, maxItems: Option<int>, d: Digests)
    requires Sound(items, d) && d.Injective() && Ingested(items, q, now, hex, maxItems, d).1.Ok?
    ensures var (stored, reply) := Ingested(items, q, now, hex, maxItems, d);
      && Sound(stored, d) && reply.value.id in stored && stored[reply.value.id].request == q
      && stored[reply.value.id].scopeDigest == d.scope(q.scope)
      && reply.value == Receipt(reply.value.id, d.content(q.payload), d.request(q), q.key, reply.value.replayed)
  {
    IngestKeeps(items, Insert(q, now, hex), maxItems, d);
    hide Refused, InScope;
    var existing := Keyed(items, d.scope(q.scope), q.key);
    if existing != {} {
      var id := Least(existing);
      assert id in items;
      hide Keyed, Least;
      KeyDecides(items, id, q, now, hex, maxItems, d);
    }
  }

  // ---- A row binds its content ---------------------------------------------------------------

  // Two rows that both pass validation and carry one record digest are the same row.
  lemma RecordDigestNamesRow(s: Scope, i: Item, t: Scope, j: Item, d: Digests)
    requires d.Injective() && RowValid(s, i, d) && RowValid(t, j, d) && i.recordDigest == j.recordDigest
    ensures i == j
  {
    assert RecordOf(i) == RecordOf(j);
    assert i.request.(scope := s) == j.request.(scope := t);
  }

  // What was accepted can be read back ever after, range by range, until it expires:
  // a read succeeds exactly on the ranges it may ask for, and returns exactly those bytes.
  lemma ReadReturnsIngested(
    past: seq<Insert>, q: Request, now: int, hex: string, more: seq<Insert>, start: nat, stop: nat,
    later: int, ttl: Option<int>, maxItems: Option<int>, d: Digests)
    requires d.Injective()
    requires Ingested(Run(map[], past, maxItems, d), q, now, hex, maxItems, d).1.Ok?
    ensures var (stored, reply) := Ingested(Run(map[], past, maxItems, d), q, now, hex, maxItems, d);
      var items := Run(stored, more, maxItems, d);
      var id := reply.value.id;
      var r := ReadOut(items, q.scope, id, start, Some(stop), None, later, ttl, d);
      && id in items && items[id].request == q
      && (r.Ok? <==> start <= stop <= |q.payload| && stop - start <= 65536 && Fresh(items[id], later, ttl))
      && (r.Ok? ==> r.value.bytes == q.payload[start..stop] && r.value.contentDigest == d.content(q.payload))
  {
    hide Ingested, Refused;
    var items := Run(map[], past, maxItems, d);
    RunKeeps0(past, maxItems, d);
    AcceptedIsStored(items, q, now, hex, maxItems, d);
    var (stored, reply) := Ingested(items, q, now, hex, maxItems, d);
    RunKeeps(stored, more, maxItems, d);
    ReadOfRow(Run(stored, more, maxItems, d), q, reply.value.id, start, stop, later, ttl, d);
  }

  lemma ReadOfRow(items: Items, q: Request, id: string, start: nat, stop: nat, later: int, ttl: Option<int>, d: Digests)
    requires Sound(items, d) && d.Injective() && id in items && items[id].request == q && items[id].scopeDigest == d.scope(q.scope)
    ensures var r := ReadOut(items, q.scope, id, start, Some(stop), None, later, ttl, d);
      && (r.Ok? <==> start <= stop <= |q.payload| && stop - start <= 65536 && Fresh(items[id], later, ttl))
      && (r.Ok? ==> r.value.bytes == q.payload[start..stop] && r.value.contentDigest == d.content(q.payload))
  {
    assert RowValid(q.scope, items[id], d);
  }
}
