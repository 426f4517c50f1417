// What each operation of the context store answers, told on the stored items' own fields.
module ContextContracts {
  import opened Text
  import opened ContextStore
  import opened ContextTheorems
  import opened ContextScans

  // ---- Search ---------------------------------------------------------------------

  // The item is of the scope asked for, and its payload has the text somewhere in it.
  ghost predicate Holds(i: Item, scope: Scope, text: Bytes) {
    i.request.scope == scope && exists a, b :: i.request.payload == a + text + b
  }

  predicate Lasting(i: Item, now: int, ttl: Option<int>) { ttl == None || i.createdAt >= now - ttl.value }

  lemma MatchesMeans(items: Items, id: string, scope: Scope, text: Bytes, d: Digests)
    requires Sound(items, d) && d.Injective() && id in items
    ensures Matches(items[id], d.scope(scope), text) <==> Holds(items[id], scope, text)
  {
    hide Contains, Utf8;
    ContainsMeans(items[id].request.payload, text);
    assert RowValid(items[id].request.scope, items[id], d);
  }

  // What a page is cut from: the ids of the items that hold the text, last, and come after
  // the cursor.
  ghost predicate Sought(items: Items, id: string, q: Query, cursor: Option<string>, now: int) {
    && id in items && Holds(items[id], q.scope, q.text) && Lasting(items[id], now, q.ttl)
    && (cursor in {None, Some("")} || Less(cursor.value, id))
  }

  lemma SoughtIff(items: Items, id: string, q: Query, cursor: Option<string>, now: int)
    requires Sound(items, q.digests) && q.digests.Injective()
    ensures id in Found(items, q.digests.scope(q.scope), q.text, cursor, now, q.ttl) <==> Sought(items, id, q, cursor, now)
  {
    hide Sound, Matches, Holds, Less;
    if id in items { MatchesMeans(items, id, q.scope, q.text, q.digests); }
  }

  ghost function SoughtIds(items: Items, q: Query, cursor: Option<string>, now: int): set<string> {
    set id | id in items && Sought(items, id, q, cursor, now)
  }

  // One page is the first of the ids sought, in order, as many as asked for; its cursor is
  // its last id exactly when more are left.
  ghost predicate IsPage(page: Page, sought: set<string>, limit: int) {
    && Increasing(page.hits) && |page.hits| <= limit && (forall id | id in page.hits :: id in sought)
    && (page.next == None ==> forall id | id in sought :: id in page.hits)
    && (page.next != None ==>
        && 0 < |page.hits| == limit && page.next == Some(page.hits[limit - 1])
        && (forall id | id in sought :: id in page.hits || Less(page.hits[limit - 1], id))
        && exists id | id in sought :: id !in page.hits)
  }

  lemma CutIs(all: seq<string>, limit: nat)
    requires limit >= 1
    ensures var page := Cut(Take(all, limit + 1), limit);
      && |page.hits| <= limit && page.hits <= all
      && (page.next == None ==> page.hits == all)
      && (page.next != None ==> |page.hits| == limit < |all| && page.next == Some(page.hits[limit - 1]))
  {
  }

  lemma OneIsLeft(all: seq<string>, limit: nat)
    requires Increasing(all) && limit < |all|
    ensures all[limit] in all && all[limit] !in all[..limit]
  {
    hide Less;
    forall i | 0 <= i < limit ensures all[..limit][i] != all[limit] { LessTotal(all[i], all[limit]); }
  }

  lemma PageIs(found: set<string>, limit: nat)
    requires limit >= 1
    ensures IsPage(Cut(Take(Sorted(found), limit + 1), limit), found, limit)
  {
    hide Less, Cut, Take, Increasing;
    var all := Sorted(found);
    var page := Cut(Take(all, limit + 1), limit);
    CutIs(all, limit);
    CutPage(found, limit);
    if page.next != None {
      OneIsLeft(all, limit);
      assert page.hits == all[..limit] && all[limit] in found;
    }
  }

  // A search is refused exactly for no text or a limit outside 1 to 20; otherwise it answers
  // that page.
  lemma SearchIs(items: Items, q: Query, limit: int, cursor: Option<string>, now: int)
    requires Sound(items, q.digests) && q.digests.Injective()
    ensures var r := Searched(items, q.scope, q.text, limit, cursor, now, q.ttl, q.digests);
      if q.text == [] then r == Err(QueryRequired)
      else if limit < 1 || limit > 20 then r == Err(LimitOutOfRange)
      else r.Ok? && IsPage(r.value, SoughtIds(items, q, cursor, now), limit)
  {
    hide Sound, Found, Sought, Less, Increasing, PageOk, RowValid, Cut, Take, IsPage;
    if q.text != [] && 1 <= limit <= 20 {
      var found := Found(items, q.digests.scope(q.scope), q.text, cursor, now, q.ttl);
      forall id ensures id in found <==> id in SoughtIds(items, q, cursor, now) {
        SoughtIff(items, id, q, cursor, now);
        FoundThere(items, id, q, cursor, now);
      }
      assert found == SoughtIds(items, q, cursor, now);
      SearchPage(items, q, limit, cursor, now);
      PageIs(found, limit);
    }
  }

  lemma FoundThere(items: Items, id: string, q: Query, cursor: Option<string>, now: int)
    ensures id in Found(items, q.digests.scope(q.scope), q.text, cursor, now, q.ttl) ==> id in items
  {
  }

  // The item outlasts every page of the scan.
  predicate LastsThrough(i: Item, rounds: seq<Round>, ttl: Option<int>) {
    forall n | 0 <= n < |rounds| :: Lasting(i, rounds[n].now, ttl)
  }

  // Following the cursors from the start, whatever is ingested meanwhile: the ids come back
  // strictly increasing, each of an item of the scope that holds the text; and once the scan
  // is over it has returned every such item that was there from the start and outlasted it.
  lemma ScanFinds(past: seq<Insert>, rounds: seq<Round>, q: Query, id: string)
    requires q.digests.Injective() && Proper(rounds, q)
    ensures var start := Run(map[], past, q.maxItems, q.digests);
      var s := Scanned(Begin(start), rounds, q);
      && Increasing(s.seen)
      && (id in s.seen ==> id in s.items && Holds(s.items[id], q.scope, q.text))
      && (s.done && id in start && Holds(start[id], q.scope, q.text) && LastsThrough(start[id], rounds, q.ttl) ==> id in s.seen)
  {
    hide Sound, Run, Scanned, Matches, Holds, Increasing, ScanOk;
    var start := Run(map[], past, q.maxItems, q.digests);
    var s := Scanned(Begin(start), rounds, q);
    ScanIsExact(past, rounds, q, id);
    BeginOk(past, q);
    ScannedOk(Begin(start), rounds, q);
    ScanSound(s, q);
    ScanSound(Begin(start), q);
    if id in s.items { MatchesMeans(s.items, id, q.scope, q.text, q.digests); }
    if id in start {
      MatchesMeans(start, id, q.scope, q.text, q.digests);
      assert LastsThrough(start[id], rounds, q.ttl) ==> FreshThroughout(start[id], rounds, q.ttl);
    }
  }

  lemma ScanSound(s: Scan, q: Query)
    requires ScanOk(s, q)
    ensures Sound(s.items, q.digests)
  {
    hide Sound, Matches, Increasing;
  }

  // ---- Reads --------------------------------------------------------------------------------

  // A read gives the bytes asked for, of an item of the scope that lasts, up to 64 KiB and
  // within the payload, and says whether the revision the caller is at is the item's; in every
  // other case it is refused, in this order.
  lemma ReadIs(items: Items, scope: Scope, id: string, start: int, end: Option<int>, revision: Option<string>,
               now: int, ttl: Option<int>, d: Digests)
    requires Sound(items, d) && d.Injective()
    ensures var r := ReadOut(items, scope, id, start, end, revision, now, ttl, d);
      if start < 0 || (end != None && end.value < start) then r == Err(BadRange)
      else if id !in items || items[id].request.scope != scope then r == Err(NotFound)
      else
        var payload := items[id].request.payload;
        var stop := if end == None then |payload| else end.value;
        if !Lasting(items[id], now, ttl) then r == Err(ItemExpired)
        else if stop > start + 64 * 1024 then r == Err(ReadTooLarge)
        else if stop > |payload| then r == Err(OutOfBounds)
        else r == Ok(Reading(
          if start <= stop then payload[start..stop] else [], d.content(payload),
          if revision == None then UnknownFreshness
          else if items[id].request.subjectRevision == revision then CurrentRevision else StaleForExecution,
          start, stop))
  {
    hide Utf8;
    if id in items { assert RowValid(items[id].request.scope, items[id], d); }
  }

  // ---- Ingest ----------------------------------------------------------------------------------

  // An item of the scope under the key.
  predicate Under(i: Item, scope: Scope, key: string) { i.request.scope == scope && i.request.key == key }

  // The row a request becomes.
  predicate RowOf(i: Item, q: Request, now: int, hex: string, d: Digests) {
    && i.id == "ctx_" + hex && i.request == q && i.createdAt == now && i.scopeDigest == d.scope(q.scope)
    && i.contentDigest == d.content(q.payload) && i.requestDigest == d.request(q)
    && i.authority == "WORKING_CONTEXT_NON_AUTHORITATIVE"
    && i.recordDigest == d.record(Record(
         "ctx_" + hex, d.scope(q.scope), q.scope, now, q.key, d.request(q), d.content(q.payload),
         "WORKING_CONTEXT_NON_AUTHORITATIVE", q.retention))
  }

  // Why a request is refused before anything is looked up, if it is.
  function Unfit(q: Request): Option<StoreError> {
    if q.sourceType == "retrieval_echo" then Some(RetrievalEcho)
    else if |q.payload| == 0 then Some(EmptyPayload)
    else if !Utf8(q.payload) then Some(NotUtf8)
    else if exists x | x in [q.sessionId, q.windowId, q.producerId, q.role, q.sourceType, q.key] :: Strip(x) == "" then Some(BlankField)
    else None
  }

  ghost function CountIn(items: Items, scope: Scope): nat { |set id | id in items && items[id].request.scope == scope| }

  // An unfit request is refused. Under a key of the scope that is taken, the same request is
  // answered with what is stored, and any other is a conflict; under a free one it is stored,
  // as one new row, unless the scope has its quota or the id is taken. Nothing else changes.
  lemma IngestIs(items: Items, q: Request, now: int, hex: string, maxItems: Option<int>, d: Digests)
    requires Sound(items, d) && d.Injective()
    ensures var (after, r) := Ingested(items, q, now, hex, maxItems, d);
      if Unfit(q) != None then (after, r) == (items, Err(Unfit(q).value))
      else if exists id | id in items :: Under(items[id], q.scope, q.key) then
        after == items && forall id | id in items && Under(items[id], q.scope, q.key) ::
          r == if items[id].request == q then Ok(Receipt(id, d.content(q.payload), d.request(q), q.key, true)) else Err(IdempotencyConflict)
      else if maxItems != None && CountIn(items, q.scope) >= maxItems.value then (after, r) == (items, Err(QuotaExceeded))
      else if "ctx_" + hex in items then (after, r) == (items, Err(IdTaken))
      else
        && after.Keys == items.Keys + {"ctx_" + hex} && RowOf(after["ctx_" + hex], q, now, hex, d)
        && (forall id | id in items :: after[id] == items[id])
        && r == Ok(Receipt("ctx_" + hex, d.content(q.payload), d.request(q), q.key, false))
  {
    hide Utf8, RowOf, NonBlank, Strip, NewItem, Replay, Refused, Unfit, Under, Sound, Keyed;
    UnfitIff(q);
    NewRowIs(q, now, hex, d);
    KeyedUnder(items, q, d);
    CountIs(items, q.scope, d);
    if exists id | id in items :: Under(items[id], q.scope, q.key) {
      var id := Least(Keyed(items, d.scope(q.scope), q.key));
      ReplayIs(items, id, q, d);
      forall other | other in items && Under(items[other], q.scope, q.key) ensures other == id { OneUnder(items, id, other, q, d); }
    }
  }

  lemma UnfitIff(q: Request)
    ensures Refused(q) == Unfit(q)
  {
    hide Utf8, NonBlank, Strip;
    NonBlankIffStrips(q.sessionId);
    NonBlankIffStrips(q.windowId);
    NonBlankIffStrips(q.producerId);
    NonBlankIffStrips(q.role);
    NonBlankIffStrips(q.sourceType);
    NonBlankIffStrips(q.key);
    var xs := [q.sessionId, q.windowId, q.producerId, q.role, q.sourceType, q.key];
    assert xs[0] in xs && xs[1] in xs && xs[2] in xs && xs[3] in xs && xs[4] in xs && xs[5] in xs;
  }

  lemma NewRowIs(q: Request, now: int, hex: string, d: Digests)
    ensures RowOf(NewItem(q, now, ItemId(hex), d), q, now, hex, d)
    ensures var i := NewItem(q, now, ItemId(hex), d);
      i.id == ItemId(hex) && i.contentDigest == d.content(q.payload) && i.requestDigest == d.request(q)
  {
    hide Utf8;
  }

  lemma KeyedUnder(items: Items, q: Request, d: Digests)
    requires Sound(items, d) && d.Injective()
    ensures forall id :: id in Keyed(items, d.scope(q.scope), q.key) <==> id in items && Under(items[id], q.scope, q.key)
    ensures Keyed(items, d.scope(q.scope), q.key) != {} <==> exists id | id in items :: Under(items[id], q.scope, q.key)
  {
    hide Utf8;
    forall id ensures id in Keyed(items, d.scope(q.scope), q.key) <==> id in items && Under(items[id], q.scope, q.key) {
      if id in items { assert RowValid(items[id].request.scope, items[id], d); }
    }
  }

  lemma CountIs(items: Items, scope: Scope, d: Digests)
    requires Sound(items, d) && d.Injective()
    ensures |InScope(items, d.scope(scope))| == CountIn(items, scope)
  {
    hide Utf8;
    forall id ensures id in InScope(items, d.scope(scope)) <==> id in items && items[id].request.scope == scope {
      if id in items { assert RowValid(items[id].request.scope, items[id], d); }
    }
    assert InScope(items, d.scope(scope)) == set id | id in items && items[id].request.scope == scope;
  }

  lemma ReplayIs(items: Items, id: string, q: Request, d: Digests)
    requires Sound(items, d) && d.Injective() && id in items && Under(items[id], q.scope, q.key)
    ensures Replay(items[id], q, d) ==
      if items[id].request == q then Ok(Receipt(id, d.content(q.payload), d.request(q), q.key, true)) else Err(IdempotencyConflict)
  {
    hide Utf8;
    assert RowValid(items[id].request.scope, items[id], d);
  }

  lemma OneUnder(items: Items, a: string, b: string, q: Request, d: Digests)
    requires Sound(items, d) && a in items && b in items && Under(items[a], q.scope, q.key) && Under(items[b], q.scope, q.key)
    ensures a == b
  {
    hide Utf8;
    assert RowValid(items[a].request.scope, items[a], d) && RowValid(items[b].request.scope, items[b], d);
    assert SameKey(items[a], items[b]);
  }
}
