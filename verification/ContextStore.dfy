// The context store: keyed idempotent ingest under a quota, literal search in pages,
// and exact reads, over rows that bind their own content.
module ContextStore {
  import opened Text

  datatype Scope = Scope(
    projectId: string, repositoryId: string, taskId: string, campaignId: Option<string>, attemptId: Option<string>)

  type Byte = n: nat | n <= 0xFF
  type Bytes = seq<Byte>

  // ---- UTF-8, section 4 of RFC 3629 --------------------------------------------------

  // Bytes 1 to n - 1 carry on a character.
  predicate Tails(b: Bytes, n: nat) { n <= |b| && forall j | 1 <= j < n :: 0x80 <= b[j] <= 0xBF }

  // How many bytes the first character takes; none where no character begins.
  function CharLength(b: Bytes): (n: nat)
    requires b != []
    ensures n <= |b|
  {
    var first := b[0];
    if first <= 0x7F then 1
    else if 0xC2 <= first <= 0xDF && Tails(b, 2) then 2
    else if 0xE0 <= first <= 0xEF && Tails(b, 3) && SecondOfThree(first, b[1]) then 3
    else if 0xF0 <= first <= 0xF4 && Tails(b, 4) && SecondOfFour(first, b[1]) then 4
    else 0
  }

  // No overlong forms, and no surrogates.
  predicate SecondOfThree(first: Byte, second: Byte) {
    (first == 0xE0 ==> second >= 0xA0) && (first == 0xED ==> second <= 0x9F)
  }

  // No overlong forms, and nothing past U+10FFFF.
  predicate SecondOfFour(first: Byte, second: Byte) {
    (first == 0xF0 ==> second >= 0x90) && (first == 0xF4 ==> second <= 0x8F)
  }

  // What `bytes.decode("utf-8")` accepts.
  predicate Utf8(b: Bytes) {
    b == [] || (CharLength(b) > 0 && Utf8(b[CharLength(b)..]))
  }

  // ---- Entities -----------------------------------------------------------------------

  datatype Request = Request(
    scope: Scope, sessionId: string, windowId: string, producerId: string, role: string, payload: Bytes,
    sourceType: string, sourceRef: Option<string>, subjectRevision: Option<string>,
    toolNamespace: Option<string>, toolName: Option<string>, retention: string, key: string)

  const WORKING_CONTEXT := "WORKING_CONTEXT_NON_AUTHORITATIVE"

  // A row of the table; `request` is its descriptive columns. Times are in microseconds.
  datatype Item = Item(
    id: string, scopeDigest: string, request: Request, createdAt: int,
    contentDigest: string, requestDigest: string, recordDigest: string, authority: string)

  datatype Record = Record(
    id: string, scopeDigest: string, scope: Scope, createdAt: int, key: string,
    requestDigest: string, contentDigest: string, authority: string, retention: string)

  datatype Digests = Digests(
    scope: Scope -> string, content: Bytes -> string, request: Request -> string, record: Record -> string)
  {
    ghost predicate Injective() {
      && (forall a, b | scope(a) == scope(b) :: a == b)
      && (forall a, b | content(a) == content(b) :: a == b)
      && (forall a, b | request(a) == request(b) :: a == b)
      && (forall a, b | record(a) == record(b) :: a == b)
    }
  }

  type Items = map<string, Item>

  // ---- Rows ------------------------------------------------------------------------

  function RecordOf(i: Item): Record {
    Record(i.id, i.scopeDigest, i.request.scope, i.createdAt, i.request.key, i.requestDigest, i.contentDigest,
           i.authority, i.request.retention)
  }

  // `validate_item_row`
  predicate RowValid(scope: Scope, i: Item, d: Digests) {
    && i.scopeDigest == d.scope(scope)
    && i.contentDigest == d.content(i.request.payload)
    && Utf8(i.request.payload)
    && i.requestDigest == d.request(i.request.(scope := scope))
    && i.authority == WORKING_CONTEXT
    && i.recordDigest == d.record(RecordOf(i))
  }

  function NewItem(q: Request, now: int, id: string, d: Digests): (i: Item)
    ensures (Utf8(q.payload) ==> RowValid(q.scope, i, d)) && i.id == id && i.request == q && i.createdAt == now
  {
    var bare := Item(id, d.scope(q.scope), q, now, d.content(q.payload), d.request(q), "", WORKING_CONTEXT);
    bare.(recordDigest := d.record(RecordOf(bare)))
  }

  // ---- Ingest ------------------------------------------------------------------------

  datatype Receipt = Receipt(id: string, contentDigest: string, requestDigest: string, key: string, replayed: bool)

  datatype StoreError =
    | RetrievalEcho | EmptyPayload | NotUtf8 | BlankField | IntegrityFailure | IdempotencyConflict | QuotaExceeded | IdTaken
    | QueryRequired | LimitOutOfRange | BadRange | NotFound | ItemExpired | ReadTooLarge | OutOfBounds

  function Keyed(items: Items, scopeDigest: string, key: string): set<string> {
    set id | id in items && items[id].scopeDigest == scopeDigest && items[id].request.key == key
  }

  function InScope(items: Items, scopeDigest: string): set<string> {
    set id | id in items && items[id].scopeDigest == scopeDigest
  }

  function Refused(q: Request): Option<StoreError> {
    if q.sourceType == "retrieval_echo" then Some(RetrievalEcho)
    else if q.payload == [] then Some(EmptyPayload)
    else if !Utf8(q.payload) then Some(NotUtf8)
    else if !NonBlank(q.sessionId) || !NonBlank(q.windowId) || !NonBlank(q.producerId) || !NonBlank(q.role)
      || !NonBlank(q.sourceType) || !NonBlank(q.key) then Some(BlankField)
    else None
  }

  function Replay(i: Item, q: Request, d: Digests): Result<Receipt, StoreError> {
    if !RowValid(q.scope, i, d) then Err(IntegrityFailure)
    else if i.requestDigest != d.request(q) then Err(IdempotencyConflict)
    else Ok(Receipt(i.id, i.contentDigest, d.request(q), q.key, true))
  }

  function ItemId(hex: string): string { "ctx_" + hex }

  // `ingest`, with the clock and the fresh identifier as parameters.
  function Ingested(items: Items, q: Request, now: int, hex: string, maxItems: Option<int>, d: Digests)
    : (Items, Result<Receipt, StoreError>)
  {
    var scopeDigest := d.scope(q.scope);
    var existing := Keyed(items, scopeDigest, q.key);
    if Refused(q).Some? then (items, Err(Refused(q).value))
    else if existing != {} then (items, Replay(items[Least(existing)], q, d))
    else if maxItems.Some? && |InScope(items, scopeDigest)| >= maxItems.value then (items, Err(QuotaExceeded))
    else if ItemId(hex) in items then (items, Err(IdTaken))
    else
      var i := NewItem(q, now, ItemId(hex), d);
      (items[ItemId(hex) := i], Ok(Receipt(i.id, i.contentDigest, i.requestDigest, q.key, false)))
  }

  // ---- Search --------------------------------------------------------------------------

  datatype Page = Page(hits: seq<string>, next: Option<string>)

  predicate Fresh(i: Item, now: int, ttl: Option<int>) { ttl.Some? ==> i.createdAt >= now - ttl.value }

  predicate Matches(i: Item, scopeDigest: string, query: Bytes) {
    i.scopeDigest == scopeDigest && Contains(i.request.payload, query)
  }

  function After(cursor: Option<string>, id: string): bool { cursor.None? || cursor.value == "" || Less(cursor.value, id) }

  function Found(items: Items, scopeDigest: string, query: Bytes, cursor: Option<string>, now: int, ttl: Option<int>): set<string> {
    set id | id in items && Matches(items[id], scopeDigest, query) && Fresh(items[id], now, ttl) && After(cursor, id)
  }

  function Take(ids: seq<string>, n: nat): (r: seq<string>)
    ensures r <= ids && |r| <= n && (|ids| > n ==> |r| == n) && (|ids| <= n ==> r == ids)
    ensures forall i | 0 <= i < |r| :: r[i] == ids[i]
  {
    if |ids| <= n then ids else ids[..n]
  }

  // The rows of the query, one more than the page holds.
  function Rows(items: Items, scopeDigest: string, query: Bytes, limit: nat, cursor: Option<string>, now: int,
                ttl: Option<int>): (rows: seq<string>)
    ensures Increasing(rows) && |rows| <= limit + 1 && forall m | 0 <= m < |rows| :: rows[m] in items
  {
    var all := Sorted(Found(items, scopeDigest, query, cursor, now, ttl));
    assert forall m | 0 <= m < |all| :: all[m] in all;
    Take(Sorted(Found(items, scopeDigest, query, cursor, now, ttl)), limit + 1)
  }

  // The page cut from the rows; its cursor is its last id, when a row is left over.
  function Cut(rows: seq<string>, limit: nat): Page {
    var hits := Take(rows, limit);
    Page(hits, if |rows| > limit && hits != [] then Some(hits[|hits| - 1]) else None)
  }

  // `search`
  function Searched(items: Items, scope: Scope, query: Bytes, limit: int, cursor: Option<string>, now: int,
                    ttl: Option<int>, d: Digests): Result<Page, StoreError>
  {
    if query == [] then Err(QueryRequired)
    else if !(1 <= limit <= 20) then Err(LimitOutOfRange)
    else
      var rows := Rows(items, d.scope(scope), query, limit, cursor, now, ttl);
      if exists m | 0 <= m < |rows| :: !RowValid(scope, items[rows[m]], d) then Err(IntegrityFailure)
      else Ok(Cut(rows, limit))
  }

  // ---- Read ----------------------------------------------------------------------------

  datatype Freshness = UnknownFreshness | CurrentRevision | StaleForExecution

  datatype Reading = Reading(bytes: Bytes, contentDigest: string, freshness: Freshness, start: int, end: int)

  // `read_item`
  function ReadOut(items: Items, scope: Scope, id: string, start: int, end: Option<int>, revision: Option<string>,
                   now: int, ttl: Option<int>, d: Digests): Result<Reading, StoreError>
  {
    if start < 0 || (end.Some? && end.value < start) then Err(BadRange)
    else if id !in items || items[id].scopeDigest != d.scope(scope) then Err(NotFound)
    else
      var i := items[id];
      var stop := if end.None? then |i.request.payload| else end.value;
      if !RowValid(scope, i, d) then Err(IntegrityFailure)
      else if !Fresh(i, now, ttl) then Err(ItemExpired)
      else if stop - start > 65536 then Err(ReadTooLarge)
      else if stop > |i.request.payload| then Err(OutOfBounds)
      else Ok(Reading(Slice(i.request.payload, start, stop), i.contentDigest, FreshnessOf(i, revision), start, stop))
  }

  // Python slicing: a start past the stop yields nothing.
  function Slice(b: Bytes, start: nat, stop: int): Bytes
    requires stop <= |b|
  {
    if start <= stop then b[start..stop] else []
  }

  function FreshnessOf(i: Item, revision: Option<string>): Freshness {
    if revision.None? then UnknownFreshness
    else if revision == i.request.subjectRevision then CurrentRevision else StaleForExecution
  }

  // ---- The store itself -------------------------------------------------------------------

  class Store {
    var items: Items
    const ttl: Option<int>
    const maxItems: Option<int>
    const digests: Digests

    constructor (ttl: Option<int>, maxItems: Option<int>, digests: Digests)
      ensures items == map[] && this.ttl == ttl && this.maxItems == maxItems && this.digests == digests
    {
      items := map[];
      this.ttl := ttl;
      this.maxItems := maxItems;
      this.digests := digests;
    }

    method Ingest(q: Request, now: int, hex: string) returns (r: Result<Receipt, StoreError>)
      modifies this
      ensures (items, r) == Ingested(old(items), q, now, hex, maxItems, digests)
    {
      var refusal := Refused(q);
      if refusal.Some? { return Err(refusal.value); }
      var scopeDigest := digests.scope(q.scope);
      var existing := Keyed(items, scopeDigest, q.key);
      if existing != {} {
        var row := items[Least(existing)];
        if !RowValid(q.scope, row, digests) { return Err(IntegrityFailure); }
        if row.requestDigest != digests.request(q) { return Err(IdempotencyConflict); }
        return Ok(Receipt(row.id, row.contentDigest, digests.request(q), q.key, true));
      }
      if maxItems.Some? {
        var count := |InScope(items, scopeDigest)|;
        if count >= maxItems.value { return Err(QuotaExceeded); }
      }
      var id := ItemId(hex);
      if id in items { return Err(IdTaken); }
      var row := NewItem(q, now, id, digests);
      items := items[id := row];
      return Ok(Receipt(id, row.contentDigest, row.requestDigest, q.key, false));
    }

    method Search(scope: Scope, query: Bytes, limit: int, cursor: Option<string>, now: int)
      returns (r: Result<Page, StoreError>)
      ensures r == Searched(items, scope, query, limit, cursor, now, ttl, digests)
    {
      hide Rows, RowValid, Increasing;
      if query == [] { return Err(QueryRequired); }
      if !(1 <= limit <= 20) { return Err(LimitOutOfRange); }
      var rows := Rows(items, digests.scope(scope), query, limit, cursor, now, ttl);
      for n := 0 to |rows|
        invariant forall m | 0 <= m < n :: RowValid(scope, items[rows[m]], digests)
      {
        if !RowValid(scope, items[rows[n]], digests) { return Err(IntegrityFailure); }
      }
      var hits := Take(rows, limit);
      var more := |rows| > limit;
      return Ok(Page(hits, if more && hits != [] then Some(hits[|hits| - 1]) else None));
    }

    method ReadItem(scope: Scope, id: string, start: int, end: Option<int>, revision: Option<string>, now: int)
      returns (r: Result<Reading, StoreError>)
      ensures r == ReadOut(items, scope, id, start, end, revision, now, ttl, digests)
    {
      if start < 0 || (end.Some? && end.value < start) { return Err(BadRange); }
      if id !in items || items[id].scopeDigest != digests.scope(scope) { return Err(NotFound); }
      var row := items[id];
      if !RowValid(scope, row, digests) { return Err(IntegrityFailure); }
      if !Fresh(row, now, ttl) { return Err(ItemExpired); }
      var stop := if end.None? then |row.request.payload| else end.value;
      if stop - start > 65536 { return Err(ReadTooLarge); }
      if stop > |row.request.payload| { return Err(OutOfBounds); }
      return Ok(Reading(Slice(row.request.payload, start, stop), row.contentDigest, FreshnessOf(row, revision), start, stop));
    }
  }
}
