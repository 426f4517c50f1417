// What the context store makes of rows that were changed behind its back.
module ContextTampering {
  import opened Text
  import opened ContextStore
  import opened ContextTheorems

  // A row passes validation exactly when it is, column by column, what ingesting its request
  // at its time under its id stores.
  lemma ValidIffStored(i: Item, d: Digests)
    ensures RowValid(i.request.scope, i, d) <==> Utf8(i.request.payload) && i == NewItem(i.request, i.createdAt, i.id, d)
  {
    hide Utf8;
    assert i.request.(scope := i.request.scope) == i.request;
  }

  // The store with one row replaced under its kept record digest.
  ghost predicate Tampered(items: Items, id: string, j: Item, d: Digests) {
    id in items && RowValid(items[id].request.scope, items[id], d) && j != items[id] && j.recordDigest == items[id].recordDigest
  }

  lemma TamperedIsInvalid(items: Items, id: string, j: Item, scope: Scope, d: Digests)
    requires d.Injective() && Tampered(items, id, j, d)
    ensures !RowValid(scope, j, d)
  {
    if RowValid(scope, j, d) { RecordDigestNamesRow(scope, j, items[id].request.scope, items[id], d); }
  }

  // Of such a row nothing is ever read;
  lemma TamperedIsNotRead(items: Items, id: string, j: Item, scope: Scope, start: int, end: Option<int>,
                          revision: Option<string>, now: int, ttl: Option<int>, d: Digests)
    requires d.Injective() && Tampered(items, id, j, d)
    ensures var r := ReadOut(items[id := j], scope, id, start, end, revision, now, ttl, d);
      if start < 0 || (end != None && end.value < start) then r == Err(BadRange)
      else if j.scopeDigest != d.scope(scope) then r == Err(NotFound)
      else r == Err(IntegrityFailure)
  {
    hide RowValid;
    TamperedIsInvalid(items, id, j, scope, d);
  }

  // no page shows it;
  lemma TamperedIsNotFound(items: Items, id: string, j: Item, scope: Scope, query: Bytes, limit: int, cursor: Option<string>,
                           now: int, ttl: Option<int>, d: Digests)
    requires d.Injective() && Tampered(items, id, j, d)
    ensures var r := Searched(items[id := j], scope, query, limit, cursor, now, ttl, d);
      r.Ok? ==> id !in r.value.hits
  {
    hide RowValid, Found;
    TamperedIsInvalid(items, id, j, scope, d);
    if 1 <= limit <= 20 {
      var rows := Rows(items[id := j], d.scope(scope), query, limit, cursor, now, ttl);
      if id in Take(rows, limit) {
        var m :| 0 <= m < |Take(rows, limit)| && Take(rows, limit)[m] == id;
        assert rows[m] == id;
      }
    }
  }

  // and no request is answered with it.
  lemma TamperedIsNotReplayed(items: Items, id: string, j: Item, q: Request, now: int, hex: string, maxItems: Option<int>, d: Digests)
    requires d.Injective() && Tampered(items, id, j, d) && Refused(q).None?
    requires Keyed(items[id := j], d.scope(q.scope), q.key) == {id}
    ensures Ingested(items[id := j], q, now, hex, maxItems, d) == (items[id := j], Err(IntegrityFailure))
  {
    hide RowValid, Refused;
    TamperedIsInvalid(items, id, j, q.scope, d);
    assert Least({id}) == id;
  }
}
