// Paged scans of the context store, with ingests going on between the pages.
module ContextScans {
  import opened Text
  import opened ContextStore
  import opened ContextTheorems

  // What happens before a page is asked for, when, and how many hits are asked for.
  datatype Round = Round(inserts: seq<Insert>, now: int, limit: int)

  datatype Query = Query(scope: Scope, text: Bytes, ttl: Option<int>, maxItems: Option<int>, digests: Digests)

  // The store, the ids returned so far, and where the scan stands.
  datatype Scan = Scan(items: Items, seen: seq<string>, cursor: Option<string>, done: bool)

  function Begin(items: Items): Scan { Scan(items, [], None, false) }

  function PageOf(s: Scan, r: Round, q: Query): Result<Page, StoreError> {
    Searched(Run(s.items, r.inserts, q.maxItems, q.digests), q.scope, q.text, r.limit, s.cursor, r.now, q.ttl, q.digests)
  }

  // One round: others ingest, then, unless the scan is over, the next page is read.
  function Advance(s: Scan, r: Round, q: Query): Scan {
    var items := Run(s.items, r.inserts, q.maxItems, q.digests);
    if s.done then s.(items := items)
    else match PageOf(s, r, q)
      case Err(_) => s.(items := items)
      case Ok(page) => Scan(items, s.seen + page.hits, page.next, page.next.None?)
  }

  function Scanned(s: Scan, rounds: seq<Round>, q: Query): Scan {
    if rounds == [] then s else Advance(Scanned(s, rounds[..|rounds| - 1], q), rounds[|rounds| - 1], q)
  }

  predicate Proper(rounds: seq<Round>, q: Query) {
    q.text != [] && forall i | 0 <= i < |rounds| :: 1 <= rounds[i].limit <= 20
  }

  predicate Wanted(items: Items, id: string, q: Query) {
    id in items && Matches(items[id], q.digests.scope(q.scope), q.text)
  }

  // What is still ahead of the scan.
  ghost predicate Pending(s: Scan, id: string) { !s.done && After(s.cursor, id) }

  // The cursor of an unfinished scan is the last id it returned.
  ghost predicate Standing(s: Scan) {
    s.cursor == if s.done || s.seen == [] then None else Some(s.seen[|s.seen| - 1])
  }

  ghost predicate ScanOk(s: Scan, q: Query) {
    && Sound(s.items, q.digests) && Increasing(s.seen) && Standing(s)
    && (forall id | id in s.seen :: Wanted(s.items, id, q))
  }

  // ---- One page ----------------------------------------------------------------------------

  lemma FoundRowsValid(items: Items, id: string, q: Query, cursor: Option<string>, now: int)
    requires Sound(items, q.digests) && q.digests.Injective()
    requires id in Found(items, q.digests.scope(q.scope), q.text, cursor, now, q.ttl)
    ensures RowValid(q.scope, items[id], q.digests)
  {
    assert RowValid(items[id].request.scope, items[id], q.digests);
    assert items[id].request.scope == q.scope;
  }

  predicate LastOf(page: Page)
    requires page.next.Some?
  {
    page.hits != [] && page.next.value == page.hits[|page.hits| - 1]
  }

  ghost predicate PageOk(page: Page, found: set<string>) {
    && Increasing(page.hits) && (forall id | id in page.hits :: id in found)
    && (page.next.None? ==> forall id | id in found :: id in page.hits)
    && (page.next.Some? ==> LastOf(page) && forall id | id in found :: id in page.hits || Less(page.next.value, id))
  }

  lemma IncreasingPrefix(ids: seq<string>, front: seq<string>)
    requires Increasing(ids) && front <= ids
    ensures Increasing(front)
    ensures forall id | id in ids :: id in front || (front != [] ==> Less(front[|front| - 1], id))
  {
    hide Less;
    forall id | id in ids && id !in front && front != [] ensures Less(front[|front| - 1], id) {
      var i :| 0 <= i < |ids| && ids[i] == id;
      assert forall j | 0 <= j < |front| :: ids[j] == front[j] && front[j] in front;
    }
  }

  // The first `limit` rows, cut from the `limit + 1` that were fetched.
  lemma CutOf(all: seq<string>, limit: nat)
    requires limit >= 1
    ensures var page := Cut(Take(all, limit + 1), limit);
      page.hits <= all && (if page.next.None? then page.hits == all else LastOf(page))
  {
  }

  lemma PrefixMembers(front: seq<string>, all: seq<string>)
    requires front <= all
    ensures forall id | id in front :: id in all
  {
  }

  lemma CutPage(found: set<string>, limit: nat)
    requires limit >= 1
    ensures PageOk(Cut(Take(Sorted(found), limit + 1), limit), found)
  {
    hide Less, Increasing, Cut, Take;
    var all := Sorted(found);
    var page := Cut(Take(all, limit + 1), limit);
    CutOf(all, limit);
    IncreasingPrefix(all, page.hits);
    PrefixMembers(page.hits, all);
  }

  lemma SearchPage(items: Items, q: Query, limit: int, cursor: Option<string>, now: int)
    requires Sound(items, q.digests) && q.digests.Injective() && q.text != [] && 1 <= limit <= 20
    ensures var r := Searched(items, q.scope, q.text, limit, cursor, now, q.ttl, q.digests);
      r.Ok? && PageOk(r.value, Found(items, q.digests.scope(q.scope), q.text, cursor, now, q.ttl))
  {
    hide RowValid, Sound, PageOk, Found, Cut, Increasing;
    var found := Found(items, q.digests.scope(q.scope), q.text, cursor, now, q.ttl);
    var rows := Rows(items, q.digests.scope(q.scope), q.text, limit, cursor, now, q.ttl);
    CutPage(found, limit);
    forall m | 0 <= m < |rows| ensures RowValid(q.scope, items[rows[m]], q.digests) {
      assert rows[m] == Sorted(found)[m] && Sorted(found)[m] in Sorted(found);
      FoundRowsValid(items, rows[m], q, cursor, now);
    }
  }

  lemma FoundMeans(items: Items, q: Query, cursor: Option<string>, now: int, id: string)
    ensures id in Found(items, q.digests.scope(q.scope), q.text, cursor, now, q.ttl)
      <==> Wanted(items, id, q) && Fresh(items[id], now, q.ttl) && After(cursor, id)
  {
    hide Matches;
  }

  // ---- One round -----------------------------------------------------------------------------

  lemma IncreasingJoin(a: seq<string>, b: seq<string>)
    requires Increasing(a) && Increasing(b) && (a != [] ==> forall id | id in b :: Less(a[|a| - 1], id))
    ensures Increasing(a + b)
  {
    hide Less;
    var c := a + b;
    forall i, j | 0 <= i < j < |c| ensures Less(c[i], c[j]) {
      if i < |a| <= j {
        assert c[j] in b;
        if i < |a| - 1 { LessTransitive(a[i], a[|a| - 1], c[j]); }
      }
    }
  }

  // The id is already returned, or the scan has yet to come to it.
  ghost predicate Kept(s: Scan, id: string) { id in s.seen || Pending(s, id) }

  lemma {:induction false} AdvanceKeeps(s: Scan, r: Round, q: Query)
    requires ScanOk(s, q) && q.digests.Injective() && q.text != [] && 1 <= r.limit <= 20
    ensures var t := Advance(s, r, q);
      ScanOk(t, q) && Extends(s.items, t.items) && t.items == Run(s.items, r.inserts, q.maxItems, q.digests)
      && s.seen <= t.seen
  {
    hide Sound, Run, Less, Matches, Searched, Increasing, PageOk, Found;
    var items := Run(s.items, r.inserts, q.maxItems, q.digests);
    RunKeeps(s.items, r.inserts, q.maxItems, q.digests);
    assert forall id | id in s.seen :: Wanted(items, id, q);
    if !s.done {
      SearchPage(items, q, r.limit, s.cursor, r.now);
      var page := PageOf(s, r, q).value;
      PageJoins(s, items, page, r, q);
    }
  }

  lemma PageJoins(s: Scan, items: Items, page: Page, r: Round, q: Query)
    requires ScanOk(s, q) && !s.done && Sound(items, q.digests)
    requires PageOk(page, Found(items, q.digests.scope(q.scope), q.text, s.cursor, r.now, q.ttl))
    ensures Increasing(s.seen + page.hits) && (forall id | id in page.hits :: Wanted(items, id, q))
    ensures page.next.Some? ==> page.hits != [] && page.next == Some((s.seen + page.hits)[|s.seen + page.hits| - 1])
  {
    hide Less, Matches, Found;
    forall id | id in page.hits ensures Wanted(items, id, q) && After(s.cursor, id) { FoundMeans(items, q, s.cursor, r.now, id); }
    if s.seen != [] { NamedCursor(s, q); }
    IncreasingJoin(s.seen, page.hits);
  }

  lemma NamedCursor(s: Scan, q: Query)
    requires ScanOk(s, q) && !s.done && s.seen != []
    ensures s.cursor.Some? && s.cursor.value != "" && s.cursor.value == s.seen[|s.seen| - 1]
  {
    hide Matches, RowValid;
    assert s.seen[|s.seen| - 1] in s.seen;
  }

  // No wanted item that is fresh when the page is read is skipped.
  lemma AdvanceSkipsNothing(s: Scan, r: Round, q: Query, id: string)
    requires ScanOk(s, q) && q.digests.Injective() && q.text != [] && 1 <= r.limit <= 20
    requires Wanted(s.items, id, q) && Fresh(s.items[id], r.now, q.ttl) && Kept(s, id)
    ensures Kept(Advance(s, r, q), id) && Wanted(Advance(s, r, q).items, id, q)
    ensures Advance(s, r, q).items[id] == s.items[id]
  {
    hide Sound, Run, Less, Matches, Searched, Increasing, Found;
    var items := Run(s.items, r.inserts, q.maxItems, q.digests);
    RunKeeps(s.items, r.inserts, q.maxItems, q.digests);
    if !s.done {
      SearchPage(items, q, r.limit, s.cursor, r.now);
      FoundMeans(items, q, s.cursor, r.now, id);
    }
  }

  // ---- Whole scans -------------------------------------------------------------------------------

  lemma {:induction false} ScannedOk(s: Scan, rounds: seq<Round>, q: Query)
    requires ScanOk(s, q) && q.digests.Injective() && Proper(rounds, q)
    ensures ScanOk(Scanned(s, rounds, q), q)
  {
    hide ScanOk, Advance;
    if rounds != [] {
      ScannedOk(s, rounds[..|rounds| - 1], q);
      AdvanceKeeps(Scanned(s, rounds[..|rounds| - 1], q), rounds[|rounds| - 1], q);
    }
  }

  predicate FreshThroughout(i: Item, rounds: seq<Round>, ttl: Option<int>) {
    forall n | 0 <= n < |rounds| :: Fresh(i, rounds[n].now, ttl)
  }

  lemma {:induction false} ScannedSkipsNothing(s: Scan, rounds: seq<Round>, q: Query, id: string)
    requires ScanOk(s, q) && q.digests.Injective() && Proper(rounds, q)
    requires Wanted(s.items, id, q) && FreshThroughout(s.items[id], rounds, q.ttl) && Kept(s, id)
    ensures var t := Scanned(s, rounds, q); Kept(t, id) && Wanted(t.items, id, q) && t.items[id] == s.items[id]
  {
    hide ScanOk, Advance, Kept, Matches, Fresh;
    if rounds != [] {
      var front := rounds[..|rounds| - 1];
      assert FreshThroughout(s.items[id], front, q.ttl);
      ScannedSkipsNothing(s, front, q, id);
      ScannedOk(s, front, q);
      AdvanceSkipsNothing(Scanned(s, front, q), rounds[|rounds| - 1], q, id);
    }
  }

  lemma BeginOk(past: seq<Insert>, q: Query)
    ensures ScanOk(Begin(Run(map[], past, q.maxItems, q.digests)), q)
  {
    hide Sound;
    RunKeeps0(past, q.maxItems, q.digests);
  }

  // Following the cursors from the start, whatever is ingested meanwhile: ids come back in
  // strictly increasing order, hence no id twice, and only items that match; and once the
  // scan is over it has returned every matching item that was there from the start and
  // fresh at every page.
  lemma ScanIsExact(past: seq<Insert>, rounds: seq<Round>, q: Query, id: string)
    requires q.digests.Injective() && Proper(rounds, q)
    ensures var start := Run(map[], past, q.maxItems, q.digests);
      var s := Scanned(Begin(start), rounds, q);
      && Increasing(s.seen) && (id in s.seen ==> Wanted(s.items, id, q))
      && (s.done && Wanted(start, id, q) && FreshThroughout(start[id], rounds, q.ttl) ==> id in s.seen)
  {
    hide Sound, Run, Increasing, Matches, Fresh, Scanned, FreshThroughout;
    var start := Run(map[], past, q.maxItems, q.digests);
    BeginOk(past, q);
    ScannedOk(Begin(start), rounds, q);
    if Wanted(start, id, q) && FreshThroughout(start[id], rounds, q.ttl) { ScannedSkipsNothing(Begin(start), rounds, q, id); }
  }

  // ---- The scan ends -------------------------------------------------------------------------------

  function Ahead(s: Scan): set<string> { set id | id in s.items && After(s.cursor, id) }

  lemma AdvanceShrinks(s: Scan, r: Round, q: Query)
    requires ScanOk(s, q) && q.digests.Injective() && q.text != [] && 1 <= r.limit <= 20 && r.inserts == [] && !s.done
    ensures var t := Advance(s, r, q); t.done || |Ahead(t)| < |Ahead(s)|
  {
    hide Sound, Less, Matches, Searched, Increasing, Found;
    SearchPage(s.items, q, r.limit, s.cursor, r.now);
    var t := Advance(s, r, q);
    assert t.items == s.items;
    if !t.done {
      var page := PageOf(s, r, q).value;
      var last := page.next.value;
      assert last in page.hits;
      FoundMeans(s.items, q, s.cursor, r.now, last);
      CursorMoves(s, t, q, last);
    }
  }

  lemma CursorMoves(s: Scan, t: Scan, q: Query, last: string)
    requires ScanOk(s, q) && !s.done && t.items == s.items && t.cursor == Some(last) && last in s.items && After(s.cursor, last)
    ensures |Ahead(t)| < |Ahead(s)|
  {
    hide Less, Matches, RowValid, Increasing;
    assert last != "";
    forall id | id in Ahead(t) ensures id in Ahead(s) {
      if s.cursor.Some? && s.cursor.value != "" { LessTransitive(s.cursor.value, last, id); }
    }
    LessTotal(last, last);
    assert last in Ahead(s) && last !in Ahead(t);
    Smaller(Ahead(t), Ahead(s), last);
  }

  lemma Smaller(a: set<string>, b: set<string>, x: string)
    requires a <= b && x in b && x !in a
    ensures |a| < |b|
  {
    assert a <= b - {x};
    SubsetSize(a, b - {x});
  }

  predicate Quiet(rounds: seq<Round>) { forall i | 0 <= i < |rounds| :: rounds[i].inserts == [] }

  lemma {:induction false} QuietScanShrinks(s: Scan, rounds: seq<Round>, q: Query)
    requires ScanOk(s, q) && q.digests.Injective() && Proper(rounds, q) && Quiet(rounds)
    ensures var t := Scanned(s, rounds, q); t.done || |Ahead(t)| + |rounds| <= |Ahead(s)|
  {
    hide ScanOk, Advance, Ahead;
    if rounds != [] {
      var front := rounds[..|rounds| - 1];
      QuietScanShrinks(s, front, q);
      ScannedOk(s, front, q);
      var t := Scanned(s, front, q);
      if t.done { DoneStays(t, rounds[|rounds| - 1], q); } else { AdvanceShrinks(t, rounds[|rounds| - 1], q); }
    }
  }

  lemma DoneStays(s: Scan, r: Round, q: Query)
    requires s.done
    ensures Advance(s, r, q).done && Advance(s, r, q).seen == s.seen
  {
    hide Run;
  }

  // Once ingests stop, the scan is over after at most one page more than there are items.
  lemma ScanEnds(past: seq<Insert>, busy: seq<Round>, quiet: seq<Round>, q: Query)
    requires q.digests.Injective() && Proper(busy, q) && Proper(quiet, q) && Quiet(quiet)
    requires |quiet| > |Scanned(Begin(Run(map[], past, q.maxItems, q.digests)), busy, q).items|
    ensures Scanned(Scanned(Begin(Run(map[], past, q.maxItems, q.digests)), busy, q), quiet, q).done
  {
    hide ScanOk, Run, Scanned, After;
    BeginOk(past, q);
    var s := Scanned(Begin(Run(map[], past, q.maxItems, q.digests)), busy, q);
    ScannedOk(Begin(Run(map[], past, q.maxItems, q.digests)), busy, q);
    QuietScanShrinks(s, quiet, q);
    SubsetSize(Ahead(s), s.items.Keys);
  }
}
