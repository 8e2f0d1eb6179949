/**
 Cursor-paged listings of executions, lanes and flows.  Ids are ordered keys; the table may
 change between pages.
 */
module Listing {
  import opened Common

  type Id = nat

  datatype Page = Page(ids: seq<Id>, next: Option<Id>)

  predicate Beyond(cursor: Option<Id>, id: Id) { cursor.Some? ==> id > cursor.value }

  function Above(table: set<Id>, cursor: Option<Id>): set<Id> { set id | id in table && Beyond(cursor, id) }

  ghost predicate Increasing(ids: seq<Id>) { forall i, j :: 0 <= i < j < |ids| ==> ids[i] < ids[j] }

  lemma {:induction false} LeastExists(ids: set<Id>, x: Id)
    requires x in ids
    ensures exists m :: m in ids && forall id :: id in ids ==> m <= id
    decreases x
  {
    if y :| y in ids && y < x { LeastExists(ids, y); }
  }

  /** The first `n` ids above the cursor, in order. */
  ghost predicate IsFetch(table: set<Id>, cursor: Option<Id>, n: nat, rows: seq<Id>) {
    && Increasing(rows) && |rows| <= n
    && (forall i :: 0 <= i < |rows| ==> rows[i] in Above(table, cursor))
    && (forall id :: id in Above(table, cursor) && id !in rows ==>
          |rows| == n && forall i :: 0 <= i < |rows| ==> rows[i] < id)
  }

  method Least(ids: set<Id>) returns (m: Id)
    requires ids != {}
    ensures m in ids && forall id :: id in ids ==> m <= id
  {
    var some :| some in ids;
    LeastExists(ids, some);
    m :| m in ids && forall id :: id in ids ==> m <= id;
  }

  /** The query itself: picks the least remaining id until the limit is reached. */
  method Fetch(table: set<Id>, cursor: Option<Id>, n: nat) returns (rows: seq<Id>)
    ensures IsFetch(table, cursor, n, rows)
  {
    rows := [];
    var rest := Above(table, cursor);
    while |rows| < n && rest != {}
      invariant Increasing(rows) && |rows| <= n && rest <= Above(table, cursor)
      invariant forall i :: 0 <= i < |rows| ==> rows[i] in Above(table, cursor) && forall id :: id in rest ==> rows[i] < id
      invariant forall id :: id in Above(table, cursor) ==> id in rows || id in rest
      decreases rest
    {
      var m := Least(rest);
      rows := rows + [m];
      rest := rest - {m};
    }
  }

  /**
   What a page promises: the ids right after the cursor, in order, at most `limit` of them.
   Without a next cursor nothing remains; with one it is the last id and more remain.
   */
  ghost predicate IsPage(table: set<Id>, cursor: Option<Id>, limit: nat, page: Page) {
    && Increasing(page.ids) && |page.ids| <= limit
    && (forall i :: 0 <= i < |page.ids| ==> page.ids[i] in Above(table, cursor))
    && (page.next.None? ==> forall id :: id in Above(table, cursor) ==> id in page.ids)
    && (page.next.Some? ==>
          && |page.ids| == limit > 0 && page.next.value == page.ids[limit - 1]
          && (forall id :: id in Above(table, cursor) && id <= page.next.value ==> id in page.ids)
          && Above(table, page.next) != {})
  }

  /** The page cut from one row more than the limit. */
  function Cut(rows: seq<Id>, limit: nat): Page
    requires limit > 0
  {
    if |rows| > limit then Page(rows[..limit], Some(rows[limit - 1])) else Page(rows, None)
  }

  lemma CutIsPage(table: set<Id>, cursor: Option<Id>, limit: nat, rows: seq<Id>)
    requires limit > 0 && IsFetch(table, cursor, limit + 1, rows)
    ensures IsPage(table, cursor, limit, Cut(rows, limit))
  {
    if |rows| > limit {
      var ids, last := rows[..limit], rows[limit - 1];
      assert rows[limit] in Above(table, Some(last));
      forall id | id in Above(table, cursor) && id <= last ensures id in ids {
        assert id in rows;
        var i :| 0 <= i < |rows| && rows[i] == id;
        assert i < limit && ids[i] == id;
      }
    }
  }

  /** Pushes every fetched row, then truncates; the limit is capped at 1000. */
  method ListExecutions(table: set<Id>, cursor: Option<Id>, limit: nat) returns (page: Page)
    ensures limit == 0 ==> page == Page([], None)
    ensures limit > 0 ==> IsPage(table, cursor, if limit < 1000 then limit else 1000, page)
  {
    if limit == 0 { return Page([], None); }
    var effective := if limit < 1000 then limit else 1000;
    var rows := Fetch(table, cursor, effective + 1);
    var ids := [];
    for i := 0 to |rows|
      invariant ids == rows[..i]
    {
      ids := ids + [rows[i]];
    }
    CutIsPage(table, cursor, effective, rows);
    assert ids == rows;
    var hasMore := |ids| > effective;
    if hasMore { ids := ids[..effective]; }
    page := Page(ids, if hasMore then Some(ids[|ids| - 1]) else None);
    assert page == Cut(rows, effective);
  }

  /** Decides how many rows to take first, then copies that many. */
  method ListLanes(table: set<Id>, cursor: Option<Id>, limit: nat) returns (page: Page)
    ensures limit == 0 ==> page == Page([], None)
    ensures limit > 0 ==> IsPage(table, cursor, limit, page)
  {
    if limit == 0 { return Page([], None); }
    var rows := Fetch(table, cursor, limit + 1);
    var hasMore := |rows| > limit;
    var take := if hasMore then limit else |rows|;
    var lanes := [];
    for i := 0 to take
      invariant lanes == rows[..i]
    {
      lanes := lanes + [rows[i]];
    }
    page := Page(lanes, if hasMore then Some(lanes[|lanes| - 1]) else None);
    CutIsPage(table, cursor, limit, rows);
    assert page == Cut(rows, limit);
  }

  /** Copies rows until the extra one shows that more remain. */
  method ListFlows(table: set<Id>, cursor: Option<Id>, limit: nat) returns (page: Page)
    ensures limit == 0 ==> page == Page([], None)
    ensures limit > 0 ==> IsPage(table, cursor, limit, page)
  {
    if limit == 0 { return Page([], None); }
    var rows := Fetch(table, cursor, limit + 1);
    var flows, next := [], None;
    var idx := 0;
    while idx < |rows|
      invariant idx <= |rows| && idx <= limit && flows == rows[..idx] && next == None
    {
      if idx >= limit {
        if |flows| > 0 { next := Some(flows[|flows| - 1]); }
        break;
      }
      flows := flows + [rows[idx]];
      idx := idx + 1;
    }
    page := Page(flows, next);
    CutIsPage(table, cursor, limit, rows);
    assert page == Cut(rows, limit);
  }

  // ---------------------------------------------------------------------
  // Walks

  /** One call of a walk: the table it met, the limit it asked for and the page it got. */
  datatype Call = Call(table: set<Id>, limit: nat, page: Page)

  /** A completed walk from a cursor: each call continues at the last page's cursor, until there is none. */
  ghost predicate IsWalk(cursor: Option<Id>, calls: seq<Call>)
    decreases |calls|
  {
    && calls != []
    && calls[0].limit > 0 && IsPage(calls[0].table, cursor, calls[0].limit, calls[0].page)
    && (calls[0].page.next.None? <==> |calls| == 1)
    && (|calls| > 1 ==> IsWalk(calls[0].page.next, calls[1..]))
  }

  function Listed(calls: seq<Call>): seq<Id> {
    if calls == [] then [] else calls[0].page.ids + Listed(calls[1..])
  }

  /** The listing is strictly increasing, so no id appears twice, and stays beyond the cursor. */
  lemma {:induction false} WalkIncreases(cursor: Option<Id>, calls: seq<Call>)
    requires IsWalk(cursor, calls)
    ensures Increasing(Listed(calls))
    ensures forall id :: id in Listed(calls) ==> Beyond(cursor, id)
    decreases |calls|
  {
    var page, rest := calls[0].page, Listed(calls[1..]);
    if |calls| > 1 {
      WalkIncreases(page.next, calls[1..]);
      var all := page.ids + rest;
      forall i, j | 0 <= i < j < |all| ensures all[i] < all[j] {
        if i < |page.ids| <= j { assert all[j] in rest && all[i] <= page.next.value; }
      }
    }
  }

  /** Every id that is in the table at every call of the walk is listed. */
  lemma {:induction false} WalkComplete(cursor: Option<Id>, calls: seq<Call>, id: Id)
    requires IsWalk(cursor, calls) && Beyond(cursor, id)
    requires forall i :: 0 <= i < |calls| ==> id in calls[i].table
    ensures id in Listed(calls)
    decreases |calls|
  {
    assert id in Above(calls[0].table, cursor);
    if |calls| > 1 && id > calls[0].page.next.value { WalkComplete(calls[0].page.next, calls[1..], id); }
  }

  /** Every listed id was in the table of one of the calls. */
  lemma {:induction false} WalkSound(cursor: Option<Id>, calls: seq<Call>, id: Id)
    requires IsWalk(cursor, calls) && id in Listed(calls)
    ensures exists i :: 0 <= i < |calls| && id in calls[i].page.ids && id in calls[i].table
    decreases |calls|
  {
    if id in calls[0].page.ids {
      assert id in calls[0].table;
    } else {
      WalkSound(calls[0].page.next, calls[1..], id);
      var i :| 0 <= i < |calls[1..]| && id in calls[1..][i].page.ids && id in calls[1..][i].table;
      assert calls[i + 1] == calls[1..][i];
    }
  }

  ghost function Times(ids: seq<Id>, id: Id): nat { multiset(ids)[id] }

  lemma {:induction false} IncreasingOnce(ids: seq<Id>, id: Id)
    requires Increasing(ids)
    ensures Times(ids, id) == if id in ids then 1 else 0
    decreases |ids|
  {
    if ids != [] {
      var init, last := ids[..|ids| - 1], ids[|ids| - 1];
      assert ids == init + [last];
      IncreasingOnce(init, id);
    }
  }

  /** A completed walk from the start lists each id that is present throughout exactly once. */
  lemma WalkListsOnce(calls: seq<Call>, id: Id)
    requires IsWalk(None, calls)
    ensures Times(Listed(calls), id) <= 1
    ensures (forall i :: 0 <= i < |calls| ==> id in calls[i].table) ==> Times(Listed(calls), id) == 1
    ensures (forall i :: 0 <= i < |calls| ==> id !in calls[i].table) ==> Times(Listed(calls), id) == 0
  {
    WalkIncreases(None, calls);
    IncreasingOnce(Listed(calls), id);
    if forall i :: 0 <= i < |calls| ==> id in calls[i].table { WalkComplete(None, calls, id); }
    if id in Listed(calls) { WalkSound(None, calls, id); }
  }
}
