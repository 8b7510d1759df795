/** Cursor pagination, newest first (internal/store/store.go); a later row has a larger id. */
module Paging {
  import opened Prelude

  const DEFAULT_PAGE_LIMIT: int := 20
  const MAX_PAGE_LIMIT: int := 100

  datatype Row = Row(id: nat, body: Bytes)

  datatype Page = Page(items: seq<Row>, next: Option<nat>)

  /** A table in id order. Rows are only ever added at the end. */
  predicate InOrder(table: seq<Row>) { forall i, j :: 0 <= i < j < |table| ==> table[i].id < table[j].id }

  method Normalize(limit: int) returns (r: nat)
    ensures 1 <= limit <= 100 ==> r == limit
    ensures limit < 1 ==> r == 20
    ensures limit > 100 ==> r == 100
  {
    if limit < 1 {
      return DEFAULT_PAGE_LIMIT;
    } else if limit > MAX_PAGE_LIMIT {
      return MAX_PAGE_LIMIT;
    }
    return limit;
  }

  // ---------------------------------------------------------------- one page

  /** The rows a filter keeps, newest first. */
  function NewestFirst(table: seq<Row>, keep: Row -> bool): seq<Row> {
    if table == [] then []
    else
      var n := |table| - 1;
      (if keep(table[n]) then [table[n]] else []) + NewestFirst(table[..n], keep)
  }

  /** The rows older than the cursor; no cursor asks for all. */
  function Older(table: seq<Row>, cursor: Option<nat>): (r: seq<Row>)
    ensures r <= table
  {
    if cursor.None? || table == [] || table[|table| - 1].id < cursor.value then table
    else Older(table[..|table| - 1], cursor)
  }

  /** Exactly the rows below the cursor, or all of them. */
  lemma {:induction false} OlderIff(table: seq<Row>, cursor: Option<nat>, k: nat)
    requires InOrder(table) && k < |table|
    ensures k < |Older(table, cursor)| <==> cursor.None? || table[k].id < cursor.value
  {
    var n := |table| - 1;
    if cursor.Some? && table[n].id >= cursor.value && k < n {
      OlderIff(table[..n], cursor, k);
    }
  }

  lemma OneRowMore(table: seq<Row>, k: nat, keep: Row -> bool)
    requires 0 < k <= |table|
    ensures NewestFirst(table[..k], keep) ==
            (if keep(table[k - 1]) then [table[k - 1]] else []) + NewestFirst(table[..k - 1], keep)
  {
    assert table[..k][..k - 1] == table[..k - 1];
  }

  lemma OneRowNewer(table: seq<Row>, k: nat, cursor: Option<nat>)
    requires 0 < k <= |table|
    ensures Older(table[..k], cursor) ==
            if cursor.Some? && table[k - 1].id >= cursor.value then Older(table[..k - 1], cursor) else table[..k]
  {
    assert table[..k][..k - 1] == table[..k - 1];
  }

  /** The filter and the cursor, newest first, up to `limit` rows. */
  method Fetch(table: seq<Row>, keep: Row -> bool, cursor: Option<nat>, limit: nat) returns (rows: seq<Row>)
    ensures var all := NewestFirst(Older(table, cursor), keep);
            rows == all[..Min(limit, |all|)]
  {
    hide NewestFirst, Older;
    var k := |table|;
    assert table[..k] == table;
    while k > 0 && cursor.Some? && table[k - 1].id >= cursor.value
      invariant k <= |table| && Older(table[..k], cursor) == Older(table, cursor)
    {
      OneRowNewer(table, k, cursor);
      k := k - 1;
    }
    OldestEnough(table, k, cursor, keep);
    rows := [];
    ghost var all := NewestFirst(table[..k], keep);
    while k > 0 && |rows| < limit
      invariant k <= |table| && |rows| <= limit && rows + NewestFirst(table[..k], keep) == all
    {
      OneRowMore(table, k, keep);
      k := k - 1;
      if keep(table[k]) {
        rows := rows + [table[k]];
      }
    }
    if k == 0 {
      OldestEnough(table, 0, cursor, keep);
    }
  }

  lemma OldestEnough(table: seq<Row>, k: nat, cursor: Option<nat>, keep: Row -> bool)
    requires k <= |table| && (k == 0 || cursor.None? || table[k - 1].id < cursor.value)
    ensures Older(table[..k], cursor) == table[..k]
    ensures k == 0 ==> NewestFirst(table[..k], keep) == []
  {
  }

  /** The extra row fetched says there is another page; the cursor is the last row returned. */
  method Paginate(rows: seq<Row>, limit: nat) returns (page: Page)
    requires limit >= 1
    ensures page.items == rows[..Min(limit, |rows|)]
    ensures page.next == if |rows| <= limit then None else Some(page.items[limit - 1].id)
  {
    if |rows| <= limit {
      return Page(rows, None);
    }
    var items := rows[..limit];
    return Page(items, Some(items[|items| - 1].id));
  }

  /** A page is the first `limit` matching rows after the cursor, and a cursor only if there are more. */
  method List(table: seq<Row>, keep: Row -> bool, cursor: Option<nat>, limit: nat) returns (page: Page)
    requires limit >= 1
    ensures var left := NewestFirst(Older(table, cursor), keep);
            if |left| <= limit then page == Page(left, None)
            else page == Page(left[..limit], Some(left[limit - 1].id))
  {
    hide NewestFirst, Older;
    var rows := Fetch(table, keep, cursor, limit + 1);
    page := Paginate(rows, limit);
  }

  // ---------------------------------------------------------------- following the cursors

  lemma {:induction false} KeptRowsAreInTheTable(table: seq<Row>, keep: Row -> bool)
    ensures forall r :: r in NewestFirst(table, keep) <==> r in table && keep(r)
  {
    if table == [] {
    } else {
      var n := |table| - 1;
      KeptRowsAreInTheTable(table[..n], keep);
      assert table == table[..n] + [table[n]];
    }
  }

  predicate Decreasing(rows: seq<Row>) { forall i, j :: 0 <= i < j < |rows| ==> rows[i].id > rows[j].id }

  lemma DecreasingFrom(first: Row, rest: seq<Row>)
    requires Decreasing(rest) && forall r :: r in rest ==> r.id < first.id
    ensures Decreasing([first] + rest)
  {
    var all := [first] + rest;
    forall i, j | 0 <= i < j < |all| ensures all[i].id > all[j].id {
      assert all[j] == rest[j - 1] && rest[j - 1] in rest;
    }
  }

  /** Newest first: the ids strictly decrease, so no row comes twice. */
  lemma {:induction false} NewestFirstDecreases(table: seq<Row>, keep: Row -> bool)
    requires InOrder(table)
    ensures Decreasing(NewestFirst(table, keep))
  {
    if table == [] {
    } else {
      var n := |table| - 1;
      NewestFirstDecreases(table[..n], keep);
      KeptRowsAreInTheTable(table[..n], keep);
      DecreasingFrom(table[n], NewestFirst(table[..n], keep));
    }
  }

  lemma OlderThanAnEarlierRow(table: seq<Row>, id: nat)
    requires table != [] && id < table[|table| - 1].id
    ensures Older(table, Some(id)) == Older(table[..|table| - 1], Some(id))
  {
  }

  /** The rows after the k-th are those older than it. */
  lemma {:induction false} OlderThanTheLastReturned(table: seq<Row>, keep: Row -> bool, k: nat)
    requires InOrder(table) && 0 < k <= |NewestFirst(table, keep)|
    ensures var all := NewestFirst(table, keep);
            NewestFirst(Older(table, Some(all[k - 1].id)), keep) == all[k..]
  {
    hide NewestFirst, Older;
    SomethingKept(table, keep);
    var n := |table| - 1;
    var all, rest := NewestFirst(table, keep), NewestFirst(table[..n], keep);
    OneRowMore(table, n + 1, keep);
    assert table[..n + 1] == table;
    var skip := if keep(table[n]) then 1 else 0;
    if k > skip {
      KeptRowsAreInTheTable(table[..n], keep);
      assert all[k - 1] == rest[k - 1 - skip] && rest[k - 1 - skip] in table[..n];
      OlderThanTheLastReturned(table[..n], keep, k - skip);
      OlderThanAnEarlierRow(table, all[k - 1].id);
    } else {
      OlderThanTheNewest(table);
    }
  }

  lemma SomethingKept(table: seq<Row>, keep: Row -> bool)
    requires NewestFirst(table, keep) != []
    ensures table != []
  {
  }

  lemma OlderThanTheNewest(table: seq<Row>)
    requires InOrder(table) && table != []
    ensures Older(table, Some(table[|table| - 1].id)) == table[..|table| - 1]
  {
  }

  /** Two cursors in a row are the older one. */
  lemma {:induction false} OlderTwice(table: seq<Row>, a: Option<nat>, b: nat)
    requires a.None? || b <= a.value
    ensures Older(Older(table, a), Some(b)) == Older(table, Some(b))
  {
    if a.Some? && table != [] && table[|table| - 1].id >= a.value {
      OlderTwice(table[..|table| - 1], a, b);
    }
  }

  /** Rows added since are newer than every row a cursor can name. */
  lemma {:induction false} NewRowsAreNotOlder(table: seq<Row>, added: seq<Row>, cursor: nat)
    requires InOrder(table + added) && exists r :: r in table && cursor <= r.id
    ensures Older(table + added, Some(cursor)) == Older(table, Some(cursor))
  {
    if added == [] {
      assert table + added == table;
    } else {
      var n := |added| - 1;
      assert (table + added)[..|table| + n] == table + added[..n];
      var k :| 0 <= k < |table| && cursor <= table[k].id;
      assert (table + added)[k] == table[k];
      NewRowsAreNotOlder(table, added[..n], cursor);
    }
  }

  ghost predicate NotAfter(cursor: nat, table: seq<Row>) { exists r :: r in table && cursor <= r.id }

  lemma NothingOlderThanNoCursor(table: seq<Row>)
    ensures Older(table, None) == table
  {
  }

  /**
    Following the cursors from the first page to the last returns every matching row of the table as
    the first page found it, exactly once and newest first, whatever is inserted between pages.
  */
  method Walk(table0: seq<Row>, inserts: nat -> seq<Row>, keep: Row -> bool, limit: int)
    returns (items: seq<Row>, pages: nat)
    requires InOrder(table0)
    ensures items == NewestFirst(table0, keep)
    ensures pages >= 1
  {
    hide NewestFirst, Older, InOrder, NotAfter;
    NothingOlderThanNoCursor(table0);
    var size := Normalize(limit);
    var table := table0;
    var cursor: Option<nat> := None;
    items, pages := [], 0;
    ghost var all := NewestFirst(table0, keep);
    ghost var left := all;
    while true
      invariant InOrder(table) && table0 <= table && items + left == all
      invariant cursor.None? ==> table == table0
      invariant left == NewestFirst(Older(table, cursor), keep)
      invariant cursor.Some? ==> NotAfter(cursor.value, table0)
      decreases |left|
    {
      var page := List(table, keep, cursor, size);
      pages := pages + 1;
      if page.next.None? {
        items := items + page.items;
        return;
      }
      TakePage(items, left, size);
      items := items + page.items;
      NextPage(table0, table, cursor, keep, size);
      left := left[size..];
      cursor := page.next;
      var more := Newer(table, inserts(pages));
      NewRowsKeepThePage(table0, table, more, cursor.value);
      table := table + more;
    }
  }

  lemma TakePage<T>(items: seq<T>, left: seq<T>, size: nat)
    requires size <= |left|
    ensures items + left == (items + left[..size]) + left[size..]
  {
  }

  /** The rows that really are newer: the database assigns later ids to later rows. */
  method Newer(table: seq<Row>, candidates: seq<Row>) returns (more: seq<Row>)
    requires InOrder(table)
    ensures InOrder(table + more)
  {
    more := [];
    for k := 0 to |candidates|
      invariant InOrder(table + more)
    {
      var all := table + more;
      if all == [] || all[|all| - 1].id < candidates[k].id {
        assert table + (more + [candidates[k]]) == all + [candidates[k]];
        more := more + [candidates[k]];
      }
    }
  }

  lemma NextPage(table0: seq<Row>, table: seq<Row>, cursor: Option<nat>, keep: Row -> bool, size: nat)
    requires InOrder(table) && table0 <= table && (cursor.None? ==> table == table0)
    requires cursor.Some? ==> NotAfter(cursor.value, table0)
    requires var left := NewestFirst(Older(table, cursor), keep); 0 < size < |left|
    ensures var left := NewestFirst(Older(table, cursor), keep);
            var next := left[size - 1].id;
            && NewestFirst(Older(table, Some(next)), keep) == left[size..]
            && NotAfter(next, table0)
  {
    var older := Older(table, cursor);
    var left := NewestFirst(older, keep);
    var next := left[size - 1];
    OlderThanTheLastReturned(older, keep, size);
    KeptRowsAreInTheTable(older, keep);
    assert next in older;
    if cursor.Some? {
      OlderRowsAreOlder(table, cursor.value, next);
      OlderTwice(table, cursor, next.id);
    } else {
      assert next in table0;
    }
  }

  lemma {:induction false} OlderRowsAreOlder(table: seq<Row>, cursor: nat, r: Row)
    requires InOrder(table) && r in Older(table, Some(cursor))
    ensures r.id < cursor
  {
    var n := |table| - 1;
    if table[n].id >= cursor {
      OlderRowsAreOlder(table[..n], cursor, r);
    }
  }

  lemma NewRowsKeepThePage(table0: seq<Row>, table: seq<Row>, more: seq<Row>, cursor: nat)
    requires InOrder(table + more) && table0 <= table && NotAfter(cursor, table0)
    ensures Older(table + more, Some(cursor)) == Older(table, Some(cursor))
    ensures table0 <= table + more
  {
    var r :| r in table0 && cursor <= r.id;
    assert r in table;
    NewRowsAreNotOlder(table, more, cursor);
  }
}
