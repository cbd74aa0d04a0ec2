/** Keyset paging through one session's messages, newest page first, each page in chronological order. */
module HistoryPages {
  import opened Options

  /** A stored message; times are never zero and identifiers start at one. */
  datatype Row = Row(created: int, id: nat, content: string)

  datatype Cursor = Cursor(created: int, id: nat)

  datatype Page = Page(rows: seq<Row>, hasMore: bool, next: Option<Cursor>)

  const DEFAULT_PAGE := 50
  const MAX_PAGE := 100

  function NormalizedLimit(limit: int): (n: nat)
    ensures 1 <= n <= 100 && (1 <= limit <= 100 ==> n == limit)
    ensures (limit < 1 ==> n == 50) && (limit > 100 ==> n == 100)
  {
    if limit < 1 then DEFAULT_PAGE else if limit > MAX_PAGE then MAX_PAGE else limit
  }

  function CursorOf(row: Row): Cursor {
    Cursor(row.created, row.id)
  }

  /** Strict (created, id) order. */
  predicate Before(a: Cursor, b: Cursor) {
    a.created < b.created || (a.created == b.created && a.id < b.id)
  }

  /** The session's messages in full order. */
  ghost predicate Ordered(table: seq<Row>) {
    forall i, j :: 0 <= i < j < |table| ==> Before(CursorOf(table[i]), CursorOf(table[j]))
  }

  /** The query's filter; no cursor selects everything. */
  function Below(table: seq<Row>, cursor: Option<Cursor>): seq<Row> {
    if table == [] then []
    else
      var last := table[|table| - 1];
      Below(table[..|table| - 1], cursor) + if cursor.None? || Before(CursorOf(last), cursor.value) then [last] else []
  }

  function Reversed(rows: seq<Row>): (r: seq<Row>)
    ensures |r| == |rows| && forall i :: 0 <= i < |rows| ==> r[i] == rows[|rows| - 1 - i]
  {
    if rows == [] then [] else [rows[|rows| - 1]] + Reversed(rows[..|rows| - 1])
  }

  function Take(rows: seq<Row>, n: nat): seq<Row> {
    if n < |rows| then rows[..n] else rows
  }

  /** What the database returns: newest first, one row more than asked for. */
  function NewestFirst(table: seq<Row>, cursor: Option<Cursor>, limit: nat): seq<Row> {
    Take(Reversed(Below(table, cursor)), limit + 1)
  }

  /** The last `limit` rows below the cursor. */
  function LastRows(rows: seq<Row>, limit: nat): seq<Row> {
    if |rows| <= limit then rows else rows[|rows| - limit..]
  }

  /** Swaps the first `n` cells end for end. */
  method ReversePrefix(a: array<Row>, n: nat)
    requires n <= a.Length
    modifies a
    ensures forall i :: 0 <= i < n ==> a[i] == old(a[n - 1 - i])
    ensures forall i :: n <= i < a.Length ==> a[i] == old(a[i])
  {
    var left, right := 0, n - 1;
    while left < right
      invariant 0 <= left && right == n - 1 - left && left <= right + 2
      invariant forall i :: 0 <= i < left ==> a[i] == old(a[n - 1 - i]) && a[n - 1 - i] == old(a[i])
      invariant forall i :: left <= i <= right ==> a[i] == old(a[i])
      invariant forall i :: n <= i < a.Length ==> a[i] == old(a[i])
    {
      a[left], a[right] := a[right], a[left];
      left, right := left + 1, right - 1;
    }
  }

  /** Drops the extra row and restores chronological order in place. `a` is the answer of the query. */
  method LoadPage(a: array<Row>, ghost table: seq<Row>, ghost cursor: Option<Cursor>, limit: nat)
    returns (rows: seq<Row>, hasMore: bool)
    requires limit >= 1 && a[..] == NewestFirst(table, cursor, limit)
    modifies a
    ensures rows == LastRows(Below(table, cursor), limit)
    ensures hasMore <==> |Below(table, cursor)| > limit
  {
    hasMore := a.Length > limit;
    var n := if hasMore then limit else a.Length;
    ghost var below := Below(table, cursor);
    ghost var before := a[..];
    ReversePrefix(a, n);
    rows := a[..n];
    assert forall i :: 0 <= i < n ==> before[i] == below[|below| - 1 - i];
    assert forall i :: 0 <= i < n ==> rows[i] == before[n - 1 - i];
    assert rows == LastRows(below, limit);
  }

  function PageOf(table: seq<Row>, cursor: Option<Cursor>, limit: int): Page {
    var below := Below(table, cursor);
    var rows := LastRows(below, NormalizedLimit(limit));
    var hasMore := |below| > NormalizedLimit(limit);
    Page(rows, hasMore, if hasMore && |rows| > 0 then Some(CursorOf(rows[0])) else None)
  }

  // ----- following the cursor -----

  lemma {:induction false} BelowEverything(table: seq<Row>)
    ensures Below(table, None) == table
  {
    if table != [] {
      BelowEverything(table[..|table| - 1]);
      BelowLast(table, None);
      assert table == table[..|table| - 1] + [table[|table| - 1]];
    }
  }

  lemma BelowLast(table: seq<Row>, cursor: Option<Cursor>)
    requires table != []
    ensures var n := |table| - 1;
            Below(table, cursor)
            == if cursor.None? || Before(CursorOf(table[n]), cursor.value) then Below(table[..n], cursor) + [table[n]]
               else Below(table[..n], cursor)
  {
    assert Below(table[..|table| - 1], cursor) + [] == Below(table[..|table| - 1], cursor);
  }

  /** A row's cursor selects exactly the rows before it. */
  lemma {:induction false} BelowRow(table: seq<Row>, k: nat)
    requires Ordered(table) && k < |table|
    ensures Below(table, Some(CursorOf(table[k]))) == table[..k]
  {
    var n := |table| - 1;
    var cursor := CursorOf(table[k]);
    if k < n {
      assert table[..n][k] == table[k] && table[..n][..k] == table[..k];
      BelowRow(table[..n], k);
      assert !Before(CursorOf(table[n]), cursor);
      BelowLast(table, Some(cursor));
    } else {
      assert !Before(cursor, cursor);
      BelowAll(table[..n], cursor);
      BelowLast(table, Some(cursor));
    }
  }

  lemma {:induction false} BelowAll(table: seq<Row>, cursor: Cursor)
    requires forall i :: 0 <= i < |table| ==> Before(CursorOf(table[i]), cursor)
    ensures Below(table, Some(cursor)) == table
  {
    if table != [] {
      BelowAll(table[..|table| - 1], cursor);
      assert table == table[..|table| - 1] + [table[|table| - 1]];
    }
  }

  /** Selecting below a row's cursor again, or from the whole table, gives the same rows. */
  lemma {:induction false} BelowTwice(table: seq<Row>, cursor: Option<Cursor>, lower: Cursor)
    requires cursor.Some? ==> Before(lower, cursor.value)
    ensures Below(Below(table, cursor), Some(lower)) == Below(table, Some(lower))
  {
    if table != [] {
      BelowTwice(table[..|table| - 1], cursor, lower);
      var rest := Below(table[..|table| - 1], cursor);
      var last := table[|table| - 1];
      if cursor.None? || Before(CursorOf(last), cursor.value) {
        assert (rest + [last])[..|rest|] == rest;
      } else {
        assert rest + [] == rest;
      }
    }
  }

  /** Filtering keeps rows that pass, in order. */
  lemma {:induction false} BelowFacts(table: seq<Row>, cursor: Option<Cursor>)
    requires Ordered(table)
    ensures Ordered(Below(table, cursor))
    ensures forall row :: row in Below(table, cursor) <==> row in table && (cursor.None? || Before(CursorOf(row), cursor.value))
  {
    if table != [] {
      BelowFacts(table[..|table| - 1], cursor);
      assert table == table[..|table| - 1] + [table[|table| - 1]];
    }
  }

  /** Each page is in chronological order. */
  lemma PageIsChronological(table: seq<Row>, cursor: Option<Cursor>, limit: int)
    requires Ordered(table)
    ensures Ordered(PageOf(table, cursor, limit).rows)
  {
    BelowFacts(table, cursor);
  }

  /** What a page leaves for later. */
  function Later(table: seq<Row>, page: Page): seq<Row> {
    if page.next.Some? then Below(table, page.next) else []
  }

  /** The cursor at row `k` of what was below the old cursor leaves exactly the first `k` of them. */
  lemma CursorLeaves(table: seq<Row>, cursor: Option<Cursor>, k: nat)
    requires Ordered(table) && k < |Below(table, cursor)|
    ensures Below(table, Some(CursorOf(Below(table, cursor)[k]))) == Below(table, cursor)[..k]
  {
    var below := Below(table, cursor);
    BelowFacts(table, cursor);
    assert below[k] in below;
    BelowTwice(table, cursor, CursorOf(below[k]));
    BelowRow(below, k);
  }

  /** A page that is not the last starts at the row its cursor names. */
  lemma PageWithMore(table: seq<Row>, cursor: Option<Cursor>, limit: int)
    requires Ordered(table) && |Below(table, cursor)| > NormalizedLimit(limit)
    ensures var below := Below(table, cursor);
            var k := |below| - NormalizedLimit(limit);
            && PageOf(table, cursor, limit) == Page(below[k..], true, Some(CursorOf(below[k])))
            && Later(table, PageOf(table, cursor, limit)) == below[..k]
  {
    CursorLeaves(table, cursor, |Below(table, cursor)| - NormalizedLimit(limit));
  }

  lemma SplitAt(rows: seq<Row>, k: nat)
    requires k < |rows|
    ensures rows == rows[..k] + rows[k..] && |rows[k..]| > 0
  {
  }

  /** One page splits what was below its cursor into what is below the next cursor and the page itself. */
  lemma PageSplits(table: seq<Row>, cursor: Option<Cursor>, limit: int)
    requires Ordered(table)
    ensures Below(table, cursor) == Later(table, PageOf(table, cursor, limit)) + PageOf(table, cursor, limit).rows
    ensures PageOf(table, cursor, limit).next.Some? <==> PageOf(table, cursor, limit).hasMore
    ensures PageOf(table, cursor, limit).next.Some? ==> |PageOf(table, cursor, limit).rows| > 0
  {
    var below := Below(table, cursor);
    if |below| > NormalizedLimit(limit) {
      PageWithMore(table, cursor, limit);
      SplitAt(below, |below| - NormalizedLimit(limit));
    } else {
      assert PageOf(table, cursor, limit) == Page(below, false, None);
      assert [] + below == below;
    }
  }

  /**
   A client following cursors: `tables[k]` is the table when page `k` is read, with any page limits. Between two
   reads rows may be inserted anywhere at or above the cursor the client holds.
   */
  ghost predicate Traversal(pages: seq<Page>, tables: seq<seq<Row>>, limits: seq<int>) {
    && |pages| > 0 && |tables| == |pages| == |limits|
    && (forall k :: 0 <= k < |tables| ==> Ordered(tables[k]))
    && pages[0] == PageOf(tables[0], None, limits[0])
    && forall k :: 1 <= k < |pages| ==> Follows(pages, tables, limits, k)
  }

  /** Page `k` is read with the cursor of the page before it. */
  ghost predicate Follows(pages: seq<Page>, tables: seq<seq<Row>>, limits: seq<int>, k: nat)
    requires 1 <= k < |pages| == |tables| == |limits|
  {
    var cursor := pages[k - 1].next;
    cursor.Some? && pages[k] == PageOf(tables[k], cursor, limits[k]) && Below(tables[k], cursor) == Below(tables[k - 1], cursor)
  }

  /** The pages put together as the client shows them: each older page in front. */
  function Shown(pages: seq<Page>): seq<Row> {
    if pages == [] then [] else pages[|pages| - 1].rows + Shown(pages[..|pages| - 1])
  }

  /** What is still to come after the last page. */
  function Rest(pages: seq<Page>, tables: seq<seq<Row>>): seq<Row>
    requires 0 < |pages| == |tables|
  {
    Later(tables[|pages| - 1], pages[|pages| - 1])
  }

  /** One more page moves its rows from what is to come to what is shown. */
  lemma OneMorePage(pages: seq<Page>, tables: seq<seq<Row>>, limits: seq<int>)
    requires Traversal(pages, tables, limits) && |pages| > 1
    ensures var n := |pages| - 1; Rest(pages[..n], tables[..n]) == Rest(pages, tables) + pages[n].rows
  {
    var n := |pages| - 1;
    assert Follows(pages, tables, limits, n);
    PageSplits(tables[n], pages[n - 1].next, limits[n]);
  }

  /** At any point of a traversal, the rows still to come and the rows shown are the first snapshot, in order. */
  lemma {:induction false} NothingLostOrRepeated(pages: seq<Page>, tables: seq<seq<Row>>, limits: seq<int>)
    requires Traversal(pages, tables, limits)
    ensures tables[0] == Rest(pages, tables) + Shown(pages)
    decreases |pages|
  {
    var n := |pages| - 1;
    if n == 0 {
      PageSplits(tables[0], None, limits[0]);
      BelowEverything(tables[0]);
      assert Shown(pages[..0]) == [];
    } else {
      TraversalPrefix(pages, tables, limits);
      NothingLostOrRepeated(pages[..n], tables[..n], limits[..n]);
      OneMorePage(pages, tables, limits);
      assert tables[0] == Rest(pages, tables) + (pages[n].rows + Shown(pages[..n]));
    }
  }

  /** A page with a successor shows something. */
  lemma PageShowsSomething(pages: seq<Page>, tables: seq<seq<Row>>, limits: seq<int>, k: nat)
    requires Traversal(pages, tables, limits) && k < |pages|
    ensures pages[k].next.Some? ==> |pages[k].rows| > 0
    ensures k < |pages| - 1 ==> pages[k].next.Some?
  {
    if k == 0 {
      PageSplits(tables[0], None, limits[0]);
    } else {
      assert Follows(pages, tables, limits, k);
      PageSplits(tables[k], pages[k - 1].next, limits[k]);
    }
    if k < |pages| - 1 {
      assert Follows(pages, tables, limits, k + 1);
    }
  }

  lemma {:induction false} ShownLength(pages: seq<Page>)
    requires forall k :: 0 <= k < |pages| ==> |pages[k].rows| > 0
    ensures |Shown(pages)| >= |pages|
  {
    if pages != [] {
      ShownLength(pages[..|pages| - 1]);
    }
  }

  lemma TraversalPrefix(pages: seq<Page>, tables: seq<seq<Row>>, limits: seq<int>)
    requires Traversal(pages, tables, limits) && |pages| > 1
    ensures var n := |pages| - 1; Traversal(pages[..n], tables[..n], limits[..n])
  {
    var n := |pages| - 1;
    forall k | 1 <= k < n ensures Follows(pages[..n], tables[..n], limits[..n], k) {
      assert Follows(pages, tables, limits, k);
    }
  }

  /** A finished traversal has shown exactly the first snapshot, in order, and it must finish. */
  lemma TraversalIsComplete(pages: seq<Page>, tables: seq<seq<Row>>, limits: seq<int>)
    requires Traversal(pages, tables, limits)
    ensures pages[|pages| - 1].next.None? ==> Shown(pages) == tables[0]
    ensures |pages| <= |tables[0]| + 1
  {
    NothingLostOrRepeated(pages, tables, limits);
    var n := |pages| - 1;
    forall k | 0 <= k < n ensures |pages[k].rows| > 0 {
      PageShowsSomething(pages, tables, limits, k);
    }
    ShownLength(pages[..n]);
  }

  /** Inserting rows that are not below the cursor leaves what the client has yet to read unchanged. */
  lemma {:induction false} InsertAboveCursor(table: seq<Row>, k: nat, row: Row, cursor: Cursor)
    requires k <= |table| && !Before(CursorOf(row), cursor)
    ensures Below(table[..k] + [row] + table[k..], Some(cursor)) == Below(table, Some(cursor))
  {
    var grown := table[..k] + [row] + table[k..];
    if k == |table| {
      assert grown[..|grown| - 1] == table;
    } else {
      var n := |table| - 1;
      InsertAboveCursor(table[..n], k, row, cursor);
      assert table[..n][..k] + [row] + table[..n][k..] == grown[..|grown| - 1];
      assert grown[|grown| - 1] == table[n];
    }
  }
}
