/** Keyset page shaping in the paged RPC procedures (backend/trpc.ts,
    `leads.search` and `certificates.getByPostcode`). The query orders the
    matching rows by `lmk_key` and asks for one row more than the page holds;
    when that extra row arrives it is popped off and its key becomes
    `nextCursor`. A following request hands the cursor back to the builder,
    whose last line adds `lmk_key > cursor`.

    The database is abstracted as the rows matching the filter, in key order
    (`SortedByKey`), keys compared as PostgreSQL compares text under the "C"
    collation (`Text.Below`). */
module Paging {
  import opened Wrappers
  import opened Text
  import opened Schemas
  import QueryBuilder

  /** What a paged procedure returns: the rows and the cursor of the next page. */
  datatype Page = Page(results: seq<Row>, nextCursor: Option<string>)

  /** The page made of the fetched rows: the row past `limit`, if any, is
      dropped and its key is the next cursor. */
  function Shaped(rows: seq<Row>, limit: nat): Page {
    if |rows| > limit then Page(rows[..|rows| - 1], Some(rows[|rows| - 1].lmk_key))
    else Page(rows, None)
  }

  /** The shaping step of the two procedures: `result.rows.pop()` when more
      than `limit` rows came back. */
  method ShapePage(rows: seq<Row>, limit: nat) returns (page: Page)
    ensures page == Shaped(rows, limit)
  {
    var remaining := rows;
    var nextCursor: Option<string> := None;
    if |remaining| > limit {
      var lastItem := remaining[|remaining| - 1];
      remaining := remaining[..|remaining| - 1];
      nextCursor := Some(lastItem.lmk_key);
    }
    page := Page(remaining, nextCursor);
  }

  /** From at most `limit + 1` rows: at most `limit` results, taken from the
      front; a next cursor exactly when `limit + 1` rows came back, and then it
      is the key of the row that was removed. */
  lemma ShapedPage(rows: seq<Row>, limit: nat)
    requires |rows| <= limit + 1
    ensures |Shaped(rows, limit).results| <= limit
    ensures Shaped(rows, limit).results <= rows
    ensures Shaped(rows, limit).nextCursor.Some? <==> |rows| == limit + 1
    ensures Shaped(rows, limit).nextCursor.Some? ==>
      Shaped(rows, limit).results == rows[..limit]
      && Shaped(rows, limit).nextCursor.value == rows[limit].lmk_key
  {
  }

  /* ---------- the rows a request fetches ---------- */

  /** Rows in strictly increasing key order, as `ORDER BY lmk_key` over a
      unique key returns them. */
  predicate SortedByKey(rows: seq<Row>) {
    forall i, j {:trigger Below(rows[i].lmk_key, rows[j].lmk_key)} :: 0 <= i < j < |rows| ==> Below(rows[i].lmk_key, rows[j].lmk_key)
  }

  /** The rows whose key sorts after `key` (`lmk_key > $n`), in order. */
  function KeptAfter(rows: seq<Row>, key: string): seq<Row> {
    if rows == [] then []
    else (if Below(key, rows[0].lmk_key) then [rows[0]] else []) + KeptAfter(rows[1..], key)
  }

  /** The rows a request can see: of the rows the other conditions select,
      those after the cursor when the cursor is a non-empty string, every one
      otherwise. Adding `lmk_key > $n` with `AND` filters those rows only
      while the clause is a conjunction, so with the `unknown` floor area,
      whose `OR` is not parenthesised, the database selects other rows. */
  function After(matching: seq<Row>, cursor: Option<string>): seq<Row> {
    if QueryBuilder.Truthy(cursor) then KeptAfter(matching, cursor.value) else matching
  }

  /** `LIMIT limit + 1`. */
  function Fetch(matching: seq<Row>, cursor: Option<string>, limit: nat): seq<Row> {
    var visible := After(matching, cursor);
    if |visible| <= limit + 1 then visible else visible[..limit + 1]
  }

  /** The page a request with this cursor gets. */
  function KeysetPage(matching: seq<Row>, cursor: Option<string>, limit: nat): Page {
    Shaped(Fetch(matching, cursor, limit), limit)
  }

  /** Keeping every row when every row is after the key. */
  lemma {:induction false} KeptAll(rows: seq<Row>, key: string)
    requires forall r :: r in rows ==> Below(key, r.lmk_key)
    ensures KeptAfter(rows, key) == rows
  {
    if rows != [] {
      KeptAll(rows[1..], key);
    }
  }

  lemma SortedTail(rows: seq<Row>)
    requires SortedByKey(rows) && rows != []
    ensures SortedByKey(rows[1..])
  {
    assert forall i :: 0 <= i < |rows[1..]| ==> rows[1..][i] == rows[i + 1];
  }

  /** In key order, the rows after a key are a suffix. */
  lemma {:induction false} KeptAfterIsSuffix(rows: seq<Row>, key: string)
    requires SortedByKey(rows)
    ensures |KeptAfter(rows, key)| <= |rows|
    ensures KeptAfter(rows, key) == rows[|rows| - |KeptAfter(rows, key)|..]
  {
    if rows != [] {
      if Below(key, rows[0].lmk_key) {
        forall r | r in rows
          ensures Below(key, r.lmk_key)
        {
          var i :| 0 <= i < |rows| && rows[i] == r;
          if i > 0 {
            BelowTransitive(key, rows[0].lmk_key, r.lmk_key);
          }
        }
        KeptAll(rows, key);
      } else {
        SortedTail(rows);
        KeptAfterIsSuffix(rows[1..], key);
      }
    }
  }

  /** In key order, the rows after the key of row `i` are those after row `i`. */
  lemma {:induction false} KeptAfterRow(rows: seq<Row>, i: nat)
    requires SortedByKey(rows) && i < |rows|
    ensures KeptAfter(rows, rows[i].lmk_key) == rows[i + 1..]
  {
    var key := rows[i].lmk_key;
    SortedTail(rows);
    if i == 0 {
      BelowIrreflexive(key);
      KeptAll(rows[1..], key);
    } else {
      BelowAsymmetric(rows[0].lmk_key, key);
      KeptAfterRow(rows[1..], i - 1);
      assert rows[1..][i - 1] == rows[i];
      assert rows[1..][i..] == rows[i + 1..];
    }
  }

  lemma AfterIsSuffix(matching: seq<Row>, cursor: Option<string>)
    requires SortedByKey(matching)
    ensures |After(matching, cursor)| <= |matching|
    ensures After(matching, cursor) == matching[|matching| - |After(matching, cursor)|..]
  {
    if QueryBuilder.Truthy(cursor) {
      KeptAfterIsSuffix(matching, cursor.value);
    }
  }

  lemma BelowEmpty(a: string)
    ensures !Below(a, "")
  {
  }

  /** A full fetch: the first `limit` visible rows, and the next cursor is
      the key of the row after them. */
  lemma FullPage(matching: seq<Row>, cursor: Option<string>, limit: nat)
    requires |After(matching, cursor)| > limit
    ensures var visible := After(matching, cursor);
      KeysetPage(matching, cursor, limit) == Page(visible[..limit], Some(visible[limit].lmk_key))
  {
    var visible := After(matching, cursor);
    assert Fetch(matching, cursor, limit) == visible[..limit + 1];
    assert visible[..limit + 1][..limit] == visible[..limit];
  }

  /** The rows after the key of a row that is not the first are the rows
      after it. */
  lemma AfterRow(matching: seq<Row>, i: nat)
    requires SortedByKey(matching) && 0 < i < |matching|
    ensures After(matching, Some(matching[i].lmk_key)) == matching[i + 1..]
  {
    assert Below(matching[0].lmk_key, matching[i].lmk_key);
    BelowEmpty(matching[0].lmk_key);
    KeptAfterRow(matching, i);
  }

  /** When a page is full, the next request (with the popped row's key as its
      cursor) sees exactly the rows after the popped one: the popped row is
      on neither page. */
  lemma NextPageAfterPopped(matching: seq<Row>, cursor: Option<string>, limit: nat)
    requires SortedByKey(matching) && limit >= 1
    requires |After(matching, cursor)| > limit
    ensures var visible := After(matching, cursor);
      && KeysetPage(matching, cursor, limit) == Page(visible[..limit], Some(visible[limit].lmk_key))
      && After(matching, Some(visible[limit].lmk_key)) == visible[limit + 1..]
  {
    FullPage(matching, cursor, limit);
    AfterPopped(matching, cursor, limit);
  }

  /** The rows after the popped row's key are the visible rows after it. */
  lemma AfterPopped(matching: seq<Row>, cursor: Option<string>, limit: nat)
    requires SortedByKey(matching) && limit >= 1
    requires |After(matching, cursor)| > limit
    ensures var visible := After(matching, cursor);
      After(matching, Some(visible[limit].lmk_key)) == visible[limit + 1..]
  {
    var visible := After(matching, cursor);
    AfterIsSuffix(matching, cursor);
    var j := |matching| - |visible|;
    SuffixIndex(matching, visible, j, limit);
    AfterRow(matching, j + limit);
  }

  /** Positions in a suffix `v == m[j..]` are positions `j` further on in `m`. */
  lemma SuffixIndex(m: seq<Row>, v: seq<Row>, j: nat, k: nat)
    requires j <= |m| && v == m[j..] && k < |v|
    ensures v[k] == m[j + k] && v[k + 1..] == m[j + k + 1..]
  {
  }

  /* ---------- following the cursors ---------- */

  /** The pages a client gets by asking again with each `nextCursor`, for at
      most `pages` requests. */
  function Walk(matching: seq<Row>, cursor: Option<string>, limit: nat, pages: nat): seq<Page>
    decreases pages
  {
    if pages == 0 then []
    else
      var page := KeysetPage(matching, cursor, limit);
      [page] + (if page.nextCursor.Some? then Walk(matching, page.nextCursor, limit, pages - 1) else [])
  }

  function AllResults(pages: seq<Page>): seq<Row> {
    if pages == [] then [] else pages[0].results + AllResults(pages[1..])
  }

  /** The rows in order with every `(limit + 1)`-th one left out. */
  function DropEvery(rows: seq<Row>, limit: nat): seq<Row>
    decreases |rows|
  {
    if |rows| <= limit then rows else rows[..limit] + DropEvery(rows[limit + 1..], limit)
  }

  lemma DropEveryStep(rows: seq<Row>, limit: nat)
    requires |rows| > limit
    ensures DropEvery(rows, limit) == rows[..limit] + DropEvery(rows[limit + 1..], limit)
  {
  }

  /** The requests a client makes to see `n` visible rows, `limit` to a
      page: every full page (`limit + 1` rows fetched) leads to one more. */
  function PagesNeeded(n: nat, limit: nat): (p: nat)
    ensures p >= 1
    decreases n
  {
    if n <= limit then 1 else 1 + PagesNeeded(n - limit - 1, limit)
  }

  /** That is one request per `limit + 1` rows, plus the last, short one. */
  lemma {:induction false} PagesNeededCount(n: nat, limit: nat)
    ensures (PagesNeeded(n, limit) - 1) * (limit + 1) <= n < PagesNeeded(n, limit) * (limit + 1)
    decreases n
  {
    if n > limit {
      var p := PagesNeeded(n - limit - 1, limit);
      PagesNeededCount(n - limit - 1, limit);
      assert PagesNeeded(n, limit) == p + 1;
      assert (p + 1) * (limit + 1) == p * (limit + 1) + (limit + 1);
    }
  }

  /** One full page, then the walk from its cursor. */
  lemma WalkStep(matching: seq<Row>, cursor: Option<string>, limit: nat, pages: nat)
    requires SortedByKey(matching) && limit >= 1 && pages >= 1
    requires |After(matching, cursor)| > limit
    ensures var visible := After(matching, cursor);
      var next := Some(visible[limit].lmk_key);
      && AllResults(Walk(matching, cursor, limit, pages))
         == visible[..limit] + AllResults(Walk(matching, next, limit, pages - 1))
      && After(matching, next) == visible[limit + 1..]
  {
    var visible := After(matching, cursor);
    var next := Some(visible[limit].lmk_key);
    NextPageAfterPopped(matching, cursor, limit);
    var walk := Walk(matching, cursor, limit, pages);
    assert walk == [Page(visible[..limit], next)] + Walk(matching, next, limit, pages - 1);
    assert walk[1..] == Walk(matching, next, limit, pages - 1);
  }

  /** A last page, short of `limit + 1` rows, ends the walk. */
  lemma WalkEnd(matching: seq<Row>, cursor: Option<string>, limit: nat, pages: nat)
    requires pages >= 1 && |After(matching, cursor)| <= limit
    ensures AllResults(Walk(matching, cursor, limit, pages)) == After(matching, cursor)
  {
    var visible := After(matching, cursor);
    assert Fetch(matching, cursor, limit) == visible;
    var walk := Walk(matching, cursor, limit, pages);
    assert walk == [Page(visible, None)];
    assert walk[1..] == [];
  }

  /** Walking the cursors to the end returns the visible rows in key order
      except the `limit + 1`-th of each full page: the row fetched to detect
      the next page is never returned. */
  lemma {:induction false} WalkDropsPopped(matching: seq<Row>, cursor: Option<string>, limit: nat, pages: nat)
    requires SortedByKey(matching) && limit >= 1
    requires pages >= PagesNeeded(|After(matching, cursor)|, limit)
    ensures AllResults(Walk(matching, cursor, limit, pages)) == DropEvery(After(matching, cursor), limit)
    decreases pages, 1
  {
    if |After(matching, cursor)| <= limit {
      WalkEnd(matching, cursor, limit, pages);
    } else {
      WalkDropsPoppedFull(matching, cursor, limit, pages);
    }
  }

  /** `WalkDropsPopped` when the first page is full. */
  lemma {:induction false} WalkDropsPoppedFull(matching: seq<Row>, cursor: Option<string>, limit: nat, pages: nat)
    requires SortedByKey(matching) && limit >= 1
    requires pages >= PagesNeeded(|After(matching, cursor)|, limit)
    requires |After(matching, cursor)| > limit
    ensures AllResults(Walk(matching, cursor, limit, pages)) == DropEvery(After(matching, cursor), limit)
    decreases pages, 0
  {
    var next := NextWalkReady(matching, cursor, limit, pages);
    assert AllResults(Walk(matching, next, limit, pages - 1))
        == DropEvery(After(matching, cursor)[limit + 1..], limit) by {
      WalkDropsPopped(matching, next, limit, pages - 1);
    }
    WalkStepDrops(matching, cursor, limit, pages);
  }

  /** After a full page, the rest of the walk needs one request fewer. */
  lemma NextWalkReady(matching: seq<Row>, cursor: Option<string>, limit: nat, pages: nat)
      returns (next: Option<string>)
    requires SortedByKey(matching) && limit >= 1
    requires pages >= PagesNeeded(|After(matching, cursor)|, limit)
    requires |After(matching, cursor)| > limit
    ensures next == Some(After(matching, cursor)[limit].lmk_key)
    ensures pages >= 1 && pages - 1 >= PagesNeeded(|After(matching, next)|, limit)
    ensures After(matching, next) == After(matching, cursor)[limit + 1..]
  {
    var visible := After(matching, cursor);
    next := Some(visible[limit].lmk_key);
    AfterPopped(matching, cursor, limit);
    assert PagesNeeded(|visible|, limit) == 1 + PagesNeeded(|visible[limit + 1..]|, limit);
  }

  /** The full-page step, given the rest of the walk. */
  lemma WalkStepDrops(matching: seq<Row>, cursor: Option<string>, limit: nat, pages: nat)
    requires SortedByKey(matching) && limit >= 1 && pages >= 1
    requires |After(matching, cursor)| > limit
    requires var visible := After(matching, cursor);
      AllResults(Walk(matching, Some(visible[limit].lmk_key), limit, pages - 1))
      == DropEvery(visible[limit + 1..], limit)
    ensures AllResults(Walk(matching, cursor, limit, pages)) == DropEvery(After(matching, cursor), limit)
  {
    WalkStep(matching, cursor, limit, pages);
    DropEveryStep(After(matching, cursor), limit);
  }

  /** The positions of the popped rows: `limit`, `2 * limit + 1`, ... */
  predicate Popped(i: nat, limit: nat)
    decreases i
  {
    if i < limit then false
    else if i == limit then true
    else Popped(i - limit - 1, limit)
  }

  /** Every row `DropEvery` keeps is a row at a position that is not the
      `limit + 1`-th of its page. */
  lemma {:induction false} DropEveryKeeps(rows: seq<Row>, limit: nat, x: Row)
    requires x in DropEvery(rows, limit)
    ensures exists i :: 0 <= i < |rows| && rows[i] == x && !Popped(i, limit)
    decreases |rows|
  {
    if |rows| <= limit {
      var i :| 0 <= i < |rows| && rows[i] == x;
    } else if x in rows[..limit] {
      var i :| 0 <= i < limit && rows[..limit][i] == x;
      assert rows[i] == x;
    } else {
      var tail := rows[limit + 1..];
      DropEveryKeeps(tail, limit, x);
      var i :| 0 <= i < |tail| && tail[i] == x && !Popped(i, limit);
      assert rows[i + limit + 1] == x;
    }
  }

  /** In key order, the popped rows (positions `limit`, `2 * limit + 1`, ...)
      are returned on no page of the walk. */
  lemma PoppedNeverReturned(rows: seq<Row>, limit: nat, i: nat)
    requires SortedByKey(rows) && i < |rows| && Popped(i, limit)
    ensures rows[i] !in DropEvery(rows, limit)
  {
    if rows[i] in DropEvery(rows, limit) {
      DropEveryKeeps(rows, limit, rows[i]);
      var j :| 0 <= j < |rows| && rows[j] == rows[i] && !Popped(j, limit);
      BelowIrreflexive(rows[i].lmk_key);
    }
  }
}
