/**
  Keyset pagination and the two client loops that follow its cursors, over a table that may
  be any other table by the time the next page is asked for.
 */
module Paging {
  import opened Basics
  import opened Wrappers

  /** The sort key of a row: (created_at, id), or (published_at, id) for the public catalogue. */
  datatype Key = Key(at: nat, id: nat)

  predicate Before(a: Key, b: Key) {
    a.at < b.at || (a.at == b.at && a.id < b.id)
  }

  predicate Below(k: Key, cursor: Option<Key>) {
    cursor == None || Before(k, cursor.value)
  }

  /** Newest first, and of equal times the greater id first. */
  predicate Descending(s: seq<Key>) {
    forall i, j | 0 <= i < j < |s| :: s[i].at > s[j].at || (s[i].at == s[j].at && s[i].id > s[j].id)
  }

  datatype Page = Page(items: seq<Key>, next: Option<Key>)

  /** The first `n` rows of the set in descending key order. */
  ghost predicate IsTop(rows: seq<Key>, table: set<Key>, n: nat) {
    && Descending(rows)
    && |rows| <= n
    && (forall k | k in rows :: k in table)
    && (forall k | k in table :: k in rows || (|rows| == n && forall r | r in rows :: Before(k, r)))
  }

  method Greatest(table: set<Key>) returns (top: Key)
    requires table != {}
    ensures top in table && forall k | k in table :: k == top || Before(k, top)
  {
    top :| top in table;
    var unseen := table - {top};
    while unseen != {}
      invariant unseen <= table && top in table
      invariant forall k | k in table :: k in unseen || k == top || Before(k, top)
      decreases |unseen|
    {
      var k :| k in unseen;
      if Before(top, k) { top := k; }
      unseen := unseen - {k};
    }
  }

  lemma DescendingAppend(rows: seq<Key>, next: Key)
    requires Descending(rows) && forall r | r in rows :: Before(next, r)
    ensures Descending(rows + [next])
  {
    forall i | 0 <= i < |rows| ensures Before(next, rows[i]) { assert rows[i] in rows; }
  }

  /** ORDER BY key DESC LIMIT n. */
  method SelectTop(table: set<Key>, n: nat) returns (rows: seq<Key>)
    ensures IsTop(rows, table, n)
  {
    rows := [];
    var rest := table;
    while |rows| < n && rest != {}
      invariant |rows| <= n && rest <= table
      invariant Descending(rows)
      invariant forall k | k in rows :: k in table && k !in rest
      invariant forall k | k in table :: k in rows || k in rest
      invariant forall k, r | k in rest && r in rows :: Before(k, r)
      decreases |rest|
    {
      var top := Greatest(rest);
      DescendingAppend(rows, top);
      rows := rows + [top];
      rest := rest - {top};
    }
  }

  /** What one page promises about the table it was read from. */
  ghost predicate PageOf(page: Page, table: set<Key>, cursor: Option<Key>, limit: nat) {
    && Descending(page.items)
    && |page.items| <= limit
    && (forall k | k in page.items :: k in table && Below(k, cursor))
    && (page.next.Some? ==> |page.items| == limit > 0 && page.next.value == page.items[limit - 1])
    && (forall k | k in table && Below(k, cursor) ::
          k in page.items || (page.next.Some? && Before(k, page.next.value)))
  }

  lemma TrimmedPage(rows: seq<Key>, table: set<Key>, cursor: Option<Key>, limit: nat)
    requires limit > 0 && IsTop(rows, (set k | k in table && Below(k, cursor)), limit + 1)
    ensures PageOf(if |rows| > limit then Page(rows[..limit], Some(rows[limit - 1])) else Page(rows, None),
                   table, cursor, limit)
  {
    var matching := set k | k in table && Below(k, cursor);
    if |rows| > limit {
      var page := Page(rows[..limit], Some(rows[limit - 1]));
      forall k | k in page.items ensures k in table && Below(k, cursor) { assert k in rows && k in matching; }
      forall k | k in table && Below(k, cursor)
        ensures k in page.items || Before(k, page.next.value)
      {
        assert k in matching;
        if k in rows {
          var i :| 0 <= i < |rows| && rows[i] == k;
          if i < limit { assert page.items[i] == k; }
        } else {
          assert rows[limit - 1] in rows;
        }
      }
    } else {
      forall k | k in table && Below(k, cursor) ensures k in rows { assert k in matching; }
      forall k | k in rows ensures k in table && Below(k, cursor) { assert k in matching; }
    }
  }

  /** ListOwned: one row more than the limit is read, only to learn whether to issue a cursor. */
  method ListOwned(table: set<Key>, cursor: Option<Key>, limit: nat) returns (page: Page)
    requires limit > 0
    ensures PageOf(page, table, cursor, limit)
    ensures page.next.Some? <==> |set k | k in table && Below(k, cursor)| > limit
  {
    var matching := set k | k in table && Below(k, cursor);
    var rows := SelectTop(matching, limit + 1);
    RowsCount(rows, matching, limit + 1);
    TrimmedPage(rows, table, cursor, limit);
    if |rows| > limit {
      page := Page(rows[..limit], Some(rows[limit - 1]));
    } else {
      page := Page(rows, None);
    }
  }

  lemma RowsCount(rows: seq<Key>, table: set<Key>, n: nat)
    requires IsTop(rows, table, n)
    ensures |rows| == n ==> |table| >= n
    ensures |rows| < n ==> |table| == |rows|
  {
    DistinctCount(rows);
    var members := set k | k in rows;
    SubsetCount(members, table);
    if |rows| < n { assert members == table; }
  }

  lemma {:induction false} DistinctCount(rows: seq<Key>)
    requires Descending(rows)
    ensures |set k | k in rows| == |rows|
  {
    if |rows| > 0 {
      var n := |rows| - 1;
      DistinctCount(rows[..n]);
      assert (set k | k in rows) == (set k | k in rows[..n]) + {rows[n]};
    }
  }

  predicate Agrees(k: Key, items: seq<Key>, table: set<Key>) {
    k in items <==> k in table
  }

  /** One of the pages read so far settles the key: it was delivered iff it was in that snapshot. */
  ghost predicate Settled(k: Key, items: seq<Key>, snapshots: nat -> set<Key>, pages: nat) {
    exists i | 0 <= i < pages :: Agrees(k, items, snapshots(i))
  }

  /** The traversal has gone past the key once the cursor for the next request is not above it. */
  predicate Passed(k: Key, next: Option<Key>) {
    next == None || !Before(k, next.value)
  }

  /**
    listOwnedContent. `snapshots(i)` is what the i-th request finds in the table. The
    loop-detected error never occurs, nothing is delivered twice or out of order, and every
    key is delivered exactly when it was in the table at the one request that settled it.
   */
  method ListOwnedContent(snapshots: nat -> set<Key>, limit: nat)
    returns (result: Result<seq<Key>, string>, pages: nat)
    requires limit > 0
    ensures result.Ok? && pages > 0
    ensures Descending(result.value)
    ensures forall k :: Settled(k, result.value, snapshots, pages)
  {
    var items: seq<Key> := [];
    var seen: set<Key> := {};
    var cursor: Option<Key> := None;
    pages := 0;
    var more := true;
    while more
      invariant Descending(items)
      invariant more ==> forall k | k in items :: !Below(k, cursor)
      invariant more && cursor.Some? ==> |items| > 0 && items[|items| - 1] == cursor.value
      invariant forall c | c in seen :: cursor.Some? && !Before(c, cursor.value)
      invariant forall k | !more || !Below(k, cursor) :: Settled(k, items, snapshots, pages)
      invariant !more ==> pages > 0
      decreases more, cursor == None, if cursor.Some? then cursor.value.at else 0,
                if cursor.Some? then cursor.value.id else 0
    {
      if cursor.Some? { seen := seen + {cursor.value}; }
      var page := ListOwned(snapshots(pages), cursor, limit);
      Append(items, page, snapshots, pages, cursor, limit);
      items := items + page.items;
      pages := pages + 1;
      if page.next.Some? && page.next.value in seen {
        return Err("Owner content pagination loop detected."), pages;
      }
      more := page.next.Some?;
      if more { cursor := page.next; }
    }
    result := Ok(items);
  }

  /** Appending a page keeps the order and settles every key down to its cursor. */
  lemma Append(items: seq<Key>, page: Page, snapshots: nat -> set<Key>, pages: nat, cursor: Option<Key>, limit: nat)
    requires Descending(items) && PageOf(page, snapshots(pages), cursor, limit)
    requires forall k | k in items :: !Below(k, cursor)
    requires cursor.Some? ==> |items| > 0 && items[|items| - 1] == cursor.value
    requires forall k | !Below(k, cursor) :: Settled(k, items, snapshots, pages)
    ensures Descending(items + page.items)
    ensures forall k | Passed(k, page.next) ::
      Settled(k, items + page.items, snapshots, pages + 1)
    ensures page.next.Some? ==> forall k | k in items + page.items :: !Below(k, page.next)
    ensures page.next.Some? ==>
      Below(page.next.value, cursor) && (items + page.items)[|items + page.items| - 1] == page.next.value
  {
    var all := items + page.items;
    forall i, j | 0 <= i < j < |all| ensures Before(all[j], all[i]) {
      if i < |items| <= j {
        assert page.items[j - |items|] in page.items && items[i] in items;
      }
    }
    forall k | Passed(k, page.next) ensures Settled(k, all, snapshots, pages + 1) {
      if Below(k, cursor) {
        assert k !in items;
        assert k in page.items <==> k in snapshots(pages);
        assert Agrees(k, all, snapshots(pages));
      } else {
        var i :| 0 <= i < pages && Agrees(k, items, snapshots(i));
        assert Agrees(k, all, snapshots(i));
      }
    }
    if page.next.Some? {
      assert page.next.value in page.items;
      forall k | k in all ensures !Below(k, page.next) {
        if k in page.items {
          var i :| 0 <= i < |page.items| && page.items[i] == k;
        }
      }
    }
  }

  /** A row that stays put is delivered, once; a row never there is not. */
  lemma DeliveredExactlyOnce(items: seq<Key>, snapshots: nat -> set<Key>, pages: nat, k: Key)
    requires Descending(items) && Settled(k, items, snapshots, pages)
    ensures (forall i | 0 <= i < pages :: k in snapshots(i)) ==> multiset(items)[k] == 1
    ensures (forall i | 0 <= i < pages :: k !in snapshots(i)) ==> multiset(items)[k] == 0
  {
    if k in items { CountOne(items, k); }
  }

  lemma {:induction false} CountOne(items: seq<Key>, k: Key)
    requires Descending(items) && k in items
    ensures multiset(items)[k] == 1
  {
    var n := |items| - 1;
    assert items == items[..n] + [items[n]];
    if k == items[n] {
      assert k !in items[..n];
    } else {
      CountOne(items[..n], k);
    }
  }

  const SITEMAP_PAGE_LIMIT: nat := 50
  const SITEMAP_MAX_ITEMS: nat := 45_000

  /**
    collectContentSitemapItems: the same traversal, cut off at a fixed number of items. Down to
    the last item kept, every key is settled; below the cap, every key is.
   */
  method CollectContentSitemapItems(snapshots: nat -> set<Key>) returns (items: seq<Key>, pages: nat)
    ensures |items| <= SITEMAP_MAX_ITEMS
    ensures Descending(items)
    ensures forall k | |items| < SITEMAP_MAX_ITEMS || !Before(k, items[|items| - 1]) ::
      Settled(k, items, snapshots, pages)
  {
    items, pages := [], 0;
    var seen: set<Key> := {};
    var cursor: Option<Key> := None;
    while |items| < SITEMAP_MAX_ITEMS
      invariant |items| <= SITEMAP_MAX_ITEMS && Descending(items)
      invariant |items| < SITEMAP_MAX_ITEMS ==> forall k | k in items :: !Below(k, cursor)
      invariant |items| < SITEMAP_MAX_ITEMS && cursor.Some? ==> |items| > 0 && items[|items| - 1] == cursor.value
      invariant forall c | c in seen :: cursor.Some? && !Before(c, cursor.value)
      invariant |items| < SITEMAP_MAX_ITEMS ==> forall k | !Below(k, cursor) :: Settled(k, items, snapshots, pages)
      invariant |items| == SITEMAP_MAX_ITEMS ==>
        forall k | !Before(k, items[|items| - 1]) :: Settled(k, items, snapshots, pages)
      decreases cursor == None, if cursor.Some? then cursor.value.at else 0,
                if cursor.Some? then cursor.value.id else 0
    {
      var page := ListOwned(snapshots(pages), cursor, SITEMAP_PAGE_LIMIT);
      var remaining := SITEMAP_MAX_ITEMS - |items|;
      Append(items, page, snapshots, pages, cursor, SITEMAP_PAGE_LIMIT);
      var kept := if |page.items| <= remaining then page.items else page.items[..remaining];
      CutOff(items + page.items, items + kept, snapshots, pages + 1, page.next);
      items := items + kept;
      pages := pages + 1;
      if page.next == None || |page.items| == 0 || page.next.value in seen { break; }
      seen := seen + {page.next.value};
      cursor := page.next;
    }
  }

  /** Cutting a traversal short leaves the keys down to the cut settled. */
  lemma CutOff(all: seq<Key>, kept: seq<Key>, snapshots: nat -> set<Key>, pages: nat, next: Option<Key>)
    requires Descending(all) && kept <= all
    requires forall k | Passed(k, next) :: Settled(k, all, snapshots, pages)
    requires next.Some? ==> forall k | k in all :: !Below(k, next)
    ensures Descending(kept)
    ensures |kept| > 0 ==> forall k | !Before(k, kept[|kept| - 1]) :: Settled(k, kept, snapshots, pages)
  {
    if |kept| > 0 {
      var last := kept[|kept| - 1];
      assert last == all[|kept| - 1] && last in all;
      forall k | !Before(k, last) ensures Settled(k, kept, snapshots, pages) {
        assert Passed(k, next);
        assert Settled(k, all, snapshots, pages);
        var i :| 0 <= i < pages && Agrees(k, all, snapshots(i));
        if k in all {
          var j :| 0 <= j < |all| && all[j] == k;
          assert kept[j] == k;
        }
        assert Agrees(k, kept, snapshots(i));
      }
    }
  }
}
