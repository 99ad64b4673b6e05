/**
 * Keyset pagination. A row is known by its key, the time of its creation with its id to break ties; the newest-first
 * card list and the oldest-first event list differ only in the order of the keys.
 */
module Pagination {
  import opened Wrappers
  import opened Cursor
  import Finite

  datatype Key = Key(createdAt: int, id: int)

  datatype Direction = NewestFirst | OldestFirst

  predicate Older(j: Key, k: Key) {
    j.createdAt < k.createdAt || (j.createdAt == k.createdAt && j.id < k.id)
  }

  predicate Before(d: Direction, j: Key, k: Key) {
    if d.OldestFirst? then Older(j, k) else Older(k, j)
  }

  /** How keys travel as cursors. */
  datatype Tokens = Tokens(encode: Key -> string, decode: string -> Option<Key>)

  /** The keys of these rows survive the trip; nothing is asked of any other key. */
  ghost predicate RoundTrips(tokens: Tokens, rows: set<Key>) {
    forall k :: k in rows ==> tokens.decode(tokens.encode(k)) == Some(k)
  }

  /** Only valid keys are ever encoded, so what stands for the error of another one does not matter. */
  function CursorTokens(json: Codec<Key>): Tokens {
    Tokens(k => if EncodeCursor(json, k).Some? then EncodeCursor(json, k).value else "", token => DecodeCursor(json, token))
  }

  lemma CursorsRoundTrip(json: Codec<Key>, rows: set<Key>)
    requires Faithful(json) && forall k :: k in rows ==> json.valid(k)
    ensures RoundTrips(CursorTokens(json), rows)
  {
    forall k | k in rows
      ensures CursorTokens(json).decode(CursorTokens(json).encode(k)) == Some(k)
    {
      CursorRoundTrip(json, k);
    }
  }

  ghost predicate Ascending(d: Direction, s: seq<Key>) {
    forall i, j :: 0 <= i < j < |s| ==> Before(d, s[i], s[j])
  }

  ghost predicate Enumerates(d: Direction, rows: set<Key>, s: seq<Key>) {
    Ascending(d, s) && forall k :: k in s <==> k in rows
  }

  // ---- ORDER BY ----

  ghost predicate Least(d: Direction, k: Key, rows: set<Key>) {
    k in rows && forall j :: j in rows && j != k ==> Before(d, k, j)
  }

  lemma LeastExists(d: Direction, rows: set<Key>)
    requires rows != {}
    ensures exists k :: Least(d, k, rows)
  {
    var leq := (j: Key, k: Key) => !Before(d, k, j);
    Finite.LeastExists(rows, leq);
    var k :| Finite.IsLeast(leq, k, rows);
    assert forall j :: j in rows ==> leq(k, j);
    assert Least(d, k, rows);
  }

  ghost function Sorted(d: Direction, rows: set<Key>): (s: seq<Key>)
    ensures Enumerates(d, rows, s) && |s| == |rows|
    decreases |rows|
  {
    if rows == {} then []
    else
      LeastExists(d, rows);
      var k :| Least(d, k, rows);
      [k] + Sorted(d, rows - {k})
  }

  lemma {:induction false} OnlyOneOrder(d: Direction, rows: set<Key>, s: seq<Key>, t: seq<Key>)
    requires Enumerates(d, rows, s) && Enumerates(d, rows, t)
    ensures s == t
    decreases |s|
  {
    if rows == {} {
      HeadIsListed(d, rows, s);
      HeadIsListed(d, rows, t);
    } else {
      assert s != [] && t != [];
      assert s[0] in t && t[0] in s;
      assert s[0] == t[0];
      WithoutFirst(d, rows, s);
      WithoutFirst(d, rows, t);
      OnlyOneOrder(d, rows - {s[0]}, s[1..], t[1..]);
    }
  }

  lemma HeadIsListed(d: Direction, rows: set<Key>, s: seq<Key>)
    requires Enumerates(d, rows, s)
    ensures s != [] ==> s[0] in rows
  {
    if s != [] {
      assert s[0] in s;
    }
  }

  lemma WithoutFirst(d: Direction, rows: set<Key>, s: seq<Key>)
    requires Enumerates(d, rows, s) && s != []
    ensures Enumerates(d, rows - {s[0]}, s[1..])
  {
    assert s == [s[0]] + s[1..];
  }

  // ---- One page ----

  predicate Beyond(d: Direction, after: Option<Key>, k: Key) {
    after.Some? ==> Before(d, after.value, k)
  }

  ghost function RowsBeyond(d: Direction, rows: set<Key>, after: Option<Key>): set<Key> {
    set k | k in rows && Beyond(d, after, k)
  }

  function Min(m: nat, n: nat): nat { if m < n then m else n }

  /** WHERE (createdAt, id) is strictly beyond the cursor ORDER BY createdAt, id LIMIT limit. */
  ghost function Query(d: Direction, rows: set<Key>, after: Option<Key>, limit: nat): seq<Key>
  {
    var all := Sorted(d, RowsBeyond(d, rows, after));
    all[..Min(limit, |all|)]
  }

  datatype Page = Page(items: seq<Key>, next: Option<string>)

  /** Of one row more than asked for, the extra one only tells that there is another page. */
  function Paginate(tokens: Tokens, rows: seq<Key>, limit: nat): Page {
    var hasMore := |rows| > limit;
    var items := if hasMore then rows[..limit] else rows;
    Page(items, if hasMore && items != [] then Some(tokens.encode(items[|items| - 1])) else None)
  }

  /** The cursor after which a page starts. */
  function AfterOf(tokens: Tokens, token: Option<string>): Option<Key> {
    if token.Some? then tokens.decode(token.value) else None
  }

  predicate Valid(tokens: Tokens, token: Option<string>) {
    token.Some? ==> tokens.decode(token.value).Some?
  }

  /** `None` for a token that does not decode. */
  ghost function ReadPage(tokens: Tokens, d: Direction, rows: set<Key>, token: Option<string>, limit: nat): Option<Page>
  {
    if !Valid(tokens, token) then None
    else Some(Paginate(tokens, Query(d, rows, AfterOf(tokens, token), limit + 1), limit))
  }

  // ---- Following the cursors ----

  /**
   * All items of the pages a client reads, one page from each state of the table, and whether it came to the end.
   */
  ghost function Follow(tokens: Tokens, d: Direction, tables: seq<set<Key>>, token: Option<string>, limit: nat)
    : (seq<Key>, bool)
  {
    if tables == [] then ([], false)
    else
      var page := ReadPage(tokens, d, tables[0], token, limit);
      if page.None? then ([], false)
      else if page.value.next.None? then (page.value.items, true)
      else
        var (rest, done) := Follow(tokens, d, tables[1..], page.value.next, limit);
        (page.value.items + rest, done)
  }

  lemma PaginateSlices(tokens: Tokens, all: seq<Key>, limit: nat)
    requires limit > 0 && (limit < |all| ==> tokens.decode(tokens.encode(all[limit - 1])) == Some(all[limit - 1]))
    ensures var page := Paginate(tokens, all[..Min(limit + 1, |all|)], limit);
            && page.items == all[..Min(limit, |all|)]
            && (page.next.Some? <==> |all| > limit)
            && (page.next.Some? ==>
                  Valid(tokens, page.next) && AfterOf(tokens, page.next) == Some(all[limit - 1]))
  {
    if |all| > limit {
      assert all[..limit + 1][..limit] == all[..limit];
    }
  }

  /** A page is the front of what lies beyond its cursor, and its own cursor is its last key. */
  lemma PageIsFront(tokens: Tokens, d: Direction, rows: set<Key>, token: Option<string>, limit: nat)
    requires RoundTrips(tokens, rows) && limit > 0 && Valid(tokens, token)
    ensures var all, page := Sorted(d, RowsBeyond(d, rows, AfterOf(tokens, token))), ReadPage(tokens, d, rows, token, limit);
            && page.Some? && page.value.items == all[..Min(limit, |all|)]
            && (page.value.next.Some? <==> |all| > limit)
            && (page.value.next.Some? ==>
                  Valid(tokens, page.value.next) && AfterOf(tokens, page.value.next) == Some(all[limit - 1]))
  {
    var all := Sorted(d, RowsBeyond(d, rows, AfterOf(tokens, token)));
    if limit < |all| { assert all[limit - 1] in all; }
    PaginateSlices(tokens, all, limit);
  }

  /** The page read, and all that lies beyond its cursor. */
  lemma PageWithRest(tokens: Tokens, d: Direction, rows: set<Key>, token: Option<string>, limit: nat)
    returns (all: seq<Key>, page: Page)
    requires RoundTrips(tokens, rows) && limit > 0 && Valid(tokens, token)
    ensures Enumerates(d, RowsBeyond(d, rows, AfterOf(tokens, token)), all)
    ensures ReadPage(tokens, d, rows, token, limit) == Some(page) && page.items == all[..Min(limit, |all|)]
    ensures page.next.Some? <==> |all| > limit
    ensures page.next.Some? ==> Valid(tokens, page.next) && AfterOf(tokens, page.next) == Some(all[limit - 1])
  {
    PageIsFront(tokens, d, rows, token, limit);
    all := Sorted(d, RowsBeyond(d, rows, AfterOf(tokens, token)));
    page := ReadPage(tokens, d, rows, token, limit).value;
  }

  /** `items` are in order, beyond `after` and from the tables; if all was read, nothing that stayed is missing. */
  ghost predicate Covers(d: Direction, tables: seq<set<Key>>, after: Option<Key>, items: seq<Key>, done: bool) {
    && Ascending(d, items)
    && (forall k :: k in items ==> Beyond(d, after, k) && Occurs(tables, k))
    && (done ==> forall k :: Beyond(d, after, k) && Stays(tables, k) ==> k in items)
  }

  ghost predicate Occurs(tables: seq<set<Key>>, k: Key) {
    exists i :: 0 <= i < |tables| && k in tables[i]
  }

  ghost predicate Stays(tables: seq<set<Key>>, k: Key) {
    forall i :: 0 <= i < |tables| ==> k in tables[i]
  }

  /**
   * While rows come and go between the pages, no row is returned twice, all come in order, and a row that is there the
   * whole time is not skipped.
   */
  lemma {:induction false} NothingSkippedOrRepeated(
      tokens: Tokens, d: Direction, tables: seq<set<Key>>, token: Option<string>, limit: nat)
    requires (forall i :: 0 <= i < |tables| ==> RoundTrips(tokens, tables[i])) && limit > 0 && Valid(tokens, token)
    ensures var (items, done) := Follow(tokens, d, tables, token, limit);
            Covers(d, tables, AfterOf(tokens, token), items, done)
    decreases |tables|
  {
    if tables != [] {
      var all, page := PageWithRest(tokens, d, tables[0], token, limit);
      if page.next.Some? {
        NothingSkippedOrRepeated(tokens, d, tables[1..], page.next, limit);
        var (rest, done) := Follow(tokens, d, tables[1..], page.next, limit);
        PageThenRest(d, tables, AfterOf(tokens, token), all, limit, rest, done);
      } else {
        LastPage(d, tables, AfterOf(tokens, token), all);
        assert all[..|all|] == all;
      }
    }
  }

  lemma LastPage(d: Direction, tables: seq<set<Key>>, after: Option<Key>, all: seq<Key>)
    requires tables != [] && Enumerates(d, RowsBeyond(d, tables[0], after), all)
    ensures Covers(d, tables, after, all, true)
  {
    assert forall k :: k in tables[0] ==> Occurs(tables, k);
    assert forall k :: Stays(tables, k) ==> k in tables[0];
  }

  lemma PageThenRest(d: Direction, tables: seq<set<Key>>, after: Option<Key>, all: seq<Key>, limit: nat,
                     rest: seq<Key>, done: bool)
    requires tables != [] && 0 < limit < |all|
    requires Enumerates(d, RowsBeyond(d, tables[0], after), all)
    requires Covers(d, tables[1..], Some(all[limit - 1]), rest, done)
    ensures Covers(d, tables, after, all[..limit] + rest, done)
  {
    var items, last := all[..limit] + rest, all[limit - 1];
    assert last in all;
    forall i, j | 0 <= i < j < |items|
      ensures Before(d, items[i], items[j])
    {
      if i < limit <= j {
        assert items[j] in rest;
        assert i < limit - 1 ==> Before(d, all[i], last);
      }
    }
    forall k | k in items
      ensures Beyond(d, after, k) && Occurs(tables, k)
    {
      if k in rest {
        var i :| 0 <= i < |tables[1..]| && k in tables[1..][i];
        assert k in tables[i + 1];
      } else {
        assert k in all && k in tables[0];
      }
    }
    forall k | Beyond(d, after, k) && Stays(tables, k)
      ensures done ==> k in items
    {
      assert k in tables[0] && k in all;
      var n :| 0 <= n < |all| && all[n] == k;
      if n < limit {
        assert items[n] == k;
      } else {
        assert Beyond(d, Some(last), k);
        assert Stays(tables[1..], k);
      }
    }
  }

  function Repeat(rows: set<Key>, n: nat): (s: seq<set<Key>>)
    ensures |s| == n && forall i :: 0 <= i < n ==> s[i] == rows
  {
    seq(n, i => rows)
  }

  /** What `n` pages hold. */
  function Room(n: nat, limit: nat): nat {
    if n == 0 then 0 else limit + Room(n - 1, limit)
  }

  lemma {:induction false} RoomIsProduct(n: nat, limit: nat)
    ensures Room(n, limit) == n * limit
  {
    if n > 0 {
      RoomIsProduct(n - 1, limit);
    }
  }

  lemma NextPageHasLess(tokens: Tokens, d: Direction, rows: set<Key>, token: Option<string>, limit: nat)
    requires RoundTrips(tokens, rows) && limit > 0 && Valid(tokens, token)
    ensures ReadPage(tokens, d, rows, token, limit).Some?
    ensures var next := ReadPage(tokens, d, rows, token, limit).value.next;
            next.Some? ==>
              && Valid(tokens, next)
              && |RowsBeyond(d, rows, AfterOf(tokens, token))| > limit
              && |RowsBeyond(d, rows, AfterOf(tokens, next))| == |RowsBeyond(d, rows, AfterOf(tokens, token))| - limit
  {
    PageIsFront(tokens, d, rows, token, limit);
    var all := Sorted(d, RowsBeyond(d, rows, AfterOf(tokens, token)));
    if |all| > limit {
      RestIsBeyond(d, rows, AfterOf(tokens, token), all, limit);
    }
  }

  lemma {:induction false} EnoughPages(
      tokens: Tokens, d: Direction, rows: set<Key>, tables: seq<set<Key>>, token: Option<string>, limit: nat)
    requires RoundTrips(tokens, rows) && limit > 0 && Valid(tokens, token) && |tables| > 0
    requires forall i :: 0 <= i < |tables| ==> tables[i] == rows
    requires |RowsBeyond(d, rows, AfterOf(tokens, token))| <= Room(|tables|, limit)
    ensures Follow(tokens, d, tables, token, limit).1
    decreases |tables|
  {
    assert tables[0] == rows;
    NextPageHasLess(tokens, d, rows, token, limit);
    var next := ReadPage(tokens, d, tables[0], token, limit).value.next;
    if next.Some? {
      EnoughPages(tokens, d, rows, tables[1..], next, limit);
    }
  }

  lemma RestIsBeyond(d: Direction, rows: set<Key>, after: Option<Key>, all: seq<Key>, limit: nat)
    requires 0 < limit < |all| && Enumerates(d, RowsBeyond(d, rows, after), all)
    ensures |RowsBeyond(d, rows, Some(all[limit - 1]))| == |all| - limit
  {
    var last, rest := all[limit - 1], all[limit..];
    assert last in all;
    forall k
      ensures k in rest <==> k in RowsBeyond(d, rows, Some(last))
    {
      if k in rest {
        var i :| 0 <= i < |rest| && rest[i] == k;
        assert all[limit + i] == k && k in all;
      }
      if k in RowsBeyond(d, rows, Some(last)) {
        assert k in all;
        var i :| 0 <= i < |all| && all[i] == k;
        assert i >= limit;
        assert rest[i - limit] == k;
      }
    }
    OnlyOneOrder(d, RowsBeyond(d, rows, Some(last)), rest, Sorted(d, RowsBeyond(d, rows, Some(last))));
  }

  /** On a table that stays as it is, the pages, as many as it takes, are the whole list. */
  lemma PagesAreTheList(tokens: Tokens, d: Direction, rows: set<Key>, limit: nat, n: nat)
    requires RoundTrips(tokens, rows) && limit > 0 && n > 0 && |rows| <= n * limit
    ensures Follow(tokens, d, Repeat(rows, n), None, limit) == (Sorted(d, rows), true)
  {
    assert RowsBeyond(d, rows, None) == rows;
    RoomIsProduct(n, limit);
    EnoughPages(tokens, d, rows, Repeat(rows, n), None, limit);
    NothingSkippedOrRepeated(tokens, d, Repeat(rows, n), None, limit);
    var items := Follow(tokens, d, Repeat(rows, n), None, limit).0;
    forall k
      ensures k in items <==> k in rows
    {
      if k in rows {
        assert Beyond(d, None, k) && Stays(Repeat(rows, n), k);
      }
    }
    OnlyOneOrder(d, rows, items, Sorted(d, rows));
  }
}
