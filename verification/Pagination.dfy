/** Keyset pagination of a merchant's orders. */
module Pagination {
  import opened Common

  // The order of (created_at, id)

  predicate TextLess(a: string, b: string)
  {
    if |b| == 0 then false
    else if |a| == 0 then true
    else a[0] < b[0] || (a[0] == b[0] && TextLess(a[1..], b[1..]))
  }

  lemma {:induction false} TextLessIsTotal(a: string, b: string)
    ensures !(TextLess(a, b) && TextLess(b, a)) && (TextLess(a, b) || TextLess(b, a) || a == b)
    ensures a == b ==> !TextLess(a, b)
  {
    if |a| > 0 && |b| > 0 {
      TextLessIsTotal(a[1..], b[1..]);
      if a[0] == b[0] && a[1..] == b[1..] {
        assert a == [a[0]] + a[1..] && b == [b[0]] + b[1..];
      }
    }
  }

  lemma {:induction false} TextLessTransitive(a: string, b: string, c: string)
    requires TextLess(a, b) && TextLess(b, c)
    ensures TextLess(a, c)
  {
    if |a| > 0 && a[0] == b[0] == c[0] {
      TextLessTransitive(a[1..], b[1..], c[1..]);
    }
  }

  /** The order of the alphabet: a proper prefix, or a smaller character at the first difference. */
  lemma {:induction false} TextLessIff(a: string, b: string)
    ensures TextLess(a, b)
            <==> || (|a| < |b| && a == b[..|a|])
                 || exists i :: 0 <= i < |a| && i < |b| && a[..i] == b[..i] && a[i] < b[i]
  {
    if |a| > 0 && |b| > 0 && a[0] == b[0] {
      var a', b' := a[1..], b[1..];
      TextLessIff(a', b');
      assert |a| < |b| ==> b[..|a|] == [b[0]] + b'[..|a'|];
      assert a == [a[0]] + a';
      if i :| 0 <= i < |a'| && i < |b'| && a'[..i] == b'[..i] && a'[i] < b'[i] {
        assert a[..i + 1] == [a[0]] + a'[..i] && b[..i + 1] == [b[0]] + b'[..i];
        assert a[i + 1] < b[i + 1];
      }
      if i :| 0 <= i < |a| && i < |b| && a[..i] == b[..i] && a[i] < b[i] {
        assert a'[..i - 1] == a[..i][1..] && b'[..i - 1] == b[..i][1..];
        assert a'[i - 1] < b'[i - 1];
      }
    } else if |a| > 0 && |b| > 0 {
      assert a[..0] == b[..0];
    }
  }

  datatype RowKey = RowKey(createdAt: int, id: string)

  predicate Less(a: RowKey, b: RowKey)
  {
    a.createdAt < b.createdAt || (a.createdAt == b.createdAt && TextLess(a.id, b.id))
  }

  lemma LessIsTotal(a: RowKey, b: RowKey)
    ensures !(Less(a, b) && Less(b, a)) && (Less(a, b) || Less(b, a) || a == b) && !Less(a, a)
  {
    TextLessIsTotal(a.id, b.id);
    TextLessIsTotal(a.id, a.id);
  }

  lemma LessTransitive(a: RowKey, b: RowKey, c: RowKey)
    requires Less(a, b) && Less(b, c)
    ensures Less(a, c)
  {
    if a.createdAt == b.createdAt == c.createdAt {
      TextLessTransitive(a.id, b.id, c.id);
    }
  }

  // The listing a client should see

  predicate Descending(xs: seq<RowKey>)
  {
    forall i, j :: 0 <= i < j < |xs| ==> Less(xs[j], xs[i])
  }

  /** All of the rows, newest first, each once. */
  ghost predicate IsListing(rows: set<RowKey>, xs: seq<RowKey>)
  {
    Descending(xs) && forall k :: k in xs <==> k in rows
  }

  lemma {:induction false} ListingIsUnique(rows: set<RowKey>, xs: seq<RowKey>, ys: seq<RowKey>)
    requires IsListing(rows, xs) && IsListing(rows, ys)
    ensures xs == ys
    decreases |xs|
  {
    EmptyIff(rows, xs);
    EmptyIff(rows, ys);
    if xs != [] {
      assert xs[0] in xs && ys[0] in ys;
      SameHead(xs, ys);
      TailLists(rows, xs);
      TailLists(rows, ys);
      ListingIsUnique(rows - {xs[0]}, xs[1..], ys[1..]);
      assert xs == [xs[0]] + xs[1..] && ys == [ys[0]] + ys[1..];
    }
  }

  lemma EmptyIff(rows: set<RowKey>, xs: seq<RowKey>)
    requires IsListing(rows, xs)
    ensures xs == [] <==> rows == {}
  {
    if xs != [] { assert xs[0] in xs; }
  }

  lemma SameHead(xs: seq<RowKey>, ys: seq<RowKey>)
    requires Descending(xs) && Descending(ys) && |xs| > 0 && |ys| > 0 && xs[0] in ys && ys[0] in xs
    ensures xs[0] == ys[0]
  {
    var i :| 0 <= i < |ys| && ys[i] == xs[0];
    var j :| 0 <= j < |xs| && xs[j] == ys[0];
    LessIsTotal(xs[0], ys[0]);
  }

  lemma TailLists(rows: set<RowKey>, xs: seq<RowKey>)
    requires IsListing(rows, xs) && |xs| > 0
    ensures IsListing(rows - {xs[0]}, xs[1..])
  {
    LessIsTotal(xs[0], xs[0]);
    assert forall i :: 1 <= i < |xs| ==> Less(xs[i], xs[0]);
    assert xs == [xs[0]] + xs[1..];
  }

  lemma {:induction false} NewestOf(keys: set<RowKey>) returns (best: RowKey)
    requires keys != {}
    ensures best in keys && forall k :: k in keys && k != best ==> Less(k, best)
    decreases |keys|
  {
    var any :| any in keys;
    best := any;
    if keys - {any} == {} {
      forall k | k in keys ensures k == any { assert k !in keys - {any}; }
    } else {
      var other := NewestOf(keys - {any});
      LessIsTotal(any, other);
      if Less(any, other) { best := other; }
      forall k | k in keys && k != best ensures Less(k, best) {
        if k != any && k != other {
          assert k in keys - {any};
          if best == any { LessTransitive(k, other, any); }
        }
      }
    }
  }

  ghost function Max(rows: set<RowKey>): (best: RowKey)
    requires rows != {}
    ensures best in rows && forall k :: k in rows && k != best ==> Less(k, best)
  {
    assert exists best :: best in rows && forall k :: k in rows && k != best ==> Less(k, best) by { var _ := NewestOf(rows); }
    var best :| best in rows && forall k :: k in rows && k != best ==> Less(k, best);
    best
  }

  ghost function Listing(rows: set<RowKey>): seq<RowKey>
    decreases |rows|
  {
    if rows == {} then [] else [Max(rows)] + Listing(rows - {Max(rows)})
  }

  lemma ConsLists(rows: set<RowKey>, best: RowKey, xs: seq<RowKey>)
    requires best in rows && (forall k :: k in rows && k != best ==> Less(k, best)) && IsListing(rows - {best}, xs)
    ensures IsListing(rows, [best] + xs)
  {
    assert forall i :: 0 <= i < |xs| ==> xs[i] in xs;
  }

  lemma {:induction false} ListingLists(rows: set<RowKey>)
    ensures IsListing(rows, Listing(rows))
    decreases |rows|
  {
    if rows != {} {
      ListingLists(rows - {Max(rows)});
      ConsLists(rows, Max(rows), Listing(rows - {Max(rows)}));
    }
  }

  /** Rows before the cursor, all of them without one. */
  ghost function Below(rows: set<RowKey>, cursor: Option<RowKey>): set<RowKey>
  {
    set k | k in rows && (cursor.Some? ==> Less(k, cursor.value))
  }

  /** After the first n of a listing, the rest lists the rows below the n-th. */
  lemma DropLists(rows: set<RowKey>, xs: seq<RowKey>, n: nat)
    requires IsListing(rows, xs) && 0 < n <= |xs|
    ensures Listing(Below(rows, Some(xs[n - 1]))) == xs[n..]
  {
    ListingLists(Below(rows, Some(xs[n - 1])));
    forall k ensures k in xs[n..] <==> k in Below(rows, Some(xs[n - 1])) {
      if k in xs[n..] {
        var i :| 0 <= i < |xs[n..]| && xs[n..][i] == k;
        assert xs[n + i] == k;
      }
      if k in Below(rows, Some(xs[n - 1])) {
        var i :| 0 <= i < |xs| && xs[i] == k;
        LessIsTotal(xs[n - 1], k);
        assert i >= n;
        assert xs[n..][i - n] == k;
      }
    }
    ListingIsUnique(Below(rows, Some(xs[n - 1])), Listing(Below(rows, Some(xs[n - 1]))), xs[n..]);
  }

  // One page

  /** A page holds the first rows below the cursor; more says that rows are left. */
  datatype Page = Page(items: seq<RowKey>, more: bool, next: Option<RowKey>)

  function PageSize(count: int): int
  {
    if count <= 0 || count > 100 then 10 else count
  }

  function Trim(found: seq<RowKey>, size: nat): Page
  {
    var more := |found| > size;
    var items := if more then found[..size] else found;
    Page(items, more, if |items| > 0 then Some(items[|items| - 1]) else None)
  }

  ghost function PageOf(rows: set<RowKey>, cursor: Option<RowKey>, size: nat): Page
  {
    Trim(Listing(Below(rows, cursor)), size)
  }

  // The query

  datatype OrderRow = OrderRow(merchant: string, createdAt: int)

  /** Bounds are in seconds, and zero or less means none. */
  datatype Filter = Filter(merchant: string, from: int, to: int)

  predicate Matches(row: OrderRow, f: Filter)
  {
    && row.merchant == f.merchant
    && (f.from > 0 ==> row.createdAt >= f.from * SECOND)
    && (f.to > 0 ==> row.createdAt <= f.to * SECOND)
  }

  function KeyOf(rows: map<string, OrderRow>, id: string): RowKey
    requires id in rows
  {
    RowKey(rows[id].createdAt, id)
  }

  /** The filtered orders. */
  function Matching(rows: map<string, OrderRow>, f: Filter): set<RowKey>
  {
    set id | id in rows && Matches(rows[id], f) :: KeyOf(rows, id)
  }

  datatype Cursor = NoCursor | Malformed | At(key: RowKey)

  datatype ListResult = Listed(page: Page) | InvalidCursor

  function Start(c: Cursor): Option<RowKey>
  {
    if c.At? then Some(c.key) else None
  }

  // What a page shows

  /** Newest first, and of two orders created at once the one with the greater id first. */
  predicate Before(a: RowKey, b: RowKey)
  {
    a.createdAt > b.createdAt || (a.createdAt == b.createdAt && TextLess(b.id, a.id))
  }

  /** An order of the merchant within the bounds and after the cursor. */
  predicate Wanted(rows: map<string, OrderRow>, f: Filter, cursor: Cursor, id: string)
  {
    && id in rows && rows[id].merchant == f.merchant
    && (f.from > 0 ==> f.from * 1_000_000_000 <= rows[id].createdAt)
    && (f.to > 0 ==> rows[id].createdAt <= f.to * 1_000_000_000)
    && (cursor.At? ==> Before(cursor.key, RowKey(rows[id].createdAt, id)))
  }

  lemma WantedIff(rows: map<string, OrderRow>, f: Filter, cursor: Cursor, k: RowKey)
    ensures k in Below(Matching(rows, f), Start(cursor))
            <==> k.id in rows && k.createdAt == rows[k.id].createdAt && Wanted(rows, f, cursor, k.id)
  {
    if k.id in rows && k.createdAt == rows[k.id].createdAt {
      assert k == KeyOf(rows, k.id);
    }
  }

  /** The page shows wanted orders only, in order and at most a page of them; there is more exactly
      when a wanted order is not shown. */
  ghost predicate ShowsPage(rows: map<string, OrderRow>, f: Filter, cursor: Cursor, limit: int, page: Page)
  {
    && (forall k :: k in page.items ==>
          k.id in rows && k.createdAt == rows[k.id].createdAt && Wanted(rows, f, cursor, k.id))
    && (forall i, j :: 0 <= i < j < |page.items| ==> Before(page.items[i], page.items[j]))
    && (forall id, k :: Wanted(rows, f, cursor, id) && RowKey(rows[id].createdAt, id) !in page.items && k in page.items ==>
          Before(k, RowKey(rows[id].createdAt, id)))
    && (page.more <==> exists id :: Wanted(rows, f, cursor, id) && RowKey(rows[id].createdAt, id) !in page.items)
    && |page.items| <= limit && (page.more ==> |page.items| == limit)
    && page.next == (if |page.items| > 0 then Some(page.items[|page.items| - 1]) else None)
  }

  /** The rest of a listing comes after what is shown of it. */
  lemma RestComesAfter(rows: map<string, OrderRow>, f: Filter, cursor: Cursor, size: nat, id: string)
    requires Wanted(rows, f, cursor, id)
    ensures var page := PageOf(Matching(rows, f), Start(cursor), size);
            RowKey(rows[id].createdAt, id) in page.items
            || (page.more && forall k :: k in page.items ==> Before(k, RowKey(rows[id].createdAt, id)))
  {
    var all := Below(Matching(rows, f), Start(cursor));
    var key, xs := RowKey(rows[id].createdAt, id), Listing(all);
    ListingLists(all);
    WantedIff(rows, f, cursor, key);
    var i :| 0 <= i < |xs| && xs[i] == key;
    if |xs| > size {
      if i < size { assert xs[..size][i] == key; }
    }
  }

  lemma PageLaw(rows: map<string, OrderRow>, f: Filter, cursor: Cursor, size: nat)
    ensures ShowsPage(rows, f, cursor, size, PageOf(Matching(rows, f), Start(cursor), size))
  {
    var all := Below(Matching(rows, f), Start(cursor));
    var xs, page := Listing(all), PageOf(Matching(rows, f), Start(cursor), size);
    ListingLists(all);
    forall k | k in page.items
      ensures k.id in rows && k.createdAt == rows[k.id].createdAt && Wanted(rows, f, cursor, k.id)
    {
      assert k in xs;
      WantedIff(rows, f, cursor, k);
    }
    forall id | Wanted(rows, f, cursor, id) && RowKey(rows[id].createdAt, id) !in page.items
      ensures page.more && forall k :: k in page.items ==> Before(k, RowKey(rows[id].createdAt, id))
    {
      RestComesAfter(rows, f, cursor, size, id);
    }
    if page.more {
      NextIsWanted(rows, f, cursor, size);
    }
  }

  lemma NextIsWanted(rows: map<string, OrderRow>, f: Filter, cursor: Cursor, size: nat)
    requires PageOf(Matching(rows, f), Start(cursor), size).more
    ensures exists id :: Wanted(rows, f, cursor, id)
                         && RowKey(rows[id].createdAt, id) !in PageOf(Matching(rows, f), Start(cursor), size).items
  {
    var all := Below(Matching(rows, f), Start(cursor));
    var xs := Listing(all);
    ListingLists(all);
    var next := xs[size];
    assert next in xs;
    WantedIff(rows, f, cursor, next);
    forall i | 0 <= i < size ensures xs[i] != next {
      LessIsTotal(xs[i], next);
      assert Less(xs[size], xs[i]);
    }
    assert RowKey(rows[next.id].createdAt, next.id) == next;
    assert next !in xs[..size];
  }

  method Newest(keys: set<RowKey>) returns (best: RowKey)
    requires keys != {}
    ensures best in keys && forall k :: k in keys && k != best ==> Less(k, best)
  {
    best :| best in keys;
    var rest := keys - {best};
    while rest != {}
      invariant rest <= keys && best in keys
      invariant forall k :: k in keys - rest && k != best ==> Less(k, best)
      decreases |rest|
    {
      var k :| k in rest;
      ghost var was := best;
      LessIsTotal(k, best);
      if Less(best, k) {
        best := k;
        forall j | j in keys - rest && j != was ensures Less(j, best) {
          LessTransitive(j, was, best);
        }
      }
      rest := rest - {k};
    }
  }

  /** The first rows of a listing, one more than a page holds. */
  ghost predicate Found(rows: set<RowKey>, rest: set<RowKey>, items: seq<RowKey>)
  {
    && Descending(items) && rest <= rows
    && (forall k :: k in rows <==> k in items || k in rest)
    && (forall k, j :: k in items && j in rest ==> Less(j, k))
  }

  lemma FoundOne(rows: set<RowKey>, rest: set<RowKey>, items: seq<RowKey>, best: RowKey)
    requires Found(rows, rest, items) && best in rest && forall k :: k in rest && k != best ==> Less(k, best)
    ensures Found(rows, rest - {best}, items + [best])
  {
  }

  /** Cutting the search off after more than a page makes no difference to the page. */
  lemma {:induction false} CutMakesNoDifference(rows: set<RowKey>, rest: set<RowKey>, items: seq<RowKey>, size: nat)
    requires Found(rows, rest, items) && (rest == {} || |items| > size)
    ensures Trim(items, size) == Trim(Listing(rows), size)
    decreases |rest|
  {
    if rest == {} {
      ListingLists(rows);
      ListingIsUnique(rows, items, Listing(rows));
    } else {
      var best := NewestOf(rest);
      FoundOne(rows, rest, items, best);
      CutMakesNoDifference(rows, rest - {best}, items + [best], size);
      assert (items + [best])[..size] == items[..size];
    }
  }

  /** ORDER BY created_at DESC, id DESC with a LIMIT one above the page size. */
  method FetchOrdered(all: set<RowKey>, size: nat) returns (items: seq<RowKey>)
    ensures Trim(items, size) == Trim(Listing(all), size)
  {
    var rest := all;
    items := [];
    while |items| < size + 1 && rest != {}
      invariant Found(all, rest, items)
      decreases |rest|
    {
      var best := Newest(rest);
      FoundOne(all, rest, items, best);
      items := items + [best];
      rest := rest - {best};
    }
    CutMakesNoDifference(all, rest, items, size);
  }

  method List(rows: map<string, OrderRow>, f: Filter, count: int, cursor: Cursor) returns (r: ListResult)
    ensures cursor == Malformed <==> r == InvalidCursor
    ensures r.Listed? ==> r.page == PageOf(Matching(rows, f), Start(cursor), PageSize(count))
    ensures r.Listed? ==> ShowsPage(rows, f, cursor, if 1 <= count <= 100 then count else 10, r.page)
  {
    var size := count;
    if count <= 0 || count > 100 {
      size := 10;
    }
    if cursor == Malformed {
      return InvalidCursor;
    }
    var all := set id | id in rows && Matches(rows[id], f) && (cursor.At? ==> Less(KeyOf(rows, id), cursor.key)) :: KeyOf(rows, id);
    assert all == Below(Matching(rows, f), Start(cursor));
    var items := FetchOrdered(all, size);
    ghost var page := Trim(items, size);
    var more := |items| > size;
    if more {
      items := items[..size];
    }
    var next := None;
    if |items| > 0 {
      next := Some(items[|items| - 1]);
    }
    r := Listed(Page(items, more, next));
    assert r.page == page;
    PageLaw(rows, f, cursor, size);
  }

  // Following the cursors

  /** What a client has collected after some pages, and where it goes on. */
  datatype Progress = Progress(items: seq<RowKey>, cursor: Option<RowKey>, more: bool)

  const BEGIN := Progress([], None, true)

  /** One page after another, each read from the table as it then is, until more is false. */
  ghost function Follow(tables: seq<set<RowKey>>, size: nat): Progress
  {
    if |tables| == 0 then BEGIN
    else
      var p := Follow(tables[..|tables| - 1], size);
      if !p.more then p
      else
        var page := PageOf(tables[|tables| - 1], p.cursor, size);
        Progress(p.items + page.items, page.next, page.more)
  }

  ghost predicate OnlyNewer(rows: set<RowKey>, rows': set<RowKey>, cursor: Option<RowKey>)
  {
    rows <= rows' && forall k :: k in rows' && k !in rows ==> cursor.Some? && Less(cursor.value, k)
  }

  /** Rows that appear between two pages are newer than the cursor the client holds. */
  ghost predicate NewerBetweenPages(tables: seq<set<RowKey>>, size: nat)
  {
    forall i :: 0 < i < |tables| ==> OnlyNewer(tables[i - 1], tables[i], Follow(tables[..i], size).cursor)
  }

  lemma NewerIsInvisible(first: set<RowKey>, rows: set<RowKey>, rows': set<RowKey>, cursor: Option<RowKey>)
    requires Below(rows, cursor) == Below(first, cursor) && OnlyNewer(rows, rows', cursor)
    ensures Below(rows', cursor) == Below(first, cursor)
  {
    forall k | k in rows' && k !in rows ensures k !in Below(rows', cursor) {
      LessIsTotal(k, cursor.value);
    }
    assert forall k :: k in Below(rows', cursor) <==> k in Below(rows, cursor);
  }

  lemma BelowLater(rows: set<RowKey>, rows': set<RowKey>, c: RowKey, c': RowKey)
    requires Below(rows, Some(c)) == Below(rows', Some(c)) && (Less(c', c) || c' == c)
    ensures Below(rows, Some(c')) == Below(rows', Some(c'))
  {
    forall k | Less(k, c') ensures k in rows <==> k in rows' {
      if c' != c { LessTransitive(k, c', c); }
      assert k in Below(rows, Some(c)) <==> k in rows;
      assert k in Below(rows', Some(c)) <==> k in rows';
    }
  }

  /** After n pages with more to come: the first n * size rows of the listing are collected
      and the table below the cursor is as it was. */
  ghost predicate OnTrack(first: set<RowKey>, rows: set<RowKey>, p: Progress, collected: nat)
  {
    var xs := Listing(first);
    && 0 < collected < |xs| && p.items == xs[..collected] && p.cursor == Some(xs[collected - 1])
    && Below(rows, p.cursor) == Below(first, p.cursor)
  }

  lemma FirstPage(first: set<RowKey>, size: nat)
    requires size > 0
    ensures var p := Follow([first], size);
            if p.more then OnTrack(first, first, p, size) else p.items == Listing(first)
  {
    assert [first][..0] == [];
    assert Below(first, None) == first;
    assert [] + PageOf(first, None, size).items == PageOf(first, None, size).items;
  }

  /** The page read at the cursor continues the listing where the client stands. */
  lemma PageContinues(first: set<RowKey>, rows: set<RowKey>, rows': set<RowKey>, p: Progress, collected: nat, size: nat)
    requires OnTrack(first, rows, p, collected) && OnlyNewer(rows, rows', p.cursor)
    ensures PageOf(rows', p.cursor, size) == Trim(Listing(first)[collected..], size)
    ensures Below(rows', p.cursor) == Below(first, p.cursor)
  {
    ListingLists(first);
    NewerIsInvisible(first, rows, rows', p.cursor);
    DropLists(first, Listing(first), collected);
  }

  lemma CursorDescends(first: set<RowKey>, rows: set<RowKey>, i: nat, j: nat)
    requires i < j < |Listing(first)| && Below(rows, Some(Listing(first)[i])) == Below(first, Some(Listing(first)[i]))
    ensures Below(rows, Some(Listing(first)[j])) == Below(first, Some(Listing(first)[j]))
  {
    ListingLists(first);
    BelowLater(rows, first, Listing(first)[i], Listing(first)[j]);
  }

  lemma NextPage(first: set<RowKey>, rows: set<RowKey>, rows': set<RowKey>, p: Progress, collected: nat, size: nat)
    requires size > 0 && OnTrack(first, rows, p, collected) && OnlyNewer(rows, rows', p.cursor)
    ensures var page := PageOf(rows', p.cursor, size);
            var p' := Progress(p.items + page.items, page.next, page.more);
            if page.more then OnTrack(first, rows', p', collected + size) else p'.items == Listing(first)
  {
    var xs := Listing(first);
    PageContinues(first, rows, rows', p, collected, size);
    if |xs| - collected > size {
      assert xs[..collected] + xs[collected..][..size] == xs[..collected + size];
      CursorDescends(first, rows', collected - 1, collected + size - 1);
    } else {
      assert xs[..collected] + xs[collected..] == xs;
    }
  }

  lemma NewerPrefix(tables: seq<set<RowKey>>, size: nat)
    requires |tables| > 1 && NewerBetweenPages(tables, size)
    ensures NewerBetweenPages(tables[..|tables| - 1], size)
    ensures OnlyNewer(tables[|tables| - 2], tables[|tables| - 1], Follow(tables[..|tables| - 1], size).cursor)
  {
    var init := tables[..|tables| - 1];
    forall i | 0 < i < |init| ensures OnlyNewer(init[i - 1], init[i], Follow(init[..i], size).cursor) {
      assert init[..i] == tables[..i];
    }
  }

  function Times(n: nat, size: nat): nat
  {
    if n == 0 then 0 else Times(n - 1, size) + size
  }

  lemma {:induction false} TimesIsProduct(n: nat, size: nat)
    ensures Times(n, size) == n * size
  {
    if n > 0 { TimesIsProduct(n - 1, size); }
  }

  lemma {:induction false} FollowCollects(tables: seq<set<RowKey>>, size: nat)
    requires |tables| > 0 && size > 0 && NewerBetweenPages(tables, size)
    ensures var p := Follow(tables, size);
            if p.more then OnTrack(tables[0], tables[|tables| - 1], p, Times(|tables|, size)) else p.items == Listing(tables[0])
  {
    if |tables| == 1 {
      assert tables == [tables[0]];
      FirstPage(tables[0], size);
      assert Times(1, size) == size;
    } else {
      var n := |tables| - 1;
      var p := Follow(tables[..n], size);
      NewerPrefix(tables, size);
      FollowCollects(tables[..n], size);
      if p.more {
        NextPage(tables[0], tables[n - 1], tables[n], p, Times(n, size), size);
      }
    }
  }

  /** Following the cursors collects, page by page, exactly the listing of the first table:
      a prefix while there is more, all of it when there is no more. Rows inserted above the
      cursor meanwhile change nothing, and there is more only while pages * size falls short. */
  lemma FollowingCursorsListsAll(tables: seq<set<RowKey>>, size: nat)
    requires |tables| > 0 && size > 0 && NewerBetweenPages(tables, size)
    ensures var p, xs := Follow(tables, size), Listing(tables[0]);
            && IsListing(tables[0], xs)
            && (!p.more ==> p.items == xs)
            && (p.more ==> |tables| * size < |xs| && p.items == xs[..|tables| * size])
  {
    ListingLists(tables[0]);
    FollowCollects(tables, size);
    TimesIsProduct(|tables|, size);
  }

  // Following the cursors through the order table

  /** The filtered keys of each table the client reads. */
  function KeySets(tables: seq<map<string, OrderRow>>, f: Filter): seq<set<RowKey>>
  {
    seq(|tables|, i requires 0 <= i < |tables| => Matching(tables[i], f))
  }

  /** Wanted orders stay as they are, and those that appear come before the cursor. */
  ghost predicate OnlyNewerOrders(rows: map<string, OrderRow>, rows': map<string, OrderRow>, f: Filter, cursor: Option<RowKey>)
  {
    && (forall id :: Wanted(rows, f, NoCursor, id) ==>
          Wanted(rows', f, NoCursor, id) && rows'[id].createdAt == rows[id].createdAt)
    && (forall id :: Wanted(rows', f, NoCursor, id) && !Wanted(rows, f, NoCursor, id) ==>
          cursor.Some? && Before(RowKey(rows'[id].createdAt, id), cursor.value))
  }

  lemma OnlyNewerKeys(rows: map<string, OrderRow>, rows': map<string, OrderRow>, f: Filter, cursor: Option<RowKey>)
    requires OnlyNewerOrders(rows, rows', f, cursor)
    ensures OnlyNewer(Matching(rows, f), Matching(rows', f), cursor)
  {
    forall k ensures k in Matching(rows, f) ==> k in Matching(rows', f) {
      MatchingIff(rows, f, k);
      MatchingIff(rows', f, k);
    }
    forall k | k in Matching(rows', f) && k !in Matching(rows, f) ensures cursor.Some? && Less(cursor.value, k) {
      MatchingIff(rows, f, k);
      MatchingIff(rows', f, k);
    }
  }

  lemma MatchingIff(rows: map<string, OrderRow>, f: Filter, k: RowKey)
    ensures k in Matching(rows, f) <==> k.id in rows && k.createdAt == rows[k.id].createdAt && Wanted(rows, f, NoCursor, k.id)
  {
    WantedIff(rows, f, NoCursor, k);
  }

  /** The orders of the merchant within the bounds, newest first, each once. */
  ghost predicate IsOrderListing(rows: map<string, OrderRow>, f: Filter, xs: seq<RowKey>)
  {
    && (forall i, j :: 0 <= i < j < |xs| ==> Before(xs[i], xs[j]) && xs[i] != xs[j])
    && (forall k :: k in xs ==> k.id in rows && k.createdAt == rows[k.id].createdAt && Wanted(rows, f, NoCursor, k.id))
    && (forall id :: Wanted(rows, f, NoCursor, id) ==> RowKey(rows[id].createdAt, id) in xs)
  }

  lemma ListingOfOrders(rows: map<string, OrderRow>, f: Filter)
    ensures IsOrderListing(rows, f, Listing(Matching(rows, f)))
  {
    var xs := Listing(Matching(rows, f));
    ListingLists(Matching(rows, f));
    forall i, j | 0 <= i < j < |xs| ensures Before(xs[i], xs[j]) && xs[i] != xs[j] {
      LessIsTotal(xs[i], xs[j]);
    }
    forall k ensures k in xs <==> k.id in rows && k.createdAt == rows[k.id].createdAt && Wanted(rows, f, NoCursor, k.id) {
      MatchingIff(rows, f, k);
    }
    forall id | Wanted(rows, f, NoCursor, id) ensures RowKey(rows[id].createdAt, id) in xs {
      MatchingIff(rows, f, RowKey(rows[id].createdAt, id));
    }
  }

  /** A client that follows the cursors of a filtered order table collects exactly the merchant's
      orders within the bounds as they stood at its first page. */
  lemma FollowingCursorsListsOrders(tables: seq<map<string, OrderRow>>, f: Filter, size: nat) returns (xs: seq<RowKey>)
    requires |tables| > 0 && size > 0
    requires forall i :: 0 < i < |tables| ==>
               OnlyNewerOrders(tables[i - 1], tables[i], f, Follow(KeySets(tables, f)[..i], size).cursor)
    ensures IsOrderListing(tables[0], f, xs)
    ensures var p := Follow(KeySets(tables, f), size);
            && (!p.more ==> p.items == xs)
            && (p.more ==> |tables| * size < |xs| && p.items == xs[..|tables| * size])
  {
    var keys := KeySets(tables, f);
    forall i | 0 < i < |keys| ensures OnlyNewer(keys[i - 1], keys[i], Follow(keys[..i], size).cursor) {
      OnlyNewerKeys(tables[i - 1], tables[i], f, Follow(keys[..i], size).cursor);
    }
    FollowingCursorsListsAll(keys, size);
    ListingOfOrders(tables[0], f);
    xs := Listing(keys[0]);
  }
}
