/** The incremental track of a bike's lock: the server hands out rows in bounded pages by id, the
    client merges them into a route ordered by time, and the result must be the one query the
    pages replace.

    Rows of `ride_lock_points` are immutable and become visible in id order: a later state of the
    table extends an earlier one at the end.
  */
module LockTrack {
  import opened Options

  const PAGE_LIMIT: nat := 500
  const POLL_PAGES: nat := 10

  datatype Point = Point(id: int, x: real, y: real, t: int)

  datatype Page = Page(items: seq<Point>, nextCursor: int, hasMore: bool)

  datatype Track = Track(
    items: seq<Point>, points: seq<(real, real, int)>, nextCursor: int, lastPointAt: Option<int>)

  type Table = seq<Point>

  function Max(a: int, b: int): int { if a >= b then a else b }

  // ---------- the server ----------

  /** `SELECT … WHERE id > after`, on a table kept in id order. */
  function Above(table: Table, after: int): seq<Point> {
    if table == [] then []
    else if table[|table| - 1].id > after then Above(table[..|table| - 1], after) + [table[|table| - 1]]
    else Above(table[..|table| - 1], after)
  }

  function LockTrackPage(table: Table, after: int): Page {
    var rows := Above(table, after);
    var limited := if |rows| > PAGE_LIMIT + 1 then rows[..PAGE_LIMIT + 1] else rows;
    var items := if |limited| > PAGE_LIMIT then limited[..PAGE_LIMIT] else limited;
    Page(items, if items == [] then after else items[|items| - 1].id, |limited| > PAGE_LIMIT)
  }

  predicate Before(a: Point, b: Point) { a.t < b.t || (a.t == b.t && a.id < b.id) }

  /** The place of `p` in a route: after every point that is not later. */
  function Insert(route: seq<Point>, p: Point): seq<Point> {
    if route == [] then [p]
    else if Before(p, route[|route| - 1]) then Insert(route[..|route| - 1], p) + [route[|route| - 1]]
    else route + [p]
  }

  /** `ORDER BY t, id`, and equally the client's sort. */
  function Sorted(points: seq<Point>): seq<Point> {
    if points == [] then [] else Insert(Sorted(points[..|points| - 1]), points[|points| - 1])
  }

  /** The single query that pages replace. */
  function FullQuery(table: Table): seq<Point> { Sorted(table) }

  // ---------- the client ----------

  /** `Map.set`: a known id keeps its place. */
  function MapSet(entries: seq<Point>, p: Point): seq<Point> {
    if entries == [] then [p]
    else if entries[0].id == p.id then [p] + entries[1..]
    else [entries[0]] + MapSet(entries[1..], p)
  }

  function MapSetAll(entries: seq<Point>, points: seq<Point>): seq<Point> {
    if points == [] then entries
    else MapSet(MapSetAll(entries, points[..|points| - 1]), points[|points| - 1])
  }

  function AllItems(pages: seq<Page>): seq<Point> {
    if pages == [] then [] else AllItems(pages[..|pages| - 1]) + pages[|pages| - 1].items
  }

  function MaxCursor(cursor: int, pages: seq<Page>): int {
    if pages == [] then cursor else Max(MaxCursor(cursor, pages[..|pages| - 1]), pages[|pages| - 1].nextCursor)
  }

  function Triples(items: seq<Point>): seq<(real, real, int)> {
    if items == [] then []
    else var p := items[|items| - 1]; Triples(items[..|items| - 1]) + [(p.x, p.y, p.t)]
  }

  function TrackOf(items: seq<Point>, cursor: int): Track {
    Track(items, Triples(items), cursor, if items == [] then None else Some(items[|items| - 1].t))
  }

  function ItemsOf(previous: Option<Track>): seq<Point> {
    if previous.Some? then previous.value.items else []
  }

  function CursorOf(previous: Option<Track>): int {
    if previous.Some? then previous.value.nextCursor else 0
  }

  function Merged(previous: Option<Track>, pages: seq<Page>): Track {
    TrackOf(Sorted(MapSetAll(ItemsOf(previous), AllItems(pages))), MaxCursor(CursorOf(previous), pages))
  }

  predicate NothingNew(previous: Track, pages: seq<Page>) {
    forall i :: 0 <= i < |pages| ==> pages[i].items == [] && pages[i].nextCursor == previous.nextCursor
  }

  function Appended(previous: Option<Track>, pages: seq<Page>): Track {
    if previous.Some? && NothingNew(previous.value, pages) then previous.value else Merged(previous, pages)
  }

  method AppendLockTrack(previous: Option<Track>, pages: seq<Page>) returns (track: Track)
    ensures track == Appended(previous, pages)
  {
    if previous.Some? && NothingNew(previous.value, pages) {
      return previous.value;
    }
    var byId := ItemsOf(previous);
    var nextCursor := CursorOf(previous);
    for i := 0 to |pages|
      invariant byId == MapSetAll(ItemsOf(previous), AllItems(pages[..i]))
      invariant nextCursor == MaxCursor(CursorOf(previous), pages[..i])
    {
      PageMerges(ItemsOf(previous), CursorOf(previous), pages, i);
      ghost var soFar := byId;
      var items := pages[i].items;
      for j := 0 to |items|
        invariant byId == MapSetAll(soFar, items[..j])
      {
        assert items[..j + 1][..j] == items[..j];
        byId := MapSet(byId, items[j]);
      }
      assert items[..|items|] == items;
      nextCursor := Max(nextCursor, pages[i].nextCursor);
    }
    assert pages[..|pages|] == pages;
    return TrackOf(Sorted(byId), nextCursor);
  }

  lemma PageMerges(entries: seq<Point>, cursor: int, pages: seq<Page>, i: nat)
    requires i < |pages|
    ensures MapSetAll(entries, AllItems(pages[..i + 1]))
         == MapSetAll(MapSetAll(entries, AllItems(pages[..i])), pages[i].items)
    ensures MaxCursor(cursor, pages[..i + 1]) == Max(MaxCursor(cursor, pages[..i]), pages[i].nextCursor)
  {
    assert pages[..i + 1][..i] == pages[..i];
    MapSetInTwoParts(entries, AllItems(pages[..i]), pages[i].items);
  }

  lemma {:induction false} MapSetInTwoParts(entries: seq<Point>, first: seq<Point>, second: seq<Point>)
    ensures MapSetAll(entries, first + second) == MapSetAll(MapSetAll(entries, first), second)
  {
    if second == [] {
      assert first + second == first;
    } else {
      var all := first + second;
      assert all[..|all| - 1] == first + second[..|second| - 1];
      MapSetInTwoParts(entries, first, second[..|second| - 1]);
    }
  }

  // ---------- routes are determined by their points ----------

  predicate InRouteOrder(route: seq<Point>) {
    forall i, j :: 0 <= i < j < |route| ==> Before(route[i], route[j])
  }

  predicate DistinctIds(points: seq<Point>) {
    forall i, j :: 0 <= i < j < |points| ==> points[i].id != points[j].id
  }

  predicate SamePoints(a: seq<Point>, b: seq<Point>) {
    (forall p :: p in a ==> p in b) && (forall p :: p in b ==> p in a)
  }

  lemma {:induction false} InsertHolds(route: seq<Point>, p: Point, q: Point)
    ensures q in Insert(route, p) <==> q == p || q in route
  {
    if route != [] && Before(p, route[|route| - 1]) {
      InsertHolds(route[..|route| - 1], p, q);
      assert q in route <==> q in route[..|route| - 1] || q == route[|route| - 1];
    }
  }

  lemma {:induction false} InsertOrders(route: seq<Point>, p: Point)
    requires InRouteOrder(route) && forall i :: 0 <= i < |route| ==> route[i].id != p.id
    ensures InRouteOrder(Insert(route, p))
    ensures |Insert(route, p)| == |route| + 1
  {
    if route != [] {
      var last := route[|route| - 1];
      if Before(p, last) {
        var front := route[..|route| - 1];
        InsertOrders(front, p);
        forall i | 0 <= i < |Insert(front, p)|
          ensures Before(Insert(front, p)[i], last)
        {
          InsertHolds(front, p, Insert(front, p)[i]);
        }
      } else {
        assert Before(last, p);
      }
    }
  }

  lemma {:induction false} SortedHolds(points: seq<Point>, q: Point)
    ensures q in Sorted(points) <==> q in points
  {
    if points != [] {
      SortedHolds(points[..|points| - 1], q);
      InsertHolds(Sorted(points[..|points| - 1]), points[|points| - 1], q);
      assert q in points <==> q in points[..|points| - 1] || q == points[|points| - 1];
    }
  }

  lemma {:induction false} SortedOrders(points: seq<Point>)
    requires DistinctIds(points)
    ensures InRouteOrder(Sorted(points)) && |Sorted(points)| == |points|
  {
    if points != [] {
      var front := points[..|points| - 1];
      SortedOrders(front);
      forall i | 0 <= i < |Sorted(front)|
        ensures Sorted(front)[i].id != points[|points| - 1].id
      {
        SortedHolds(front, Sorted(front)[i]);
      }
      InsertOrders(Sorted(front), points[|points| - 1]);
    }
  }

  lemma SortedDistinct(points: seq<Point>)
    requires DistinctIds(points)
    ensures DistinctIds(Sorted(points))
  {
    var route := Sorted(points);
    SortedOrders(points);
    forall i, j | 0 <= i < j < |route|
      ensures route[i].id != route[j].id
    {
      assert Before(route[i], route[j]) && route[i] != route[j];
      SortedHolds(points, route[i]);
      SortedHolds(points, route[j]);
      var a :| 0 <= a < |points| && points[a] == route[i];
      var b :| 0 <= b < |points| && points[b] == route[j];
      assert points[a].id != points[b].id;
    }
  }

  lemma BothEmpty(a: seq<Point>, b: seq<Point>)
    requires SamePoints(a, b)
    ensures a == [] <==> b == []
  {
    if a != [] {
      assert a[0] in b;
    }
    if b != [] {
      assert b[0] in a;
    }
  }

  /** A route is determined by its points: there is one way to put them in order. */
  lemma {:induction false} OneRoute(a: seq<Point>, b: seq<Point>)
    requires InRouteOrder(a) && InRouteOrder(b) && SamePoints(a, b)
    ensures a == b
  {
    BothEmpty(a, b);
    if a != [] {
      var last := a[|a| - 1];
      assert last in b;
      assert b[|b| - 1] in a;
      assert last == b[|b| - 1];
      FrontsMatch(a, b);
      OneRoute(a[..|a| - 1], b[..|b| - 1]);
    }
  }

  lemma FrontHolds(a: seq<Point>, p: Point)
    requires InRouteOrder(a) && a != []
    ensures p in a[..|a| - 1] <==> p in a && p != a[|a| - 1]
  {
    if p in a[..|a| - 1] {
      var i :| 0 <= i < |a| - 1 && a[..|a| - 1][i] == p;
      assert Before(a[i], a[|a| - 1]);
    }
  }

  lemma FrontsMatch(a: seq<Point>, b: seq<Point>)
    requires InRouteOrder(a) && InRouteOrder(b) && SamePoints(a, b)
    requires a != [] && b != [] && a[|a| - 1] == b[|b| - 1]
    ensures SamePoints(a[..|a| - 1], b[..|b| - 1])
  {
    var frontA, frontB := a[..|a| - 1], b[..|b| - 1];
    forall p
      ensures p in frontA <==> p in frontB
    {
      FrontHolds(a, p);
      FrontHolds(b, p);
    }
  }

  lemma SortedAgree(a: seq<Point>, b: seq<Point>)
    requires DistinctIds(a) && DistinctIds(b)
    ensures Sorted(a) == Sorted(b) <==> SamePoints(a, b)
  {
    forall p
      ensures p in Sorted(a) <==> p in a
      ensures p in Sorted(b) <==> p in b
    {
      SortedHolds(a, p);
      SortedHolds(b, p);
    }
    if SamePoints(a, b) {
      SortedOrders(a);
      SortedOrders(b);
      OneRoute(Sorted(a), Sorted(b));
    }
  }

  // ---------- what a merge holds ----------

  lemma {:induction false} MapSetHolds(entries: seq<Point>, p: Point, q: Point)
    requires DistinctIds(entries)
    ensures q in MapSet(entries, p) <==> q == p || (q in entries && q.id != p.id)
  {
    if entries != [] {
      assert q in entries <==> q == entries[0] || q in entries[1..];
      if entries[0].id == p.id {
        if q in entries[1..] {
          var i :| 0 <= i < |entries| - 1 && entries[1..][i] == q;
          assert entries[i + 1].id != entries[0].id;
        }
      } else {
        MapSetHolds(entries[1..], p, q);
      }
    }
  }

  lemma {:induction false} MapSetDistinct(entries: seq<Point>, p: Point)
    requires DistinctIds(entries)
    ensures DistinctIds(MapSet(entries, p))
  {
    if entries != [] && entries[0].id != p.id {
      var rest := MapSet(entries[1..], p);
      MapSetDistinct(entries[1..], p);
      forall j | 0 <= j < |rest|
        ensures rest[j].id != entries[0].id
      {
        MapSetHolds(entries[1..], p, rest[j]);
        if rest[j] in entries[1..] {
          var i :| 0 <= i < |entries| - 1 && entries[1..][i] == rest[j];
        }
      }
    }
  }

  /** Points that agree on what each id stands for. */
  predicate Consistent(points: seq<Point>) {
    forall p, q :: p in points && q in points && p.id == q.id ==> p == q
  }

  predicate Mentions(points: seq<Point>, id: int) { exists p :: p in points && p.id == id }

  lemma {:induction false} MergeHolds(entries: seq<Point>, points: seq<Point>, q: Point)
    requires DistinctIds(entries) && Consistent(points)
    ensures DistinctIds(MapSetAll(entries, points))
    ensures q in MapSetAll(entries, points) <==> q in points || (q in entries && !Mentions(points, q.id))
  {
    if points != [] {
      var front, last := points[..|points| - 1], points[|points| - 1];
      assert forall p :: p in points <==> p in front || p == last;
      MergeHolds(entries, front, q);
      MapSetHolds(MapSetAll(entries, front), last, q);
      MapSetDistinct(MapSetAll(entries, front), last);
      assert Mentions(points, q.id) <==> Mentions(front, q.id) || q.id == last.id;
    }
  }

  /** What a track becomes depends only on which points arrived and how far the cursor got: not
      on the order of the pages, nor on how often one was replayed. */
  lemma ArrivalOrderIsIrrelevant(previous: Option<Track>, pages: seq<Page>, others: seq<Page>)
    requires DistinctIds(ItemsOf(previous))
    requires Consistent(AllItems(pages)) && SamePoints(AllItems(pages), AllItems(others))
    requires MaxCursor(CursorOf(previous), pages) == MaxCursor(CursorOf(previous), others)
    ensures Merged(previous, pages) == Merged(previous, others)
  {
    var entries, a, b := ItemsOf(previous), AllItems(pages), AllItems(others);
    forall q
      ensures q in MapSetAll(entries, a) <==> q in MapSetAll(entries, b)
    {
      MergeHolds(entries, a, q);
      MergeHolds(entries, b, q);
      assert Mentions(a, q.id) <==> Mentions(b, q.id);
    }
    MergedDistinct(entries, a);
    MergedDistinct(entries, b);
    SortedAgree(MapSetAll(entries, a), MapSetAll(entries, b));
  }

  lemma MergedDistinct(entries: seq<Point>, points: seq<Point>)
    requires DistinctIds(entries) && Consistent(points)
    ensures DistinctIds(MapSetAll(entries, points))
  {
    MergeHolds(entries, points, Point(0, 0.0, 0.0, 0));
  }

  // ---------- paging ----------

  predicate ById(table: Table) {
    forall i, j :: 0 <= i < j < |table| ==> table[i].id < table[j].id
  }

  lemma ByIdIsDistinct(table: Table)
    requires ById(table)
    ensures DistinctIds(table) && Consistent(table)
  {
  }

  lemma {:induction false} AboveHolds(table: Table, after: int, p: Point)
    ensures p in Above(table, after) <==> p in table && p.id > after
  {
    if table != [] {
      AboveHolds(table[..|table| - 1], after, p);
      assert p in table <==> p in table[..|table| - 1] || p == table[|table| - 1];
    }
  }

  /** The rows of `table` from `k` on are those above `after`. */
  predicate SplitAt(table: Table, after: int, k: nat) {
    && k <= |table|
    && (k > 0 ==> table[k - 1].id <= after)
    && (k < |table| ==> table[k].id > after)
  }

  lemma FrontSplits(table: Table, after: int, k: nat)
    requires ById(table) && SplitAt(table, after, k) && k < |table|
    ensures table[|table| - 1].id > after
    ensures ById(table[..|table| - 1]) && SplitAt(table[..|table| - 1], after, k)
  {
  }

  lemma {:induction false} AboveIsSuffix(table: Table, after: int, k: nat)
    requires ById(table) && SplitAt(table, after, k)
    ensures Above(table, after) == table[k..]
  {
    if k == |table| {
      NothingAbove(table, after);
    } else {
      FrontSplits(table, after, k);
      AboveIsSuffix(table[..|table| - 1], after, k);
      SuffixOfFront(table, k);
    }
  }

  lemma SuffixOfFront(table: Table, k: nat)
    requires k < |table|
    ensures table[..|table| - 1][k..] + [table[|table| - 1]] == table[k..]
  {
  }

  lemma {:induction false} NothingAbove(table: Table, after: int)
    requires ById(table) && (table != [] ==> table[|table| - 1].id <= after)
    ensures Above(table, after) == []
  {
    if table != [] {
      NothingAbove(table[..|table| - 1], after);
    }
  }

  lemma {:induction false} SplitExists(table: Table, after: int) returns (k: nat)
    requires ById(table)
    ensures SplitAt(table, after, k)
  {
    if table == [] || table[|table| - 1].id <= after {
      k := |table|;
    } else {
      k := SplitExists(table[..|table| - 1], after);
    }
  }

  /** What is left above a page's cursor is what the page did not deliver. */
  lemma RestAbovePage(table: Table, after: int)
    requires ById(table)
    ensures
      var page := LockTrackPage(table, after);
      && page.items + Above(table, page.nextCursor) == Above(table, after)
      && page.hasMore == (Above(table, page.nextCursor) != [])
      && after <= page.nextCursor && (page.items != [] ==> after < page.nextCursor)
      && (page.hasMore ==> |page.items| == PAGE_LIMIT) && |page.items| <= PAGE_LIMIT
  {
    var page := LockTrackPage(table, after);
    var k := SplitExists(table, after);
    AboveIsSuffix(table, after, k);
    PageIsPrefix(table, after);
    if page.items != [] {
      Rejoins(table, k, page.items);
      RestAfter(table, after, k, k + |page.items|);
    }
  }

  lemma Rejoins(table: Table, k: nat, items: seq<Point>)
    requires k + |items| <= |table| && items == table[k..][..|items|]
    ensures items + table[k + |items|..] == table[k..]
    ensures items != [] ==> items[|items| - 1] == table[k + |items| - 1]
  {
    assert items == table[k..k + |items|];
  }

  lemma RestAfter(table: Table, after: int, k: nat, next: nat)
    requires ById(table) && SplitAt(table, after, k) && k < next <= |table|
    ensures Above(table, table[next - 1].id) == table[next..] && after < table[next - 1].id
  {
    SplitsAfter(table, after, k, next);
    AboveIsSuffix(table, table[next - 1].id, next);
  }

  lemma SplitsAfter(table: Table, after: int, k: nat, next: nat)
    requires ById(table) && SplitAt(table, after, k) && k < next <= |table|
    ensures SplitAt(table, table[next - 1].id, next) && after < table[next - 1].id
  {
    assert k < next - 1 ==> table[k].id < table[next - 1].id;
    assert next < |table| ==> table[next - 1].id < table[next].id;
  }

  lemma PageIsPrefix(table: Table, after: int)
    ensures
      var rows, page := Above(table, after), LockTrackPage(table, after);
      && |page.items| == (if |rows| > PAGE_LIMIT then PAGE_LIMIT else |rows|)
      && page.items == rows[..|page.items|] && page.hasMore == (|page.items| < |rows|)
  {
    var rows := Above(table, after);
    if |rows| > PAGE_LIMIT + 1 {
      assert rows[..PAGE_LIMIT + 1][..PAGE_LIMIT] == rows[..PAGE_LIMIT];
    }
  }

  /** Asking for page after page until there is no more. */
  function Drain(table: Table, after: int): seq<Page>
    requires ById(table)
    decreases |Above(table, after)|
  {
    var page := LockTrackPage(table, after);
    RestAbovePage(table, after);
    if page.hasMore then [page] + Drain(table, page.nextCursor) else [page]
  }

  lemma {:induction false} AllItemsOfMore(page: Page, pages: seq<Page>)
    ensures AllItems([page] + pages) == page.items + AllItems(pages)
  {
    var all := [page] + pages;
    if pages == [] {
      assert all[..0] == [];
    } else {
      assert all[..|all| - 1] == [page] + pages[..|pages| - 1];
      AllItemsOfMore(page, pages[..|pages| - 1]);
    }
  }

  lemma {:induction false} MaxCursorOfMore(cursor: int, page: Page, pages: seq<Page>)
    ensures MaxCursor(cursor, [page] + pages) == MaxCursor(Max(cursor, page.nextCursor), pages)
  {
    var all := [page] + pages;
    if pages == [] {
      assert all[..0] == [];
    } else {
      assert all[..|all| - 1] == [page] + pages[..|pages| - 1];
      MaxCursorOfMore(cursor, page, pages[..|pages| - 1]);
    }
  }

  /** Draining ends: it delivers exactly the rows above the cursor, each once and in id order, in
      the fewest pages of 500 that hold them (one, if there are none). */
  lemma {:induction false} DrainDeliversEachRowOnce(table: Table, after: int)
    requires ById(table)
    ensures AllItems(Drain(table, after)) == Above(table, after)
    ensures Above(table, MaxCursor(after, Drain(table, after))) == [] && after <= MaxCursor(after, Drain(table, after))
    ensures Drain(table, after) != [] && !Drain(table, after)[|Drain(table, after)| - 1].hasMore
    ensures (|Drain(table, after)| - 1) * PAGE_LIMIT <= |Above(table, after)| <= |Drain(table, after)| * PAGE_LIMIT
    ensures |Drain(table, after)| > 1 ==> (|Drain(table, after)| - 1) * PAGE_LIMIT < |Above(table, after)|
    decreases |Above(table, after)|
  {
    var page := LockTrackPage(table, after);
    RestAbovePage(table, after);
    var rest := if page.hasMore then Drain(table, page.nextCursor) else [];
    AllItemsOfMore(page, rest);
    MaxCursorOfMore(after, page, rest);
    if page.hasMore {
      DrainDeliversEachRowOnce(table, page.nextCursor);
    }
  }

  /** After draining, the client's route is the full query exactly when what it held before was
      right: every row up to its cursor, and nothing that is not a row. */
  lemma DrainedIsFullQueryIff(table: Table, previous: Track)
    requires ById(table) && DistinctIds(previous.items)
    ensures Merged(Some(previous), Drain(table, previous.nextCursor)).items == FullQuery(table)
       <==> && (forall p :: p in table && p.id <= previous.nextCursor ==> p in previous.items)
            && (forall p :: p in previous.items && !Mentions(Above(table, previous.nextCursor), p.id) ==> p in table)
  {
    var cursor := previous.nextCursor;
    DrainDeliversEachRowOnce(table, cursor);
    var above := Above(table, cursor);
    ByIdIsDistinct(table);
    forall p
      ensures p in above <==> p in table && p.id > cursor
    {
      AboveHolds(table, cursor, p);
    }
    assert Consistent(above);
    MergedDistinct(previous.items, above);
    SortedAgree(MapSetAll(previous.items, above), table);
    MergeVersusTable(table, previous.items, cursor, above);
  }

  lemma MergeVersusTable(table: Table, items: seq<Point>, cursor: int, above: seq<Point>)
    requires ById(table) && DistinctIds(items) && Consistent(above)
    requires forall p :: p in above <==> p in table && p.id > cursor
    ensures SamePoints(MapSetAll(items, above), table)
       <==> && (forall p :: p in table && p.id <= cursor ==> p in items)
            && (forall p :: p in items && !Mentions(above, p.id) ==> p in table)
  {
    forall p
      ensures p in MapSetAll(items, above) <==> p in above || (p in items && !Mentions(above, p.id))
    {
      MergeHolds(items, above, p);
    }
  }

  // ---------- the early return ----------

  lemma {:induction false} SortedFixesRoutes(route: seq<Point>)
    requires InRouteOrder(route)
    ensures Sorted(route) == route
  {
    if route != [] {
      var front := route[..|route| - 1];
      SortedFixesRoutes(front);
      if front != [] {
        assert Before(front[|front| - 1], route[|route| - 1]);
      }
      assert front + [route[|route| - 1]] == route;
    }
  }

  lemma {:induction false} NothingNewHolds(previous: Track, pages: seq<Page>)
    requires NothingNew(previous, pages)
    ensures AllItems(pages) == [] && MaxCursor(previous.nextCursor, pages) == previous.nextCursor
  {
    if pages != [] {
      NothingNewHolds(previous, pages[..|pages| - 1]);
    }
  }

  /** Returning the previous track untouched when nothing new arrived is what merging would have
      produced exactly when that track was itself in order and derived from its items. */
  lemma EarlyReturnIsMergeIff(previous: Track, pages: seq<Page>)
    requires NothingNew(previous, pages) && DistinctIds(previous.items)
    ensures Merged(Some(previous), pages) == previous
       <==> InRouteOrder(previous.items) && previous == TrackOf(previous.items, previous.nextCursor)
  {
    NothingNewHolds(previous, pages);
    SortedOrders(previous.items);
    if InRouteOrder(previous.items) {
      SortedFixesRoutes(previous.items);
    }
  }

  // ---------- the poll, against a growing table ----------

  predicate Positive(table: Table) { forall i :: 0 <= i < |table| ==> table[i].id > 0 }

  function LastId(table: Table): int { if table == [] then 0 else table[|table| - 1].id }

  /** The client holds exactly the rows up to its cursor, in route order. */
  ghost predicate Synced(track: Track, table: Table) {
    && track == TrackOf(track.items, track.nextCursor)
    && InRouteOrder(track.items) && DistinctIds(track.items)
    && 0 <= track.nextCursor <= LastId(table)
    && forall p :: p in track.items <==> p in table && p.id <= track.nextCursor
  }

  // ---------- the route as it is drawn ----------

  /** The points drawn are the items held, in order of time and then of id, and `lastPointAt` is the
      latest time held. */
  predicate Drawn(track: Track) {
    && |track.points| == |track.items|
    && (forall i :: 0 <= i < |track.items| ==>
          track.points[i] == (track.items[i].x, track.items[i].y, track.items[i].t))
    && (forall i, j :: 0 <= i < j < |track.items| ==>
          || track.items[i].t < track.items[j].t
          || (track.items[i].t == track.items[j].t && track.items[i].id < track.items[j].id))
    && (forall i, j :: 0 <= i < j < |track.points| ==> track.points[i].2 <= track.points[j].2)
    && (track.lastPointAt.None? <==> track.items == [])
    && (track.lastPointAt.Some? ==>
          && (exists i :: 0 <= i < |track.items| && track.items[i].t == track.lastPointAt.value)
          && forall i :: 0 <= i < |track.items| ==> track.items[i].t <= track.lastPointAt.value)
  }

  lemma {:induction false} TriplesAt(items: seq<Point>)
    ensures |Triples(items)| == |items|
    ensures forall i :: 0 <= i < |items| ==> Triples(items)[i] == (items[i].x, items[i].y, items[i].t)
  {
    if items != [] {
      TriplesAt(items[..|items| - 1]);
    }
  }

  lemma RouteIsDrawn(items: seq<Point>, cursor: int)
    requires InRouteOrder(items)
    ensures Drawn(TrackOf(items, cursor))
  {
    TriplesAt(items);
    if items != [] {
      assert items[|items| - 1].t == TrackOf(items, cursor).lastPointAt.value;
    }
  }

  lemma {:induction false} MapSetAllDistinct(entries: seq<Point>, points: seq<Point>)
    requires DistinctIds(entries)
    ensures DistinctIds(MapSetAll(entries, points))
  {
    if points != [] {
      MapSetAllDistinct(entries, points[..|points| - 1]);
      MapSetDistinct(MapSetAll(entries, points[..|points| - 1]), points[|points| - 1]);
    }
  }

  /** Whatever pages arrive, the track that the client makes of them is drawn so. */
  lemma AppendedIsDrawn(previous: Option<Track>, pages: seq<Page>)
    requires previous.Some? ==> Drawn(previous.value) && DistinctIds(previous.value.items)
    ensures Drawn(Appended(previous, pages)) && DistinctIds(Appended(previous, pages).items)
  {
    var points := MapSetAll(ItemsOf(previous), AllItems(pages));
    MapSetAllDistinct(ItemsOf(previous), AllItems(pages));
    SortedOrders(points);
    RouteIsDrawn(Sorted(points), MaxCursor(CursorOf(previous), pages));
    SortedDistinct(points);
  }

  predicate Grown(older: Table, newer: Table) { ById(newer) && Positive(newer) && older <= newer }

  lemma GrownHolds(older: Table, newer: Table, cursor: int, p: Point)
    requires Grown(older, newer) && cursor <= LastId(older)
    ensures LastId(older) <= LastId(newer)
    ensures p in older && p.id <= cursor <==> p in newer && p.id <= cursor
  {
    if p in newer && p.id <= cursor {
      var i :| 0 <= i < |newer| && newer[i] == p;
      assert i < |older| && older[i] == p;
    }
  }

  /** Rows that arrive later do not disturb a client in step. */
  lemma SyncedWhileGrowing(track: Track, older: Table, newer: Table)
    requires Synced(track, older) && Grown(older, newer)
    ensures Synced(track, newer)
  {
    forall p
      ensures p in track.items <==> p in newer && p.id <= track.nextCursor
    {
      GrownHolds(older, newer, track.nextCursor, p);
    }
    GrownHolds(older, newer, track.nextCursor, Point(0, 0.0, 0.0, 0));
  }

  /** The pages fetched so far hold the rows between two cursors. */
  ghost predicate Fetched(pages: seq<Page>, from: int, table: Table, cursor: int) {
    && MaxCursor(from, pages) == cursor
    && 0 <= from <= cursor <= LastId(table)
    && forall p :: p in AllItems(pages) <==> p in table && from < p.id <= cursor
  }

  lemma PageHolds(table: Table, after: int, p: Point)
    requires ById(table)
    ensures p in LockTrackPage(table, after).items
       <==> p in table && after < p.id <= LockTrackPage(table, after).nextCursor
  {
    var page := LockTrackPage(table, after);
    RestAbovePage(table, after);
    AboveHolds(table, after, p);
    AboveHolds(table, page.nextCursor, p);
    assert p in Above(table, after) <==> p in page.items || p in Above(table, page.nextCursor);
    if p in page.items {
      PageWithinCursor(table, after, p);
    }
  }

  lemma PageWithinCursor(table: Table, after: int, p: Point)
    requires ById(table) && p in LockTrackPage(table, after).items
    ensures p.id <= LockTrackPage(table, after).nextCursor
  {
    var k := SplitExists(table, after);
    AboveIsSuffix(table, after, k);
    PageIsPrefix(table, after);
    var items := LockTrackPage(table, after).items;
    var i :| 0 <= i < |items| && items[i] == p;
    assert items[i] == table[k + i] && items[|items| - 1] == table[k + |items| - 1];
  }

  lemma PageWithinTable(table: Table, after: int)
    requires ById(table) && after <= LastId(table)
    ensures LockTrackPage(table, after).nextCursor <= LastId(table)
  {
    var items := LockTrackPage(table, after).items;
    if items != [] {
      var p := items[|items| - 1];
      assert p in items;
      PageHolds(table, after, p);
      var i :| 0 <= i < |table| && table[i] == p;
    }
  }

  lemma FetchOneMore(pages: seq<Page>, from: int, older: Table, newer: Table, cursor: int)
    requires Fetched(pages, from, older, cursor) && Grown(older, newer)
    ensures
      var page := LockTrackPage(newer, cursor);
      Fetched(pages + [page], from, newer, page.nextCursor) && cursor <= page.nextCursor
  {
    var page := LockTrackPage(newer, cursor);
    var all := pages + [page];
    assert all[..|all| - 1] == pages;
    RestAbovePage(newer, cursor);
    GrownHolds(older, newer, cursor, Point(0, 0.0, 0.0, 0));
    PageWithinTable(newer, cursor);
    forall p
      ensures p in AllItems(all) <==> p in newer && from < p.id <= page.nextCursor
    {
      assert p in AllItems(all) <==> p in AllItems(pages) || p in page.items;
      GrownHolds(older, newer, cursor, p);
      PageHolds(newer, cursor, p);
    }
  }

  lemma FetchedIsConsistent(pages: seq<Page>, from: int, table: Table, cursor: int)
    requires ById(table) && Fetched(pages, from, table, cursor)
    ensures Consistent(AllItems(pages))
  {
    ByIdIsDistinct(table);
  }

  ghost predicate InStep(previous: Option<Track>, table: Table) { previous.Some? ==> Synced(previous.value, table) }

  lemma MergedHolds(previous: Option<Track>, pages: seq<Page>, table: Table, cursor: int, p: Point)
    requires ById(table) && Positive(table) && InStep(previous, table)
    requires Fetched(pages, CursorOf(previous), table, cursor)
    ensures p in MapSetAll(ItemsOf(previous), AllItems(pages)) <==> p in table && p.id <= cursor
  {
    FetchedIsConsistent(pages, CursorOf(previous), table, cursor);
    MergeHolds(ItemsOf(previous), AllItems(pages), p);
    if p in ItemsOf(previous) {
      forall q | q in AllItems(pages)
        ensures q.id != p.id
      {
      }
    }
  }

  lemma MergeKeepsStep(previous: Option<Track>, pages: seq<Page>, table: Table, cursor: int)
    requires ById(table) && Positive(table) && InStep(previous, table)
    requires Fetched(pages, CursorOf(previous), table, cursor)
    ensures Synced(Appended(previous, pages), table) && Appended(previous, pages).nextCursor == cursor
  {
    var merged := MapSetAll(ItemsOf(previous), AllItems(pages));
    FetchedIsConsistent(pages, CursorOf(previous), table, cursor);
    MergedDistinct(ItemsOf(previous), AllItems(pages));
    SortedOrders(merged);
    forall p
      ensures p in Sorted(merged) <==> p in table && p.id <= cursor
    {
      SortedHolds(merged, p);
      MergedHolds(previous, pages, table, cursor, p);
    }
    RouteIsDistinct(merged);
    if previous.Some? && NothingNew(previous.value, pages) {
      EarlyReturnIsMergeIff(previous.value, pages);
    }
  }

  lemma RouteIsDistinct(points: seq<Point>)
    requires DistinctIds(points)
    ensures DistinctIds(Sorted(points))
  {
    var route := Sorted(points);
    SortedOrders(points);
    forall i, j | 0 <= i < j < |route|
      ensures route[i].id != route[j].id
    {
      SortedHolds(points, route[i]);
      SortedHolds(points, route[j]);
      assert Before(route[i], route[j]);
    }
  }

  lemma SyncedToTheEnd(track: Track, table: Table)
    requires ById(table) && Synced(track, table) && track.nextCursor == LastId(table)
    ensures track.items == FullQuery(table)
  {
    ByIdIsDistinct(table);
    assert forall p :: p in track.items <==> p in table;
    SortedAgree(track.items, table);
    SortedFixesRoutes(track.items);
  }

  lemma LastPageReachesEnd(table: Table, after: int)
    requires ById(table) && 0 <= after <= LastId(table) && !LockTrackPage(table, after).hasMore
    ensures LockTrackPage(table, after).nextCursor == LastId(table)
  {
    RestAbovePage(table, after);
    PageWithinTable(table, after);
    if table != [] {
      assert table[|table| - 1] in table;
      AboveHolds(table, LockTrackPage(table, after).nextCursor, table[|table| - 1]);
    }
  }

  /** The cursor after the first `n` requests, which found the first of `tables`, and the pages they
      brought. */
  function CursorAfter(cursor: int, tables: seq<Table>, n: nat): int
    requires n <= |tables|
  {
    if n == 0 then cursor else LockTrackPage(tables[n - 1], CursorAfter(cursor, tables, n - 1)).nextCursor
  }

  function Fetches(cursor: int, tables: seq<Table>, n: nat): seq<Page>
    requires n <= |tables|
  {
    if n == 0 then []
    else Fetches(cursor, tables, n - 1) + [LockTrackPage(tables[n - 1], CursorAfter(cursor, tables, n - 1))]
  }

  ghost predicate Polling(previous: Option<Track>, table: Table, pages: seq<Page>, cursor: int, hasMore: bool) {
    && ById(table) && Positive(table) && InStep(previous, table)
    && Fetched(pages, CursorOf(previous), table, cursor)
    && (!hasMore ==> cursor == LastId(table))
  }

  lemma PollOneMore(previous: Option<Track>, older: Table, newer: Table, pages: seq<Page>, cursor: int)
    requires Polling(previous, older, pages, cursor, true) && Grown(older, newer)
    ensures
      var page := LockTrackPage(newer, cursor);
      && cursor <= page.nextCursor && (page.hasMore ==> cursor < page.nextCursor)
      && Polling(previous, newer, pages + [page], page.nextCursor, page.hasMore)
  {
    FetchOneMore(pages, CursorOf(previous), older, newer, cursor);
    RestAbovePage(newer, cursor);
    GrownHolds(older, newer, cursor, Point(0, 0.0, 0.0, 0));
    if previous.Some? {
      SyncedWhileGrowing(previous.value, older, newer);
    }
    if !LockTrackPage(newer, cursor).hasMore {
      LastPageReachesEnd(newer, cursor);
    }
  }

  lemma PollEnds(previous: Option<Track>, table: Table, pages: seq<Page>, cursor: int, hasMore: bool)
    requires Polling(previous, table, pages, cursor, hasMore)
    ensures Synced(Appended(previous, pages), table)
    ensures !hasMore ==> Appended(previous, pages).items == FullQuery(table)
  {
    MergeKeepsStep(previous, pages, table, cursor);
    if !hasMore {
      SyncedToTheEnd(Appended(previous, pages), table);
    }
  }

  predicate GrowingTables(tables: seq<Table>) {
    && tables != [] && ById(tables[0]) && Positive(tables[0])
    && forall n :: 0 < n < |tables| ==> Grown(tables[n - 1], tables[n])
  }

  lemma NextIsGrown(tables: seq<Table>, asked: nat)
    requires GrowingTables(tables) && asked < |tables|
    ensures Grown(tables[if asked == 0 then 0 else asked - 1], tables[asked])
  {
  }

  /** The page that the n-th request brings. */
  function PageAt(previous: Option<Track>, tables: seq<Table>, n: nat): Page
    requires n < |tables|
  {
    LockTrackPage(tables[n], CursorAfter(CursorOf(previous), tables, n))
  }

  predicate MoreAfter(previous: Option<Track>, tables: seq<Table>, n: nat)
    requires n <= |tables|
  {
    n == 0 || PageAt(previous, tables, n - 1).hasMore
  }

  /** However many requests are made, the pages brought and the cursor are in step. */
  lemma {:induction false} PollReaches(previous: Option<Track>, tables: seq<Table>, n: nat)
    requires GrowingTables(tables) && InStep(previous, tables[0]) && n <= |tables|
    ensures Polling(previous, tables[if n == 0 then 0 else n - 1], Fetches(CursorOf(previous), tables, n),
                    CursorAfter(CursorOf(previous), tables, n), MoreAfter(previous, tables, n))
  {
    if n > 0 {
      PollReaches(previous, tables, n - 1);
      PollStep(previous, tables, n - 1);
    }
  }

  lemma PollStep(previous: Option<Track>, tables: seq<Table>, n: nat)
    requires GrowingTables(tables) && n < |tables|
    requires Polling(previous, tables[if n == 0 then 0 else n - 1], Fetches(CursorOf(previous), tables, n),
                     CursorAfter(CursorOf(previous), tables, n), MoreAfter(previous, tables, n))
    ensures Polling(previous, tables[n], Fetches(CursorOf(previous), tables, n + 1),
                    CursorAfter(CursorOf(previous), tables, n + 1), MoreAfter(previous, tables, n + 1))
    ensures PageIsValid(previous, tables, n)
  {
    NextIsGrown(tables, n);
    PollOneMore(previous, tables[if n == 0 then 0 else n - 1], tables[n], Fetches(CursorOf(previous), tables, n),
                CursorAfter(CursorOf(previous), tables, n));
  }

  predicate PageIsValid(previous: Option<Track>, tables: seq<Table>, n: nat)
    requires n < |tables|
  {
    var cursor, page := CursorAfter(CursorOf(previous), tables, n), PageAt(previous, tables, n);
    cursor <= page.nextCursor && (page.hasMore ==> cursor < page.nextCursor)
  }

  /** The client's checks let every page through. */
  lemma PagesAreValid(previous: Option<Track>, tables: seq<Table>, n: nat)
    requires GrowingTables(tables) && InStep(previous, tables[0]) && n < |tables|
    ensures PageIsValid(previous, tables, n)
  {
    PollReaches(previous, tables, n);
    PollStep(previous, tables, n);
  }

  lemma PollIsMerge(previous: Option<Track>, tables: seq<Table>, n: nat)
    requires GrowingTables(tables) && InStep(previous, tables[0]) && 0 < n <= |tables|
    ensures
      var track := Appended(previous, Fetches(CursorOf(previous), tables, n));
      && Synced(track, tables[n - 1]) && Drawn(track)
      && (!MoreAfter(previous, tables, n) ==> track.items == FullQuery(tables[n - 1]))
  {
    PollReaches(previous, tables, n);
    PollEnds(previous, tables[n - 1], Fetches(CursorOf(previous), tables, n),
             CursorAfter(CursorOf(previous), tables, n), MoreAfter(previous, tables, n));
    var track := Appended(previous, Fetches(CursorOf(previous), tables, n));
    RouteIsDrawn(track.items, track.nextCursor);
  }

  /** The requests of one poll; `tables[n]` is the table as the n-th finds it, and `valid` says that
      the page checks let every page through. */
  method FetchPages(previous: Option<Track>, tables: seq<Table>)
    returns (pages: seq<Page>, hasMore: bool, asked: int, valid: bool)
    requires |tables| == POLL_PAGES && GrowingTables(tables) && InStep(previous, tables[0])
    ensures valid && 1 <= asked <= POLL_PAGES && (hasMore ==> asked == POLL_PAGES)
    ensures pages == Fetches(CursorOf(previous), tables, asked) && hasMore == MoreAfter(previous, tables, asked)
  {
    var cursor := CursorOf(previous);
    pages, hasMore, asked, valid := [], true, 0, true;
    while asked < POLL_PAGES && hasMore && valid
      invariant 0 <= asked <= POLL_PAGES && (asked == 0 ==> hasMore) && valid
      invariant cursor == CursorAfter(CursorOf(previous), tables, asked)
      invariant pages == Fetches(CursorOf(previous), tables, asked)
      invariant hasMore == MoreAfter(previous, tables, asked)
    {
      PagesAreValid(previous, tables, asked);
      var page := LockTrackPage(tables[asked], cursor);
      valid := !(page.nextCursor < cursor || (page.hasMore && page.nextCursor == cursor));
      pages := pages + [page];
      cursor, hasMore, asked := page.nextCursor, page.hasMore, asked + 1;
    }
  }

  /** One poll of the client. The page checks never reject what this server sends, the client stays
      in step with the table, and when nothing more is announced its route is the full query as of
      the last request. */
  method Poll(previous: Option<Track>, tables: seq<Table>)
    returns (result: Option<Track>, hasMore: bool, asked: int)
    requires |tables| == POLL_PAGES && GrowingTables(tables) && InStep(previous, tables[0])
    ensures result.Some? && 1 <= asked <= POLL_PAGES && (hasMore ==> asked == POLL_PAGES)
    ensures result == Some(Appended(previous, Fetches(CursorOf(previous), tables, asked)))
    ensures Synced(result.value, tables[asked - 1]) && Drawn(result.value)
    ensures !hasMore ==> result.value.items == FullQuery(tables[asked - 1])
  {
    var pages, more, n, valid := FetchPages(previous, tables);
    hasMore, asked := more, n;
    PollIsMerge(previous, tables, asked);
    if !valid {
      return None, hasMore, asked;
    }
    var track := AppendLockTrack(previous, pages);
    result := Some(track);
  }
}
