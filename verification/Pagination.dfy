/** Keyset pagination over rows with distinct, totally ordered ids. */
module Pagination {
  import opened Common

  datatype Direction = Forward | Backward

  datatype Params = Params(limit: nat, cursor: Option<nat>, direction: Direction)

  function IntoParams(limit: Option<nat>, cursor: Option<nat>, direction: Option<Direction>): (p: Params)
    ensures limit == None ==> p.limit == 20
    ensures limit.Some? ==> p.limit <= 100 && (p.limit == limit.value || (p.limit == 100 && limit.value > 100))
    ensures p.cursor == cursor && (p.direction == Backward <==> direction.Some? && direction.value == Backward)
  {
    var wanted := if limit.Some? then limit.value else 20;
    Params(if wanted < 100 then wanted else 100, cursor, if direction.Some? then direction.value else Forward)
  }

  // ── The query ───────────────────────────────────────────────

  /** `WHERE id > above AND id < below ORDER BY id [DESC] LIMIT limit`. */
  datatype Query = Query(above: Option<nat>, below: Option<nat>, descending: bool, limit: nat)

  predicate Ascending(t: seq<nat>) {
    forall i, j :: 0 <= i < j < |t| ==> t[i] < t[j]
  }

  predicate Matches(q: Query, id: nat) {
    && (q.above.Some? ==> id > q.above.value)
    && (q.below.Some? ==> id < q.below.value)
  }

  function Where(t: seq<nat>, q: Query): seq<nat> {
    if t == [] then [] else (if Matches(q, t[0]) then [t[0]] else []) + Where(t[1..], q)
  }

  function Reverse(s: seq<nat>): seq<nat> {
    seq(|s|, i requires 0 <= i < |s| => s[|s| - 1 - i])
  }

  function Take(s: seq<nat>, n: nat): seq<nat> {
    if n <= |s| then s[..n] else s
  }

  /** The rows the database returns for the table `t`, listed in id order. */
  function Execute(t: seq<nat>, q: Query): seq<nat> {
    Take(if q.descending then Reverse(Where(t, q)) else Where(t, q), q.limit)
  }

  /** `keyset_paginate` appends its clauses to a query being built. */
  class QueryBuilder {
    var query: Query

    constructor ()
      ensures query == Query(None, None, false, 0)
    {
      query := Query(None, None, false, 0);
    }

    method KeysetPaginate(params: Params)
      modifies this
      ensures query.limit == params.limit + 1
      ensures params.direction == Forward ==>
                query.above == (if params.cursor.Some? then params.cursor else old(query.above)) &&
                query.below == old(query.below) && !query.descending
      ensures params.direction == Backward ==>
                query.below == (if params.cursor.Some? then params.cursor else old(query.below)) &&
                query.above == old(query.above) && query.descending
    {
      match params.direction {
        case Forward =>
          if params.cursor.Some? {
            query := query.(above := params.cursor);
          }
          query := query.(descending := false);
        case Backward =>
          if params.cursor.Some? {
            query := query.(below := params.cursor);
          }
          query := query.(descending := true);
      }
      query := query.(limit := params.limit + 1);
    }
  }

  /** The query built on a base query without id bounds. */
  function KeysetQuery(p: Params): Query {
    match p.direction
    case Forward => Query(p.cursor, None, false, p.limit + 1)
    case Backward => Query(None, p.cursor, true, p.limit + 1)
  }

  // ── Pages as slices of the table ────────────────────────────

  datatype Page = Page(items: seq<nat>, next: Option<nat>, prev: Option<nat>)

  /** How many ids of the table are not above `c`. */
  function CountUpTo(t: seq<nat>, c: nat): (n: nat)
    ensures n <= |t|
  {
    if t == [] then 0 else (if t[0] <= c then 1 else 0) + CountUpTo(t[1..], c)
  }

  /** How many are below `c`. */
  function CountBelow(t: seq<nat>, c: nat): (n: nat)
    ensures n <= |t|
  {
    if c == 0 then 0 else CountUpTo(t, c - 1)
  }

  /** Where a page begins and ends in the table. */
  function Start(t: seq<nat>, p: Params): (n: nat)
    ensures n <= |t|
  {
    match p.direction
    case Forward => if p.cursor.Some? then CountUpTo(t, p.cursor.value) else 0
    case Backward =>
      var hi := if p.cursor.Some? then CountBelow(t, p.cursor.value) else |t|;
      if hi <= p.limit then 0 else hi - p.limit
  }

  function End(t: seq<nat>, p: Params): (n: nat)
    ensures Start(t, p) <= n <= |t|
  {
    match p.direction
    case Forward => if Start(t, p) + p.limit < |t| then Start(t, p) + p.limit else |t|
    case Backward => if p.cursor.Some? then CountBelow(t, p.cursor.value) else |t|
  }

  /**
   * What a page is for: `limit` consecutive rows next to the cursor, a next cursor when rows follow and a
   * previous one when rows precede. A backward page always has a next cursor, a forward page reached by a
   * cursor always a previous one; an empty page has neither.
   */
  function PageOf(t: seq<nat>, p: Params): Page {
    var lo, hi := Start(t, p), End(t, p);
    if lo == hi then Page([], None, None)
    else
      Page(t[lo..hi],
           if p.direction == Backward || hi < |t| then Some(t[hi - 1]) else None,
           if (p.direction == Forward && p.cursor.Some?) || (p.direction == Backward && lo > 0)
           then Some(t[lo]) else None)
  }

  /** The fetched rows, popped and reversed in place. */
  class Rows {
    var items: seq<nat>

    constructor (fetched: seq<nat>)
      ensures items == fetched
    {
      items := fetched;
    }

    /** Drop the extra row that only shows there is more, and put the page in ascending order. */
    method PopAndReverse(p: Params, ghost t: seq<nat>) returns (hasMore: bool)
      requires Ascending(t) && items == Execute(t, KeysetQuery(p))
      modifies this
      ensures items == t[Start(t, p)..End(t, p)]
      ensures hasMore <==> if p.direction == Forward then End(t, p) < |t| else Start(t, p) > 0
    {
      if p.direction == Forward {
        PoppedForward(t, p);
      } else {
        PoppedBackward(t, p);
      }
      hasMore := |items| > p.limit;
      if hasMore {
        items := items[..|items| - 1];
      }
      if p.direction == Backward {
        items := Reverse(items);
      }
    }

    /** On the rows of the keyset query of any table, the method leaves exactly the page and its cursors. */
    method GetCursors(p: Params, ghost t: seq<nat>) returns (next: Option<nat>, prev: Option<nat>)
      requires Ascending(t) && items == Execute(t, KeysetQuery(p))
      modifies this
      ensures Page(items, next, prev) == PageOf(t, p)
    {
      var hasMore := PopAndReverse(p, t);
      next, prev := ReadCursors(p, hasMore);
      SliceIsPage(t, p, Start(t, p), End(t, p), hasMore);
    }

    method ReadCursors(p: Params, hasMore: bool) returns (next: Option<nat>, prev: Option<nat>)
      ensures Page(items, next, prev) == WithCursors(items, p, hasMore)
    {
      var first := if items == [] then None else Some(items[0]);
      var last := if items == [] then None else Some(items[|items| - 1]);
      match p.direction {
        case Forward =>
          next := if hasMore then last else None;
          prev := if p.cursor.Some? then first else None;
        case Backward =>
          next := last;
          prev := if hasMore then first else None;
      }
    }
  }

  /** A list endpoint: build the query, fetch, and cut the page with its cursors. */
  method FetchPage(t: seq<nat>, p: Params) returns (page: Page)
    requires Ascending(t)
    ensures page == PageOf(t, p)
  {
    var builder := new QueryBuilder();
    builder.KeysetPaginate(p);
    assert builder.query == KeysetQuery(p);
    var rows := new Rows(Execute(t, builder.query));
    var next, prev := rows.GetCursors(p, t);
    page := Page(rows.items, next, prev);
  }

  function WithCursors(items: seq<nat>, p: Params, hasMore: bool): Page {
    if items == [] then Page([], None, None)
    else
      Page(items,
           if p.direction == Backward || hasMore then Some(items[|items| - 1]) else None,
           if (p.direction == Forward && p.cursor.Some?) || (p.direction == Backward && hasMore)
           then Some(items[0]) else None)
  }

  lemma SliceIsPage(t: seq<nat>, p: Params, lo: nat, hi: nat, hasMore: bool)
    requires lo == Start(t, p) && hi == End(t, p)
    requires hasMore <==> if p.direction == Forward then hi < |t| else lo > 0
    ensures WithCursors(t[lo..hi], p, hasMore) == PageOf(t, p)
  {
  }

  // ── Positions ───────────────────────────────────────────────

  /** The ids up to `c` are a prefix of the table. */
  lemma {:induction false} CountSplits(t: seq<nat>, c: nat)
    requires Ascending(t)
    ensures forall i :: 0 <= i < |t| ==> (t[i] <= c <==> i < CountUpTo(t, c))
  {
    if t != [] {
      CountSplits(t[1..], c);
      forall i | 0 <= i < |t| ensures t[i] <= c <==> i < CountUpTo(t, c) {
        if i > 0 {
          assert t[1..][i - 1] == t[i];
        } else {
          assert t[0] > c && |t| > 1 ==> t[1..][0] > c;
        }
      }
    }
  }

  lemma CountAtIndex(t: seq<nat>, i: nat)
    requires Ascending(t) && i < |t|
    ensures CountUpTo(t, t[i]) == i + 1 && CountBelow(t, t[i]) == i
  {
    CountSplits(t, t[i]);
    assert i + 1 < |t| ==> t[i] < t[i + 1];
    assert i + 1 < |t| ==> i + 1 >= CountUpTo(t, t[i]);
    BelowSplits(t, t[i]);
    assert i > 0 ==> t[i - 1] < t[i];
    assert i > 0 ==> i - 1 < CountBelow(t, t[i]);
  }

  lemma BelowSplits(t: seq<nat>, c: nat)
    requires Ascending(t)
    ensures forall i :: 0 <= i < |t| ==> (t[i] < c <==> i < CountBelow(t, c))
  {
    if c > 0 {
      CountSplits(t, c - 1);
    }
  }

  lemma {:induction false} WhereIsSlice(t: seq<nat>, q: Query, lo: nat, hi: nat)
    requires lo <= hi <= |t| && forall i :: 0 <= i < |t| ==> (Matches(q, t[i]) <==> lo <= i < hi)
    ensures Where(t, q) == t[lo..hi]
  {
    if t != [] {
      forall i | 0 <= i < |t[1..]| ensures t[1..][i] == t[i + 1] {}
      if lo == 0 && hi > 0 {
        WhereIsSlice(t[1..], q, 0, hi - 1);
        assert Matches(q, t[0]);
        assert [t[0]] + t[1..][0..hi - 1] == t[0..hi];
      } else if lo == 0 {
        WhereIsSlice(t[1..], q, 0, 0);
        assert !Matches(q, t[0]);
      } else {
        WhereIsSlice(t[1..], q, lo - 1, hi - 1);
        assert !Matches(q, t[0]);
        assert t[1..][lo - 1..hi - 1] == t[lo..hi];
      }
    }
  }

  /** The query fetches the page, and one row more when there is one beyond it. */
  lemma FetchedForward(t: seq<nat>, p: Params)
    requires Ascending(t) && p.direction == Forward
    ensures Execute(t, KeysetQuery(p)) == t[Start(t, p)..if End(t, p) < |t| then End(t, p) + 1 else |t|]
  {
    if p.cursor.Some? {
      CountSplits(t, p.cursor.value);
    }
    WhereIsSlice(t, KeysetQuery(p), Start(t, p), |t|);
  }

  lemma FetchedBackward(t: seq<nat>, p: Params)
    requires Ascending(t) && p.direction == Backward
    ensures Execute(t, KeysetQuery(p)) == Reverse(t[if Start(t, p) > 0 then Start(t, p) - 1 else 0..End(t, p)])
  {
    if p.cursor.Some? {
      BelowSplits(t, p.cursor.value);
    }
    var hi := End(t, p);
    WhereIsSlice(t, KeysetQuery(p), 0, hi);
    TakeReversed(t[0..hi], p.limit + 1);
    if Start(t, p) > 0 {
      assert t[0..hi][hi - (p.limit + 1)..] == t[Start(t, p) - 1..hi];
    }
  }

  lemma TakeReversed(s: seq<nat>, n: nat)
    ensures Take(Reverse(s), n) == Reverse(s[if n <= |s| then |s| - n else 0..])
  {
    if n > |s| {
      assert s[0..] == s;
    }
  }

  lemma PoppedForward(t: seq<nat>, p: Params)
    requires Ascending(t) && p.direction == Forward
    ensures var rows := Execute(t, KeysetQuery(p));
            && (|rows| > p.limit <==> End(t, p) < |t|)
            && t[Start(t, p)..End(t, p)] == if |rows| > p.limit then rows[..|rows| - 1] else rows
  {
    FetchedForward(t, p);
  }

  lemma ReverseTwice(s: seq<nat>)
    ensures Reverse(Reverse(s)) == s
    ensures s != [] ==> Reverse(Reverse(s)[..|s| - 1]) == s[1..]
  {
  }

  lemma PoppedBackward(t: seq<nat>, p: Params)
    requires Ascending(t) && p.direction == Backward
    ensures var rows := Execute(t, KeysetQuery(p));
            && (|rows| > p.limit <==> Start(t, p) > 0)
            && t[Start(t, p)..End(t, p)] == Reverse(if |rows| > p.limit then rows[..|rows| - 1] else rows)
  {
    FetchedBackward(t, p);
    PoppedSlice(t, Start(t, p), End(t, p), p.limit);
  }

  lemma PoppedSlice(t: seq<nat>, lo: nat, hi: nat, limit: nat)
    requires lo <= hi <= |t| && lo == if hi <= limit then 0 else hi - limit
    ensures var rows := Reverse(t[if lo > 0 then lo - 1 else 0..hi]);
            && (|rows| > limit <==> lo > 0)
            && t[lo..hi] == Reverse(if |rows| > limit then rows[..|rows| - 1] else rows)
  {
    var slice := t[if lo > 0 then lo - 1 else 0..hi];
    ReverseTwice(slice);
    if lo > 0 {
      assert slice[1..] == t[lo..hi];
    }
  }

  // ── Walking forward ─────────────────────────────────────────

  /** A next cursor moves the start of the page to the end of the one before. */
  lemma NextStartsAtEnd(t: seq<nat>, p: Params)
    requires Ascending(t) && PageOf(t, p).next.Some?
    ensures Start(t, Params(p.limit, PageOf(t, p).next, Forward)) == End(t, p) > Start(t, p)
  {
    CountAtIndex(t, End(t, p) - 1);
  }

  /** All pages from a cursor on, following next cursors. */
  function Walk(t: seq<nat>, limit: nat, cursor: Option<nat>): (pages: seq<Page>)
    requires Ascending(t)
    ensures pages != []
    decreases |t| - Start(t, Params(limit, cursor, Forward))
  {
    var p := Params(limit, cursor, Forward);
    var page := PageOf(t, p);
    if page.next == None then [page]
    else
      NextStartsAtEnd(t, p);
      [page] + Walk(t, limit, page.next)
  }

  function Items(pages: seq<Page>): seq<nat> {
    if pages == [] then [] else pages[0].items + Items(pages[1..])
  }

  lemma ItemsOfMore(page: Page, pages: seq<Page>)
    ensures Items([page] + pages) == page.items + Items(pages)
  {
    assert ([page] + pages)[1..] == pages;
  }

  lemma {:induction false} WalkFromCursor(t: seq<nat>, limit: nat, cursor: Option<nat>)
    requires Ascending(t) && limit >= 1
    ensures Items(Walk(t, limit, cursor)) == t[Start(t, Params(limit, cursor, Forward))..]
    decreases |t| - Start(t, Params(limit, cursor, Forward))
  {
    var p := Params(limit, cursor, Forward);
    var page := PageOf(t, p);
    WalkUnfolds(t, limit, cursor);
    PageAndRest(t, p);
    if page.next == None {
      ItemsOfMore(page, []);
      assert [page] + [] == [page];
    } else {
      NextStartsAtEnd(t, p);
      WalkFromCursor(t, limit, page.next);
      ItemsOfMore(page, Walk(t, limit, page.next));
    }
  }

  lemma WalkUnfolds(t: seq<nat>, limit: nat, cursor: Option<nat>)
    requires Ascending(t)
    ensures var page := PageOf(t, Params(limit, cursor, Forward));
            Walk(t, limit, cursor) == if page.next == None then [page] else [page] + Walk(t, limit, page.next)
  {
  }

  /** A forward page, and what is left after it: nothing when it has no next cursor. */
  lemma PageAndRest(t: seq<nat>, p: Params)
    requires p.direction == Forward && p.limit >= 1
    ensures PageOf(t, p).items + t[End(t, p)..] == t[Start(t, p)..]
    ensures PageOf(t, p).next == None ==> t[End(t, p)..] == []
  {
    assert PageOf(t, p).items == t[Start(t, p)..End(t, p)];
  }

  /**
   * Following next cursors ends, and visits every row exactly once in ascending order, exactly when the
   * limit is positive (or there is nothing to visit): a request with limit 0 sees no row at all.
   */
  lemma WalkVisitsAll(t: seq<nat>, limit: nat)
    requires Ascending(t)
    ensures Items(Walk(t, limit, None)) == t <==> limit >= 1 || t == []
  {
    if limit >= 1 {
      WalkFromCursor(t, limit, None);
    } else {
      assert Walk(t, 0, None) == [Page([], None, None)];
      assert Items([Page([], None, None)]) == [];
    }
  }

  // ── Walking back ────────────────────────────────────────────

  /** The parameters with which the k-th page of a walk is fetched. */
  function WalkParams(t: seq<nat>, limit: nat, k: nat): Params
    requires Ascending(t) && k < |Walk(t, limit, None)|
  {
    Params(limit, if k == 0 then None else Walk(t, limit, None)[k - 1].next, Forward)
  }

  lemma {:induction false} WalkFollowsNext(t: seq<nat>, limit: nat, cursor: Option<nat>, k: nat)
    requires Ascending(t) && 0 < k < |Walk(t, limit, cursor)|
    ensures var pages := Walk(t, limit, cursor);
            pages[k - 1].next.Some? && pages[k] == PageOf(t, Params(limit, pages[k - 1].next, Forward))
    decreases k
  {
    var pages := Walk(t, limit, cursor);
    var p := Params(limit, cursor, Forward);
    assert pages[0] == PageOf(t, p);
    assert pages[1..] == Walk(t, limit, pages[0].next);
    assert pages[k] == pages[1..][k - 1];
    if k == 1 {
      assert Walk(t, limit, pages[0].next)[0] == PageOf(t, Params(limit, pages[0].next, Forward));
    } else {
      assert pages[k - 1] == pages[1..][k - 2];
      WalkFollowsNext(t, limit, pages[0].next, k - 1);
    }
  }

  /** The k-th page begins at k times the limit. */
  lemma {:induction false} WalkIsAligned(t: seq<nat>, limit: nat, k: nat)
    requires Ascending(t) && k < |Walk(t, limit, None)|
    ensures Walk(t, limit, None)[k] == PageOf(t, WalkParams(t, limit, k))
    ensures Start(t, WalkParams(t, limit, k)) == k * limit
    ensures k > 0 ==> k * limit < |t| && limit >= 1
  {
    var pages := Walk(t, limit, None);
    if k > 0 {
      WalkIsAligned(t, limit, k - 1);
      WalkFollowsNext(t, limit, None, k);
      var before := WalkParams(t, limit, k - 1);
      NextStartsAtEnd(t, before);
      assert End(t, before) == (k - 1) * limit + limit == k * limit;
    }
  }

  lemma BackwardFrom(t: seq<nat>, limit: nat, i: nat)
    requires Ascending(t) && i < |t|
    ensures var p := Params(limit, Some(t[i]), Backward);
            End(t, p) == i && Start(t, p) == if i <= limit then 0 else i - limit
  {
    CountAtIndex(t, i);
  }

  /**
   * From any later page of a walk, following the previous cursor backward returns exactly the page before,
   * items and both cursors, and its next cursor leads back to the page one came from.
   */
  lemma BackAndForth(t: seq<nat>, limit: nat, k: nat)
    requires Ascending(t) && 0 < k < |Walk(t, limit, None)|
    ensures var pages := Walk(t, limit, None);
            && pages[k].prev.Some?
            && PageOf(t, Params(limit, pages[k].prev, Backward)) == pages[k - 1]
            && PageOf(t, Params(limit, pages[k - 1].next, Forward)) == pages[k]
  {
    WalkFollowsNext(t, limit, None, k);
    PreviousPage(t, limit, k);
  }

  lemma PreviousPage(t: seq<nat>, limit: nat, k: nat)
    requires Ascending(t) && 0 < k < |Walk(t, limit, None)|
    ensures var pages := Walk(t, limit, None);
            pages[k].prev.Some? && PageOf(t, Params(limit, pages[k].prev, Backward)) == pages[k - 1]
  {
    var pages := Walk(t, limit, None);
    WalkIsAligned(t, limit, k);
    WalkIsAligned(t, limit, k - 1);
    WalkFollowsNext(t, limit, None, k);
    if k > 1 {
      WalkFollowsNext(t, limit, None, k - 1);
    }
    assert pages[k].prev == Some(t[k * limit]);
    assert k * limit - limit == (k - 1) * limit;
    BackwardIsForward(t, limit, k * limit, WalkParams(t, limit, k - 1));
  }

  /** The page before position `i` is the same read backward from `i` as forward from where it starts. */
  lemma BackwardIsForward(t: seq<nat>, limit: nat, i: nat, p: Params)
    requires Ascending(t) && limit >= 1 && limit <= i < |t|
    requires p.limit == limit && p.direction == Forward && Start(t, p) == i - limit
    requires p.cursor.Some? <==> i > limit
    ensures PageOf(t, Params(limit, Some(t[i]), Backward)) == PageOf(t, p)
  {
    BackwardFrom(t, limit, i);
  }

  /** A previous cursor of a backward page moves the end of the page to the start of the one after it. */
  lemma PrevEndsAtStart(t: seq<nat>, p: Params)
    requires Ascending(t) && p.direction == Backward && PageOf(t, p).prev.Some?
    ensures End(t, Params(p.limit, PageOf(t, p).prev, Backward)) == Start(t, p) < End(t, p)
  {
    CountAtIndex(t, Start(t, p));
  }

  /** All pages up to a cursor, read backward by previous cursors and listed first page first. */
  function WalkBack(t: seq<nat>, limit: nat, cursor: Option<nat>): seq<Page>
    requires Ascending(t)
    decreases End(t, Params(limit, cursor, Backward))
  {
    var p := Params(limit, cursor, Backward);
    var page := PageOf(t, p);
    if page.prev == None then [page]
    else
      PrevEndsAtStart(t, p);
      WalkBack(t, limit, page.prev) + [page]
  }

  lemma {:induction false} ItemsOfLast(pages: seq<Page>, page: Page)
    ensures Items(pages + [page]) == Items(pages) + page.items
  {
    if pages != [] {
      assert (pages + [page])[1..] == pages[1..] + [page];
      ItemsOfLast(pages[1..], page);
    } else {
      assert pages + [page] == [page] + [];
      ItemsOfMore(page, []);
    }
  }

  lemma WalkBackUnfolds(t: seq<nat>, limit: nat, cursor: Option<nat>)
    requires Ascending(t)
    ensures var page := PageOf(t, Params(limit, cursor, Backward));
            WalkBack(t, limit, cursor) ==
            (if page.prev == None then [] else WalkBack(t, limit, page.prev)) + [page]
  {
  }

  /** A backward page, and what is left before it: nothing when it has no previous cursor. */
  lemma PageAndFront(t: seq<nat>, p: Params)
    requires p.direction == Backward && p.limit >= 1
    ensures t[..Start(t, p)] + PageOf(t, p).items == t[..End(t, p)]
    ensures PageOf(t, p).prev == None ==> t[..Start(t, p)] == []
  {
    assert PageOf(t, p).items == t[Start(t, p)..End(t, p)];
  }

  lemma {:induction false} WalkBackFromCursor(t: seq<nat>, limit: nat, cursor: Option<nat>)
    requires Ascending(t) && limit >= 1
    ensures Items(WalkBack(t, limit, cursor)) == t[..End(t, Params(limit, cursor, Backward))]
    decreases End(t, Params(limit, cursor, Backward))
  {
    var p := Params(limit, cursor, Backward);
    var page := PageOf(t, p);
    WalkBackUnfolds(t, limit, cursor);
    PageAndFront(t, p);
    if page.prev == None {
      ItemsOfLast([], page);
    } else {
      PrevEndsAtStart(t, p);
      WalkBackFromCursor(t, limit, page.prev);
      ItemsOfLast(WalkBack(t, limit, page.prev), page);
    }
  }

  /** Reading from the end by previous cursors reaches the first row and visits every row exactly once too. */
  lemma WalkBackVisitsAll(t: seq<nat>, limit: nat)
    requires Ascending(t)
    ensures Items(WalkBack(t, limit, None)) == t <==> limit >= 1 || t == []
  {
    if limit >= 1 {
      WalkBackFromCursor(t, limit, None);
    } else {
      assert WalkBack(t, 0, None) == [Page([], None, None)];
      assert Items([Page([], None, None)]) == [];
    }
  }

  // ── A table that changes between pages ──────────────────────

  /** Pages read one after the other, the n-th against the n-th version of the table. */
  function WalkOver(versions: seq<seq<nat>>, limit: nat, cursor: Option<nat>): (pages: seq<Page>)
    requires forall n :: 0 <= n < |versions| ==> Ascending(versions[n])
  {
    if versions == [] then []
    else
      var page := PageOf(versions[0], Params(limit, cursor, Forward));
      if page.next == None then [page] else [page] + WalkOver(versions[1..], limit, page.next)
  }

  /** The walk reached a page without a next cursor. */
  predicate Finished(pages: seq<Page>) {
    pages != [] && pages[|pages| - 1].next == None
  }

  predicate IsPast(cursor: Option<nat>, id: nat) {
    cursor.Some? ==> id > cursor.value
  }

  /** A page holds exactly the ids past the cursor, up to its next cursor. */
  lemma PageCovers(t: seq<nat>, limit: nat, cursor: Option<nat>, id: nat)
    requires Ascending(t) && limit >= 1
    ensures var page := PageOf(t, Params(limit, cursor, Forward));
            id in page.items <==> id in t && IsPast(cursor, id) && (page.next.Some? ==> id <= page.next.value)
  {
    var p := Params(limit, cursor, Forward);
    if cursor.Some? {
      CountSplits(t, cursor.value);
    }
    var page := PageOf(t, p);
    if id in t {
      var i :| 0 <= i < |t| && t[i] == id;
      assert IsPast(cursor, id) <==> Start(t, p) <= i;
      if Start(t, p) <= i < End(t, p) {
        assert page.items[i - Start(t, p)] == id;
      }
    }
  }

  lemma PageAscends(t: seq<nat>, p: Params)
    requires Ascending(t)
    ensures Ascending(PageOf(t, p).items)
  {
  }

  lemma JoinAscends(a: seq<nat>, b: seq<nat>, c: nat)
    requires Ascending(a) && Ascending(b) && (forall x | x in a :: x <= c) && (forall x | x in b :: x > c)
    ensures Ascending(a + b)
  {
    forall i, j | 0 <= i < j < |a + b| ensures (a + b)[i] < (a + b)[j] {
      assert i < |a| <= j ==> a[i] in a && b[j - |a|] in b;
    }
  }

  /** The ids of every version past the cursor are visited by a finished walk. */
  lemma {:induction false} WalkOverCovers(versions: seq<seq<nat>>, limit: nat, cursor: Option<nat>, id: nat)
    requires limit >= 1 && forall n :: 0 <= n < |versions| ==> Ascending(versions[n]) && id in versions[n]
    requires IsPast(cursor, id) && Finished(WalkOver(versions, limit, cursor))
    ensures id in Items(WalkOver(versions, limit, cursor))
  {
    var pages := WalkOver(versions, limit, cursor);
    PageCovers(versions[0], limit, cursor, id);
    if pages[0].next.Some? && id > pages[0].next.value {
      assert pages[1..] == WalkOver(versions[1..], limit, pages[0].next);
      WalkOverCovers(versions[1..], limit, pages[0].next, id);
    }
  }

  lemma {:induction false} WalkOverAscends(versions: seq<seq<nat>>, limit: nat, cursor: Option<nat>)
    requires limit >= 1 && forall n :: 0 <= n < |versions| ==> Ascending(versions[n])
    ensures var items := Items(WalkOver(versions, limit, cursor));
            && Ascending(items)
            && (forall id | id in items :: IsPast(cursor, id) && exists n :: 0 <= n < |versions| && id in versions[n])
  {
    var pages := WalkOver(versions, limit, cursor);
    if versions != [] {
      var page := pages[0];
      PageAscends(versions[0], Params(limit, cursor, Forward));
      forall id | id in page.items ensures IsPast(cursor, id) && id in versions[0] {
        PageCovers(versions[0], limit, cursor, id);
      }
      if page.next.Some? {
        var rest := Items(WalkOver(versions[1..], limit, page.next));
        assert pages[1..] == WalkOver(versions[1..], limit, page.next);
        WalkOverAscends(versions[1..], limit, page.next);
        forall id | id in page.items ensures id <= page.next.value {
          PageCovers(versions[0], limit, cursor, id);
        }
        JoinAscends(page.items, rest, page.next.value);
        NextIsPast(versions[0], limit, cursor);
        forall id | id in rest ensures IsPast(cursor, id) && exists n :: 0 <= n < |versions| && id in versions[n] {
          var n :| 0 <= n < |versions[1..]| && id in versions[1..][n];
          assert versions[1..][n] == versions[n + 1];
        }
      } else {
        assert pages[1..] == [];
        assert Items(pages) == page.items;
      }
    }
  }

  lemma NextIsPast(t: seq<nat>, limit: nat, cursor: Option<nat>)
    requires Ascending(t) && PageOf(t, Params(limit, cursor, Forward)).next.Some?
    ensures IsPast(cursor, PageOf(t, Params(limit, cursor, Forward)).next.value)
  {
    if cursor.Some? {
      CountSplits(t, cursor.value);
    }
  }

  /**
   * Rows may come and go between pages: a finished walk still shows no row twice, shows ascending ids that
   * each were in the table, and misses no row that was there throughout.
   */
  lemma WalkSurvivesChanges(versions: seq<seq<nat>>, limit: nat)
    requires limit >= 1 && (forall n :: 0 <= n < |versions| ==> Ascending(versions[n]))
    requires Finished(WalkOver(versions, limit, None))
    ensures var items := Items(WalkOver(versions, limit, None));
            && Ascending(items)
            && (forall id | id in items :: exists n :: 0 <= n < |versions| && id in versions[n])
            && (forall id | versions != [] && forall n :: 0 <= n < |versions| ==> id in versions[n] :: id in items)
  {
    var items := Items(WalkOver(versions, limit, None));
    WalkOverAscends(versions, limit, None);
    forall id | versions != [] && forall n :: 0 <= n < |versions| ==> id in versions[n] ensures id in items {
      WalkOverCovers(versions, limit, None, id);
    }
  }

  // ── Every finite set of ids is such a table ─────────────────

  lemma {:induction false} EverySetHasATable(ids: set<nat>) returns (t: seq<nat>)
    ensures Ascending(t) && (forall id :: id in t <==> id in ids)
    decreases |ids|
  {
    if ids == {} {
      t := [];
    } else {
      var top := Largest(ids);
      var rest := EverySetHasATable(ids - {top});
      forall i | 0 <= i < |rest| ensures rest[i] < top {
        assert rest[i] in rest;
      }
      t := rest + [top];
    }
  }

  lemma {:induction false} Largest(ids: set<nat>) returns (top: nat)
    requires ids != {}
    ensures top in ids && forall id | id in ids :: id <= top
    decreases |ids|
  {
    top :| top in ids;
    var rest := ids - {top};
    assert forall id | id in ids :: id == top || id in rest;
    if rest != {} {
      var other := Largest(rest);
      top := if other > top then other else top;
    }
  }
}
