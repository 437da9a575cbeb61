/**
  The hold-expiry scheduler: discovery of candidate resources page by page with an in-memory cursor
  that wraps around, and the bound on how long a candidate can be passed over.
 */
module Scheduler {
  import opened Times
  import opened Wrappers
  import opened Inventory
  import opened Sizes
  import Invariant
  import Operations
  import Store

  type Cursor = Option<ResourceId>

  predicate After(id: ResourceId, cursor: Cursor) {
    cursor.None? || cursor.value < id
  }

  function Beyond(ids: set<ResourceId>, cursor: Cursor): set<ResourceId> {
    set x | x in ids && After(x, cursor)
  }

  predicate IsLeast(ids: set<ResourceId>, m: ResourceId) {
    m in ids && forall x | x in ids :: m <= x
  }

  lemma {:induction false} LeastExists(ids: set<ResourceId>)
    requires ids != {}
    ensures exists m :: IsLeast(ids, m)
    decreases ids
  {
    var x :| x in ids;
    if ids == {x} {
      assert IsLeast(ids, x);
    } else {
      LeastExists(ids - {x});
      var m :| IsLeast(ids - {x}, m);
      LeastOfTwo(ids, x, m);
    }
  }

  lemma LeastOfTwo(ids: set<ResourceId>, x: ResourceId, m: ResourceId)
    requires x in ids && IsLeast(ids - {x}, m)
    ensures IsLeast(ids, if m < x then m else x)
  {
    forall y | y in ids ensures (if m < x then m else x) <= y {
      assert y == x || y in ids - {x};
    }
  }

  /** WHERE resource_id > cursor ORDER BY resource_id LIMIT limit. */
  function Query(ids: set<ResourceId>, cursor: Cursor, limit: nat): (page: seq<ResourceId>)
    ensures IsPage(ids, cursor, limit, page)
    decreases limit
  {
    if limit == 0 || Beyond(ids, cursor) == {} then []
    else
      LeastExists(Beyond(ids, cursor));
      var m :| IsLeast(Beyond(ids, cursor), m);
      var rest := Query(ids, Some(m), limit - 1);
      PageStep(ids, cursor, limit, m, rest);
      [m] + rest
  }

  /** The first candidates beyond the cursor, in order, and no fewer than the limit allows. */
  ghost predicate IsPage(ids: set<ResourceId>, cursor: Cursor, limit: nat, page: seq<ResourceId>) {
    && |page| <= limit
    && (forall i | 0 <= i < |page| :: page[i] in Beyond(ids, cursor))
    && (forall i, j | 0 <= i < j < |page| :: page[i] < page[j])
    && (forall x | x in Beyond(ids, cursor) && x !in page ::
          |page| == limit && forall i | 0 <= i < |page| :: page[i] < x)
  }

  lemma PageStep(ids: set<ResourceId>, cursor: Cursor, limit: nat, m: ResourceId, rest: seq<ResourceId>)
    requires limit > 0 && IsLeast(Beyond(ids, cursor), m) && IsPage(ids, Some(m), limit - 1, rest)
    ensures IsPage(ids, cursor, limit, [m] + rest)
  {}

  /**
    discover_candidate_resources: the page after the cursor, or the first page when there is nothing
    after it. Between its two queries candidates may change: the second sees second.
   */
  function Discover(
      first: set<ResourceId>, second: set<ResourceId>, cursor: Cursor, limit: nat): (seq<ResourceId>, bool)
  {
    var page := Query(first, cursor, limit);
    if page == [] && cursor.Some? then
      var again := Query(second, None, limit);
      (again, |again| < limit)
    else (page, |page| < limit)
  }

  /** Where run_cycle leaves the cursor. */
  function NextCursor(first: set<ResourceId>, second: set<ResourceId>, cursor: Cursor, limit: nat): Cursor {
    var (page, reachedEnd) := Discover(first, second, cursor, limit);
    if reachedEnd then None
    else if page == [] then cursor
    else Some(page[|page| - 1])
  }

  // ---------- Fairness ----------

  /** Pages of the given size that a number of rows fills. */
  function Pages(rows: nat, limit: nat): nat
    requires limit > 0
    decreases rows
  {
    if rows == 0 then 0 else if rows <= limit then 1 else 1 + Pages(rows - limit, limit)
  }

  lemma {:induction false} PagesIsCeiling(rows: nat, limit: nat)
    requires limit > 0
    ensures Pages(rows, limit) == (rows + limit - 1) / limit
    decreases rows
  {
    if rows > limit {
      PagesIsCeiling(rows - limit, limit);
      AddDivisor(rows - 1, limit);
    } else if rows > 0 {
      AddDivisor(rows - 1, limit);
    }
  }

  lemma AddDivisor(x: nat, d: nat)
    requires d > 0
    ensures (x + d) / d == x / d + 1
    ensures x < d ==> x / d == 0
  {
    var q, p := x / d, (x + d) / d;
    SameQuotient(p, (x + d) % d, q + 1, x % d, d);
  }

  lemma {:induction false} PagesGrow(a: nat, b: nat, limit: nat)
    requires limit > 0 && a <= b
    ensures Pages(a, limit) <= Pages(b, limit)
    ensures 0 < b ==> 0 < Pages(b, limit)
    ensures a + limit <= b ==> Pages(a, limit) + 1 <= Pages(b, limit)
    decreases b
  {
    if b > limit {
      if a > limit {
        PagesGrow(a - limit, b - limit, limit);
      } else if a + limit <= b {
        PagesGrow(a, b - limit, limit);
      }
    }
  }

  /** Splitting the rows in two costs at most one more page. */
  lemma {:induction false} PagesSplit(a: nat, b: nat, limit: nat)
    requires limit > 0
    ensures Pages(a, limit) + Pages(b, limit) <= Pages(a + b, limit) + 1
    decreases a
  {
    if a > limit {
      PagesSplit(a - limit, b, limit);
    } else {
      PagesGrow(b, a + b, limit);
    }
  }

  /** The resources from the cursor up to r. */
  function Ahead(u: set<ResourceId>, cursor: Cursor, r: ResourceId): set<ResourceId> {
    set x | x in u && After(x, cursor) && x <= r
  }

  /** How many cycles r may still be passed over, one more than that at most. */
  function Patience(u: set<ResourceId>, cursor: Cursor, r: ResourceId, limit: nat): nat
    requires limit > 0
  {
    if After(r, cursor) then Pages(|Ahead(u, cursor, r)|, limit)
    else Pages(|Beyond(u, cursor)|, limit) + Pages(|Ahead(u, None, r)|, limit)
  }

  lemma {:induction false} PageSize(page: seq<ResourceId>, s: set<ResourceId>)
    requires forall i, j | 0 <= i < j < |page| :: page[i] < page[j]
    requires s == set x | x in page
    ensures |s| == |page|
  {
    if page != [] {
      var last := page[|page| - 1];
      var shorter := page[..|page| - 1];
      var rest := set x | x in shorter;
      assert forall x | x in page :: x == last || x in shorter;
      assert s == rest + {last};
      PageSize(shorter, rest);
    }
  }

  /** A page taken out of a set leaves it smaller by the length of the page. */
  lemma PageTakenOut(page: seq<ResourceId>, before: set<ResourceId>, after: set<ResourceId>)
    requires forall i, j | 0 <= i < j < |page| :: page[i] < page[j]
    requires after <= before
    requires forall x | x in page :: x in before && x !in after
    ensures |after| + |page| <= |before|
  {
    var taken := set x | x in page;
    PageSize(page, taken);
    SubsetSize(after + taken, before);
  }

  /** A full page that does not reach r brings the cursor closer to it by as many resources. */
  lemma CloserToR(u: set<ResourceId>, ids: set<ResourceId>, cursor: Cursor, r: ResourceId, limit: nat)
    requires limit > 0 && ids <= u && r in ids && After(r, cursor) && r !in Query(ids, cursor, limit)
    ensures var page := Query(ids, cursor, limit);
      && |page| == limit && After(r, Some(page[limit - 1]))
      && |Ahead(u, Some(page[limit - 1]), r)| + limit <= |Ahead(u, cursor, r)|
  {
    var page := Query(ids, cursor, limit);
    assert r in Beyond(ids, cursor);
    PageTakenOut(page, Ahead(u, cursor, r), Ahead(u, Some(page[limit - 1]), r));
  }

  /** A full page beyond r leaves fewer resources beyond the cursor. */
  lemma CloserToEnd(u: set<ResourceId>, ids: set<ResourceId>, cursor: Cursor, limit: nat)
    requires limit > 0 && ids <= u && |Query(ids, cursor, limit)| == limit
    ensures |Beyond(u, Some(Query(ids, cursor, limit)[limit - 1]))| + limit <= |Beyond(u, cursor)|
  {
    var page := Query(ids, cursor, limit);
    PageTakenOut(page, Beyond(u, cursor), Beyond(u, Some(page[limit - 1])));
  }

  lemma AheadOfR(
      u: set<ResourceId>, first: set<ResourceId>, second: set<ResourceId>, cursor: Cursor, r: ResourceId, limit: nat)
    requires limit > 0 && first <= u && r in first && After(r, cursor)
    requires r !in Discover(first, second, cursor, limit).0
    ensures Patience(u, NextCursor(first, second, cursor, limit), r, limit) < Patience(u, cursor, r, limit)
  {
    assert r in Beyond(first, cursor);
    CloserToR(u, first, cursor, r, limit);
    var page := Query(first, cursor, limit);
    PagesGrow(|Ahead(u, Some(page[limit - 1]), r)|, |Ahead(u, cursor, r)|, limit);
  }

  lemma PastR(
      u: set<ResourceId>, first: set<ResourceId>, second: set<ResourceId>, cursor: Cursor, r: ResourceId, limit: nat)
    requires limit > 0 && first <= u && second <= u && r in second && !After(r, cursor)
    requires r !in Discover(first, second, cursor, limit).0
    ensures Patience(u, NextCursor(first, second, cursor, limit), r, limit) < Patience(u, cursor, r, limit)
  {
    hide Pages, Ahead;
    var page := Query(first, cursor, limit);
    if page == [] {
      CloserToR(u, second, None, r, limit);
      var again := Query(second, None, limit);
      PagesGrow(|Ahead(u, Some(again[limit - 1]), r)|, |Ahead(u, None, r)|, limit);
    } else if |page| < limit {
      assert page[0] in Beyond(u, cursor);
      PagesGrow(1, |Beyond(u, cursor)|, limit);
    } else {
      CloserToEnd(u, first, cursor, limit);
      PagesGrow(|Beyond(u, Some(page[limit - 1]))|, |Beyond(u, cursor)|, limit);
      assert page[limit - 1] in Beyond(first, cursor);
    }
  }

  lemma BeyondAndAhead(u: set<ResourceId>, cursor: Cursor, r: ResourceId)
    requires !After(r, cursor)
    ensures |Beyond(u, cursor)| + |Ahead(u, None, r)| <= |u|
  {
    var beyond, ahead := Beyond(u, cursor), Ahead(u, None, r);
    assert forall x | x in beyond :: x !in ahead;
    DisjointSizes(beyond, ahead, u);
  }

  lemma TwoParts(a: nat, b: nat, n: nat, limit: nat)
    requires limit > 0 && a + b <= n
    ensures Pages(a, limit) + Pages(b, limit) <= Pages(n, limit) + 1
  {}

  lemma PatienceBound(u: set<ResourceId>, cursor: Cursor, r: ResourceId, limit: nat)
    requires limit > 0
    ensures Patience(u, cursor, r, limit) <= Pages(|u|, limit) + 1
  {
    if After(r, cursor) {
      SubsetSize(Ahead(u, cursor, r), u);
      hide Pages, Ahead;
      PagesGrow(|Ahead(u, cursor, r)|, |u|, limit);
    } else {
      BeyondAndAhead(u, cursor, r);
      hide Pages, Beyond, Ahead;
      TwoParts(|Beyond(u, cursor)|, |Ahead(u, None, r)|, |u|, limit);
    }
  }

  /**
    Cycle i finds first[i] with its first query and second[i] with the one after wrapping; cursors
    are where the cycles start. r is a candidate throughout, others of u come and go.
   */
  ghost predicate IsHistory(u: set<ResourceId>, r: ResourceId, limit: nat,
                            first: seq<set<ResourceId>>, second: seq<set<ResourceId>>, cursors: seq<Cursor>)
  {
    && r in u && |cursors| == |first| + 1 && |second| == |first|
    && (forall i | 0 <= i < |first| :: r in first[i] && r in second[i] && first[i] <= u && second[i] <= u)
    && (forall i | 0 <= i < |first| :: cursors[i + 1] == NextCursor(first[i], second[i], cursors[i], limit))
  }

  predicate ExaminedIn(r: ResourceId, limit: nat,
                       first: seq<set<ResourceId>>, second: seq<set<ResourceId>>, cursors: seq<Cursor>, i: nat)
    requires i < |first| && i < |second| && i < |cursors|
  {
    r in Discover(first[i], second[i], cursors[i], limit).0
  }

  lemma {:induction false} ExaminedFrom(
      u: set<ResourceId>, r: ResourceId, limit: nat,
      first: seq<set<ResourceId>>, second: seq<set<ResourceId>>, cursors: seq<Cursor>, i: nat)
    requires limit > 0 && IsHistory(u, r, limit, first, second, cursors)
    requires i <= |first| && Patience(u, cursors[i], r, limit) <= |first| - i
    ensures exists j | i <= j < |first| && j < i + Patience(u, cursors[i], r, limit) ::
      ExaminedIn(r, limit, first, second, cursors, j)
    decreases |first| - i
  {
    PatienceIsPositive(u, cursors[i], r, limit);
    if !ExaminedIn(r, limit, first, second, cursors, i) {
      if After(r, cursors[i]) {
        AheadOfR(u, first[i], second[i], cursors[i], r, limit);
      } else {
        PastR(u, first[i], second[i], cursors[i], r, limit);
      }
      ExaminedFrom(u, r, limit, first, second, cursors, i + 1);
    }
  }

  lemma PatienceIsPositive(u: set<ResourceId>, cursor: Cursor, r: ResourceId, limit: nat)
    requires limit > 0 && r in u
    ensures Patience(u, cursor, r, limit) > 0
  {
    var ahead := if After(r, cursor) then Ahead(u, cursor, r) else Ahead(u, None, r);
    assert r in ahead;
    PagesGrow(1, |ahead|, limit);
  }

  /**
    A resource that stays a candidate is examined within ceil(n / limit) + 1 cycles, whatever the
    cursor and however others among n resources come and go in the meantime.
   */
  lemma NobodyStarves(u: set<ResourceId>, r: ResourceId, limit: nat,
                      first: seq<set<ResourceId>>, second: seq<set<ResourceId>>, cursors: seq<Cursor>)
    requires limit > 0 && IsHistory(u, r, limit, first, second, cursors)
    requires |first| >= (|u| + limit - 1) / limit + 1
    ensures exists j | 0 <= j < (|u| + limit - 1) / limit + 1 :: ExaminedIn(r, limit, first, second, cursors, j)
  {
    assert |cursors| > 0;
    hide IsHistory, Patience;
    PatienceBound(u, cursors[0], r, limit);
    PagesIsCeiling(|u|, limit);
    ExaminedFrom(u, r, limit, first, second, cursors, 0);
  }

  lemma {:induction false} OneAtATime(rows: nat)
    ensures Pages(rows, 1) == rows
  {
    if rows > 0 {
      OneAtATime(rows - 1);
    }
  }

  /** With one resource a cycle the extra cycle is never needed. */
  lemma NobodyStarvesOneByOne(u: set<ResourceId>, r: ResourceId,
                              first: seq<set<ResourceId>>, second: seq<set<ResourceId>>, cursors: seq<Cursor>)
    requires IsHistory(u, r, 1, first, second, cursors) && |first| >= |u|
    ensures exists j | 0 <= j < |u| :: ExaminedIn(r, 1, first, second, cursors, j)
  {
    assert Patience(u, cursors[0], r, 1) <= |u| by {
      if After(r, cursors[0]) {
        SubsetSize(Ahead(u, cursors[0], r), u);
        OneAtATime(|Ahead(u, cursors[0], r)|);
      } else {
        BeyondAndAhead(u, cursors[0], r);
        OneAtATime(|Beyond(u, cursors[0])|);
        OneAtATime(|Ahead(u, None, r)|);
      }
    }
    ExaminedFrom(u, r, 1, first, second, cursors, 0);
  }

  // Otherwise it can be needed, whatever the limit and the number of pages.

  function FirstIds(n: nat): (ids: set<ResourceId>)
    ensures forall x: ResourceId :: x in ids <==> x < n
  {
    if n == 0 then {} else FirstIds(n - 1) + {n - 1}
  }

  lemma {:induction false} FirstIdsSize(n: nat)
    ensures |FirstIds(n)| == n
  {
    if n > 0 {
      FirstIdsSize(n - 1);
    }
  }

  /** The cursor that has just passed the ids below p. */
  function Passed(p: nat): Cursor {
    if p == 0 then None else Some(p - 1)
  }

  lemma NextIsLeast(n: nat, p: nat)
    requires p <= n
    ensures Beyond(FirstIds(n), Passed(p)) == {} <==> p == n
    ensures p < n ==> forall m | IsLeast(Beyond(FirstIds(n), Passed(p)), m) :: m == p
  {
    assert p < n ==> p in Beyond(FirstIds(n), Passed(p));
  }

  /** The ids from p on, without gaps, up to a full page. */
  ghost predicate IsRange(page: seq<ResourceId>, n: nat, p: nat, limit: nat)
    requires p <= n
  {
    |page| == (if limit <= n - p then limit else n - p) && forall i | 0 <= i < |page| :: page[i] == p + i
  }

  lemma QueryUnfolds(n: nat, p: nat, limit: nat)
    requires p < n && limit > 0
    ensures Query(FirstIds(n), Passed(p), limit) == [p] + Query(FirstIds(n), Passed(p + 1), limit - 1)
  {
    NextIsLeast(n, p);
    LeastExists(Beyond(FirstIds(n), Passed(p)));
    hide FirstIds, Beyond, IsLeast, IsPage;
  }

  lemma QueryStops(n: nat, p: nat, limit: nat)
    requires p <= n && (limit == 0 || p == n)
    ensures Query(FirstIds(n), Passed(p), limit) == []
  {
    NextIsLeast(n, p);
    hide FirstIds, Beyond, IsLeast, IsPage;
  }

  lemma RangeGrows(rest: seq<ResourceId>, n: nat, p: nat, limit: nat)
    requires p < n && limit > 0 && IsRange(rest, n, p + 1, limit - 1)
    ensures IsRange([p] + rest, n, p, limit)
  {}

  lemma {:induction false} QueryRange(n: nat, p: nat, limit: nat)
    requires p <= n
    ensures IsRange(Query(FirstIds(n), Passed(p), limit), n, p, limit)
    decreases limit
  {
    hide Query, FirstIds, IsPage, Passed;
    if limit > 0 && p < n {
      QueryUnfolds(n, p, limit);
      QueryRange(n, p + 1, limit - 1);
      RangeGrows(Query(FirstIds(n), Passed(p + 1), limit - 1), n, p, limit);
    } else {
      QueryStops(n, p, limit);
    }
  }

  /** A full page is followed by the next one. */
  lemma FullPage(n: nat, p: nat, limit: nat)
    requires limit > 0 && p + limit <= n
    ensures var u := FirstIds(n);
      && NextCursor(u, u, Passed(p), limit) == Passed(p + limit)
      && forall x :: x in Discover(u, u, Passed(p), limit).0 <==> p <= x < p + limit
  {
    hide FirstIds, IsPage, Query;
    QueryRange(n, p, limit);
    var page := Query(FirstIds(n), Passed(p), limit);
    forall x | p <= x < p + limit ensures x in page {
      assert page[x - p] == x;
    }
  }

  /** The last resource alone does not fill a page, so the scan starts over. */
  lemma LastPage(n: nat, limit: nat)
    requires limit > 1 && n > 1
    ensures var u := FirstIds(n);
      NextCursor(u, u, Passed(n - 1), limit) == None && n - 2 !in Discover(u, u, Passed(n - 1), limit).0
  {
    QueryRange(n, n - 1, limit);
  }

  /** Where cycle i starts when the scan begins before the last of m full pages' resources. */
  function CursorAt(m: nat, limit: nat, i: nat): Cursor
    requires m > 0 && limit > 1
  {
    if i == 0 then Passed(PageStart(m, limit) - 1) else Passed(PageStart(i - 1, limit))
  }

  function PageStart(i: nat, limit: nat): (p: nat)
    ensures i > 0 ==> limit <= p
  {
    if i == 0 then 0 else PageStart(i - 1, limit) + limit
  }

  lemma {:induction false} PageStartGrows(i: nat, m: nat, limit: nat)
    requires i <= m
    ensures PageStart(i, limit) <= PageStart(m, limit)
  {
    if i < m {
      PageStartGrows(i, m - 1, limit);
    }
  }

  lemma {:induction false} PageStartPages(m: nat, limit: nat)
    requires limit > 0
    ensures Pages(PageStart(m, limit), limit) == m
  {
    if m > 0 {
      PageStartPages(m - 1, limit);
    }
  }

  lemma CycleAt(m: nat, limit: nat, i: nat)
    requires limit > 1 && i < m
    ensures var n, u := PageStart(m, limit), FirstIds(PageStart(m, limit));
      && NextCursor(u, u, CursorAt(m, limit, i), limit) == CursorAt(m, limit, i + 1)
      && n - 2 !in Discover(u, u, CursorAt(m, limit, i), limit).0
  {
    var n := PageStart(m, limit);
    hide Discover, NextCursor;
    if i == 0 {
      LastPage(n, limit);
    } else {
      PageStartGrows(i, m - 1, limit);
      FullPage(n, PageStart(i - 1, limit), limit);
    }
  }

  /**
    For every limit above one and every number m of pages there are candidates that fill m pages, a
    cursor and a resource that m cycles pass over; it has to wait for the cycle after them.
   */
  lemma BoundIsReached(limit: nat, m: nat)
      returns (u: set<ResourceId>, r: ResourceId,
               first: seq<set<ResourceId>>, second: seq<set<ResourceId>>, cursors: seq<Cursor>)
    requires limit > 1 && m > 0
    ensures (|u| + limit - 1) / limit == m == |first| && IsHistory(u, r, limit, first, second, cursors)
    ensures forall j | 0 <= j < m :: !ExaminedIn(r, limit, first, second, cursors, j)
  {
    hide NextCursor, Discover, CursorAt, PageStart;
    var n := PageStart(m, limit);
    u, r := FirstIds(n), n - 2;
    FirstIdsSize(n);
    PagesIsCeiling(n, limit);
    PageStartPages(m, limit);
    first, second, cursors := seq(m, _ => u), seq(m, _ => u), seq(m + 1, i requires 0 <= i => CursorAt(m, limit, i));
    forall i | 0 <= i < m
      ensures cursors[i + 1] == NextCursor(first[i], second[i], cursors[i], limit)
      ensures !ExaminedIn(r, limit, first, second, cursors, i)
    {
      CycleAt(m, limit, i);
    }
  }

  // ---------- The scheduler ----------

  /** Resources with an overdue hold or a waiting entry. */
  function Candidates(s: Db, now: Time): set<ResourceId> {
    (set b | 0 <= b < |s.bookings| && s.bookings[b].Due(s.bookings[b].resource, now) :: s.bookings[b].resource)
    + (set e | e in s.entries && s.entries[e].status == Waiting :: s.entries[e].resource)
  }

  /** A resource is a candidate exactly if an offered booking of it is past its deadline, or someone waits for it. */
  lemma CandidatesMeans(s: Db, now: Time, r: ResourceId)
    ensures r in Candidates(s, now) <==>
      || (exists b | 0 <= b < |s.bookings| ::
            && s.bookings[b].resource == r && s.bookings[b].status == Offered
            && s.bookings[b].expiresAt.Some? && s.bookings[b].expiresAt.value <= now)
      || (exists e | e in s.entries :: s.entries[e].resource == r && s.entries[e].status == Waiting)
  {
    forall b | 0 <= b < |s.bookings| && s.bookings[b].resource == r && s.bookings[b].status == Offered
            && s.bookings[b].expiresAt.Some? && s.bookings[b].expiresAt.value <= now
      ensures r in Candidates(s, now)
    {
      assert s.bookings[b].Due(r, now);
    }
  }

  function ExpireEach(clock: Clock, s: Db, page: seq<ResourceId>): Db {
    if page == [] then s
    else
      var n := |page| - 1;
      Operations.ExpireAndPromote(clock, ExpireEach(clock, s, page[..n]), page[n]).db
  }

  /** How many holds that expires: each resource's due holds at the instant sampled for it. */
  function ExpiredBy(clock: Clock, s: Db, page: seq<ResourceId>): nat {
    if page == [] then 0
    else
      var n := |page| - 1;
      var t := ExpireEach(clock, s, page[..n]);
      ExpiredBy(clock, s, page[..n])
      + if page[n] in t.resources then Store.DueCount(t.bookings, page[n], clock(t.tick), |t.bookings|) else 0
  }

  /** One cycle on tables that no one else touches; the discovery may read the clock twice. */
  ghost predicate IsCycle(clock: Clock, limit: nat, s: Db, cursor: Cursor,
                          page: seq<ResourceId>, total: nat, t: Db, cursor': Cursor)
  {
    && var first, second := Candidates(s, clock(s.tick)), Candidates(s, clock(s.tick + 1));
    && page == Discover(first, second, cursor, limit).0
    && cursor' == NextCursor(first, second, cursor, limit)
    && exists tick | s.tick < tick <= s.tick + 2 ::
         t == ExpireEach(clock, s.(tick := tick), page) && total == ExpiredBy(clock, s.(tick := tick), page)
  }

  class HoldExpiryScheduler {
    var cursor: Cursor
    const batchSize: nat

    constructor (batchSize: nat)
      ensures cursor == None && this.batchSize == batchSize
    {
      this.cursor, this.batchSize := None, batchSize;
    }

    method DiscoverCandidates(tables: Store.Tables) returns (page: seq<ResourceId>, reachedEnd: bool)
      modifies tables`tick
      ensures var s, clock := old(tables.Snapshot()), tables.clock;
        && (page, reachedEnd) ==
             Discover(Candidates(s, clock(s.tick)), Candidates(s, clock(s.tick + 1)), cursor, batchSize)
        && tables.Snapshot() == s.(tick := tables.tick)
        && s.tick < tables.tick <= s.tick + 2
    {
      hide Query;
      var now := tables.SampleClock();
      page := Query(Candidates(tables.Snapshot(), now), cursor, batchSize);
      if page == [] && cursor.Some? {
        now := tables.SampleClock();
        page := Query(Candidates(tables.Snapshot(), now), None, batchSize);
      }
      reachedEnd := |page| < batchSize;
    }

    /** The cursor moves past every resource of the page as its turn comes. */
    method ExpirePage(tables: Store.Tables, page: seq<ResourceId>) returns (totalExpired: nat)
      requires tables.Valid()
      modifies this`cursor, tables
      ensures tables.Valid()
      ensures tables.Snapshot() == ExpireEach(tables.clock, old(tables.Snapshot()), page)
      ensures totalExpired == ExpiredBy(tables.clock, old(tables.Snapshot()), page)
      ensures cursor == if page == [] then old(cursor) else Some(page[|page| - 1])
    {
      hide Store.Tables.Valid, Operations.ExpireAndPromote, Store.DueCount;
      totalExpired := 0;
      for i := 0 to |page|
        invariant tables.Valid()
        invariant tables.Snapshot() == ExpireEach(tables.clock, old(tables.Snapshot()), page[..i])
        invariant totalExpired == ExpiredBy(tables.clock, old(tables.Snapshot()), page[..i])
        invariant cursor == if i == 0 then old(cursor) else Some(page[i - 1])
      {
        cursor := Some(page[i]);
        assert page[..i + 1][..i] == page[..i];
        var expired := tables.ExpireAndPromote(page[i]);
        totalExpired := totalExpired + expired;
      }
      assert page[..|page|] == page;
    }

    /** The page is examined resource by resource; at the end of the candidates the cursor starts over. */
    method RunCycle(tables: Store.Tables) returns (page: seq<ResourceId>, totalExpired: nat)
      requires tables.Valid()
      modifies this`cursor, tables
      ensures tables.Valid()
      ensures IsCycle(tables.clock, batchSize, old(tables.Snapshot()), old(cursor),
                      page, totalExpired, tables.Snapshot(), cursor)
    {
      hide Query, ExpireEach, ExpiredBy, Candidates, Invariant.Inv;
      var reachedEnd;
      page, reachedEnd := DiscoverCandidates(tables);
      TickKeepsInv(old(tables.Snapshot()), tables.tick);
      totalExpired := ExpirePage(tables, page);
      if reachedEnd {
        cursor := None;
      }
    }
  }

  lemma TickKeepsInv(s: Db, tick: nat)
    requires Invariant.Inv(s)
    ensures Invariant.Inv(s.(tick := tick))
  {}
}
