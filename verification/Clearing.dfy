/**
  What the scheduler's cycles achieve together: every overdue hold is cleared, however the candidates
  are spread over its pages.
 */
module Clearing {
  import opened Times
  import opened Wrappers
  import opened Inventory
  import opened Promotion
  import opened Operations
  import opened Deadlines
  import opened Scheduler
  import Invariant
  import Safety

  // ---------- One resource ----------

  lemma ResourceKept(clock: Clock, s: Db, x: ResourceId)
    ensures var t := ExpireAndPromote(clock, s, x).db;
      t.resources == s.resources && s.tick <= t.tick && |s.bookings| <= |t.bookings|
  {
    if x in s.resources {
      var u := ExpireDue(Sampled(s), x, clock(s.tick), |s.bookings|);
      Safety.ExpireDueShape(Sampled(s), x, clock(s.tick), |s.bookings|);
      PromotionFrame(clock, u, x);
      hide Promote;
    }
  }

  /** A hold past its deadline at instant now. */
  predicate Overdue(k: Booking, now: Time) {
    k.status == Offered && k.expiresAt.Some? && k.expiresAt.value <= now
  }

  /** The row of a hold after it has expired. */
  function Cleared(k: Booking): Booking {
    k.(status := Expired, expiresAt := None, reason := None, version := k.version + 1)
  }

  /** Expiring resource x clears an overdue hold of x, and leaves other rows alone. */
  lemma OneResource(clock: Clock, s: Db, x: ResourceId, b: BookingId)
    requires Monotone(clock) && b < |s.bookings| && s.bookings[b].resource in s.resources
    requires Overdue(s.bookings[b], clock(s.tick)) || s.bookings[b].status != Offered
    ensures b < |ExpireAndPromote(clock, s, x).db.bookings|
    ensures ExpireAndPromote(clock, s, x).db.bookings[b]
      == if s.bookings[b].resource == x && s.bookings[b].status == Offered
         then Cleared(s.bookings[b]) else s.bookings[b]
  {
    if x in s.resources {
      var u := ExpireDue(Sampled(s), x, clock(s.tick), |s.bookings|);
      Safety.ExpireDueShape(Sampled(s), x, clock(s.tick), |s.bookings|);
      PromotionFrame(clock, u, x);
      hide Promote;
    }
  }

  // ---------- One page ----------

  /** After the first resources of a page: cleared if its resource was among them, otherwise as it was. */
  lemma {:induction false} PageSoFar(clock: Clock, s: Db, page: seq<ResourceId>, b: BookingId)
    requires Monotone(clock) && b < |s.bookings| && s.bookings[b].resource in s.resources
    requires Overdue(s.bookings[b], clock(s.tick))
    ensures var t := ExpireEach(clock, s, page);
      && t.resources == s.resources && s.tick <= t.tick && b < |t.bookings|
      && t.bookings[b] == if s.bookings[b].resource in page then Cleared(s.bookings[b]) else s.bookings[b]
  {
    hide ExpireAndPromote;
    if page != [] {
      var n := |page| - 1;
      var t := ExpireEach(clock, s, page[..n]);
      PageSoFar(clock, s, page[..n], b);
      assert clock(s.tick) <= clock(t.tick);
      ResourceKept(clock, t, page[n]);
      OneResource(clock, t, page[n], b);
      assert page == page[..n] + [page[n]];
    }
  }

  // ---------- Cycle after cycle ----------

  /**
    Cycles of the scheduler, with anything in between: cycle i takes before[i] to after[i], both
    candidate queries find resources of u only, and time goes on. Nobody else changes booking b.
   */
  ghost predicate IsSchedule(clock: Clock, u: set<ResourceId>, limit: nat, before: seq<Db>, after: seq<Db>,
                             pages: seq<seq<ResourceId>>, totals: seq<nat>, cursors: seq<Cursor>, b: BookingId)
  {
    && |before| == |after| == |pages| == |totals| && |cursors| == |before| + 1
    && (forall i | 0 <= i < |before| ::
          && Invariant.Inv(before[i])
          && IsCycle(clock, limit, before[i], cursors[i], pages[i], totals[i], after[i], cursors[i + 1])
          && Found(clock, before[i], before[i].tick) <= u && Found(clock, before[i], before[i].tick + 1) <= u)
    && (forall i, j | 0 <= i && j == i + 1 && j < |before| ::
          && after[i].tick <= before[j].tick
          && b < |after[i].bookings| && b < |before[j].bookings|
          && before[j].bookings[b] == after[i].bookings[b])
  }

  function Found(clock: Clock, s: Db, tick: nat): set<ResourceId> {
    Candidates(s, clock(tick))
  }

  lemma CycleClears(clock: Clock, limit: nat, s: Db, cursor: Cursor, page: seq<ResourceId>, total: nat,
                    t: Db, cursor': Cursor, b: BookingId)
    requires Monotone(clock) && Invariant.Inv(s) && b < |s.bookings| && Overdue(s.bookings[b], clock(s.tick))
    requires IsCycle(clock, limit, s, cursor, page, total, t, cursor')
    ensures s.tick <= t.tick && b < |t.bookings|
    ensures t.bookings[b] == if s.bookings[b].resource in page then Cleared(s.bookings[b]) else s.bookings[b]
    ensures s.bookings[b].resource in Found(clock, s, s.tick) && s.bookings[b].resource in Found(clock, s, s.tick + 1)
  {
    assert s.bookings[b].resource in s.resources;
    hide Invariant.Inv, Candidates, Discover, NextCursor, ExpireEach, ExpiredBy;
    var tick :| s.tick < tick <= s.tick + 2 && t == ExpireEach(clock, s.(tick := tick), page);
    assert clock(s.tick) <= clock(tick) && clock(s.tick) <= clock(s.tick + 1);
    PageSoFar(clock, s.(tick := tick), page, b);
    CandidatesMeans(s, clock(s.tick), s.bookings[b].resource);
    CandidatesMeans(s, clock(s.tick + 1), s.bookings[b].resource);
  }

  /** As long as no cycle has examined its resource, an overdue hold is as it was. */
  lemma {:induction false} StillOverdue(
      clock: Clock, u: set<ResourceId>, limit: nat, before: seq<Db>, after: seq<Db>,
      pages: seq<seq<ResourceId>>, totals: seq<nat>, cursors: seq<Cursor>, b: BookingId, i: nat)
    requires Monotone(clock) && IsSchedule(clock, u, limit, before, after, pages, totals, cursors, b)
    requires i < |before| && b < |before[0].bookings| && Overdue(before[0].bookings[b], clock(before[0].tick))
    requires forall j | 0 <= j < i :: before[0].bookings[b].resource !in pages[j]
    ensures before[0].tick <= before[i].tick && b < |before[i].bookings|
    ensures before[i].bookings[b] == before[0].bookings[b]
  {
    hide Invariant.Inv, IsCycle, Found;
    if i > 0 {
      StillOverdue(clock, u, limit, before, after, pages, totals, cursors, b, i - 1);
      assert clock(before[0].tick) <= clock(before[i - 1].tick);
      var h := i - 1;
      CycleClears(clock, limit, before[h], cursors[h], pages[h], totals[h], after[h], cursors[i], b);
    }
  }

  /** The first page that has r on it, if one of the first n has. */
  lemma {:induction false} FirstWith(pages: seq<seq<ResourceId>>, r: ResourceId, n: nat) returns (j: nat)
    requires n <= |pages|
    ensures j <= n && (forall i | 0 <= i < j :: r !in pages[i]) && (j < n ==> r in pages[j])
  {
    if n == 0 {
      j := 0;
    } else {
      j := FirstWith(pages, r, n - 1);
      if j == n - 1 && r !in pages[j] {
        j := n;
      }
    }
  }

  /** A candidate that no cycle of a history examined has seen fewer cycles than the bound. */
  lemma UnexaminedIsEarly(u: set<ResourceId>, r: ResourceId, limit: nat,
                          first: seq<set<ResourceId>>, second: seq<set<ResourceId>>, cursors: seq<Cursor>)
    requires limit > 0 && IsHistory(u, r, limit, first, second, cursors)
    requires forall j | 0 <= j < |first| :: !ExaminedIn(r, limit, first, second, cursors, j)
    ensures |first| < (|u| + limit - 1) / limit + 1
  {
    hide IsHistory, ExaminedIn;
    if |first| >= (|u| + limit - 1) / limit + 1 {
      NobodyStarves(u, r, limit, first, second, cursors);
    }
  }

  /** A cycle that comes to an overdue hold without examining its resource had it as a candidate. */
  lemma PassedOver(
      clock: Clock, u: set<ResourceId>, limit: nat, before: seq<Db>, after: seq<Db>,
      pages: seq<seq<ResourceId>>, totals: seq<nat>, cursors: seq<Cursor>, b: BookingId, i: nat)
    requires Monotone(clock) && limit > 0
    requires IsSchedule(clock, u, limit, before, after, pages, totals, cursors, b)
    requires i < |before| && b < |before[0].bookings| && Overdue(before[0].bookings[b], clock(before[0].tick))
    requires forall j | 0 <= j <= i :: before[0].bookings[b].resource !in pages[j]
    ensures var r := before[0].bookings[b].resource;
      var first, second := Found(clock, before[i], before[i].tick), Found(clock, before[i], before[i].tick + 1);
      && r in first && r in second && first <= u && second <= u
      && cursors[i + 1] == NextCursor(first, second, cursors[i], limit)
      && r !in Discover(first, second, cursors[i], limit).0
  {
    hide Invariant.Inv, Found, Discover, NextCursor, Overdue, IsCycle;
    StillOverdue(clock, u, limit, before, after, pages, totals, cursors, b, i);
    StaysOverdue(clock, before[0], before[i], b);
    CycleClears(clock, limit, before[i], cursors[i], pages[i], totals[i], after[i], cursors[i + 1], b);
    CycleFinds(clock, limit, before[i], cursors[i], pages[i], totals[i], after[i], cursors[i + 1]);
  }

  /** What the first n cycles find with their first query, or with their second. */
  function Finds(clock: Clock, before: seq<Db>, n: nat, query: nat): (found: seq<set<ResourceId>>)
    requires n <= |before|
    ensures |found| == n
    ensures forall i | 0 <= i < n :: found[i] == Found(clock, before[i], before[i].tick + query)
  {
    seq(n, i requires 0 <= i < n => Found(clock, before[i], before[i].tick + query))
  }

  /** Fewer cycles than the bound can pass over the resource of an overdue hold. */
  lemma NeverExamined(
      clock: Clock, u: set<ResourceId>, limit: nat, before: seq<Db>, after: seq<Db>,
      pages: seq<seq<ResourceId>>, totals: seq<nat>, cursors: seq<Cursor>, b: BookingId, n: nat)
    requires Monotone(clock) && limit > 0
    requires IsSchedule(clock, u, limit, before, after, pages, totals, cursors, b)
    requires 0 < n <= |before| && b < |before[0].bookings| && Overdue(before[0].bookings[b], clock(before[0].tick))
    requires forall j | 0 <= j < n :: before[0].bookings[b].resource !in pages[j]
    ensures n < (|u| + limit - 1) / limit + 1
  {
    var r := before[0].bookings[b].resource;
    hide Finds, Monotone, Invariant.Inv, IsCycle, Found, Discover, NextCursor, Overdue;
    var first, second, some := Finds(clock, before, n, 0), Finds(clock, before, n, 1), cursors[..n + 1];
    forall i | 0 <= i < n
      ensures r in first[i] && r in second[i] && first[i] <= u && second[i] <= u
      ensures some[i + 1] == NextCursor(first[i], second[i], some[i], limit)
      ensures !ExaminedIn(r, limit, first, second, some, i)
    {
      PassedOver(clock, u, limit, before, after, pages, totals, cursors, b, i);
    }
    hide IsSchedule, ExaminedIn;
    UnexaminedIsEarly(u, r, limit, first, second, some);
  }

  lemma StaysOverdue(clock: Clock, s: Db, t: Db, b: BookingId)
    requires Monotone(clock) && s.tick <= t.tick && b < |s.bookings| && b < |t.bookings|
    requires t.bookings[b] == s.bookings[b] && Overdue(s.bookings[b], clock(s.tick))
    ensures Overdue(t.bookings[b], clock(t.tick))
  {
    assert clock(s.tick) <= clock(t.tick);
  }

  lemma CycleFinds(clock: Clock, limit: nat, s: Db, cursor: Cursor, page: seq<ResourceId>, total: nat,
                   t: Db, cursor': Cursor)
    requires IsCycle(clock, limit, s, cursor, page, total, t, cursor')
    ensures var first, second := Found(clock, s, s.tick), Found(clock, s, s.tick + 1);
      page == Discover(first, second, cursor, limit).0 && cursor' == NextCursor(first, second, cursor, limit)
  {}

  /** The first of n cycles that examines the resource of an overdue hold clears it. */
  lemma FirstCycleClears(
      clock: Clock, u: set<ResourceId>, limit: nat, before: seq<Db>, after: seq<Db>,
      pages: seq<seq<ResourceId>>, totals: seq<nat>, cursors: seq<Cursor>, b: BookingId, n: nat)
      returns (j: nat)
    requires Monotone(clock) && IsSchedule(clock, u, limit, before, after, pages, totals, cursors, b)
    requires 0 < n <= |before| && b < |before[0].bookings| && Overdue(before[0].bookings[b], clock(before[0].tick))
    ensures j <= n && (forall i | 0 <= i < j :: before[0].bookings[b].resource !in pages[i])
    ensures j < n ==> b < |after[j].bookings| && after[j].bookings[b] == Cleared(before[0].bookings[b])
  {
    hide Invariant.Inv, IsCycle, Found, Overdue, Cleared;
    j := FirstWith(pages, before[0].bookings[b].resource, n);
    if j < n {
      StillOverdue(clock, u, limit, before, after, pages, totals, cursors, b, j);
      StaysOverdue(clock, before[0], before[j], b);
      CycleClears(clock, limit, before[j], cursors[j], pages[j], totals[j], after[j], cursors[j + 1], b);
    }
  }

  lemma ClearedWithin(
      clock: Clock, u: set<ResourceId>, limit: nat, before: seq<Db>, after: seq<Db>,
      pages: seq<seq<ResourceId>>, totals: seq<nat>, cursors: seq<Cursor>, b: BookingId, n: nat)
      returns (j: nat)
    requires Monotone(clock) && limit > 0
    requires IsSchedule(clock, u, limit, before, after, pages, totals, cursors, b)
    requires 0 < n <= |before| == |after| && n == (|u| + limit - 1) / limit + 1
    requires b < |before[0].bookings| && Overdue(before[0].bookings[b], clock(before[0].tick))
    ensures j < n && b < |after[j].bookings| && after[j].bookings[b] == Cleared(before[0].bookings[b])
  {
    assert |pages| == |before|;
    hide IsSchedule, Monotone, Overdue, Cleared;
    j := FirstCycleClears(clock, u, limit, before, after, pages, totals, cursors, b, n);
    if j == n {
      NeverExamined(clock, u, limit, before, after, pages, totals, cursors, b, n);
    }
  }

  /**
    A hold that is past its deadline when the first cycle starts, and that nobody else touches, has
    expired after at most ceil(n / limit) + 1 cycles, n being the number of resources that are
    candidates at one time or another.
   */
  lemma OverdueHoldsExpire(
      clock: Clock, u: set<ResourceId>, limit: nat, before: seq<Db>, after: seq<Db>,
      pages: seq<seq<ResourceId>>, totals: seq<nat>, cursors: seq<Cursor>, b: BookingId)
      returns (j: nat)
    requires Monotone(clock) && limit > 0
    requires IsSchedule(clock, u, limit, before, after, pages, totals, cursors, b)
    requires |before| >= (|u| + limit - 1) / limit + 1
    requires b < |before[0].bookings|
    requires before[0].bookings[b].status == Offered && before[0].bookings[b].expiresAt.Some?
    requires before[0].bookings[b].expiresAt.value <= clock(before[0].tick)
    ensures j < (|u| + limit - 1) / limit + 1 && b < |after[j].bookings|
    ensures var k := before[0].bookings[b];
      after[j].bookings[b] == k.(status := Expired, expiresAt := None, reason := None, version := k.version + 1)
  {
    assert |after| == |before|;
    hide IsSchedule, Monotone, Pages;
    PagesIsCeiling(|u|, limit);
    j := ClearedWithin(clock, u, limit, before, after, pages, totals, cursors, b, Pages(|u|, limit) + 1);
  }
}
