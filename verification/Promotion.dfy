/**
  promote_waiters as one pass over the queue it starts with, and what that pass guarantees.
 */
module Promotion {
  import opened Times
  import opened Wrappers
  import opened Inventory
  import opened Invariant
  import opened Transitions

  /** The deadline of an offer made at the given instant. */
  function Deadline(now: Time, w: Window): Time {
    Min(now + OFFER_HORIZON, w.lo)
  }

  /** Whether the entry is closed rather than considered, at the instant sampled for it. */
  predicate Ineligible(s: Db, en: Entry, now: Time) {
    !Enabled(s, en.user) || en.window.lo < now + OFFER_HORIZON
  }

  /** One entry of the scan: it expires, stays waiting, or is offered its window. */
  function PromoteOne(clock: Clock, s: Db, e: EntryId): Db
    requires e in s.entries
  {
    var en := s.entries[e];
    var now := clock(s.tick);
    var s1 := Sampled(s);
    if Ineligible(s, en, now) then CloseWaiting(s1, e, Lapsed)
    else if Occupied(s.bookings, en.resource, en.window) then s1
    else Offer(Sampled(s1), e, Deadline(clock(s1.tick), en.window))
  }

  /** The scan of a sequence of entries, in order. */
  function PromoteAll(clock: Clock, s: Db, q: seq<EntryId>): (t: Db)
    requires forall i | 0 <= i < |q| :: q[i] in s.entries
    ensures t.entries.Keys == s.entries.Keys
  {
    if q == [] then s
    else PromoteOne(clock, PromoteAll(clock, s, q[..|q| - 1]), q[|q| - 1])
  }

  function Promote(clock: Clock, s: Db, r: ResourceId): Db {
    PromoteAll(clock, s, Queue(s.entries, r))
  }

  // ---------- The states of a scan ----------

  /** The state of the scan just before the k-th entry of q. */
  function At(clock: Clock, s: Db, q: seq<EntryId>, k: nat): (t: Db)
    requires k <= |q| && forall i | 0 <= i < |q| :: q[i] in s.entries
    ensures t.entries.Keys == s.entries.Keys
  {
    PromoteAll(clock, s, q[..k])
  }

  lemma AtStep(clock: Clock, s: Db, q: seq<EntryId>, k: nat)
    requires k < |q| && forall i | 0 <= i < |q| :: q[i] in s.entries
    ensures At(clock, s, q, k + 1) == PromoteOne(clock, At(clock, s, q, k), q[k])
  {
    assert q[..k + 1][..k] == q[..k];
  }

  lemma AtStart(clock: Clock, s: Db, q: seq<EntryId>)
    requires forall i | 0 <= i < |q| :: q[i] in s.entries
    ensures At(clock, s, q, 0) == s
  {}

  lemma AtEnd(clock: Clock, s: Db, q: seq<EntryId>)
    requires forall i | 0 <= i < |q| :: q[i] in s.entries
    ensures At(clock, s, q, |q|) == PromoteAll(clock, s, q)
  {
    assert q[..|q|] == q;
  }

  /** What never changes while a scan goes on, and what only grows. */
  ghost predicate Extends(s: Db, t: Db) {
    && t.users == s.users
    && t.resources == s.resources
    && s.tick <= t.tick
    && s.outbox <= t.outbox
    && |s.bookings| <= |t.bookings|
    && (forall i | 0 <= i < |s.bookings| :: t.bookings[i] == s.bookings[i])
    && t.entries.Keys == s.entries.Keys
    && (forall e | e in s.entries ::
          && t.entries[e].user == s.entries[e].user
          && t.entries[e].resource == s.entries[e].resource
          && t.entries[e].window == s.entries[e].window
          && t.entries[e].createdAt == s.entries[e].createdAt)
  }

  lemma OneExtends(clock: Clock, s: Db, e: EntryId)
    requires e in s.entries
    ensures Extends(s, PromoteOne(clock, s, e))
  {}

  lemma ExtendsReflexive(s: Db)
    ensures Extends(s, s)
  {}

  lemma ExtendsTransitive(s: Db, t: Db, u: Db)
    requires Extends(s, t) && Extends(t, u)
    ensures Extends(s, u)
  {}

  lemma {:induction false} AtExtends(clock: Clock, s: Db, q: seq<EntryId>, j: nat, k: nat)
    requires j <= k <= |q| && forall i | 0 <= i < |q| :: q[i] in s.entries
    ensures Extends(At(clock, s, q, j), At(clock, s, q, k))
  {
    hide *;
    if j < k {
      AtExtends(clock, s, q, j, k - 1);
      AtStep(clock, s, q, k - 1);
      OneExtends(clock, At(clock, s, q, k - 1), q[k - 1]);
      ExtendsTransitive(At(clock, s, q, j), At(clock, s, q, k - 1), At(clock, s, q, k));
    } else {
      ExtendsReflexive(At(clock, s, q, j));
    }
  }

  /** An entry outside q[j..k] is left as it is by that stretch of the scan. */
  lemma {:induction false} AtFrame(clock: Clock, s: Db, q: seq<EntryId>, j: nat, k: nat, e: EntryId)
    requires j <= k <= |q| && forall i | 0 <= i < |q| :: q[i] in s.entries
    requires e in s.entries && forall i | j <= i < k :: q[i] != e
    ensures At(clock, s, q, k).entries[e] == At(clock, s, q, j).entries[e]
  {
    if j < k {
      AtFrame(clock, s, q, j, k - 1, e);
      AtStep(clock, s, q, k - 1);
    }
  }

  /** A proper queue: entries waiting on r, in key order (hence without repetition). */
  ghost predicate IsQueue(s: Db, r: ResourceId, q: seq<EntryId>) {
    Ordered(s.entries, q) && forall i | 0 <= i < |q| :: s.entries[q[i]].WaitsFor(r)
  }

  lemma QueueDistinct(s: Db, r: ResourceId, q: seq<EntryId>)
    requires IsQueue(s, r, q)
    ensures forall i, j | 0 <= i < j < |q| :: q[i] != q[j]
  {}

  /** When its turn comes an entry is still as it was; after its turn it no longer changes. */
  lemma EntryTurn(clock: Clock, s: Db, r: ResourceId, q: seq<EntryId>, k: nat)
    requires IsQueue(s, r, q) && k < |q|
    ensures At(clock, s, q, k).entries[q[k]] == s.entries[q[k]]
    ensures PromoteAll(clock, s, q).entries[q[k]] == At(clock, s, q, k + 1).entries[q[k]]
  {
    QueueDistinct(s, r, q);
    AtFrame(clock, s, q, 0, k, q[k]);
    AtFrame(clock, s, q, k + 1, |q|, q[k]);
    AtEnd(clock, s, q);
  }

  // ---------- Soundness ----------

  lemma OneKeepsSound(clock: Clock, s: Db, e: EntryId)
    requires Sound(s) && e in s.entries && s.entries[e].status == Waiting
    ensures Sound(PromoteOne(clock, s, e))
  {
    var s1 := Sampled(s);
    assert Sound(s1);
    if Ineligible(s, s.entries[e], clock(s.tick)) {
      CloseKeepsSound(s1, e, Lapsed);
    } else if !Occupied(s.bookings, s.entries[e].resource, s.entries[e].window) {
      var s2 := Sampled(s1);
      assert Sound(s2);
      OfferKeepsSound(s2, e, Deadline(clock(s1.tick), s.entries[e].window));
    }
  }

  lemma {:induction false} ScanKeepsSound(clock: Clock, s: Db, r: ResourceId, q: seq<EntryId>, k: nat)
    requires Sound(s) && IsQueue(s, r, q) && k <= |q|
    ensures Sound(At(clock, s, q, k))
  {
    hide Sound, PromoteOne;
    if k > 0 {
      ScanKeepsSound(clock, s, r, q, k - 1);
      AtStep(clock, s, q, k - 1);
      EntryTurn(clock, s, r, q, k - 1);
      OneKeepsSound(clock, At(clock, s, q, k - 1), q[k - 1]);
    }
  }

  // ---------- What occupies the resource during a scan ----------

  lemma OccupiedGrows(s: Db, t: Db, r: ResourceId, w: Window)
    requires Extends(s, t) && Occupied(s.bookings, r, w)
    ensures Occupied(t.bookings, r, w)
  {}

  /** Entry q[j] was offered its window in the scan. */
  predicate OfferedAt(clock: Clock, s: Db, q: seq<EntryId>, j: nat)
    requires j < |q| && forall i | 0 <= i < |q| :: q[i] in s.entries
  {
    PromoteAll(clock, s, q).entries[q[j]].status == Holding
  }

  /** Some entry before the k-th was offered a window that overlaps w. */
  predicate TakenBefore(clock: Clock, s: Db, q: seq<EntryId>, k: nat, w: Window)
    requires k <= |q| && forall i | 0 <= i < |q| :: q[i] in s.entries
  {
    exists j | 0 <= j < k :: OfferedAt(clock, s, q, j) && s.entries[q[j]].window.Overlaps(w)
  }

  lemma OneHold(clock: Clock, t: Db, e: EntryId)
    requires e in t.entries && t.entries[e].status == Waiting
    requires PromoteOne(clock, t, e).entries[e].status == Holding
    ensures var u, en := PromoteOne(clock, t, e), t.entries[e];
      && u.entries[e].hold == Some(|t.bookings|)
      && u.bookings == t.bookings + [HoldFor(en, Deadline(clock(t.tick + 1), en.window))]
  {}

  lemma NoHold(clock: Clock, t: Db, e: EntryId)
    requires e in t.entries && PromoteOne(clock, t, e).entries[e].status != Holding
    ensures PromoteOne(clock, t, e).bookings == t.bookings
  {}

  /** One turn adds a row exactly when it makes an offer, and then the row is that offer. */
  lemma TurnBookings(clock: Clock, s: Db, r: ResourceId, q: seq<EntryId>, k: nat)
    requires IsQueue(s, r, q) && k < |q|
    ensures var t := At(clock, s, q, k); var u := At(clock, s, q, k + 1);
      if OfferedAt(clock, s, q, k)
      then exists d :: u.bookings == t.bookings + [HoldFor(s.entries[q[k]], d)]
      else u.bookings == t.bookings
  {
    hide At, PromoteOne, PromoteAll, HoldFor, Deadline;
    AtStep(clock, s, q, k);
    EntryTurn(clock, s, r, q, k);
    if OfferedAt(clock, s, q, k) {
      OneHold(clock, At(clock, s, q, k), q[k]);
    } else {
      NoHold(clock, At(clock, s, q, k), q[k]);
    }
  }

  lemma OccupiedAppend(bs: Bookings, k: Booking, r: ResourceId, w: Window)
    ensures Occupied(bs + [k], r, w) <==> Occupied(bs, r, w) || k.Blocks(r, w)
  {
    var cs := bs + [k];
    if i :| 0 <= i < |bs| && bs[i].Blocks(r, w) {
      assert cs[i].Blocks(r, w);
    }
    if k.Blocks(r, w) {
      assert cs[|bs|].Blocks(r, w);
    }
  }

  lemma TakenStep(clock: Clock, s: Db, q: seq<EntryId>, k: nat, w: Window)
    requires k < |q| && forall i | 0 <= i < |q| :: q[i] in s.entries
    ensures TakenBefore(clock, s, q, k + 1, w) <==>
      TakenBefore(clock, s, q, k, w) || (OfferedAt(clock, s, q, k) && s.entries[q[k]].window.Overlaps(w))
  {
    hide OfferedAt;
  }

  lemma HoldBlocks(en: Entry, deadline: Time, w: Window)
    ensures HoldFor(en, deadline).Blocks(en.resource, w) <==> en.window.Overlaps(w)
  {}

  /** In the middle of a scan a window is blocked by what was active at the start or offered since. */
  lemma {:induction false} OccupiedMidScan(clock: Clock, s: Db, r: ResourceId, q: seq<EntryId>, k: nat, w: Window)
    requires IsQueue(s, r, q) && k <= |q|
    ensures Occupied(At(clock, s, q, k).bookings, r, w)
       <==> Occupied(s.bookings, r, w) || TakenBefore(clock, s, q, k, w)
  {
    if k == 0 {
      AtStart(clock, s, q);
    } else {
      OccupiedMidScan(clock, s, r, q, k - 1, w);
      TurnBookings(clock, s, r, q, k - 1);
      TakenStep(clock, s, q, k - 1, w);
      assert s.entries[q[k - 1]].resource == r;
      hide At, IsQueue, Occupied, OfferedAt, TakenBefore, HoldFor;
      if OfferedAt(clock, s, q, k - 1) {
        var t, u := At(clock, s, q, k - 1), At(clock, s, q, k);
        var d :| u.bookings == t.bookings + [HoldFor(s.entries[q[k - 1]], d)];
        OccupiedAppend(t.bookings, HoldFor(s.entries[q[k - 1]], d), r, w);
        HoldBlocks(s.entries[q[k - 1]], d, w);
      }
    }
  }

  // ---------- Who is offered ----------

  /** The instant sampled for the k-th entry of the queue. */
  function SampleFor(clock: Clock, s: Db, q: seq<EntryId>, k: nat): Time
    requires k <= |q| && forall i | 0 <= i < |q| :: q[i] in s.entries
  {
    clock(At(clock, s, q, k).tick)
  }

  /**
    The outcome for the k-th entry of the queue. It expires exactly when its owner is disabled or its
    start is too close. Otherwise it is offered exactly when its window misses every booking active
    at the start and every offer made to an earlier entry, and else it keeps waiting.
   */
  lemma TurnOutcome(clock: Clock, s: Db, r: ResourceId, k: nat)
    requires k < |Queue(s.entries, r)|
    ensures var q := Queue(s.entries, r);
      var en := s.entries[q[k]];
      var late := en.window.lo < SampleFor(clock, s, q, k) + OFFER_HORIZON;
      var free := !Occupied(s.bookings, r, en.window) && !TakenBefore(clock, s, q, k, en.window);
      var after := Promote(clock, s, r).entries[q[k]];
      && (after.status == Lapsed <==> !Enabled(s, en.user) || late)
      && (after.status == Holding <==> Enabled(s, en.user) && !late && free)
      && (after.status == Waiting <==> Enabled(s, en.user) && !late && !free)
      && (after.status == Waiting ==> after == en)
  {
    var q := Queue(s.entries, r);
    assert IsQueue(s, r, q);
    EntryTurn(clock, s, r, q, k);
    AtStep(clock, s, q, k);
    AtExtends(clock, s, q, 0, k);
    OccupiedMidScan(clock, s, r, q, k, s.entries[q[k]].window);
  }

  /** e joined the queue before f: earlier, or at the same instant and with the smaller id. */
  predicate JoinedBefore(es: Entries, e: EntryId, f: EntryId)
    requires e in es && f in es
  {
    es[e].createdAt < es[f].createdAt || (es[e].createdAt == es[f].createdAt && e < f)
  }

  /** Every entry that waits for r has its place in the queue, and places follow the order of joining. */
  lemma QueuePlace(s: Db, r: ResourceId, e: EntryId) returns (k: nat)
    requires e in s.entries && s.entries[e].resource == r && s.entries[e].status == Waiting
    ensures k < |Queue(s.entries, r)| && Queue(s.entries, r)[k] == e
    ensures forall i | 0 <= i < |Queue(s.entries, r)| ::
      i < k <==> JoinedBefore(s.entries, Queue(s.entries, r)[i], e)
  {
    var q := Queue(s.entries, r);
    assert e in q;
    k :| 0 <= k < |q| && q[k] == e;
    forall i | 0 <= i < |q| ensures i < k <==> JoinedBefore(s.entries, q[i], e) {
      if i < k {
        assert KeyOf(s.entries, q[i]).Less(KeyOf(s.entries, q[k]));
      } else if k < i {
        assert KeyOf(s.entries, q[k]).Less(KeyOf(s.entries, q[i]));
      }
    }
  }

  /** The window of e misses what was confirmed or offered on r when the promotion began. */
  predicate MissesActive(s: Db, r: ResourceId, e: EntryId)
    requires e in s.entries
  {
    forall b | 0 <= b < |s.bookings| && s.bookings[b].resource == r
            && (s.bookings[b].status == Confirmed || s.bookings[b].status == Offered) ::
      s.bookings[b].window.hi <= s.entries[e].window.lo || s.entries[e].window.hi <= s.bookings[b].window.lo
  }

  /** The window of e misses those that the promotion from s to t offered to entries that joined before it. */
  predicate MissesOffers(s: Db, t: Db, r: ResourceId, e: EntryId)
    requires e in s.entries
  {
    forall f | f in s.entries && s.entries[f].resource == r && s.entries[f].status == Waiting
            && JoinedBefore(s.entries, f, e) && f in t.entries && t.entries[f].status == Holding ::
      s.entries[f].window.hi <= s.entries[e].window.lo || s.entries[e].window.hi <= s.entries[f].window.lo
  }

  lemma FreeMeansMisses(clock: Clock, s: Db, r: ResourceId, e: EntryId, k: nat)
    requires k < |Queue(s.entries, r)| && Queue(s.entries, r)[k] == e && s.entries[e].WaitsFor(r)
    requires forall i | 0 <= i < |Queue(s.entries, r)| ::
      i < k <==> JoinedBefore(s.entries, Queue(s.entries, r)[i], e)
    ensures MissesActive(s, r, e) <==> !Occupied(s.bookings, r, s.entries[e].window)
    ensures MissesOffers(s, Promote(clock, s, r), r, e)
       <==> !TakenBefore(clock, s, Queue(s.entries, r), k, s.entries[e].window)
  {
    hide Queue, PromoteAll;
    var q, t := Queue(s.entries, r), Promote(clock, s, r);
    if MissesActive(s, r, e) {
      assert forall b | 0 <= b < |s.bookings| :: !s.bookings[b].Blocks(r, s.entries[e].window);
    } else {
      var b :| 0 <= b < |s.bookings| && s.bookings[b].resource == r
        && (s.bookings[b].status == Confirmed || s.bookings[b].status == Offered)
        && !(s.bookings[b].window.hi <= s.entries[e].window.lo || s.entries[e].window.hi <= s.bookings[b].window.lo);
      assert s.bookings[b].Blocks(r, s.entries[e].window);
    }
    if MissesOffers(s, t, r, e) {
      forall j | 0 <= j < k && OfferedAt(clock, s, q, j) ensures !s.entries[q[j]].window.Overlaps(s.entries[e].window) {
        assert JoinedBefore(s.entries, q[j], e);
        assert s.entries[q[j]].WaitsFor(r);
      }
    } else {
      var f :| f in s.entries && s.entries[f].resource == r && s.entries[f].status == Waiting
        && JoinedBefore(s.entries, f, e) && f in t.entries && t.entries[f].status == Holding
        && !(s.entries[f].window.hi <= s.entries[e].window.lo || s.entries[e].window.hi <= s.entries[f].window.lo);
      assert f in q;
      var j :| 0 <= j < |q| && q[j] == f;
      assert OfferedAt(clock, s, q, j);
    }
  }

  lemma OneReadings(clock: Clock, t: Db, e: EntryId)
    requires e in t.entries && t.entries[e].status == Waiting
    ensures var u := PromoteOne(clock, t, e);
      t.tick < u.tick && (u.entries[e].status == Holding ==> t.tick + 1 < u.tick)
  {}

  /** The turn of the k-th entry has its clock readings between the start and the end of the scan. */
  lemma TurnReadings(clock: Clock, s: Db, r: ResourceId, k: nat)
    requires k < |Queue(s.entries, r)|
    ensures var q, t := Queue(s.entries, r), Promote(clock, s, r);
      var tick := At(clock, s, q, k).tick;
      s.tick <= tick < t.tick && (OfferedAt(clock, s, q, k) ==> tick + 1 < t.tick)
  {
    var q := Queue(s.entries, r);
    QueueIsQueue(s, r);
    assert s.entries[q[k]].status == Waiting;
    EntryTurn(clock, s, r, q, k);
    hide At, PromoteAll, Queue, IsQueue, PromoteOne, Extends;
    AtStart(clock, s, q);
    AtEnd(clock, s, q);
    AtExtends(clock, s, q, 0, k);
    AtStep(clock, s, q, k);
    OneReadings(clock, At(clock, s, q, k), q[k]);
    AtExtends(clock, s, q, k + 1, |q|);
    MoreTicks(s, At(clock, s, q, k));
    MoreTicks(At(clock, s, q, k + 1), Promote(clock, s, r));
  }

  lemma MoreTicks(s: Db, t: Db)
    requires Extends(s, t)
    ensures s.tick <= t.tick
  {}

  /**
    The outcome for every entry that waits for r, said of the rows. tick is the reading taken at its
    turn. It expires exactly when its owner is disabled or it starts within 15 minutes of that
    reading. Otherwise it is offered exactly when its window misses the bookings confirmed or offered
    at the start and the windows offered to entries that joined before it; else it keeps waiting.
   */
  lemma PromotionOutcome(clock: Clock, s: Db, r: ResourceId, e: EntryId) returns (tick: nat)
    requires e in s.entries && s.entries[e].resource == r && s.entries[e].status == Waiting
    ensures s.tick <= tick < Promote(clock, s, r).tick
    ensures var en, t := s.entries[e], Promote(clock, s, r);
      var enabled := en.user in s.users && s.users[en.user];
      var late := en.window.lo < clock(tick) + 15 * MINUTE;
      var free := MissesActive(s, r, e) && MissesOffers(s, t, r, e);
      && (t.entries[e].status == Lapsed <==> !enabled || late)
      && (t.entries[e].status == Holding <==> enabled && !late && free)
      && (t.entries[e].status == Waiting <==> enabled && !late && !free)
      && (t.entries[e].status == Waiting ==> t.entries[e] == en)
  {
    var k := QueuePlace(s, r, e);
    TurnOutcome(clock, s, r, k);
    TurnReadings(clock, s, r, k);
    FreeMeansMisses(clock, s, r, e, k);
    hide Queue, PromoteAll, At, MissesActive, MissesOffers, TakenBefore, JoinedBefore, Occupied, Promote;
    tick := At(clock, s, Queue(s.entries, r), k).tick;
  }

  lemma TurnHold(clock: Clock, s: Db, r: ResourceId, q: seq<EntryId>, k: nat)
    requires IsQueue(s, r, q) && k < |q| && OfferedAt(clock, s, q, k)
    ensures var t, u := At(clock, s, q, k), At(clock, s, q, k + 1);
      var en := s.entries[q[k]];
      && u.entries[q[k]].hold == Some(|t.bookings|)
      && u.bookings == t.bookings + [HoldFor(en, Deadline(clock(t.tick + 1), en.window))]
  {
    hide PromoteOne, PromoteAll;
    EntryTurn(clock, s, r, q, k);
    AtStep(clock, s, q, k);
    assert At(clock, s, q, k).entries[q[k]].status == Waiting;
    OneHold(clock, At(clock, s, q, k), q[k]);
  }

  lemma HoldOfTurn(clock: Clock, s: Db, r: ResourceId, k: nat)
    requires k < |Queue(s.entries, r)| && OfferedAt(clock, s, Queue(s.entries, r), k)
    ensures var q := Queue(s.entries, r);
      var en := s.entries[q[k]];
      var after := Promote(clock, s, r);
      && after.entries[q[k]].hold.Some?
      && var b := after.entries[q[k]].hold.value;
         && |s.bookings| <= b < |after.bookings|
         && after.bookings[b] == HoldFor(en, Deadline(clock(At(clock, s, q, k).tick + 1), en.window))
  {
    var q := Queue(s.entries, r);
    QueueIsQueue(s, r);
    hide At, PromoteOne, PromoteAll, IsQueue, Queue, Extends, HoldFor, Deadline;
    var t, u := At(clock, s, q, k), At(clock, s, q, k + 1);
    TurnHold(clock, s, r, q, k);
    EntryTurn(clock, s, r, q, k);
    AtStart(clock, s, q);
    AtEnd(clock, s, q);
    AtExtends(clock, s, q, 0, k);
    AtExtends(clock, s, q, k + 1, |q|);
    MoreBookings(s, t);
    SameBooking(u, Promote(clock, s, r), |t.bookings|);
  }

  /**
    The hold of an offered entry, said of the rows: a new reservation for its owner, resource and
    window, offered until fifteen minutes after the reading taken for the offer, or until its start if
    that comes first.
   */
  lemma PromotionHold(clock: Clock, s: Db, r: ResourceId, e: EntryId) returns (tick: nat)
    requires e in s.entries && s.entries[e].resource == r && s.entries[e].status == Waiting
    requires Promote(clock, s, r).entries[e].status == Holding
    ensures s.tick < tick < Promote(clock, s, r).tick
    ensures var en, t := s.entries[e], Promote(clock, s, r);
      var latest := clock(tick) + 15 * MINUTE;
      var deadline := if latest <= en.window.lo then latest else en.window.lo;
      && t.entries[e].hold.Some?
      && var b := t.entries[e].hold.value;
         && |s.bookings| <= b < |t.bookings|
         && t.bookings[b] == Booking(r, Some(en.user), Reservation, en.window, Offered, Some(deadline), None, 1)
  {
    var k := QueuePlace(s, r, e);
    assert OfferedAt(clock, s, Queue(s.entries, r), k);
    HoldOfTurn(clock, s, r, k);
    TurnReadings(clock, s, r, k);
    hide Queue, PromoteAll, At, Promote, JoinedBefore, OfferedAt;
    tick := At(clock, s, Queue(s.entries, r), k).tick + 1;
  }

  lemma QueueIsQueue(s: Db, r: ResourceId)
    ensures IsQueue(s, r, Queue(s.entries, r))
    ensures forall i | 0 <= i < |Queue(s.entries, r)| ::
      Queue(s.entries, r)[i] in s.entries && s.entries[Queue(s.entries, r)[i]].status == Waiting
  {
    assert forall e | e in Queue(s.entries, r) :: s.entries[e].WaitsFor(r);
  }

  lemma MoreBookings(s: Db, t: Db)
    requires Extends(s, t)
    ensures |s.bookings| <= |t.bookings|
  {}

  lemma SameBooking(s: Db, t: Db, b: BookingId)
    requires Extends(s, t) && b < |s.bookings|
    ensures b < |t.bookings| && t.bookings[b] == s.bookings[b]
  {}

  /** Nothing outside the queue of r is touched, and rows are only added to r. */
  lemma PromotionFrame(clock: Clock, s: Db, r: ResourceId)
    ensures Extends(s, Promote(clock, s, r))
    ensures forall e | e in s.entries && !s.entries[e].WaitsFor(r) ::
      Promote(clock, s, r).entries[e] == s.entries[e]
  {
    var q := Queue(s.entries, r);
    AtExtends(clock, s, q, 0, |q|);
    AtEnd(clock, s, q);
    AtStart(clock, s, q);
    forall e | e in s.entries && !s.entries[e].WaitsFor(r)
      ensures Promote(clock, s, r).entries[e] == s.entries[e]
    {
      AtFrame(clock, s, q, 0, |q|, e);
    }
  }

  lemma AheadHasLapsed(clock: Clock, s: Db, r: ResourceId, j: nat, k: nat)
    requires j < k < |Queue(s.entries, r)|
    requires s.entries[Queue(s.entries, r)[j]].window.Proper()
    requires s.entries[Queue(s.entries, r)[j]].window.Within(s.entries[Queue(s.entries, r)[k]].window)
    requires Promote(clock, s, r).entries[Queue(s.entries, r)[k]].status == Holding
    ensures Promote(clock, s, r).entries[Queue(s.entries, r)[j]].status == Lapsed
  {
    var q := Queue(s.entries, r);
    var inner, outer := s.entries[q[j]].window, s.entries[q[k]].window;
    TurnOutcome(clock, s, r, j);
    TurnOutcome(clock, s, r, k);
    assert !TakenBefore(clock, s, q, k, outer);
    assert !OfferedAt(clock, s, q, j);
    forall i | 0 <= i < |s.bookings| ensures !s.bookings[i].Blocks(r, inner) {
      assert !s.bookings[i].Blocks(r, outer);
    }
    forall i | 0 <= i < j && OfferedAt(clock, s, q, i) ensures !s.entries[q[i]].window.Overlaps(inner) {
      assert !s.entries[q[i]].window.Overlaps(outer);
    }
  }

  /**
    First come, first served. When f is offered its window, every entry that joined before it and
    asked for a window inside that one has expired: none still waits, and none was offered.
   */
  lemma PromotionFair(clock: Clock, s: Db, r: ResourceId, e: EntryId, f: EntryId)
    requires e in s.entries && s.entries[e].resource == r && s.entries[e].status == Waiting
    requires f in s.entries && s.entries[f].resource == r && s.entries[f].status == Waiting
    requires s.entries[e].createdAt < s.entries[f].createdAt
      || (s.entries[e].createdAt == s.entries[f].createdAt && e < f)
    requires s.entries[f].window.lo <= s.entries[e].window.lo < s.entries[e].window.hi <= s.entries[f].window.hi
    requires Promote(clock, s, r).entries[f].status == Holding
    ensures Promote(clock, s, r).entries[e].status == Lapsed
  {
    var j := QueuePlace(s, r, e);
    var k := QueuePlace(s, r, f);
    hide Queue, PromoteAll;
    AheadHasLapsed(clock, s, r, j, k);
  }

  // ---------- No waiter is left over a free window ----------

  lemma StillWaitingIsBlocked(clock: Clock, s: Db, r: ResourceId, e: EntryId)
    requires e in s.entries && Promote(clock, s, r).entries[e].WaitsFor(r)
    ensures Occupied(Promote(clock, s, r).bookings, r, s.entries[e].window)
  {
    var q := Queue(s.entries, r);
    PromotionFrame(clock, s, r);
    assert e in q;
    var k :| 0 <= k < |q| && q[k] == e;
    TurnOutcome(clock, s, r, k);
    OccupiedMidScan(clock, s, r, q, k, s.entries[e].window);
    AtExtends(clock, s, q, k, |q|);
    AtEnd(clock, s, q);
    OccupiedGrows(At(clock, s, q, k), Promote(clock, s, r), r, s.entries[e].window);
  }

  lemma PromoteFills(clock: Clock, s: Db, r: ResourceId)
    ensures NoIdleOn(Promote(clock, s, r).bookings, Promote(clock, s, r).entries, r)
  {
    var t := Promote(clock, s, r);
    PromotionFrame(clock, s, r);
    forall e | e in t.entries && t.entries[e].WaitsFor(r) ensures Occupied(t.bookings, r, t.entries[e].window) {
      StillWaitingIsBlocked(clock, s, r, e);
    }
  }

  lemma PromoteKeepsOthers(clock: Clock, s: Db, r: ResourceId, r': ResourceId)
    requires r' != r && NoIdleOn(s.bookings, s.entries, r')
    ensures NoIdleOn(Promote(clock, s, r).bookings, Promote(clock, s, r).entries, r')
  {
    var t := Promote(clock, s, r);
    PromotionFrame(clock, s, r);
    forall e | e in t.entries && t.entries[e].WaitsFor(r') ensures Occupied(t.bookings, r', t.entries[e].window) {
      assert t.entries[e] == s.entries[e];
      OccupiedGrows(s, t, r', s.entries[e].window);
    }
  }

  /** A promotion completes whatever release came before it: the whole invariant holds again. */
  lemma PromoteRestores(clock: Clock, s: Db, r: ResourceId)
    requires Sound(s)
    requires forall r': ResourceId | r' != r :: NoIdleOn(s.bookings, s.entries, r')
    ensures Inv(Promote(clock, s, r))
  {
    var q := Queue(s.entries, r);
    ScanKeepsSound(clock, s, r, q, |q|);
    AtEnd(clock, s, q);
    PromoteFills(clock, s, r);
    forall r': ResourceId | r' != r {
      PromoteKeepsOthers(clock, s, r, r');
    }
  }
}
