/**
  Offers are taken up only before their deadline, and expired holds are cleared by the scheduler.
 */
module Deadlines {
  import opened Times
  import opened Wrappers
  import opened Inventory
  import opened Invariant
  import opened Promotion
  import opened Operations
  import opened Safety

  // ---------- Taking an offer up ----------

  /** A confirmation of b in the step from s to t. */
  predicate Confirms(s: Db, t: Db, b: BookingId) {
    && b < |s.bookings| && s.bookings[b].status == Offered
    && b < |t.bookings| && t.bookings[b].status == Confirmed
  }

  lemma PromoteConfirmsNothing(clock: Clock, s: Db, t: Db, r: ResourceId, b: BookingId)
    requires b < |s.bookings| == |t.bookings| && t.bookings[b].status != Confirmed
    ensures !Confirms(s, Promote(clock, t, r), b)
  {
    PromotionFrame(clock, t, r);
  }

  lemma ExpireDueConfirmsNothing(s: Db, r: ResourceId, now: Time, b: BookingId)
    requires b < |s.bookings| && s.bookings[b].status == Offered
    ensures ExpireDue(s, r, now, |s.bookings|).bookings[b].status != Confirmed
  {
    ExpireDueShape(s, r, now, |s.bookings|);
  }

  lemma OnlyAcceptConfirms(clock: Clock, s: Db, op: Op, b: BookingId)
    requires Confirms(s, Apply(clock, s, op).db, b)
    ensures op.OpAccept?
  {
    hide Promote;
    match op {
      case OpCancel(id, owner, expected, reason) =>
        if id < |s.bookings| && b < |s.bookings| {
          PromoteConfirmsNothing(clock, s, CancelReservation(Sampled(s), id, reason), s.bookings[id].resource, b);
        }
      case OpLift(id, expected) =>
        if id < |s.bookings| && b < |s.bookings| {
          PromoteConfirmsNothing(clock, s, LiftBlackout(Sampled(s), id), s.bookings[id].resource, b);
        }
      case OpDecline(e, user, expected) =>
        if e in s.entries && b < |s.bookings| {
          PromoteConfirmsNothing(clock, s, CloseWaiting(Sampled(s), e, Withdrawn), s.entries[e].resource, b);
          if HasOffer(s, s.entries[e]) {
            var declined := DeclineHold(Sampled(s), s.entries[e].hold.value);
            PromoteConfirmsNothing(clock, s, declined, s.entries[e].resource, b);
          }
        }
      case OpExpire(r) =>
        ExpireDueConfirmsNothing(Sampled(s), r, clock(s.tick), b);
        PromoteConfirmsNothing(clock, s, ExpireDue(Sampled(s), r, clock(s.tick), |s.bookings|), r, b);
      case _ =>
    }
  }

  lemma AcceptConfirmsInTime(clock: Clock, s: Db, e: EntryId, user: UserId, expected: nat, b: BookingId)
    requires Inv(s) && Confirms(s, Accept(clock, s, e, user, expected).db, b)
    ensures s.bookings[b].expiresAt.Some? && clock(s.tick) < s.bookings[b].expiresAt.value <= s.bookings[b].window.lo
    ensures e in s.entries && s.entries[e].hold == Some(b) && s.bookings[b].owner == Some(user)
  {
    HolderResource(s, e);
    var held := s.entries[e].hold.value;
    PromoteConfirmsNothing(clock, s, ExpireHold(Sampled(s), held), s.entries[e].resource, b);
    assert BookingRowOk(s.bookings[b]);
  }

  /** An offer was taken up by the waiter it was made to, strictly before its deadline. */
  predicate TakenInTime(s: Db, op: Op, b: BookingId, now: Time) {
    && op.OpAccept?
    && op.entry in s.entries && s.entries[op.entry].hold == Some(b)
    && b < |s.bookings|
    && var k := s.bookings[b];
       && k.owner == Some(op.user)
       && k.expiresAt.Some? && now < k.expiresAt.value <= k.window.lo
  }

  lemma StepConfirmsInTime(clock: Clock, s: Db, op: Op, b: BookingId)
    requires Inv(s) && Confirms(s, Apply(clock, s, op).db, b)
    ensures TakenInTime(s, op, b, clock(s.tick))
  {
    hide Inv;
    OnlyAcceptConfirms(clock, s, op, b);
    AcceptConfirmsInTime(clock, s, op.entry, op.user, op.expected, b);
  }

  /**
    In every run an offer becomes confirmed only when its own waiter accepts it, at an instant
    strictly before its deadline, which is never after its start.
   */
  lemma ConfirmedBeforeDeadline(clock: Clock, ops: seq<Op>, states: seq<Db>, i: nat, b: BookingId)
    requires IsRun(clock, ops, states) && i < |ops| && Confirms(states[i], states[i + 1], b)
    ensures TakenInTime(states[i], ops[i], b, clock(states[i].tick))
  {
    hide Inv, Apply, Confirms, TakenInTime;
    RunsKeepInv(clock, ops, states, i);
    StepConfirmsInTime(clock, states[i], ops[i], b);
  }

  // ---------- Clearing expired holds ----------

  /** No offered booking of r is due. */
  ghost predicate NoneDue(bs: Bookings, r: ResourceId, now: Time) {
    forall b | 0 <= b < |bs| :: !bs[b].Due(r, now)
  }

  /** The scan makes no offer that is due at an instant before the scan began. */
  lemma {:induction false} ScanNoneDue(clock: Clock, s: Db, q: seq<EntryId>, k: nat, r: ResourceId, now: Time)
    requires Monotone(clock) && k <= |q| && forall i | 0 <= i < |q| :: q[i] in s.entries
    requires NoneDue(s.bookings, r, now) && now <= clock(s.tick)
    ensures NoneDue(At(clock, s, q, k).bookings, r, now)
  {
    if k > 0 {
      ScanNoneDue(clock, s, q, k - 1, r, now);
      AtStep(clock, s, q, k - 1);
      AtExtends(clock, s, q, 0, k - 1);
      OneNoneDue(clock, At(clock, s, q, k - 1), q[k - 1], r, now);
    }
  }

  lemma OneNoneDue(clock: Clock, t: Db, e: EntryId, r: ResourceId, now: Time)
    requires Monotone(clock) && e in t.entries
    requires NoneDue(t.bookings, r, now) && now <= clock(t.tick)
    ensures NoneDue(PromoteOne(clock, t, e).bookings, r, now)
  {}

  lemma PromoteNoneDue(clock: Clock, s: Db, r: ResourceId, now: Time)
    requires Monotone(clock) && NoneDue(s.bookings, r, now) && now <= clock(s.tick)
    ensures NoneDue(Promote(clock, s, r).bookings, r, now)
  {
    var q := Queue(s.entries, r);
    ScanNoneDue(clock, s, q, |q|, r, now);
    AtEnd(clock, s, q);
  }

  lemma ExpireHoldHistory(t: Db, n: nat, b: BookingId)
    requires n < |t.bookings|
    ensures History(ExpireHold(t, n).outbox, b)
         == History(t.outbox, b) + if b == n then [(HoldExpired, t.bookings[n].version + 1)] else []
  {}

  /** The expiry loop writes one event for each due hold and none for any other booking. */
  lemma {:induction false} ExpireDueHistory(s: Db, r: ResourceId, now: Time, n: nat, b: BookingId)
    requires n <= |s.bookings| && b < |s.bookings|
    ensures History(ExpireDue(s, r, now, n).outbox, b)
         == History(s.outbox, b)
            + if b < n && s.bookings[b].Due(r, now) then [(HoldExpired, s.bookings[b].version + 1)] else []
  {
    if n > 0 {
      var t, u := ExpireDue(s, r, now, n - 1), ExpireDue(s, r, now, n);
      ExpireDueHistory(s, r, now, n - 1, b);
      if s.bookings[n - 1].Due(r, now) {
        ExpireDueAhead(s, r, now, n - 1);
        ExpireHoldHistory(t, n - 1, b);
        assert u == ExpireHold(t, n - 1);
      } else {
        assert u == t;
      }
    }
  }

  lemma OneHistory(clock: Clock, t: Db, e: EntryId, b: BookingId)
    requires e in t.entries && b < |t.bookings|
    ensures History(PromoteOne(clock, t, e).outbox, b) == History(t.outbox, b)
  {}

  lemma TurnHistory(clock: Clock, s: Db, q: seq<EntryId>, k: nat, b: BookingId)
    requires k < |q| && forall i | 0 <= i < |q| :: q[i] in s.entries
    requires b < |s.bookings|
    ensures History(At(clock, s, q, k + 1).outbox, b) == History(At(clock, s, q, k).outbox, b)
  {
    hide At, PromoteOne, PromoteAll, History, Extends;
    AtStart(clock, s, q);
    AtExtends(clock, s, q, 0, k);
    MoreBookings(s, At(clock, s, q, k));
    AtStep(clock, s, q, k);
    OneHistory(clock, At(clock, s, q, k), q[k], b);
  }

  lemma {:induction false} ScanHistory(clock: Clock, s: Db, q: seq<EntryId>, k: nat, b: BookingId)
    requires k <= |q| && forall i | 0 <= i < |q| :: q[i] in s.entries
    requires b < |s.bookings|
    ensures History(At(clock, s, q, k).outbox, b) == History(s.outbox, b)
  {
    hide At, PromoteOne, PromoteAll, History;
    if k == 0 {
      AtStart(clock, s, q);
    } else {
      ScanHistory(clock, s, q, k - 1, b);
      TurnHistory(clock, s, q, k - 1, b);
    }
  }

  lemma PromoteHistory(clock: Clock, s: Db, r: ResourceId, b: BookingId)
    requires b < |s.bookings|
    ensures History(Promote(clock, s, r).outbox, b) == History(s.outbox, b)
  {
    var q := Queue(s.entries, r);
    ScanHistory(clock, s, q, |q|, b);
    AtEnd(clock, s, q);
  }

  /**
    expire_and_promote, for the instant it samples under the resource lock: each hold of r that is
    due then expires with exactly one event, every other booking is left as it is without an event,
    and afterwards no offered booking of r is due at that instant.
   */
  lemma ExpiryOutcome(clock: Clock, s: Db, r: ResourceId)
    requires Monotone(clock) && r in s.resources
    ensures var now, t := clock(s.tick), ExpireAndPromote(clock, s, r).db;
      && |s.bookings| <= |t.bookings|
      && (forall b | 0 <= b < |t.bookings| && t.bookings[b].resource == r && t.bookings[b].status == Offered ::
            t.bookings[b].expiresAt.Some? ==> now < t.bookings[b].expiresAt.value)
      && (forall b | 0 <= b < |s.bookings| ::
            var k := s.bookings[b];
            if k.resource == r && k.status == Offered && k.expiresAt.Some? && k.expiresAt.value <= now
            then t.bookings[b] == k.(status := Expired, expiresAt := None, reason := None, version := k.version + 1)
              && History(t.outbox, b) == History(s.outbox, b) + [(HoldExpired, k.version + 1)]
            else t.bookings[b] == k && History(t.outbox, b) == History(s.outbox, b))
  {
    var s1, now, n := Sampled(s), clock(s.tick), |s.bookings|;
    var t := ExpireDue(s1, r, now, n);
    ExpireDueShape(s1, r, now, n);
    assert NoneDue(t.bookings, r, now);
    assert now <= clock(t.tick);
    PromoteNoneDue(clock, t, r, now);
    PromotionFrame(clock, t, r);
    var u := Promote(clock, t, r);
    forall b | 0 <= b < n
      ensures u.bookings[b] == t.bookings[b] && History(u.outbox, b) == History(s.outbox, b)
        + if s.bookings[b].Due(r, now) then [(HoldExpired, s.bookings[b].version + 1)] else []
    {
      ExpireDueHistory(s1, r, now, n, b);
      PromoteHistory(clock, t, r, b);
    }
  }
}
