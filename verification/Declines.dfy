/**
  The one event that a reservation can lack: an offer that its waiter turned down has none for its end.
 */
module Declines {
  import opened Times
  import opened Wrappers
  import opened Inventory
  import opened Invariant
  import opened Operations
  import opened Promotion
  import opened Safety
  import opened Guarantees
  import opened Outcomes

  /** The step from s to t is the decline that ends the offer of booking b. */
  predicate Declines(s: Db, op: Op, t: Db, b: BookingId) {
    && op.OpDecline? && op.entry in s.entries
    && s.entries[op.entry].status == Holding && s.entries[op.entry].hold == Some(b)
    && b < |s.bookings| && s.bookings[b].status == Offered
    && b < |t.bookings| && t.bookings[b].status == Cancelled
  }

  predicate IsDeclined(s: Db, b: BookingId) {
    b < |s.bookings| && Declined(s.bookings[b])
  }

  // ---------- Which steps mark a booking as declined ----------

  lemma CancelMarksNone(clock: Clock, s: Db, op: Op, b: BookingId)
    requires (op.OpCancel? || op.OpLift?) && Inv(s) && b < |s.bookings| && !Declined(s.bookings[b])
    ensures !IsDeclined(Apply(clock, s, op).db, b)
  {
    hide Promote, CancelBooking, CancelBlackout, Inv, HolderEnds, Announced;
    if op.OpCancel? {
      CancelOutcome(clock, s, op.booking, op.owner, op.expected, op.reason);
    } else {
      LiftOutcome(clock, s, op.booking, op.expected);
    }
    RepeatChangesNothing(clock, s, op);
    if Apply(clock, s, op).reply.Refused? {
      RefusalsChangeNothing(clock, s, op);
    }
  }

  /** Cancelling what is cancelled already changes nothing. */
  lemma RepeatChangesNothing(clock: Clock, s: Db, op: Op)
    requires op.OpCancel? || op.OpLift?
    ensures Apply(clock, s, op).reply == Done && !s.bookings[op.booking].Active() ==>
      OnlyTimePassed(s, Apply(clock, s, op).db)
    ensures Apply(clock, s, op).reply.Refused? ==> Apply(clock, s, op).reply.error != OfferExpired
    ensures Apply(clock, s, op).reply == Done ==> op.booking < |s.bookings|
  {
    hide Promote;
  }

  lemma AcceptMarksNone(clock: Clock, s: Db, op: Op, b: BookingId)
    requires op.OpAccept? && Inv(s) && b < |s.bookings| && !Declined(s.bookings[b])
    ensures !IsDeclined(Apply(clock, s, op).db, b)
  {
    var e := op.entry;
    if e in s.entries && s.entries[e].user == op.user && s.entries[e].version == op.expected
      && s.entries[e].status == Holding {
      hide Promote, Inv, HolderEnds, Announced, Accept;
      AcceptOutcome(clock, s, e, op.user, op.expected);
    } else {
      hide Promote, Inv;
    }
  }

  lemma ExpireMarksNone(clock: Clock, s: Db, op: Op, b: BookingId)
    requires op.OpExpire? && b < |s.bookings| && !Declined(s.bookings[b])
    ensures !IsDeclined(Apply(clock, s, op).db, b)
  {
    hide Promote;
    ExpireDueShape(Sampled(s), op.resource, clock(s.tick), |s.bookings|);
    PromotionFrame(clock, ExpireDue(Sampled(s), op.resource, clock(s.tick), |s.bookings|), op.resource);
  }

  lemma DeclineMarksItsOwn(clock: Clock, s: Db, op: Op, b: BookingId)
    requires op.OpDecline? && Inv(s) && b < |s.bookings| && !Declined(s.bookings[b])
    ensures IsDeclined(Apply(clock, s, op).db, b) <==> Declines(s, op, Apply(clock, s, op).db, b)
  {
    var e := op.entry;
    DeclineOutcome(clock, s, e, op.user, op.expected);
    if e in s.entries && s.entries[e].status == Holding {
      OfferFacts(s, e);
      HeldIsReservation(s, e);
    }
    DeclineOthers(clock, s, op);
    hide Promote, Inv, HolderEnds, Announced, Decline;
  }

  lemma DeclineOthers(clock: Clock, s: Db, op: Op)
    requires op.OpDecline?
    ensures var out := Apply(clock, s, op);
      out.reply != Done || !s.entries[op.entry].Live() ==> out.db.bookings == s.bookings
  {
    hide Promote;
  }

  lemma HeldIsReservation(s: Db, e: EntryId)
    requires Inv(s) && e in s.entries && s.entries[e].status == Holding
    ensures s.entries[e].hold.Some? && s.entries[e].hold.value < |s.bookings|
    ensures s.bookings[s.entries[e].hold.value].kind == Reservation
  {
    assert EntryRowOk(s.entries[e]) && LinkOk(s.bookings, s.entries[e]);
  }

  lemma OthersMarkNone(clock: Clock, s: Db, op: Op, b: BookingId)
    requires !op.OpCancel? && !op.OpLift? && !op.OpAccept? && !op.OpDecline? && !op.OpExpire?
    requires b < |s.bookings| && !Declined(s.bookings[b])
    ensures !IsDeclined(Apply(clock, s, op).db, b)
  {}

  /** No booking is born declined. */
  lemma NotBornDeclined(clock: Clock, s: Db, op: Op, b: BookingId)
    requires Inv(s) && Fresh(s, op) && |s.bookings| <= b
    ensures !IsDeclined(Apply(clock, s, op).db, b)
  {
    hide Apply;
    ApplyKeepsInv(clock, s, op);
    StepIsGuarded(clock, s, op);
  }

  lemma StepMarks(clock: Clock, s: Db, op: Op, b: BookingId)
    requires Inv(s) && Fresh(s, op) && !IsDeclined(s, b)
    ensures IsDeclined(Apply(clock, s, op).db, b) <==> Declines(s, op, Apply(clock, s, op).db, b)
  {
    hide Apply, Inv;
    if |s.bookings| <= b {
      NotBornDeclined(clock, s, op, b);
    } else {
      match op
      case OpCancel(_, _, _, _) => CancelMarksNone(clock, s, op, b);
      case OpLift(_, _) => CancelMarksNone(clock, s, op, b);
      case OpAccept(_, _, _) => AcceptMarksNone(clock, s, op, b);
      case OpExpire(_) => ExpireMarksNone(clock, s, op, b);
      case OpDecline(_, _, _) => DeclineMarksItsOwn(clock, s, op, b);
      case _ => OthersMarkNone(clock, s, op, b);
    }
  }

  /** Nothing happens any more to a declined booking. */
  lemma DeclinedStays(clock: Clock, s: Db, op: Op, b: BookingId)
    requires Fresh(s, op) && IsDeclined(s, b)
    ensures IsDeclined(Apply(clock, s, op).db, b) && !Declines(s, op, Apply(clock, s, op).db, b)
  {
    hide Apply;
    StepIsGuarded(clock, s, op);
  }

  // ---------- Over runs ----------

  /** Some step of the run so far declined the offer of booking b. */
  ghost predicate EndedByDecline(ops: seq<Op>, states: seq<Db>, i: nat, b: BookingId)
    requires i <= |ops| && |ops| < |states|
  {
    exists j | 0 <= j < i :: Declines(states[j], ops[j], states[j + 1], b)
  }

  /** The mark on a row tells the truth: it is there exactly if decline_entry ended the offer. */
  lemma {:induction false} DeclinedExactlyByDecline(clock: Clock, ops: seq<Op>, states: seq<Db>, i: nat, b: BookingId)
    requires IsRun(clock, ops, states) && i < |states|
    ensures IsDeclined(states[i], b) <==> EndedByDecline(ops, states, i, b)
  {
    hide Apply, Inv, IsDeclined, Declines, Fresh;
    if i == 0 {
      NothingDeclined(b);
    } else {
      var s, op, j := states[i - 1], ops[i - 1], i - 1;
      DeclinedExactlyByDecline(clock, ops, states, j, b);
      RunsKeepInv(clock, ops, states, j);
      assert states[j + 1] == Apply(clock, states[j], ops[j]).db;
      if IsDeclined(s, b) {
        DeclinedStays(clock, s, op, b);
      } else {
        StepMarks(clock, s, op, b);
      }
    }
  }

  lemma NothingDeclined(b: BookingId)
    ensures !IsDeclined(EMPTY, b)
  {}

  /**
    Event conservation: a reservation has one event for each of its versions, in order, less the last
    exactly if its offer was ended by decline_entry.
   */
  lemma EventsCountVersions(clock: Clock, ops: seq<Op>, states: seq<Db>, i: nat, b: BookingId)
    requires IsRun(clock, ops, states) && i < |states|
    requires b < |states[i].bookings| && states[i].bookings[b].kind == Reservation
    ensures var h := History(states[i].outbox, b);
      && |h| == states[i].bookings[b].version - (if EndedByDecline(ops, states, i, b) then 1 else 0)
      && forall j | 0 <= j < |h| :: h[j].1 == j + 1
  {
    hide Apply, Fresh;
    EventConservation(clock, ops, states, i, b);
    DeclinedExactlyByDecline(clock, ops, states, i, b);
  }
}
