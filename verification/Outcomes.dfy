/**
  What a caller of each transaction can count on, said without naming how it is done.
 */
module Outcomes {
  import opened Times
  import opened Wrappers
  import opened Inventory
  import opened Invariant
  import opened Promotion
  import opened Operations
  import opened Transitions
  import opened Deadlines

  // ---------- Refusals ----------

  /** The same tables, read at a later time. */
  predicate OnlyTimePassed(s: Db, t: Db) {
    t == s.(tick := t.tick)
  }

  /** A refused transaction leaves no trace, except that accepting too late expires the offer. */
  lemma RefusalsChangeNothing(clock: Clock, s: Db, op: Op)
    requires Apply(clock, s, op).reply.Refused? && Apply(clock, s, op).reply.error != OfferExpired
    ensures OnlyTimePassed(s, Apply(clock, s, op).db)
  {}

  // ---------- Creating and joining ----------

  /** What the window of a booking has to satisfy. */
  predicate MayBook(w: Window, now: Time) {
    && w.lo % (30 * MINUTE) == 0 && w.hi % (30 * MINUTE) == 0
    && w.lo + 30 * MINUTE <= w.hi <= w.lo + 4 * HOUR
    && now + 15 * MINUTE <= w.lo <= now + 90 * DAY
  }

  /** What the window of a blackout has to satisfy: it may begin in the half hour that is running. */
  predicate MayBlackOut(w: Window, now: Time) {
    && w.lo % (30 * MINUTE) == 0 && w.hi % (30 * MINUTE) == 0
    && w.lo + 30 * MINUTE <= w.hi <= w.lo + 30 * DAY
    && now < w.lo + 30 * MINUTE
  }

  lemma BookingRules(w: Window, now: Time)
    ensures BookingWindowOk(w, now) <==> MayBook(w, now)
  {}

  /** A half hour that has not ended starts no earlier than the running one. */
  lemma RunningHalfHour(lo: Time, now: Time)
    requires lo % HALF_HOUR == 0
    ensures now - now % HALF_HOUR <= lo <==> now < lo + HALF_HOUR
  {
    var p, q := lo / HALF_HOUR, now / HALF_HOUR;
    assert lo == p * HALF_HOUR && now - now % HALF_HOUR == q * HALF_HOUR;
  }

  lemma BlackoutRules(w: Window, now: Time)
    ensures BlackoutWindowOk(w, now) <==> MayBlackOut(w, now)
  {
    if w.lo % HALF_HOUR == 0 {
      RunningHalfHour(w.lo, now);
    }
  }

  /** No booking of r that is confirmed or offered has an instant in common with the window. */
  predicate Vacant(s: Db, r: ResourceId, w: Window) {
    forall b | 0 <= b < |s.bookings| && s.bookings[b].resource == r
            && (s.bookings[b].status == Confirmed || s.bookings[b].status == Offered) ::
      s.bookings[b].window.hi <= w.lo || w.hi <= s.bookings[b].window.lo
  }

  lemma VacantMeans(s: Db, r: ResourceId, w: Window)
    ensures Occupied(s.bookings, r, w) <==> !Vacant(s, r, w)
  {
    if !Vacant(s, r, w) {
      var b :| 0 <= b < |s.bookings| && s.bookings[b].resource == r
        && (s.bookings[b].status == Confirmed || s.bookings[b].status == Offered)
        && !(s.bookings[b].window.hi <= w.lo || w.hi <= s.bookings[b].window.lo);
      assert s.bookings[b].Blocks(r, w);
    }
  }

  /** The refusal of a creation: the first reason that applies. */
  function CreateError(s: Db, r: ResourceId, allowed: bool): Error {
    if !allowed then InvalidWindow
    else if r !in s.resources then NotFound
    else if !s.resources[r].active then ResourceInactive
    else SlotConflict
  }

  /**
    A booking is made exactly when its window is allowed, the resource is in use and no active
    booking overlaps; it is then the last row, confirmed, and announced by the last event.
   */
  lemma CreateOutcome(clock: Clock, s: Db, user: UserId, r: ResourceId, w: Window)
    ensures var out, allowed := CreateBooking(clock, s, user, r, w), MayBook(w, clock(s.tick));
      && (out.reply == Done <==> allowed && r in s.resources && s.resources[r].active && Vacant(s, r, w))
      && (out.reply.Refused? ==> out.reply.error == CreateError(s, r, allowed))
      && (out.reply == Done ==>
            && |out.db.bookings| == |s.bookings| + 1
            && out.db.bookings[..|s.bookings|] == s.bookings
            && out.db.bookings[|s.bookings|] == Booking(r, Some(user), Reservation, w, Confirmed, None, None, 1)
            && out.db.outbox == s.outbox + [Event(BookingConfirmed, |s.bookings|, 1)]
            && out.db.entries == s.entries)
  {
    BookingRules(w, clock(s.tick));
    VacantMeans(s, r, w);
    hide BookingWindowOk, MayBook, Vacant, Occupied;
  }

  /** A blackout is made under the same conditions, for a window of its own kind, and without an event. */
  lemma BlackoutOutcome(clock: Clock, s: Db, r: ResourceId, w: Window)
    ensures var out, allowed := CreateBlackout(clock, s, r, w), MayBlackOut(w, clock(s.tick));
      && (out.reply == Done <==> allowed && r in s.resources && s.resources[r].active && Vacant(s, r, w))
      && (out.reply.Refused? ==>
            out.reply.error ==
              if r in s.resources && s.resources[r].active && !allowed then InvalidWindow else CreateError(s, r, true))
      && (out.reply == Done ==>
            && out.db.bookings == s.bookings + [Booking(r, None, Blackout, w, Confirmed, None, None, 1)]
            && out.db.outbox == s.outbox && out.db.entries == s.entries)
  {
    BlackoutRules(w, clock(s.tick));
    VacantMeans(s, r, w);
    hide BlackoutWindowOk, MayBlackOut, Vacant, Occupied;
  }

  /** The user has a confirmed or offered reservation of r that shares an instant with the window. */
  predicate HasOwn(s: Db, user: UserId, r: ResourceId, w: Window) {
    exists b | 0 <= b < |s.bookings| ::
      && s.bookings[b].resource == r && s.bookings[b].kind == Reservation && s.bookings[b].owner == Some(user)
      && (s.bookings[b].status == Confirmed || s.bookings[b].status == Offered)
      && s.bookings[b].window.lo < w.hi && w.lo < s.bookings[b].window.hi
  }

  /** The user waits for the window, or holds an offer of it. */
  predicate HasEntry(s: Db, user: UserId, r: ResourceId, w: Window) {
    exists f | f in s.entries ::
      && s.entries[f].user == user && s.entries[f].resource == r && s.entries[f].window == w
      && (s.entries[f].status == Waiting || s.entries[f].status == Holding)
  }

  function LiveEntries(s: Db, r: ResourceId): set<EntryId> {
    set f | f in s.entries && s.entries[f].resource == r
         && (s.entries[f].status == Waiting || s.entries[f].status == Holding)
  }

  lemma JoinTerms(s: Db, user: UserId, r: ResourceId, w: Window)
    ensures OwnOverlap(s, user, r, w) <==> HasOwn(s, user, r, w)
    ensures AlreadyQueued(s, user, r, w) <==> HasEntry(s, user, r, w)
    ensures LiveOn(s.entries, r) == LiveEntries(s, r)
  {
    if HasOwn(s, user, r, w) {
      var b :| 0 <= b < |s.bookings|
        && s.bookings[b].resource == r && s.bookings[b].kind == Reservation && s.bookings[b].owner == Some(user)
        && (s.bookings[b].status == Confirmed || s.bookings[b].status == Offered)
        && s.bookings[b].window.lo < w.hi && w.lo < s.bookings[b].window.hi;
      assert s.bookings[b].Blocks(r, w);
    }
  }

  /** One joins the waitlist exactly when one could neither book nor is already served, and there is room. */
  lemma JoinOutcome(clock: Clock, s: Db, e: EntryId, createdAt: Time, user: UserId, r: ResourceId, w: Window)
    requires e !in s.entries
    ensures var out, allowed := Join(clock, s, e, createdAt, user, r, w), MayBook(w, clock(s.tick));
      && (out.reply == Done <==>
            && allowed && r in s.resources && s.resources[r].active
            && !Vacant(s, r, w) && !HasOwn(s, user, r, w) && !HasEntry(s, user, r, w)
            && |LiveEntries(s, r)| < 500)
      && (out.reply.Refused? && allowed && r in s.resources && s.resources[r].active ==>
            out.reply.error ==
              if Vacant(s, r, w) then SlotAvailable
              else if HasOwn(s, user, r, w) then AlreadyBooked
              else if HasEntry(s, user, r, w) then AlreadyWaitlisted
              else WaitlistFull)
      && (out.reply.Refused? && !(allowed && r in s.resources && s.resources[r].active) ==>
            out.reply.error == CreateError(s, r, allowed))
      && (out.reply == Done ==>
            && out.db.entries == s.entries[e := Entry(user, r, w, Waiting, None, 1, createdAt)]
            && out.db.bookings == s.bookings && out.db.outbox == s.outbox)
  {
    BookingRules(w, clock(s.tick));
    VacantMeans(s, r, w);
    JoinTerms(s, user, r, w);
    hide BookingWindowOk, MayBook, Vacant, Occupied, HasOwn, HasEntry, OwnOverlap, AlreadyQueued, LiveEntries, LiveOn;
  }

  // ---------- Releasing ----------

  /** Rows that a release of booking id on resource r, and the promotion after it, must leave alone. */
  ghost predicate OthersKept(s: Db, t: Db, id: BookingId, r: ResourceId) {
    && |s.bookings| <= |t.bookings|
    && t.entries.Keys == s.entries.Keys
    && (forall b | 0 <= b < |s.bookings| && b != id :: t.bookings[b] == s.bookings[b])
    && (forall e | e in s.entries && !s.entries[e].WaitsFor(r) && s.entries[e].hold != Some(id) ::
          t.entries[e] == s.entries[e])
  }

  /** The entry that holds booking id ends with the given status, one version later. */
  ghost predicate HolderEnds(s: Db, t: Db, id: BookingId, status: EntryStatus) {
    forall e | e in s.entries && s.entries[e].hold == Some(id) && s.entries[e].status == Holding ::
      e in t.entries && t.entries[e] == s.entries[e].(status := status, version := s.entries[e].version + 1)
  }

  /** The events added from s to t: those of booking id are exactly more, and other bookings of s have none. */
  ghost predicate Announced(s: Db, t: Db, id: BookingId, more: seq<(EventType, nat)>) {
    forall b | 0 <= b < |s.bookings| :: History(t.outbox, b) == History(s.outbox, b) + if b == id then more else []
  }

  lemma OneEvent(s: Db, t: Db, kind: EventType, id: BookingId, version: nat)
    requires t.outbox == s.outbox + [Event(kind, id, version)]
    ensures Announced(s, t, id, [(kind, version)])
  {
    forall b | 0 <= b < |s.bookings| {
      HistoryAppend(s.outbox, Event(kind, id, version), b);
    }
  }

  lemma PromotionLeaves(
      clock: Clock, s: Db, u: Db, id: BookingId, r: ResourceId, status: EntryStatus, more: seq<(EventType, nat)>)
    requires OthersKept(s, u, id, r) && HolderEnds(s, u, id, status) && status != Waiting && id < |s.bookings|
    requires Announced(s, u, id, more)
    ensures OthersKept(s, Promote(clock, u, r), id, r) && HolderEnds(s, Promote(clock, u, r), id, status)
    ensures Promote(clock, u, r).bookings[id] == u.bookings[id]
    ensures Announced(s, Promote(clock, u, r), id, more)
  {
    PromotionFrame(clock, u, r);
    forall b | 0 <= b < |s.bookings| ensures History(Promote(clock, u, r).outbox, b) == History(u.outbox, b) {
      PromoteHistory(clock, u, r, b);
    }
    hide Promote;
  }

  lemma CancelLeaves(s: Db, id: BookingId, reason: string)
    requires id < |s.bookings|
    ensures var u, k := CancelReservation(Sampled(s), id, reason), s.bookings[id];
      && OthersKept(s, u, id, k.resource) && HolderEnds(s, u, id, Withdrawn)
      && Announced(s, u, id, [(BookingCancelled, k.version + 1)])
  {
    OneEvent(s, CancelReservation(Sampled(s), id, reason), BookingCancelled, id, s.bookings[id].version + 1);
    hide Announced;
  }

  /**
    Cancelling: exactly who may do so until when, what happens to the booking, its offer and its
    event, and to nothing else.
   */
  lemma CancelOutcome(clock: Clock, s: Db, id: BookingId, owner: Option<UserId>, expected: nat, reason: string)
    ensures var out := CancelBooking(clock, s, id, owner, expected, reason);
      && (out.reply == Done <==>
            && id < |s.bookings|
            && var k := s.bookings[id];
               && k.kind == Reservation && k.version == expected && (owner.Some? ==> k.owner == owner)
               && (k.status == Cancelled
                   || ((k.status == Confirmed || k.status == Offered)
                       && clock(s.tick) < (if owner.Some? then k.window.lo else k.window.hi))))
      && (out.reply.Refused? ==>
            out.reply.error ==
              if id >= |s.bookings| || s.bookings[id].kind != Reservation
                 || (owner.Some? && s.bookings[id].owner != owner) then NotFound
              else if s.bookings[id].version != expected then VersionMismatch
              else if s.bookings[id].status == Confirmed || s.bookings[id].status == Offered then TooLate
              else InvalidState)
      && (out.reply == Done && s.bookings[id].status == Cancelled ==> OnlyTimePassed(s, out.db))
      && (out.reply == Done && s.bookings[id].status != Cancelled ==>
            && var k, t := s.bookings[id], out.db;
            && OthersKept(s, t, id, k.resource) && HolderEnds(s, t, id, Withdrawn)
            && t.bookings[id] ==
                 k.(status := Cancelled, expiresAt := None, reason := Some(reason), version := expected + 1)
            && Announced(s, t, id, [(BookingCancelled, expected + 1)]))
  {
    if id < |s.bookings| {
      CancelLeaves(s, id, reason);
      PromotionLeaves(clock, s, CancelReservation(Sampled(s), id, reason), id, s.bookings[id].resource, Withdrawn,
                      [(BookingCancelled, s.bookings[id].version + 1)]);
    }
    hide Promote, OthersKept, HolderEnds, Announced;
  }

  lemma BlackoutsAreNotHeld(s: Db, id: BookingId)
    requires Inv(s) && id < |s.bookings| && s.bookings[id].kind == Blackout
    ensures s.bookings[id].reason.None? && s.bookings[id].expiresAt.None?
    ensures forall e | e in s.entries :: s.entries[e].hold != Some(id)
  {}

  lemma LiftLeaves(s: Db, id: BookingId)
    requires Inv(s) && id < |s.bookings| && s.bookings[id].kind == Blackout
    ensures var u := LiftBlackout(Sampled(s), id);
      OthersKept(s, u, id, s.bookings[id].resource) && HolderEnds(s, u, id, Withdrawn) && Announced(s, u, id, [])
  {
    BlackoutsAreNotHeld(s, id);
    hide Inv;
  }

  /** Lifting a blackout: exactly when it succeeds, and that no event is written for it. */
  lemma LiftOutcome(clock: Clock, s: Db, id: BookingId, expected: nat)
    requires Inv(s)
    ensures var out := CancelBlackout(clock, s, id, expected);
      && (out.reply == Done <==>
            && id < |s.bookings|
            && var k := s.bookings[id];
               && k.kind == Blackout && k.version == expected
               && (k.status == Cancelled || (k.status == Confirmed && clock(s.tick) < k.window.hi)))
      && (out.reply.Refused? ==>
            out.reply.error ==
              if id >= |s.bookings| || s.bookings[id].kind != Blackout then NotFound
              else if s.bookings[id].version != expected then VersionMismatch
              else if s.bookings[id].status == Confirmed then TooLate
              else InvalidState)
      && (out.reply == Done && s.bookings[id].status == Cancelled ==> OnlyTimePassed(s, out.db))
      && (out.reply == Done && s.bookings[id].status != Cancelled ==>
            && var k, t := s.bookings[id], out.db;
            && OthersKept(s, t, id, k.resource)
            && t.bookings[id] == k.(status := Cancelled, expiresAt := None, reason := None, version := expected + 1)
            && Announced(s, t, id, []))
  {
    if id < |s.bookings| && s.bookings[id].kind == Blackout {
      BlackoutsAreNotHeld(s, id);
      LiftLeaves(s, id);
      PromotionLeaves(clock, s, LiftBlackout(Sampled(s), id), id, s.bookings[id].resource, Withdrawn, []);
    }
    hide Promote, OthersKept, HolderEnds, Announced, Inv;
  }

  /** Who gets to take up an offer, and why the others do not. */
  lemma AcceptReply(clock: Clock, s: Db, e: EntryId, user: UserId, expected: nat)
    requires Inv(s)
    ensures var reply := Accept(clock, s, e, user, expected).reply;
      && (reply == Done <==>
            && e in s.entries
            && var en := s.entries[e];
               && en.user == user && en.version == expected && en.status == Holding
               && en.hold.Some? && en.hold.value < |s.bookings|
               && s.bookings[en.hold.value].expiresAt.Some?
               && clock(s.tick) < s.bookings[en.hold.value].expiresAt.value)
      && (reply.Refused? ==>
            reply.error ==
              if e !in s.entries || s.entries[e].user != user then NotFound
              else if s.entries[e].version != expected then VersionMismatch
              else if s.entries[e].status != Holding then InvalidState
              else OfferExpired)
  {
    if e in s.entries && s.entries[e].status == Holding {
      OfferFacts(s, e);
    }
    hide Promote, Inv;
  }

  /** Taking up an offer: in time it becomes a booking; late it expires, and is offered on. */
  lemma AcceptOutcome(clock: Clock, s: Db, e: EntryId, user: UserId, expected: nat)
    requires Inv(s) && e in s.entries && s.entries[e].user == user && s.entries[e].version == expected
    requires s.entries[e].status == Holding
    ensures s.entries[e].hold.Some? && s.entries[e].hold.value < |s.bookings|
    ensures var b, out := s.entries[e].hold.value, Accept(clock, s, e, user, expected);
      var k, t := s.bookings[b], out.db;
      && k.expiresAt.Some?
      && OthersKept(s, t, b, k.resource)
      && if clock(s.tick) < k.expiresAt.value then
           && out.reply == Done
           && t.bookings[b] == k.(status := Confirmed, expiresAt := None, reason := None, version := k.version + 1)
           && HolderEnds(s, t, b, Accepted)
           && Announced(s, t, b, [(BookingConfirmed, k.version + 1)])
           && |t.bookings| == |s.bookings|
         else
           && out.reply == Refused(OfferExpired)
           && t.bookings[b] == k.(status := Expired, expiresAt := None, reason := None, version := k.version + 1)
           && HolderEnds(s, t, b, Lapsed)
           && Announced(s, t, b, [(HoldExpired, k.version + 1)])
  {
    hide Promote, OthersKept, HolderEnds, Announced, Inv;
    OfferFacts(s, e);
    var b := s.entries[e].hold.value;
    var r := s.bookings[b].resource;
    ConfirmLeaves(s, b);
    ExpireLeaves(s, b);
    PromotionLeaves(clock, s, ExpireHold(Sampled(s), b), b, r, Lapsed, [(HoldExpired, s.bookings[b].version + 1)]);
  }

  lemma OfferFacts(s: Db, e: EntryId)
    requires Inv(s) && e in s.entries && s.entries[e].status == Holding
    ensures s.entries[e].hold.Some? && s.entries[e].hold.value < |s.bookings|
    ensures var k := s.bookings[s.entries[e].hold.value];
      k.status == Offered && k.resource == s.entries[e].resource && k.reason.None? && k.expiresAt.Some?
  {}

  lemma ConfirmLeaves(s: Db, b: BookingId)
    requires b < |s.bookings|
    ensures var u, k := ConfirmHold(Sampled(s), b), s.bookings[b];
      && OthersKept(s, u, b, k.resource) && HolderEnds(s, u, b, Accepted)
      && Announced(s, u, b, [(BookingConfirmed, k.version + 1)])
  {
    OneEvent(s, ConfirmHold(Sampled(s), b), BookingConfirmed, b, s.bookings[b].version + 1);
    hide Announced;
  }

  lemma ExpireLeaves(s: Db, b: BookingId)
    requires b < |s.bookings|
    ensures var u, k := ExpireHold(Sampled(s), b), s.bookings[b];
      && OthersKept(s, u, b, k.resource) && HolderEnds(s, u, b, Lapsed)
      && Announced(s, u, b, [(HoldExpired, k.version + 1)])
  {
    OneEvent(s, ExpireHold(Sampled(s), b), HoldExpired, b, s.bookings[b].version + 1);
    hide Announced;
  }

  lemma DeclineLeaves(s: Db, b: BookingId)
    requires b < |s.bookings|
    ensures var u := DeclineHold(Sampled(s), b);
      OthersKept(s, u, b, s.bookings[b].resource) && HolderEnds(s, u, b, Withdrawn) && Announced(s, u, b, [])
  {}

  /**
    Withdrawing: exactly when it succeeds. A waiting entry is just closed; turning an offer down
    frees its window, and no event is written for it.
   */
  lemma DeclineOutcome(clock: Clock, s: Db, e: EntryId, user: UserId, expected: nat)
    requires Inv(s)
    ensures var out := Decline(clock, s, e, user, expected);
      && (out.reply == Done <==>
            && e in s.entries
            && var en := s.entries[e];
               && en.user == user && en.version == expected
               && (en.status == Withdrawn
                   || ((en.status == Waiting || en.status == Holding) && clock(s.tick) < en.window.lo)))
      && (out.reply.Refused? ==>
            out.reply.error ==
              if e !in s.entries || s.entries[e].user != user then NotFound
              else if s.entries[e].version != expected then VersionMismatch
              else if s.entries[e].status == Waiting || s.entries[e].status == Holding then TooLate
              else InvalidState)
      && (out.reply == Done && s.entries[e].status == Withdrawn ==> OnlyTimePassed(s, out.db))
      && (out.reply == Done && s.entries[e].status == Waiting ==>
            var closed := s.entries[e].(status := Withdrawn, version := expected + 1);
            out.db == s.(tick := s.tick + 1, entries := s.entries[e := closed]))
      && (out.reply == Done && s.entries[e].status == Holding ==>
            && s.entries[e].hold.Some? && s.entries[e].hold.value < |s.bookings|
            && var b, t := s.entries[e].hold.value, out.db;
            && var k := s.bookings[b];
            && OthersKept(s, t, b, k.resource) && HolderEnds(s, t, b, Withdrawn)
            && t.bookings[b] == k.(status := Cancelled, expiresAt := None, reason := None, version := k.version + 1)
            && Announced(s, t, b, []))
  {
    if e in s.entries && s.entries[e].status == Holding {
      OfferFacts(s, e);
      var b := s.entries[e].hold.value;
      DeclineLeaves(s, b);
      PromotionLeaves(clock, s, DeclineHold(Sampled(s), b), b, s.bookings[b].resource, Withdrawn, []);
    }
    hide Promote, OthersKept, HolderEnds, Announced, Inv;
  }

  // ---------- Archiving ----------

  predicate OutOfUse(s: Db, r: ResourceId, now: Time) {
    && (forall b | 0 <= b < |s.bookings| && s.bookings[b].resource == r
                && (s.bookings[b].status == Confirmed || s.bookings[b].status == Offered) ::
          s.bookings[b].window.hi <= now)
    && (forall e | e in s.entries && s.entries[e].status == Waiting :: s.entries[e].resource != r)
  }

  lemma InUseMeans(s: Db, r: ResourceId, now: Time)
    ensures InUse(s, r, now) <==> !OutOfUse(s, r, now)
  {}

  /** Only the row of resource r differs; it has the given flag and the next version. */
  predicate ResourceChanged(s: Db, t: Db, r: ResourceId, active: bool) {
    && r in s.resources && r in t.resources
    && t.resources[r].active == active && t.resources[r].version == s.resources[r].version + 1
    && t.resources.Keys == s.resources.Keys
    && (forall x | x in s.resources && x != r :: t.resources[x] == s.resources[x])
    && t.users == s.users && t.bookings == s.bookings && t.entries == s.entries && t.outbox == s.outbox
  }

  /** A resource can be archived exactly when nothing on it is still to end and nobody waits for it. */
  lemma ArchiveOutcome(clock: Clock, s: Db, r: ResourceId, expected: nat)
    ensures var now, out := clock(s.tick), ArchiveResource(clock, s, r, expected);
      && (out.reply == Done <==>
            && r in s.resources && s.resources[r].version == expected
            && OutOfUse(s, r, now))
      && (out.reply.Refused? ==>
            out.reply.error ==
              if r !in s.resources then NotFound
              else if s.resources[r].version != expected then VersionMismatch
              else ResourceInUse)
      && (out.reply == Done ==> ResourceChanged(s, out.db, r, false))
  {
    InUseMeans(s, r, clock(s.tick));
    hide InUse, OutOfUse;
  }

  /**
    Patching a resource succeeds exactly at its current version, for a patch that names something, and
    if it makes an active resource inactive exactly when that one could be archived. The flag is then
    what the patch names, or else what it was.
   */
  lemma PatchOutcome(clock: Clock, s: Db, r: ResourceId, expected: nat, active: Option<bool>, others: bool)
    ensures var now, out := clock(s.tick), PatchResource(clock, s, r, expected, active, others);
      && (out.reply == Done <==>
            && r in s.resources && s.resources[r].version == expected
            && (active.Some? || others)
            && (active == Some(false) && s.resources[r].active ==> OutOfUse(s, r, now)))
      && (out.reply.Refused? ==>
            out.reply.error ==
              if r !in s.resources then NotFound
              else if s.resources[r].version != expected then VersionMismatch
              else if active.None? && !others then EmptyPatch
              else ResourceInUse)
      && (out.reply == Done ==>
            ResourceChanged(s, out.db, r, if active.Some? then active.value else s.resources[r].active))
  {
    InUseMeans(s, r, clock(s.tick));
    hide InUse, OutOfUse;
  }

  /** A resource that has just been added can be booked at once, by anyone, for any window that is allowed. */
  lemma AddedIsBookable(clock: Clock, s: Db, r: ResourceId, user: UserId, w: Window)
    requires Inv(s) && r !in s.resources
    ensures var t := AddResource(s, r).db;
      && CreateBooking(clock, t, user, r, w).reply
           == (if MayBook(w, clock(s.tick)) then Done else Refused(InvalidWindow))
      && t.bookings == s.bookings && t.entries == s.entries && t.outbox == s.outbox && t.users == s.users
      && t.resources.Keys == s.resources.Keys + {r} && forall x | x in s.resources :: t.resources[x] == s.resources[x]
  {
    var t := AddResource(s, r).db;
    assert Vacant(t, r, w);
    CreateOutcome(clock, t, user, r, w);
  }

  // ---------- Repeats ----------

  lemma CancelledStays(clock: Clock, s: Db, id: BookingId, owner: Option<UserId>, expected: nat, reason: string)
    requires CancelBooking(clock, s, id, owner, expected, reason).reply == Done
    ensures var t := CancelBooking(clock, s, id, owner, expected, reason).db;
      && id < |s.bookings| && id < |t.bookings|
      && t.bookings[id].status == Cancelled && t.bookings[id].kind == Reservation
      && t.bookings[id].owner == s.bookings[id].owner
      && (owner.Some? ==> s.bookings[id].owner == owner)
  {
    if s.bookings[id].Active() {
      CancelOutcome(clock, s, id, owner, expected, reason);
    }
    hide Promote;
  }

  /** Repeating a cancellation at the version it left is accepted and changes nothing. */
  lemma CancelTwice(
      clock: Clock, s: Db, id: BookingId, owner: Option<UserId>, expected: nat, reason: string, again: string)
    requires CancelBooking(clock, s, id, owner, expected, reason).reply == Done
    ensures var t := CancelBooking(clock, s, id, owner, expected, reason).db;
      && id < |t.bookings|
      && CancelBooking(clock, t, id, owner, t.bookings[id].version, again).reply == Done
      && OnlyTimePassed(t, CancelBooking(clock, t, id, owner, t.bookings[id].version, again).db)
  {
    CancelledStays(clock, s, id, owner, expected, reason);
    hide Promote;
  }

  /** An offer that has been taken up cannot be taken up again, at whatever version. */
  lemma AcceptOnce(clock: Clock, s: Db, e: EntryId, user: UserId, expected: nat, again: nat)
    requires Inv(s) && Accept(clock, s, e, user, expected).reply == Done
    ensures var t := Accept(clock, s, e, user, expected).db;
      Accept(clock, t, e, user, again)
        == Outcome(t, Refused(if again == expected + 1 then InvalidState else VersionMismatch))
  {}
}
