/**
  What every committed state of the inventory satisfies.
 */
module Invariant {
  import opened Wrappers
  import opened Inventory

  // ---------- Single rows: the CHECK constraints, and the states the code can reach ----------

  predicate BookingRowOk(k: Booking) {
    && k.window.Proper()
    && (k.kind == Reservation <==> k.owner.Some?)
    && (k.kind == Blackout ==> k.status == Confirmed || k.status == Cancelled)
    && (k.status == Offered <==> k.expiresAt.Some?)
    && (k.expiresAt.Some? ==> k.expiresAt.value <= k.window.lo)
    && k.status != Pending
    && (k.reason.Some? ==> k.status == Cancelled && k.kind == Reservation)
  }

  predicate EntryRowOk(en: Entry) {
    && en.window.Proper()
    && match en.status
       case Waiting => en.hold.None? && en.version == 1
       case Holding => en.hold.Some? && en.version == 2
       case Accepted => en.hold.Some? && en.version == 3
       case Withdrawn => en.version == (if en.hold.Some? then 3 else 2)
       case Lapsed => en.version == (if en.hold.Some? then 3 else 2)
  }

  ghost predicate RowsOk(bs: Bookings, es: Entries) {
    && (forall b | 0 <= b < |bs| :: BookingRowOk(bs[b]))
    && (forall e | e in es :: EntryRowOk(es[e]))
  }

  // ---------- The exclusion constraint ----------

  predicate Collide(a: Booking, b: Booking) {
    a.Active() && b.Active() && a.resource == b.resource && a.window.Overlaps(b.window)
  }

  /** bookings_no_overlap. */
  ghost predicate Exclusive(bs: Bookings) {
    forall i, j | 0 <= i < j < |bs| :: !Collide(bs[i], bs[j])
  }

  // ---------- Offers and holds ----------

  predicate StatusesAgree(en: EntryStatus, k: BookingStatus) {
    match en
    case Waiting => false
    case Holding => k == Offered
    case Accepted => k == Confirmed || k == Cancelled
    case Withdrawn => k == Cancelled
    case Lapsed => k == Expired
  }

  /** An entry and the booking it was offered describe the same claim, in statuses that agree. */
  predicate LinkOk(bs: Bookings, en: Entry) {
    en.hold.Some? ==>
      && en.hold.value < |bs|
      && var k := bs[en.hold.value];
         && k.kind == Reservation
         && k.owner == Some(en.user)
         && k.resource == en.resource
         && k.window == en.window
         && StatusesAgree(en.status, k.status)
         // a cancelled claim has three versions exactly when it had been accepted first
         && (k.status == Cancelled ==> k.version == (if en.status == Accepted then 3 else 2))
  }

  ghost predicate LinksOk(bs: Bookings, es: Entries) {
    forall e | e in es :: LinkOk(bs, es[e])
  }

  /** offered_booking_id is unique. */
  ghost predicate HoldsDistinct(es: Entries) {
    forall e, f | e in es && f in es && e != f :: es[e].hold.None? || es[e].hold != es[f].hold
  }

  /** Every offered booking belongs to an entry. */
  ghost predicate HoldsOwned(bs: Bookings, es: Entries) {
    forall b | 0 <= b < |bs| && bs[b].status == Offered :: Linked(es, b)
  }

  // ---------- Versions and events ----------

  predicate VersionOk(k: Booking, linked: bool) {
    match k.status
    case Pending => false
    case Offered => linked && k.version == 1
    case Confirmed => k.version == (if linked then 2 else 1)
    case Expired => linked && k.version == 2
    case Cancelled => k.version == 2 || (linked && k.version == 3)
  }

  ghost predicate VersionsOk(bs: Bookings, es: Entries) {
    forall b | 0 <= b < |bs| :: VersionOk(bs[b], Linked(es, b))
  }

  /** The events of one booking, oldest first. */
  function History(out: Outbox, b: BookingId): seq<(EventType, nat)> {
    if out == [] then []
    else
      var last := out[|out| - 1];
      History(out[..|out| - 1], b) + if last.booking == b then [(last.kind, last.version)] else []
  }

  /** A reservation that was turned down while it was only an offer. */
  predicate Declined(k: Booking) {
    k.kind == Reservation && k.status == Cancelled && k.reason.None?
  }

  /** The events a booking must have had, read off its row and whether it began as an offer. */
  function Expected(k: Booking, linked: bool): seq<(EventType, nat)> {
    if k.kind == Blackout then []
    else
      var birth: seq<(EventType, nat)> := [(if linked then WaitlistOffered else BookingConfirmed, 1)];
      var taken: seq<(EventType, nat)> := [(BookingConfirmed, 2)];
      match k.status
      case Pending => []
      case Offered => birth
      case Confirmed => if linked then birth + taken else birth
      case Expired => birth + [(HoldExpired, 2)]
      case Cancelled =>
        if Declined(k) then birth
        else if linked && k.version == 3 then birth + taken + [(BookingCancelled, 3)]
        else birth + [(BookingCancelled, 2)]
  }

  ghost predicate HistoryOk(bs: Bookings, es: Entries, out: Outbox) {
    forall b | 0 <= b < |bs| :: History(out, b) == Expected(bs[b], Linked(es, b))
  }

  ghost predicate EventsKnown(bs: Bookings, out: Outbox) {
    forall i | 0 <= i < |out| :: out[i].booking < |bs|
  }

  /** Only an offer can be declined, and a declined row has had exactly two versions. */
  ghost predicate DeclinesOk(bs: Bookings, es: Entries) {
    forall b | 0 <= b < |bs| && Declined(bs[b]) :: Linked(es, b) && bs[b].version == 2
  }

  // ---------- The queue ----------

  /** waitlist_active_unique_idx. */
  ghost predicate LiveDistinct(es: Entries) {
    forall e, f | e in es && f in es && e != f && es[e].Live() && es[f].Live() ::
      !(es[e].user == es[f].user && es[e].resource == es[f].resource && es[e].window == es[f].window)
  }

  ghost predicate WithinCap(es: Entries) {
    forall r: ResourceId :: |LiveOn(es, r)| <= WAITLIST_CAP
  }

  /** Every waiting entry of r is kept waiting by some active booking. */
  ghost predicate NoIdleOn(bs: Bookings, es: Entries, r: ResourceId) {
    forall e | e in es && es[e].WaitsFor(r) :: Occupied(bs, r, es[e].window)
  }

  // ---------- Resources ----------

  ghost predicate ForeignKeys(s: Db) {
    && (forall b | 0 <= b < |s.bookings| :: s.bookings[b].resource in s.resources)
    && (forall e | e in s.entries :: s.entries[e].resource in s.resources)
  }

  /** An archived resource is out of use: nobody waits, and nothing ends after its archive time. */
  ghost predicate ArchivedQuiet(s: Db) {
    && (forall e | e in s.entries && s.entries[e].status == Waiting ::
          s.entries[e].resource in s.resources ==> s.resources[s.entries[e].resource].active)
    && (forall b | 0 <= b < |s.bookings| && s.bookings[b].Active() && s.bookings[b].resource in s.resources ::
          s.resources[s.bookings[b].resource].active
          || s.bookings[b].window.hi <= s.resources[s.bookings[b].resource].archivedAt)
  }

  // ---------- The whole invariant ----------

  ghost predicate ClaimsOk(bs: Bookings, es: Entries) {
    && RowsOk(bs, es)
    && LinksOk(bs, es)
    && HoldsDistinct(es)
    && HoldsOwned(bs, es)
    && VersionsOk(bs, es)
    && DeclinesOk(bs, es)
  }

  ghost predicate QueueOk(es: Entries) {
    LiveDistinct(es) && WithinCap(es)
  }

  ghost predicate EventsOk(s: Db) {
    EventsKnown(s.bookings, s.outbox) && HistoryOk(s.bookings, s.entries, s.outbox)
  }

  /** Everything except that the queue is kept waiting: holds between a release and its promotion. */
  ghost predicate Sound(s: Db) {
    && ClaimsOk(s.bookings, s.entries)
    && Exclusive(s.bookings)
    && EventsOk(s)
    && QueueOk(s.entries)
    && ForeignKeys(s)
    && ArchivedQuiet(s)
  }

  ghost predicate NoIdle(s: Db) {
    forall r: ResourceId :: NoIdleOn(s.bookings, s.entries, r)
  }

  ghost predicate Inv(s: Db) {
    Sound(s) && NoIdle(s)
  }
}
