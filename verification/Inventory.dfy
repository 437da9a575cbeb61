/**
  The inventory tables (users, resources, bookings, waitlist entries and the immutable part of the
  outbox) and the row changes that transactions make to them.
 */
module Inventory {
  import opened Times
  import opened Wrappers

  type UserId = nat
  type ResourceId = nat
  // A uuid read as a number: entries are ordered by it when they were created at the same instant.
  type EntryId = nat
  // Bookings are never deleted, so a booking's position in the table serves as its opaque id.
  type BookingId = nat

  datatype Kind = Reservation | Blackout

  datatype BookingStatus = Pending | Confirmed | Offered | Cancelled | Expired

  datatype Booking = Booking(
    resource: ResourceId,
    owner: Option<UserId>,
    kind: Kind,
    window: Window,
    status: BookingStatus,
    expiresAt: Option<Time>,
    reason: Option<string>,
    version: nat)
  {
    predicate Active() {
      status == Confirmed || status == Offered
    }

    /** Whether this row keeps the window from being booked: the exclusion constraint's test. */
    predicate Blocks(r: ResourceId, w: Window) {
      Active() && resource == r && window.Overlaps(w)
    }

    predicate Due(r: ResourceId, now: Time) {
      resource == r && status == Offered && expiresAt.Some? && expiresAt.value <= now
    }
  }

  datatype EntryStatus = Waiting | Holding | Accepted | Withdrawn | Lapsed

  datatype Entry = Entry(
    user: UserId,
    resource: ResourceId,
    window: Window,
    status: EntryStatus,
    hold: Option<BookingId>,
    version: nat,
    createdAt: Time)
  {
    predicate Live() {
      status == Waiting || status == Holding
    }

    predicate WaitsFor(r: ResourceId) {
      resource == r && status == Waiting
    }
  }

  // archivedAt is bookkeeping of the model: the instant at which active last became false.
  datatype Resource = Resource(active: bool, version: nat, archivedAt: Time)

  datatype EventType = BookingConfirmed | BookingCancelled | WaitlistOffered | HoldExpired

  // An outbox row as append_event writes it; Outbox follows what delivery does to such a row.
  datatype Event = Event(kind: EventType, booking: BookingId, version: nat)

  type Bookings = seq<Booking>
  type Entries = map<EntryId, Entry>
  type Outbox = seq<Event>

  datatype Db = Db(
    users: map<UserId, bool>,
    resources: map<ResourceId, Resource>,
    bookings: Bookings,
    entries: Entries,
    outbox: Outbox,
    tick: nat)

  const EMPTY: Db := Db(map[], map[], [], map[], [], 0)

  const OFFER_HORIZON: Time := 15 * MINUTE
  const WAITLIST_CAP: nat := 500

  function Sampled(s: Db): Db {
    s.(tick := s.tick + 1)
  }

  predicate Enabled(s: Db, u: UserId) {
    u in s.users && s.users[u]
  }

  /** Some active booking of r overlaps w. */
  predicate Occupied(bs: Bookings, r: ResourceId, w: Window) {
    exists i | 0 <= i < |bs| :: bs[i].Blocks(r, w)
  }

  /** Entry e carries the offer of booking b, or carried it. */
  predicate Linked(es: Entries, b: BookingId) {
    exists e | e in es :: es[e].hold == Some(b)
  }

  /** The live entries of a resource: those its capacity limit counts. */
  function LiveOn(es: Entries, r: ResourceId): set<EntryId> {
    set e | e in es && es[e].resource == r && es[e].Live()
  }

  // ---------- The booking update trigger ----------

  /** The condition under which guard_booking_update lets an UPDATE of one row through. */
  predicate GuardAccepts(before: Booking, after: Booking) {
    && after.resource == before.resource
    && after.owner == before.owner
    && after.kind == before.kind
    && after.window == before.window
    && (after.status == before.status || LegalMove(before.status, after.status))
    && after.version == before.version + 1
  }

  predicate LegalMove(before: BookingStatus, after: BookingStatus) {
    || (before == Pending && (after == Confirmed || after == Cancelled || after == Expired))
    || (before == Offered && (after == Confirmed || after == Cancelled || after == Expired))
    || (before == Confirmed && after == Cancelled)
  }

  // ---------- The queue ----------

  datatype Key = Key(createdAt: Time, id: EntryId) {
    predicate Less(other: Key) {
      createdAt < other.createdAt || (createdAt == other.createdAt && id < other.id)
    }
  }

  function KeyOf(es: Entries, e: EntryId): Key
    requires e in es
  {
    Key(es[e].createdAt, e)
  }

  ghost predicate Ordered(es: Entries, q: seq<EntryId>) {
    && (forall i | 0 <= i < |q| :: q[i] in es)
    && (forall i, j | 0 <= i < j < |q| :: KeyOf(es, q[i]).Less(KeyOf(es, q[j])))
  }

  /** The entries waiting on r whose key comes after the given one. */
  function WaitingAfter(es: Entries, r: ResourceId, after: Option<Key>): set<EntryId> {
    set e | e in es && es[e].WaitsFor(r) && (after.None? || after.value.Less(KeyOf(es, e)))
  }

  predicate IsFirst(es: Entries, ids: set<EntryId>, m: EntryId)
    requires ids <= es.Keys
  {
    m in ids && forall x | x in ids :: x == m || KeyOf(es, m).Less(KeyOf(es, x))
  }

  lemma {:induction false} FirstExists(es: Entries, ids: set<EntryId>)
    requires ids <= es.Keys && ids != {}
    ensures exists m :: IsFirst(es, ids, m)
    decreases ids
  {
    var x :| x in ids;
    if ids == {x} {
      assert IsFirst(es, ids, x);
    } else {
      FirstExists(es, ids - {x});
      var m :| IsFirst(es, ids - {x}, m);
      assert IsFirst(es, ids, if KeyOf(es, m).Less(KeyOf(es, x)) then m else x);
    }
  }

  /** ORDER BY created_at, id. */
  function Sort(es: Entries, ids: set<EntryId>): (q: seq<EntryId>)
    requires ids <= es.Keys
    ensures Ordered(es, q)
    ensures forall e :: e in q <==> e in ids
    decreases ids
  {
    if ids == {} then []
    else
      FirstExists(es, ids);
      var m :| IsFirst(es, ids, m);
      var rest := Sort(es, ids - {m});
      assert forall i | 0 <= i < |rest| :: rest[i] in ids - {m};
      [m] + rest
  }

  /** The whole waiting queue of r. */
  function Queue(es: Entries, r: ResourceId): (q: seq<EntryId>)
    ensures Ordered(es, q)
    ensures forall e :: e in q <==> e in es && es[e].WaitsFor(r)
  {
    Sort(es, WaitingAfter(es, r, None))
  }

  /** One keyset page: ORDER BY created_at, id LIMIT n. */
  function Page(es: Entries, r: ResourceId, after: Option<Key>, n: nat): seq<EntryId> {
    var q := Sort(es, WaitingAfter(es, r, after));
    if |q| <= n then q else q[..n]
  }

  // ---------- Row changes ----------

  /** insert_confirmed and create_blackout: a confirmed row, with its event when it has an owner. */
  function InsertConfirmed(s: Db, r: ResourceId, owner: Option<UserId>, w: Window): Db {
    var kind := if owner.Some? then Reservation else Blackout;
    var b := |s.bookings|;
    s.(bookings := s.bookings + [Booking(r, owner, kind, w, Confirmed, None, None, 1)],
       outbox := if owner.Some? then s.outbox + [Event(BookingConfirmed, b, 1)] else s.outbox)
  }

  /** A new waiting entry. */
  function Enqueue(s: Db, e: EntryId, user: UserId, r: ResourceId, w: Window, createdAt: Time): Db {
    s.(entries := s.entries[e := Entry(user, r, w, Waiting, None, 1, createdAt)])
  }

  /** A waiting entry is closed without ever having been offered anything. */
  function CloseWaiting(s: Db, e: EntryId, status: EntryStatus): Db
    requires e in s.entries
  {
    var en := s.entries[e];
    s.(entries := s.entries[e := en.(status := status, version := en.version + 1)])
  }

  /** The offered booking that promotion inserts for an entry. */
  function HoldFor(en: Entry, deadline: Time): Booking {
    Booking(en.resource, Some(en.user), Reservation, en.window, Offered, Some(deadline), None, 1)
  }

  /** Booking insert, entry update and event of one promotion. */
  function Offer(s: Db, e: EntryId, deadline: Time): Db
    requires e in s.entries
  {
    var en := s.entries[e];
    var b := |s.bookings|;
    s.(bookings := s.bookings + [HoldFor(en, deadline)],
       entries := s.entries[e := en.(status := Holding, hold := Some(b), version := en.version + 1)],
       outbox := s.outbox + [Event(WaitlistOffered, b, 1)])
  }

  /** A booking row after a status change; expires_at is cleared and the version goes up by one. */
  function Moved(k: Booking, status: BookingStatus, reason: Option<string>): Booking {
    k.(status := status, expiresAt := None, reason := reason, version := k.version + 1)
  }

  function MoveBooking(s: Db, b: BookingId, status: BookingStatus, reason: Option<string>): Db
    requires b < |s.bookings|
  {
    s.(bookings := s.bookings[b := Moved(s.bookings[b], status, reason)])
  }

  /** UPDATE waitlist_entries ... WHERE offered_booking_id = b AND status = 'offered'. */
  function CloseHolders(s: Db, b: BookingId, status: EntryStatus): Db {
    s.(entries := map e | e in s.entries ::
         var en := s.entries[e];
         if en.hold == Some(b) && en.status == Holding
         then en.(status := status, version := en.version + 1) else en)
  }

  function Emit(s: Db, kind: EventType, b: BookingId): Db
    requires b < |s.bookings|
  {
    s.(outbox := s.outbox + [Event(kind, b, s.bookings[b].version)])
  }

  /** An overdue hold and the entry that carries it expire, with one event. */
  function ExpireHold(s: Db, b: BookingId): Db
    requires b < |s.bookings|
  {
    Emit(MoveBooking(CloseHolders(s, b, Lapsed), b, Expired, None), HoldExpired, b)
  }

  /** An offer is taken up. */
  function ConfirmHold(s: Db, b: BookingId): Db
    requires b < |s.bookings|
  {
    Emit(CloseHolders(MoveBooking(s, b, Confirmed, None), b, Accepted), BookingConfirmed, b)
  }

  /** An offer is turned down by the waiter: no event is written. */
  function DeclineHold(s: Db, b: BookingId): Db
    requires b < |s.bookings|
  {
    CloseHolders(MoveBooking(s, b, Cancelled, None), b, Withdrawn)
  }

  /** A reservation is cancelled, together with the offer it may still be. */
  function CancelReservation(s: Db, b: BookingId, reason: string): Db
    requires b < |s.bookings|
  {
    Emit(CloseHolders(MoveBooking(s, b, Cancelled, Some(reason)), b, Withdrawn), BookingCancelled, b)
  }

  /** A blackout is cancelled: blackouts have no events. */
  function LiftBlackout(s: Db, b: BookingId): Db
    requires b < |s.bookings|
  {
    MoveBooking(s, b, Cancelled, None)
  }
}
