/**
  The transactions on the inventory, each as one function from the state it starts in.

  A transaction that touches a resource does so under that resource's row lock, and is read here as
  atomic. Creates proves this for what the locks of one resource guard in the booking protocol: its
  bookings and its active flag. Entries and outbox rows of a resource are written only under the
  exclusive lock or by the creating transaction itself, and transactions on other resources touch
  other rows; that is argued, not modelled. A promotion reads users without a lock, so a change of
  their enabled flag counts as coming before or after the whole transaction.
 */
module Operations {
  import opened Times
  import opened Wrappers
  import opened Inventory
  import opened Promotion

  datatype Error =
    | NotFound | VersionMismatch | InvalidState | TooLate | InvalidWindow | ResourceInactive | SlotConflict
    | SlotAvailable | AlreadyBooked | AlreadyWaitlisted | WaitlistFull | ResourceInUse | EmptyPatch | OfferExpired

  datatype Reply = Done | Refused(error: Error)

  datatype Outcome = Outcome(db: Db, reply: Reply)

  const MAX_BOOKING: Time := 4 * HOUR
  const MAX_BLACKOUT: Time := 30 * DAY
  const BOOKING_LEAD: Time := 15 * MINUTE
  const BOOKING_HORIZON: Time := 90 * DAY

  predicate OnBoundary(t: Time) {
    t % HALF_HOUR == 0
  }

  /** validate_booking_window, for instants that carry a time zone. */
  predicate BookingWindowOk(w: Window, now: Time) {
    && OnBoundary(w.lo) && OnBoundary(w.hi)
    && w.lo < w.hi
    && HALF_HOUR <= w.hi - w.lo <= MAX_BOOKING
    && now + BOOKING_LEAD <= w.lo <= now + BOOKING_HORIZON
  }

  /** validate_blackout_window, for instants that carry a time zone. */
  predicate BlackoutWindowOk(w: Window, now: Time) {
    && OnBoundary(w.lo) && OnBoundary(w.hi)
    && w.lo < w.hi
    && HALF_HOUR <= w.hi - w.lo <= MAX_BLACKOUT
    && now < w.hi
    && now - now % HALF_HOUR <= w.lo
  }

  // ---------- Creating ----------

  function InsertIfFree(s: Db, r: ResourceId, owner: Option<UserId>, w: Window): Outcome {
    if Occupied(s.bookings, r, w) then Outcome(s, Refused(SlotConflict))
    else Outcome(InsertConfirmed(s, r, owner, w), Done)
  }

  function CreateBooking(clock: Clock, s: Db, user: UserId, r: ResourceId, w: Window): Outcome {
    var s1 := Sampled(s);
    if !BookingWindowOk(w, clock(s.tick)) then Outcome(s1, Refused(InvalidWindow))
    else if r !in s.resources then Outcome(s1, Refused(NotFound))
    else if !s.resources[r].active then Outcome(s1, Refused(ResourceInactive))
    else InsertIfFree(s1, r, Some(user), w)
  }

  function CreateBlackout(clock: Clock, s: Db, r: ResourceId, w: Window): Outcome {
    if r !in s.resources then Outcome(s, Refused(NotFound))
    else if !s.resources[r].active then Outcome(s, Refused(ResourceInactive))
    else
      var s1 := Sampled(s);
      if !BlackoutWindowOk(w, clock(s.tick)) then Outcome(s1, Refused(InvalidWindow))
      else InsertIfFree(s1, r, None, w)
  }

  // ---------- Cancelling ----------

  /** owner is the principal on the member route, None on the administrator's. */
  function CancelBooking(
      clock: Clock, s: Db, id: BookingId, owner: Option<UserId>, expected: nat, reason: string): Outcome
  {
    if id >= |s.bookings| || s.bookings[id].kind != Reservation || (owner.Some? && s.bookings[id].owner != owner)
    then Outcome(s, Refused(NotFound))
    else
      var k, now, s1 := s.bookings[id], clock(s.tick), Sampled(s);
      if k.version != expected then Outcome(s1, Refused(VersionMismatch))
      else if k.status == Cancelled then Outcome(s1, Done)
      else if !k.Active() then Outcome(s1, Refused(InvalidState))
      else if (if owner.None? then k.window.hi else k.window.lo) <= now then Outcome(s1, Refused(TooLate))
      else Outcome(Promote(clock, CancelReservation(s1, id, reason), k.resource), Done)
  }

  function CancelBlackout(clock: Clock, s: Db, id: BookingId, expected: nat): Outcome {
    if id >= |s.bookings| || s.bookings[id].kind != Blackout then Outcome(s, Refused(NotFound))
    else
      var k, now, s1 := s.bookings[id], clock(s.tick), Sampled(s);
      if k.version != expected then Outcome(s1, Refused(VersionMismatch))
      else if k.status == Cancelled then Outcome(s1, Done)
      else if k.status != Confirmed then Outcome(s1, Refused(InvalidState))
      else if k.window.hi <= now then Outcome(s1, Refused(TooLate))
      else Outcome(Promote(clock, LiftBlackout(s1, id), k.resource), Done)
  }

  // ---------- The waitlist ----------

  predicate OwnOverlap(s: Db, user: UserId, r: ResourceId, w: Window) {
    exists i | 0 <= i < |s.bookings| ::
      s.bookings[i].Blocks(r, w) && s.bookings[i].kind == Reservation && s.bookings[i].owner == Some(user)
  }

  predicate AlreadyQueued(s: Db, user: UserId, r: ResourceId, w: Window) {
    exists e | e in s.entries ::
      s.entries[e].Live() && s.entries[e].user == user && s.entries[e].resource == r && s.entries[e].window == w
  }

  /** e is the uuid drawn for the entry; createdAt is the start of the transaction, any earlier instant. */
  function Join(clock: Clock, s: Db, e: EntryId, createdAt: Time, user: UserId, r: ResourceId, w: Window): Outcome {
    var s1 := Sampled(s);
    if !BookingWindowOk(w, clock(s.tick)) then Outcome(s1, Refused(InvalidWindow))
    else if r !in s.resources then Outcome(s1, Refused(NotFound))
    else if !s.resources[r].active then Outcome(s1, Refused(ResourceInactive))
    else if !Occupied(s.bookings, r, w) then Outcome(s1, Refused(SlotAvailable))
    else if OwnOverlap(s, user, r, w) then Outcome(s1, Refused(AlreadyBooked))
    else if AlreadyQueued(s, user, r, w) then Outcome(s1, Refused(AlreadyWaitlisted))
    else if |LiveOn(s.entries, r)| >= WAITLIST_CAP then Outcome(s1, Refused(WaitlistFull))
    else Outcome(Enqueue(s1, e, user, r, w, createdAt), Done)
  }

  predicate HasOffer(s: Db, en: Entry) {
    en.hold.Some? && en.hold.value < |s.bookings| && s.bookings[en.hold.value].status == Offered
  }

  function Accept(clock: Clock, s: Db, e: EntryId, user: UserId, expected: nat): Outcome {
    if e !in s.entries || s.entries[e].user != user then Outcome(s, Refused(NotFound))
    else
      var en := s.entries[e];
      if en.version != expected then Outcome(s, Refused(VersionMismatch))
      else if en.status != Holding || !HasOffer(s, en) then Outcome(s, Refused(InvalidState))
      else
        var b, now, s1 := en.hold.value, clock(s.tick), Sampled(s);
        if s.bookings[b].expiresAt.Some? && s.bookings[b].expiresAt.value <= now
        then Outcome(Promote(clock, ExpireHold(s1, b), en.resource), Refused(OfferExpired))
        else Outcome(ConfirmHold(s1, b), Done)
  }

  function Decline(clock: Clock, s: Db, e: EntryId, user: UserId, expected: nat): Outcome {
    if e !in s.entries || s.entries[e].user != user then Outcome(s, Refused(NotFound))
    else
      var en := s.entries[e];
      if en.version != expected then Outcome(s, Refused(VersionMismatch))
      else if en.status == Withdrawn then Outcome(s, Done)
      else if !en.Live() then Outcome(s, Refused(InvalidState))
      else
        var now, s1 := clock(s.tick), Sampled(s);
        if en.window.lo <= now then Outcome(s1, Refused(TooLate))
        else if en.status == Waiting then Outcome(CloseWaiting(s1, e, Withdrawn), Done)
        else if HasOffer(s, en) then Outcome(Promote(clock, DeclineHold(s1, en.hold.value), en.resource), Done)
        else Outcome(Promote(clock, CloseWaiting(s1, e, Withdrawn), en.resource), Done)
  }

  // ---------- Hold expiry ----------

  /** The due holds among the first n bookings expire. */
  function ExpireDue(s: Db, r: ResourceId, now: Time, n: nat): (t: Db)
    requires n <= |s.bookings|
    ensures |t.bookings| == |s.bookings|
  {
    if n == 0 then s
    else
      var t := ExpireDue(s, r, now, n - 1);
      if s.bookings[n - 1].Due(r, now) then ExpireHold(t, n - 1) else t
  }

  function ExpireAndPromote(clock: Clock, s: Db, r: ResourceId): Outcome {
    if r !in s.resources then Outcome(s, Done)
    else Outcome(Promote(clock, ExpireDue(Sampled(s), r, clock(s.tick), |s.bookings|), r), Done)
  }

  // ---------- Resources and users ----------

  predicate InUse(s: Db, r: ResourceId, now: Time) {
    || (exists i | 0 <= i < |s.bookings| ::
          s.bookings[i].Active() && s.bookings[i].resource == r && now < s.bookings[i].window.hi)
    || (exists e | e in s.entries :: s.entries[e].WaitsFor(r))
  }

  function SetActive(s: Db, r: ResourceId, active: bool, now: Time): Db
    requires r in s.resources
  {
    var before := s.resources[r];
    var archivedAt := if before.active && !active then now else before.archivedAt;
    s.(resources := s.resources[r := Resource(active, before.version + 1, archivedAt)])
  }

  /** active is the patched value, if the patch names it; others says that it names other fields. */
  function PatchResource(
      clock: Clock, s: Db, r: ResourceId, expected: nat, active: Option<bool>, others: bool): Outcome
  {
    if r !in s.resources then Outcome(s, Refused(NotFound))
    else if s.resources[r].version != expected then Outcome(s, Refused(VersionMismatch))
    else if active.None? && !others then Outcome(s, Refused(EmptyPatch))
    else
      var now, s1 := clock(s.tick), Sampled(s);
      if active == Some(false) && s.resources[r].active && InUse(s, r, now) then Outcome(s1, Refused(ResourceInUse))
      else Outcome(SetActive(s1, r, if active.Some? then active.value else s.resources[r].active, now), Done)
  }

  function ArchiveResource(clock: Clock, s: Db, r: ResourceId, expected: nat): Outcome {
    if r !in s.resources then Outcome(s, Refused(NotFound))
    else if s.resources[r].version != expected then Outcome(s, Refused(VersionMismatch))
    else
      var now, s1 := clock(s.tick), Sampled(s);
      if InUse(s, r, now) then Outcome(s1, Refused(ResourceInUse))
      else Outcome(SetActive(s1, r, false, now), Done)
  }

  function AddResource(s: Db, r: ResourceId): Outcome {
    Outcome(s.(resources := s.resources[r := Resource(true, 1, 0)]), Done)
  }

  function SetEnabled(s: Db, u: UserId, enabled: bool): Outcome {
    Outcome(s.(users := s.users[u := enabled]), Done)
  }

  // ---------- All transactions ----------

  datatype Op =
    | OpSetEnabled(user: UserId, enabled: bool)
    | OpAddResource(resource: ResourceId)
    | OpPatch(resource: ResourceId, expected: nat, active: Option<bool>, others: bool)
    | OpArchive(resource: ResourceId, expected: nat)
    | OpCreate(user: UserId, resource: ResourceId, window: Window)
    | OpBlackout(resource: ResourceId, window: Window)
    | OpCancel(booking: BookingId, owner: Option<UserId>, expected: nat, reason: string)
    | OpLift(booking: BookingId, expected: nat)
    | OpJoin(entry: EntryId, createdAt: Time, user: UserId, resource: ResourceId, window: Window)
    | OpAccept(entry: EntryId, user: UserId, expected: nat)
    | OpDecline(entry: EntryId, user: UserId, expected: nat)
    | OpExpire(resource: ResourceId)

  /** Fresh uuids are distinct from those in use. */
  predicate Fresh(s: Db, op: Op) {
    match op
    case OpAddResource(r) => r !in s.resources
    case OpJoin(e, _, _, _, _) => e !in s.entries
    case _ => true
  }

  function Apply(clock: Clock, s: Db, op: Op): Outcome {
    match op
    case OpSetEnabled(u, enabled) => SetEnabled(s, u, enabled)
    case OpAddResource(r) => AddResource(s, r)
    case OpPatch(r, expected, active, others) => PatchResource(clock, s, r, expected, active, others)
    case OpArchive(r, expected) => ArchiveResource(clock, s, r, expected)
    case OpCreate(user, r, w) => CreateBooking(clock, s, user, r, w)
    case OpBlackout(r, w) => CreateBlackout(clock, s, r, w)
    case OpCancel(b, owner, expected, reason) => CancelBooking(clock, s, b, owner, expected, reason)
    case OpLift(b, expected) => CancelBlackout(clock, s, b, expected)
    case OpJoin(e, createdAt, user, r, w) => Join(clock, s, e, createdAt, user, r, w)
    case OpAccept(e, user, expected) => Accept(clock, s, e, user, expected)
    case OpDecline(e, user, expected) => Decline(clock, s, e, user, expected)
    case OpExpire(r) => ExpireAndPromote(clock, s, r)
  }

  /** A run: a sequence of transactions from the empty tables. */
  ghost predicate IsRun(clock: Clock, ops: seq<Op>, states: seq<Db>) {
    && |states| == |ops| + 1
    && states[0] == EMPTY
    && forall i | 0 <= i < |ops| :: Fresh(states[i], ops[i]) && states[i + 1] == Apply(clock, states[i], ops[i]).db
  }
}
