/**
  The transactions as the service runs them: statement by statement on the tables, each method
  proved to do what its function in Operations says.
 */
module Store {
  import opened Times
  import opened Wrappers
  import opened Inventory
  import opened Invariant
  import opened Transitions
  import opened Promotion
  import opened Operations
  import opened Safety
  import opened Paging

  const PAGE_SIZE: nat := 100

  class Tables {
    var users: map<UserId, bool>
    var resources: map<ResourceId, Resource>
    var bookings: Bookings
    var entries: Entries
    var outbox: Outbox
    var tick: nat
    const clock: Clock

    function Snapshot(): Db
      reads this
    {
      Db(users, resources, bookings, entries, outbox, tick)
    }

    constructor (clock: Clock)
      ensures this.clock == clock && Snapshot() == EMPTY && Inv(Snapshot())
    {
      this.clock := clock;
      users, resources, bookings, entries, outbox, tick := map[], map[], [], map[], [], 0;
      new;
      EmptyInv();
    }

    // ---------- Statements ----------

    /** SELECT clock_timestamp(). */
    method SampleClock() returns (now: Time)
      modifies this`tick
      ensures now == clock(old(tick)) && tick == old(tick) + 1
    {
      now := clock(tick);
      tick := tick + 1;
    }

    /** append_event: the row carries the booking's version as it is now. */
    method AppendEvent(kind: EventType, b: BookingId)
      requires b < |bookings|
      modifies this`outbox
      ensures outbox == old(outbox) + [Event(kind, b, bookings[b].version)]
    {
      outbox := outbox + [Event(kind, b, bookings[b].version)];
    }

    /** UPDATE bookings ... WHERE id = b AND version = the version read; returns the row count. */
    method UpdateBooking(b: BookingId, version: nat, status: BookingStatus, reason: Option<string>) returns (rows: nat)
      modifies this`bookings
      ensures b < |old(bookings)| && old(bookings)[b].version == version
        ==> rows == 1 && bookings == old(bookings)[b := Moved(old(bookings)[b], status, reason)]
      ensures !(b < |old(bookings)| && old(bookings)[b].version == version) ==> rows == 0 && bookings == old(bookings)
    {
      if b < |bookings| && bookings[b].version == version {
        bookings := bookings[b := Moved(bookings[b], status, reason)];
        rows := 1;
      } else {
        rows := 0;
      }
    }

    /** UPDATE waitlist_entries ... WHERE id = e AND version = the version read. */
    method UpdateEntry(e: EntryId, version: nat, status: EntryStatus) returns (rows: nat)
      modifies this`entries
      ensures e in old(entries) && old(entries)[e].version == version
        ==> rows == 1 && entries == old(entries)[e := old(entries)[e].(status := status, version := version + 1)]
      ensures !(e in old(entries) && old(entries)[e].version == version) ==> rows == 0 && entries == old(entries)
    {
      if e in entries && entries[e].version == version {
        entries := entries[e := entries[e].(status := status, version := version + 1)];
        rows := 1;
      } else {
        rows := 0;
      }
    }

    // ---------- promote_waiters ----------

    /**
      The savepoint of one promotion: booking, entry and event, or nothing. It fails on the exclusion
      constraint, or when the entry is no longer the waiting row that was read.
     */
    method AttemptOffer(e: EntryId, en: Entry, deadline: Time) returns (conflict: bool)
      modifies this`bookings, this`entries, this`outbox
      ensures conflict <==>
        || Occupied(old(bookings), en.resource, en.window)
        || !(e in old(entries) && old(entries)[e].version == en.version && old(entries)[e].status == Waiting)
      ensures conflict ==> Snapshot() == old(Snapshot())
      ensures !conflict && old(entries)[e] == en ==> Snapshot() == Offer(old(Snapshot()), e, deadline)
    {
      if Occupied(bookings, en.resource, en.window) {
        return true;
      }
      var savepoint := bookings;
      var b := |bookings|;
      bookings := bookings + [HoldFor(en, deadline)];
      if !(e in entries && entries[e].version == en.version && entries[e].status == Waiting) {
        bookings := savepoint;
        return true;
      }
      entries := entries[e := entries[e].(status := Holding, hold := Some(b), version := en.version + 1)];
      AppendEvent(WaitlistOffered, b);
      return false;
    }

    /** The body of the scan for one entry; en is the row as its page read it. */
    method Consider(e: EntryId, en: Entry) returns (offered: Option<BookingId>, conflict: bool)
      requires e in entries && entries[e] == en && en.status == Waiting
      modifies this`bookings, this`entries, this`outbox, this`tick
      ensures Snapshot() == PromoteOne(clock, old(Snapshot()), e)
      ensures |bookings| == |old(bookings)| + if offered.Some? then 1 else 0
      ensures offered.Some? ==> offered.value == |old(bookings)|
      // nothing else can insert while the resource is locked
      ensures !conflict
    {
      offered, conflict := None, false;
      ghost var s := Snapshot();
      var now := SampleClock();
      if en.user !in users || !users[en.user] {
        var rows := UpdateEntry(e, en.version, Lapsed);
        return;
      }
      if en.window.lo < now + OFFER_HORIZON {
        var rows := UpdateEntry(e, en.version, Lapsed);
        return;
      }
      if Occupied(bookings, en.resource, en.window) {
        return;
      }
      var offerNow := SampleClock();
      var deadline := offerNow + OFFER_HORIZON;
      if deadline > en.window.lo {
        deadline := en.window.lo;
      }
      var b := |bookings|;
      conflict := AttemptOffer(e, en, deadline);
      if conflict {
        return;
      }
      offered := Some(b);
    }

    /** The ids are those of the bookings from the given one on. */
    predicate Consecutive(ids: seq<BookingId>, start: nat)
      reads this`bookings
    {
      |bookings| == start + |ids| && forall i | 0 <= i < |ids| :: ids[i] == start + i
    }

    ghost predicate IsStretch(page: seq<EntryId>, q: seq<EntryId>, k: nat) {
      k + |page| <= |q| && page == q[k..k + |page|]
    }

    /** How far the scan of queue q from state s has come. */
    ghost predicate Scanned(s: Db, q: seq<EntryId>, k: nat, after: Option<Key>, promoted: seq<BookingId>)
      reads this
      requires k <= |q| && forall i | 0 <= i < |q| :: q[i] in s.entries
    {
      Snapshot() == At(clock, s, q, k) && after == Cursor(s.entries, q, k) && Consecutive(promoted, |s.bookings|)
    }

    /** The entries of one page, in order; the scan of q from s has come to its k-th entry. */
    method ScanPage(page: seq<EntryId>, cursor: Option<Key>, offers: seq<BookingId>,
                    ghost s: Db, ghost r: ResourceId, ghost q: seq<EntryId>, ghost k: nat)
      returns (after: Option<Key>, promoted: seq<BookingId>)
      requires IsQueue(s, r, q) && k + |page| <= |q| && IsStretch(page, q, k)
      requires Scanned(s, q, k, cursor, offers)
      modifies this`bookings, this`entries, this`outbox, this`tick
      ensures Scanned(s, q, k + |page|, after, promoted)
    {
      hide PromoteOne, PromoteAll, At, Cursor, KeyOf;
      after, promoted := cursor, offers;
      var i := 0;
      while i < |page|
        invariant i <= |page| && Scanned(s, q, k + i, after, promoted)
      {
        var e := page[i];
        ghost var t := Snapshot();
        TurnReady(clock, s, r, q, k + i);
        after := Some(Key(entries[e].createdAt, e));
        var offered, conflict := Consider(e, entries[e]);
        if offered.Some? {
          promoted := promoted + [offered.value];
        }
        i := i + 1;
        assert Snapshot() == At(clock, s, q, k + i) by {
          assert Snapshot() == PromoteOne(clock, t, q[k + i - 1]);
          AtStep(clock, s, q, k + i - 1);
        }
      }
    }

    /** The next page of the scan: a stretch of q from its k-th entry, shorter than asked only at the end. */
    method FetchPage(r: ResourceId, after: Option<Key>, pageSize: nat, promoted: seq<BookingId>,
                     ghost s: Db, ghost q: seq<EntryId>, ghost k: nat)
      returns (page: seq<EntryId>)
      requires pageSize >= 1 && q == Queue(s.entries, r) && k <= |q| && Scanned(s, q, k, after, promoted)
      ensures k + |page| <= |q| && IsStretch(page, q, k)
      ensures |page| < pageSize ==> k + |page| == |q|
      ensures forall i | 0 <= i < |page| :: IsPast(entries, r, after, page[i])
      ensures forall i, j | 0 <= i < j < |page| ::
        Earlier(entries[page[i]].createdAt, page[i], entries[page[j]].createdAt, page[j])
    {
      hide At, Cursor, Queue, Page, Ordered, Consecutive, KeyOf;
      PageIsNext(clock, s, r, k, pageSize);
      PageMeans(entries, r, after, pageSize);
      page := Page(entries, r, after, pageSize);
    }

    /** Page after page, until a page comes back short. */
    method ScanPages(r: ResourceId, pageSize: nat, ghost s: Db, ghost q: seq<EntryId>)
      returns (after: Option<Key>, promoted: seq<BookingId>)
      requires pageSize >= 1 && IsQueue(s, r, q) && q == Queue(s.entries, r) && Scanned(s, q, 0, None, [])
      modifies this`bookings, this`entries, this`outbox, this`tick
      ensures Scanned(s, q, |q|, after, promoted)
    {
      hide *;
      ghost var k := 0;
      after, promoted := None, [];
      while true
        invariant k <= |q| && Scanned(s, q, k, after, promoted)
        decreases |q| - k
      {
        var page := FetchPage(r, after, pageSize, promoted, s, q, k);
        if page == [] {
          break;
        }
        after, promoted := ScanPage(page, after, promoted, s, r, q, k);
        k := k + |page|;
        if |page| < pageSize {
          break;
        }
      }
    }

    /**
      The paged scan. Whatever the page size, it does what one pass over the queue it started with
      does, although every page is read from tables that the earlier pages have changed. It returns
      the new bookings.
     */
    method PromoteWaiters(r: ResourceId, pageSize: nat) returns (promoted: seq<BookingId>)
      requires pageSize >= 1
      modifies this`bookings, this`entries, this`outbox, this`tick
      ensures Snapshot() == Promote(clock, old(Snapshot()), r)
      ensures Consecutive(promoted, |old(bookings)|)
    {
      ghost var s := Snapshot();
      ghost var q := Queue(s.entries, r);
      assert IsQueue(s, r, q);
      AtStart(clock, s, q);
      AtEnd(clock, s, q);
      hide At, PromoteAll, IsQueue, Queue;
      var after;
      after, promoted := ScanPages(r, pageSize, s, q);
    }

    // ---------- Creating ----------

    ghost predicate Valid()
      reads this
    {
      Inv(Snapshot())
    }

    /** insert_confirmed, with the event of the create endpoint when the row has an owner. */
    method InsertConfirmedRow(r: ResourceId, owner: Option<UserId>, w: Window) returns (reply: Reply)
      modifies this`bookings, this`outbox
      ensures Outcome(Snapshot(), reply) == InsertIfFree(old(Snapshot()), r, owner, w)
    {
      var b := |bookings|;
      var kind := if owner.Some? then Reservation else Blackout;
      if Occupied(bookings, r, w) {
        return Refused(SlotConflict);
      }
      bookings := bookings + [Booking(r, owner, kind, w, Confirmed, None, None, 1)];
      if owner.Some? {
        AppendEvent(BookingConfirmed, b);
      }
      return Done;
    }

    method CreateBooking(user: UserId, r: ResourceId, w: Window) returns (reply: Reply)
      requires Valid()
      modifies this`bookings, this`outbox, this`tick
      ensures Outcome(Snapshot(), reply) == Operations.CreateBooking(clock, old(Snapshot()), user, r, w)
      ensures Valid()
    {
      hide Inv, BookingWindowOk, InsertIfFree;
      CreateKeepsInv(clock, Snapshot(), user, r, w);
      var now := SampleClock();
      if !BookingWindowOk(w, now) {
        return Refused(InvalidWindow);
      }
      if r !in resources {
        return Refused(NotFound);
      }
      if !resources[r].active {
        return Refused(ResourceInactive);
      }
      reply := InsertConfirmedRow(r, Some(user), w);
    }

    method CreateBlackout(r: ResourceId, w: Window) returns (reply: Reply)
      requires Valid()
      modifies this`bookings, this`outbox, this`tick
      ensures Outcome(Snapshot(), reply) == Operations.CreateBlackout(clock, old(Snapshot()), r, w)
      ensures Valid()
    {
      hide Inv, BlackoutWindowOk, InsertIfFree;
      BlackoutKeepsInv(clock, Snapshot(), r, w);
      if r !in resources {
        return Refused(NotFound);
      }
      if !resources[r].active {
        return Refused(ResourceInactive);
      }
      var now := SampleClock();
      if !BlackoutWindowOk(w, now) {
        return Refused(InvalidWindow);
      }
      reply := InsertConfirmedRow(r, None, w);
    }

    // ---------- Cancelling ----------

    method CancelBooking(id: BookingId, owner: Option<UserId>, expected: nat, reason: string) returns (reply: Reply)
      requires Valid()
      modifies this`bookings, this`entries, this`outbox, this`tick
      ensures Outcome(Snapshot(), reply)
           == Operations.CancelBooking(clock, old(Snapshot()), id, owner, expected, reason)
      ensures Valid()
    {
      hide Inv, Promote, CancelReservation;
      CancelKeepsInv(clock, Snapshot(), id, owner, expected, reason);
      if id >= |bookings| || bookings[id].kind != Reservation || (owner.Some? && bookings[id].owner != owner) {
        return Refused(NotFound);
      }
      var k := bookings[id];
      var now := SampleClock();
      if k.version != expected {
        return Refused(VersionMismatch);
      }
      if k.status == Cancelled {
        return Done;
      }
      if k.status != Confirmed && k.status != Offered {
        return Refused(InvalidState);
      }
      if owner.None? {
        if now >= k.window.hi {
          return Refused(TooLate);
        }
      } else if now >= k.window.lo {
        return Refused(TooLate);
      }
      ReleaseReservation(id, expected, reason);
      var promoted := PromoteWaiters(k.resource, PAGE_SIZE);
      return Done;
    }

    /** The booking, the entry that may still hold it as an offer, and the event. */
    method ReleaseReservation(id: BookingId, expected: nat, reason: string)
      requires id < |bookings| && bookings[id].version == expected
      modifies this`bookings, this`entries, this`outbox
      ensures Snapshot() == CancelReservation(old(Snapshot()), id, reason)
    {
      var rows := UpdateBooking(id, expected, Cancelled, Some(reason));
      assert rows == 1;
      entries := map e | e in entries ::
        if entries[e].hold == Some(id) && entries[e].status == Holding
        then entries[e].(status := Withdrawn, version := entries[e].version + 1) else entries[e];
      AppendEvent(BookingCancelled, id);
    }

    method CancelBlackout(id: BookingId, expected: nat) returns (reply: Reply)
      requires Valid()
      modifies this`bookings, this`entries, this`outbox, this`tick
      ensures Outcome(Snapshot(), reply) == Operations.CancelBlackout(clock, old(Snapshot()), id, expected)
      ensures Valid()
    {
      hide Inv, Promote, LiftBlackout;
      LiftKeepsInv(clock, Snapshot(), id, expected);
      if id < |bookings| && bookings[id].status == Confirmed {
        ConfirmedHasNoReason(Snapshot(), id);
      }
      if id >= |bookings| || bookings[id].kind != Blackout {
        return Refused(NotFound);
      }
      var k := bookings[id];
      var now := SampleClock();
      if k.version != expected {
        return Refused(VersionMismatch);
      }
      if k.status == Cancelled {
        return Done;
      }
      if k.status != Confirmed {
        return Refused(InvalidState);
      }
      if now >= k.window.hi {
        return Refused(TooLate);
      }
      ReleaseBlackout(id, expected);
      var promoted := PromoteWaiters(k.resource, PAGE_SIZE);
      return Done;
    }

    method ReleaseBlackout(id: BookingId, expected: nat)
      requires id < |bookings| && bookings[id].version == expected && bookings[id].reason.None?
      modifies this`bookings
      ensures Snapshot() == LiftBlackout(old(Snapshot()), id)
    {
      var rows := UpdateBooking(id, expected, Cancelled, bookings[id].reason);
      assert rows == 1;
    }

    // ---------- The waitlist ----------

    method JoinWaitlist(e: EntryId, createdAt: Time, user: UserId, r: ResourceId, w: Window) returns (reply: Reply)
      requires Valid() && e !in entries
      modifies this`entries, this`tick
      ensures Outcome(Snapshot(), reply) == Operations.Join(clock, old(Snapshot()), e, createdAt, user, r, w)
      ensures Valid()
    {
      hide Inv, BookingWindowOk;
      JoinKeepsInv(clock, Snapshot(), e, createdAt, user, r, w);
      var now := SampleClock();
      if !BookingWindowOk(w, now) {
        return Refused(InvalidWindow);
      }
      if r !in resources {
        return Refused(NotFound);
      }
      if !resources[r].active {
        return Refused(ResourceInactive);
      }
      if !Occupied(bookings, r, w) {
        return Refused(SlotAvailable);
      }
      var own := OwnsOverlap(user, r, w);
      if own {
        return Refused(AlreadyBooked);
      }
      if exists f | f in entries ::
           entries[f].user == user && entries[f].resource == r && entries[f].window == w && entries[f].Live() {
        return Refused(AlreadyWaitlisted);
      }
      if |LiveOn(entries, r)| >= WAITLIST_CAP {
        return Refused(WaitlistFull);
      }
      entries := entries[e := Entry(user, r, w, Waiting, None, 1, createdAt)];
      return Done;
    }

    /** The loop over the bookings that overlap the window. */
    method OwnsOverlap(user: UserId, r: ResourceId, w: Window) returns (own: bool)
      ensures own <==> OwnOverlap(Snapshot(), user, r, w)
    {
      var i := 0;
      while i < |bookings|
        invariant i <= |bookings|
        invariant forall j | 0 <= j < i ::
          !(bookings[j].Blocks(r, w) && bookings[j].kind == Reservation && bookings[j].owner == Some(user))
      {
        if bookings[i].Blocks(r, w) && bookings[i].kind == Reservation && bookings[i].owner == Some(user) {
          return true;
        }
        i := i + 1;
      }
      return false;
    }

    /** Entry and booking of an overdue offer expire, with one event. */
    method ExpireOffer(e: EntryId, b: BookingId)
      requires OfferRows(Snapshot(), e, b)
      modifies this`bookings, this`entries, this`outbox
      ensures Snapshot() == ExpireHold(old(Snapshot()), b)
    {
      HoldersAreOne(Snapshot(), e, b, Lapsed);
      var rows := UpdateEntry(e, entries[e].version, Lapsed);
      assert rows == 1;
      rows := UpdateBooking(b, bookings[b].version, Expired, bookings[b].reason);
      assert rows == 1;
      AppendEvent(HoldExpired, b);
    }

    method AcceptOffer(e: EntryId, user: UserId, expected: nat) returns (reply: Reply)
      requires Valid()
      modifies this`bookings, this`entries, this`outbox, this`tick
      ensures Outcome(Snapshot(), reply) == Operations.Accept(clock, old(Snapshot()), e, user, expected)
      ensures Valid()
    {
      hide Inv, Promote, OfferRows, ExpireHold, ConfirmHold;
      AcceptKeepsInv(clock, Snapshot(), e, user, expected);
      if e in entries && entries[e].status == Holding {
        OfferRowsHold(Snapshot(), e);
      }
      if e !in entries || entries[e].user != user {
        return Refused(NotFound);
      }
      var en := entries[e];
      if en.version != expected {
        return Refused(VersionMismatch);
      }
      if en.status != Holding {
        return Refused(InvalidState);
      }
      if en.hold.None? {
        return Refused(InvalidState);
      }
      var b := en.hold.value;
      if b >= |bookings| || bookings[b].status != Offered {
        return Refused(InvalidState);
      }
      var now := SampleClock();
      if bookings[b].expiresAt.Some? && now >= bookings[b].expiresAt.value {
        ExpireOffer(e, b);
        var promoted := PromoteWaiters(en.resource, PAGE_SIZE);
        return Refused(OfferExpired);
      }
      ConfirmOffer(e, b);
      return Done;
    }

    method ConfirmOffer(e: EntryId, b: BookingId)
      requires OfferRows(Snapshot(), e, b)
      modifies this`bookings, this`entries, this`outbox
      ensures Snapshot() == ConfirmHold(old(Snapshot()), b)
    {
      HoldersAreOne(MoveBooking(Snapshot(), b, Confirmed, None), e, b, Accepted);
      var rows := UpdateBooking(b, bookings[b].version, Confirmed, bookings[b].reason);
      assert rows == 1;
      rows := UpdateEntry(e, entries[e].version, Accepted);
      assert rows == 1;
      AppendEvent(BookingConfirmed, b);
    }

    method DeclineOffer(e: EntryId, b: BookingId)
      requires OfferRows(Snapshot(), e, b)
      modifies this`bookings, this`entries
      ensures Snapshot() == DeclineHold(old(Snapshot()), b)
    {
      HoldersAreOne(MoveBooking(Snapshot(), b, Cancelled, None), e, b, Withdrawn);
      var rows := UpdateBooking(b, bookings[b].version, Cancelled, bookings[b].reason);
      assert rows == 1;
      rows := UpdateEntry(e, entries[e].version, Withdrawn);
      assert rows == 1;
    }

    method DeclineEntry(e: EntryId, user: UserId, expected: nat) returns (reply: Reply)
      requires Valid()
      modifies this`bookings, this`entries, this`outbox, this`tick
      ensures Outcome(Snapshot(), reply) == Operations.Decline(clock, old(Snapshot()), e, user, expected)
      ensures Valid()
    {
      hide Inv, Promote, OfferRows, DeclineHold;
      DeclineKeepsInv(clock, Snapshot(), e, user, expected);
      if e in entries && entries[e].status == Holding {
        OfferRowsHold(Snapshot(), e);
      }
      if e !in entries || entries[e].user != user {
        return Refused(NotFound);
      }
      var en := entries[e];
      if en.version != expected {
        return Refused(VersionMismatch);
      }
      if en.status == Withdrawn {
        return Done;
      }
      if en.status != Waiting && en.status != Holding {
        return Refused(InvalidState);
      }
      var now := SampleClock();
      if now >= en.window.lo {
        return Refused(TooLate);
      }
      if en.status == Waiting {
        var rows := UpdateEntry(e, en.version, Withdrawn);
        assert rows == 1;
        return Done;
      }
      DeclineOffer(e, en.hold.value);
      var promoted := PromoteWaiters(en.resource, PAGE_SIZE);
      return Done;
    }

    // ---------- Hold expiry ----------

    /** The loop over the due bookings; returns how many expired. */
    method ExpireDueHolds(r: ResourceId, now: Time) returns (expired: nat)
      requires Valid()
      modifies this`bookings, this`entries, this`outbox
      ensures Snapshot() == ExpireDue(old(Snapshot()), r, now, |old(bookings)|)
      ensures expired == DueCount(old(bookings), r, now, |old(bookings)|)
    {
      hide Inv, OfferRows, ExpireHold;
      var rows := bookings;
      ghost var s := Snapshot();
      expired := 0;
      var b := 0;
      while b < |rows|
        invariant b <= |rows| && rows == s.bookings
        invariant Snapshot() == ExpireDue(s, r, now, b)
        invariant expired == DueCount(rows, r, now, b)
      {
        if rows[b].Due(r, now) {
          DueHasOffer(s, r, now, b);
          var e :| e in entries && entries[e].hold == Some(b);
          ExpireOffer(e, b);
          expired := expired + 1;
        }
        b := b + 1;
      }
    }

    method ExpireAndPromote(r: ResourceId) returns (expired: nat)
      requires Valid()
      modifies this`bookings, this`entries, this`outbox, this`tick
      ensures Snapshot() == Operations.ExpireAndPromote(clock, old(Snapshot()), r).db
      ensures expired == if r in resources then DueCount(old(bookings), r, clock(old(tick)), |old(bookings)|) else 0
      ensures Valid()
    {
      hide Inv, Promote, ExpireDue, DueCount;
      ExpireAllKeepsInv(clock, Snapshot(), r);
      if r !in resources {
        return 0;
      }
      SampledKeepsInv(Snapshot());
      var now := SampleClock();
      expired := ExpireDueHolds(r, now);
      var promoted := PromoteWaiters(r, PAGE_SIZE);
    }

    // ---------- Resources and users ----------

    method ArchiveResource(r: ResourceId, expected: nat) returns (reply: Reply)
      requires Valid()
      modifies this`resources, this`tick
      ensures Outcome(Snapshot(), reply) == Operations.ArchiveResource(clock, old(Snapshot()), r, expected)
      ensures Valid()
    {
      hide Inv;
      ArchiveKeepsInv(clock, Snapshot(), r, expected);
      if r !in resources {
        return Refused(NotFound);
      }
      if resources[r].version != expected {
        return Refused(VersionMismatch);
      }
      var now := SampleClock();
      if InUse(Snapshot(), r, now) {
        return Refused(ResourceInUse);
      }
      resources := resources[r := Resource(false, resources[r].version + 1,
                                           if resources[r].active then now else resources[r].archivedAt)];
      return Done;
    }

    method UpdateResource(r: ResourceId, expected: nat, active: Option<bool>, others: bool) returns (reply: Reply)
      requires Valid()
      modifies this`resources, this`tick
      ensures Outcome(Snapshot(), reply)
           == Operations.PatchResource(clock, old(Snapshot()), r, expected, active, others)
      ensures Valid()
    {
      hide Inv;
      PatchKeepsInv(clock, Snapshot(), r, expected, active, others);
      if r !in resources {
        return Refused(NotFound);
      }
      if resources[r].version != expected {
        return Refused(VersionMismatch);
      }
      if active.None? && !others {
        return Refused(EmptyPatch);
      }
      var now := SampleClock();
      if active == Some(false) && resources[r].active && InUse(Snapshot(), r, now) {
        return Refused(ResourceInUse);
      }
      var before := resources[r];
      var flag := if active.Some? then active.value else before.active;
      resources := resources[r := Resource(flag, before.version + 1,
                                           if before.active && !flag then now else before.archivedAt)];
      return Done;
    }

    method UpdateUser(u: UserId, enabled: bool)
      requires Valid()
      modifies this`users
      ensures Snapshot() == SetEnabled(old(Snapshot()), u, enabled).db
      ensures Snapshot() == old(Snapshot()).(users := old(users)[u := enabled])
      ensures Valid()
    {
      hide Inv;
      SetEnabledKeepsInv(Snapshot(), u, enabled);
      users := users[u := enabled];
    }
  }

  /** Entry e holds the offered booking b, and nobody else does. */
  ghost predicate OfferRows(s: Db, e: EntryId, b: BookingId) {
    && e in s.entries && s.entries[e].status == Holding && s.entries[e].hold == Some(b)
    && b < |s.bookings| && s.bookings[b].status == Offered && s.bookings[b].reason.None?
    && HoldsDistinct(s.entries)
  }

  lemma OfferRowsHold(s: Db, e: EntryId)
    requires Inv(s) && e in s.entries && s.entries[e].status == Holding
    ensures s.entries[e].hold.Some? && OfferRows(s, e, s.entries[e].hold.value)
    ensures HasOffer(s, s.entries[e])
    ensures OfferRows(Sampled(s), e, s.entries[e].hold.value)
  {}

  lemma ConfirmedHasNoReason(s: Db, b: BookingId)
    requires Inv(s) && b < |s.bookings| && s.bookings[b].status == Confirmed
    ensures s.bookings[b].reason.None?
  {}

  /** How many of the first n bookings are due. */
  function DueCount(bs: Bookings, r: ResourceId, now: Time, n: nat): nat
    requires n <= |bs|
  {
    if n == 0 then 0 else DueCount(bs, r, now, n - 1) + if bs[n - 1].Due(r, now) then 1 else 0
  }

  lemma OfferedHasHolder(s: Db, b: BookingId)
    requires Sound(s) && b < |s.bookings| && s.bookings[b].status == Offered
    ensures Linked(s.entries, b)
    ensures forall e | e in s.entries && s.entries[e].hold == Some(b) :: OfferRows(s, e, b)
  {}

  /** When the expiry loop comes to a due booking, the booking still has its entry. */
  lemma DueHasOffer(s: Db, r: ResourceId, now: Time, b: BookingId)
    requires Inv(s) && b < |s.bookings| && s.bookings[b].Due(r, now)
    ensures var t := ExpireDue(s, r, now, b);
      && Linked(t.entries, b)
      && forall e | e in t.entries && t.entries[e].hold == Some(b) :: OfferRows(t, e, b)
  {
    ExpireDueKeepsSound(s, r, now, b);
    ExpireDueAhead(s, r, now, b);
    OfferedHasHolder(ExpireDue(s, r, now, b), b);
  }

  /** When the scan comes to an entry, its row is still the one the queue was built from. */
  lemma TurnReady(clock: Clock, s: Db, r: ResourceId, q: seq<EntryId>, k: nat)
    requires IsQueue(s, r, q) && k < |q|
    ensures var t := At(clock, s, q, k);
      && q[k] in t.entries
      && t.entries[q[k]].status == Waiting
      && Cursor(s.entries, q, k + 1) == Some(Key(t.entries[q[k]].createdAt, q[k]))
  {
    EntryTurn(clock, s, r, q, k);
  }
}
