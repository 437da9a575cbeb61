/**
  What the invariant and the shape of the steps give a caller: claims about every run.
 */
module Guarantees {
  import opened Times
  import opened Wrappers
  import opened Inventory
  import opened Invariant
  import opened Promotion
  import opened Operations
  import opened Safety

  // ---------- Waiters and holds ----------

  /** No waiter is left over a free window: some active booking of the resource overlaps it. */
  lemma WaiterIsBlocked(clock: Clock, ops: seq<Op>, states: seq<Db>, i: nat, e: EntryId) returns (b: BookingId)
    requires IsRun(clock, ops, states) && i < |states|
    requires e in states[i].entries && states[i].entries[e].status == Waiting
    ensures b < |states[i].bookings|
    ensures var k, en := states[i].bookings[b], states[i].entries[e];
      && (k.status == Confirmed || k.status == Offered) && k.resource == en.resource
      && k.window.lo < en.window.hi && en.window.lo < k.window.hi
  {
    RunsKeepInv(clock, ops, states, i);
    var s := states[i];
    assert NoIdleOn(s.bookings, s.entries, s.entries[e].resource);
    b :| 0 <= b < |s.bookings| && s.bookings[b].Blocks(s.entries[e].resource, s.entries[e].window);
  }

  /** The CHECK constraints on bookings, in every reachable state. */
  lemma RowsPassChecks(clock: Clock, ops: seq<Op>, states: seq<Db>, i: nat, b: BookingId)
    requires IsRun(clock, ops, states) && i < |states| && b < |states[i].bookings|
    ensures var k := states[i].bookings[b];
      && k.window.lo < k.window.hi && k.version > 0
      && (k.kind == Reservation <==> k.owner.Some?)
      && (k.kind == Blackout ==> k.status == Confirmed || k.status == Cancelled)
      && (k.status == Offered <==> k.expiresAt.Some?)
      && (k.expiresAt.Some? ==> k.expiresAt.value <= k.window.lo)
      && (k.reason.Some? ==> k.status == Cancelled)
  {
    RunsKeepInv(clock, ops, states, i);
    var s := states[i];
    assert BookingRowOk(s.bookings[b]) && VersionOk(s.bookings[b], Linked(s.entries, b));
  }

  /** Same owner, resource and window. */
  predicate SameTerms(en: Entry, k: Booking) {
    k.kind == Reservation && k.owner == Some(en.user) && k.resource == en.resource && k.window == en.window
  }

  /** Every offer has exactly one hold, and they agree. */
  lemma HoldOfOffer(clock: Clock, ops: seq<Op>, states: seq<Db>, i: nat, e: EntryId)
    requires IsRun(clock, ops, states) && i < |states| && e in states[i].entries
    ensures var s := states[i]; var en := s.entries[e];
      && (en.status == Holding || en.status == Accepted ==> en.hold.Some? && en.hold.value < |s.bookings|)
      && (en.status == Holding ==>
            s.bookings[en.hold.value].status == Offered && SameTerms(en, s.bookings[en.hold.value]))
      && (en.status == Accepted ==>
            s.bookings[en.hold.value].status in {Confirmed, Cancelled} && SameTerms(en, s.bookings[en.hold.value]))
  {
    RunsKeepInv(clock, ops, states, i);
    assert EntryRowOk(states[i].entries[e]);
    assert LinkOk(states[i].bookings, states[i].entries[e]);
  }

  /** Every hold belongs to exactly one offer: with HoldOfOffer, a bijection. */
  lemma OfferOfHold(clock: Clock, ops: seq<Op>, states: seq<Db>, i: nat, b: BookingId) returns (e: EntryId)
    requires IsRun(clock, ops, states) && i < |states|
    requires b < |states[i].bookings| && states[i].bookings[b].status == Offered
    ensures e in states[i].entries && states[i].entries[e].status == Holding
    ensures forall f | f in states[i].entries :: states[i].entries[f].hold == Some(b) <==> f == e
  {
    RunsKeepInv(clock, ops, states, i);
    var s := states[i];
    assert Linked(s.entries, b);
    e :| e in s.entries && s.entries[e].hold == Some(b);
    assert LinkOk(s.bookings, s.entries[e]);
    assert EntryRowOk(s.entries[e]);
    forall f | f in s.entries && f != e ensures s.entries[f].hold != Some(b) {
      assert s.entries[e].hold.None? || s.entries[e].hold != s.entries[f].hold;
    }
  }

  // ---------- Events ----------

  /** The status a reservation had at each of its versions, as its events tell it. */
  predicate Announces(kind: EventType, status: BookingStatus) {
    match kind
    case BookingConfirmed => status == Confirmed
    case BookingCancelled => status == Cancelled
    case WaitlistOffered => status == Offered
    case HoldExpired => status == Expired
  }

  /** The i-th event of a booking is about version i + 1, so no version is announced twice. */
  lemma EventVersions(k: Booking, linked: bool, i: nat)
    requires BookingRowOk(k) && VersionOk(k, linked) && i < |Expected(k, linked)|
    ensures Expected(k, linked)[i].1 == i + 1
  {}

  /**
    Event conservation: a reservation has one event for each of its versions, oldest first, except
    that an offer its waiter turned down has none for its last; and the event of its present
    version, when there is one, announces its present status.
   */
  lemma EventConservation(clock: Clock, ops: seq<Op>, states: seq<Db>, i: nat, b: BookingId)
    requires IsRun(clock, ops, states) && i < |states| && b < |states[i].bookings|
    ensures var k, h := states[i].bookings[b], History(states[i].outbox, b);
      && (k.kind == Blackout ==> h == [])
      && (k.kind == Reservation ==>
            && |h| == k.version - (if Declined(k) then 1 else 0)
            && (forall j | 0 <= j < |h| :: h[j].1 == j + 1)
            && (!Declined(k) ==> k.version > 0 && Announces(h[k.version - 1].0, k.status)))
  {
    RunsKeepInv(clock, ops, states, i);
    var s := states[i];
    var k, linked := s.bookings[b], Linked(s.entries, b);
    assert BookingRowOk(k) && VersionOk(k, linked);
    assert History(s.outbox, b) == Expected(k, linked);
    assert Declined(k) ==> linked && k.version == 2;
    forall j | 0 <= j < |Expected(k, linked)| ensures Expected(k, linked)[j].1 == j + 1 {
      EventVersions(k, linked, j);
    }
  }

  /** Where the event at position i of the outbox stands in its booking's history. */
  lemma {:induction false} HistoryPosition(out: Outbox, i: nat)
    requires i < |out|
    ensures var b := out[i].booking; var p := |History(out[..i], b)|;
      p < |History(out, b)| && History(out, b)[p] == (out[i].kind, out[i].version)
  {
    var b, last := out[i].booking, |out| - 1;
    if i < last {
      HistoryPosition(out[..last], i);
      assert out[..last][..i] == out[..i];
    }
  }

  lemma {:induction false} HistoryLonger(out: Outbox, i: nat, j: nat, b: BookingId)
    requires i < j <= |out| && out[i].booking == b
    ensures |History(out[..i], b)| < |History(out[..j], b)|
  {
    assert out[..j][..j - 1] == out[..j - 1];
    if i + 1 < j {
      HistoryLonger(out, i, j - 1, b);
    }
  }

  /** The outbox's uniqueness constraint never fires: no two rows are about one version of a booking. */
  lemma OutboxUnique(clock: Clock, ops: seq<Op>, states: seq<Db>, n: nat, i: nat, j: nat)
    requires IsRun(clock, ops, states) && n < |states|
    requires i < j < |states[n].outbox| && states[n].outbox[i].booking == states[n].outbox[j].booking
    ensures states[n].outbox[i].version < states[n].outbox[j].version
  {
    RunsKeepInv(clock, ops, states, n);
    var out, b := states[n].outbox, states[n].outbox[i].booking;
    EventConservation(clock, ops, states, n, b);
    HistoryPosition(out, i);
    HistoryPosition(out, j);
    HistoryLonger(out, i, j, b);
  }

  // ---------- One change per version ----------

  predicate EntryMove(before: Entry, after: Entry) {
    && after.user == before.user && after.resource == before.resource && after.window == before.window
    && after.createdAt == before.createdAt
    && after.version == before.version + 1
    && after.status != before.status
    && (before.status == Waiting || before.status == Holding)
  }

  predicate BookingMove(before: Booking, after: Booking) {
    GuardAccepts(before, after) && after.status != before.status
  }

  /** Rows are kept or take one legal step; none disappears. */
  ghost predicate Guarded(s: Db, t: Db) {
    && |s.bookings| <= |t.bookings|
    && (forall b | 0 <= b < |s.bookings| ::
          t.bookings[b] == s.bookings[b] || BookingMove(s.bookings[b], t.bookings[b]))
    && s.entries.Keys <= t.entries.Keys
    && (forall e | e in s.entries ::
          t.entries[e] == s.entries[e] || EntryMove(s.entries[e], t.entries[e]))
    && (forall b | |s.bookings| <= b < |t.bookings| :: t.bookings[b].version == 1)
    && s.outbox <= t.outbox
  }

  lemma TurnMoves(clock: Clock, s: Db, e: EntryId)
    requires e in s.entries && s.entries[e].status == Waiting
    ensures var after := PromoteOne(clock, s, e).entries[e];
      after == s.entries[e] || EntryMove(s.entries[e], after)
  {}

  lemma PromoteMoves(clock: Clock, s: Db, r: ResourceId, e: EntryId)
    requires e in s.entries
    ensures var after := Promote(clock, s, r).entries[e];
      after == s.entries[e] || (s.entries[e].status == Waiting && EntryMove(s.entries[e], after))
  {
    PromotionFrame(clock, s, r);
    if s.entries[e].WaitsFor(r) {
      var q := Queue(s.entries, r);
      assert IsQueue(s, r, q);
      assert e in q;
      var k :| 0 <= k < |q| && q[k] == e;
      EntryTurn(clock, s, r, q, k);
      AtStep(clock, s, q, k);
      TurnMoves(clock, At(clock, s, q, k), e);
    }
  }

  /** A release touches no waiting entry, so the promotion after it moves no row a second time. */
  ghost predicate Releases(s: Db, t: Db) {
    && |s.bookings| == |t.bookings|
    && (forall b | 0 <= b < |s.bookings| ::
          t.bookings[b] == s.bookings[b] || BookingMove(s.bookings[b], t.bookings[b]))
    && s.entries.Keys == t.entries.Keys
    && (forall e | e in s.entries ::
          t.entries[e] == s.entries[e] || (EntryMove(s.entries[e], t.entries[e]) && !t.entries[e].Live()))
    && s.outbox <= t.outbox
  }

  lemma {:induction false} ScanBirths(clock: Clock, s: Db, q: seq<EntryId>, k: nat, b: BookingId)
    requires k <= |q| && forall i | 0 <= i < |q| :: q[i] in s.entries
    requires |s.bookings| <= b < |At(clock, s, q, k).bookings|
    ensures At(clock, s, q, k).bookings[b].version == 1
  {
    if k > 0 {
      AtStep(clock, s, q, k - 1);
      if b < |At(clock, s, q, k - 1).bookings| {
        ScanBirths(clock, s, q, k - 1, b);
      }
    }
  }

  lemma ReleaseThenPromote(clock: Clock, s: Db, t: Db, r: ResourceId)
    requires Releases(s, t)
    ensures Guarded(s, Promote(clock, t, r))
  {
    var u := Promote(clock, t, r);
    PromotionFrame(clock, t, r);
    forall e | e in s.entries ensures u.entries[e] == s.entries[e] || EntryMove(s.entries[e], u.entries[e]) {
      PromoteMoves(clock, t, r, e);
    }
    var q := Queue(t.entries, r);
    AtEnd(clock, t, q);
    forall b | |t.bookings| <= b < |u.bookings| ensures u.bookings[b].version == 1 {
      ScanBirths(clock, t, q, |q|, b);
    }
  }

  lemma SettleReleases(s: Db, b: BookingId, status: BookingStatus, reason: Option<string>, entryStatus: EntryStatus)
    requires b < |s.bookings| && LegalMove(s.bookings[b].status, status)
    requires entryStatus != Waiting && entryStatus != Holding
    ensures Releases(s, CloseHolders(MoveBooking(s, b, status, reason), b, entryStatus))
  {}

  lemma ExpireStepReleases(s: Db, t: Db, b: BookingId)
    requires Releases(s, t) && b < |s.bookings| && t.bookings[b] == s.bookings[b] && s.bookings[b].status == Offered
    ensures Releases(s, ExpireHold(t, b))
  {}

  lemma {:induction false} ExpireDueReleases(s: Db, r: ResourceId, now: Time, n: nat)
    requires n <= |s.bookings|
    ensures Releases(s, ExpireDue(s, r, now, n))
  {
    hide Releases, ExpireHold;
    if n == 0 {
      ReleasesNothing(s);
    } else {
      ExpireDueReleases(s, r, now, n - 1);
      ExpireDueAhead(s, r, now, n - 1);
      if s.bookings[n - 1].Due(r, now) {
        ExpireStepReleases(s, ExpireDue(s, r, now, n - 1), n - 1);
      }
    }
  }

  lemma ReleasesNothing(s: Db)
    ensures Releases(s, s)
  {}

  lemma CancelGuarded(clock: Clock, s: Db, id: BookingId, owner: Option<UserId>, expected: nat, reason: string)
    ensures Guarded(s, CancelBooking(clock, s, id, owner, expected, reason).db)
  {
    var out := CancelBooking(clock, s, id, owner, expected, reason).db;
    if out != s && out != Sampled(s) {
      SettleReleases(Sampled(s), id, Cancelled, Some(reason), Withdrawn);
      assert Releases(s, CancelReservation(Sampled(s), id, reason));
      ReleaseThenPromote(clock, s, CancelReservation(Sampled(s), id, reason), s.bookings[id].resource);
    }
  }

  lemma LiftGuarded(clock: Clock, s: Db, id: BookingId, expected: nat)
    ensures Guarded(s, CancelBlackout(clock, s, id, expected).db)
  {
    var out := CancelBlackout(clock, s, id, expected).db;
    if out != s && out != Sampled(s) {
      ReleaseThenPromote(clock, s, LiftBlackout(Sampled(s), id), s.bookings[id].resource);
    }
  }

  lemma ConfirmMoves(s: Db, b: BookingId)
    requires b < |s.bookings| && s.bookings[b].status == Offered
    ensures Guarded(s, ConfirmHold(Sampled(s), b))
  {}

  lemma ExpireMoves(s: Db, b: BookingId)
    requires b < |s.bookings| && s.bookings[b].status == Offered
    ensures Releases(s, ExpireHold(Sampled(s), b))
  {}

  lemma AcceptGuarded(clock: Clock, s: Db, e: EntryId, user: UserId, expected: nat)
    ensures Guarded(s, Accept(clock, s, e, user, expected).db)
  {
    var out := Accept(clock, s, e, user, expected).db;
    if out != s {
      var b := s.entries[e].hold.value;
      ConfirmMoves(s, b);
      ExpireMoves(s, b);
      ReleaseThenPromote(clock, s, ExpireHold(Sampled(s), b), s.entries[e].resource);
    }
  }

  lemma WithdrawMoves(s: Db, e: EntryId)
    requires e in s.entries && s.entries[e].Live()
    ensures Releases(s, CloseWaiting(Sampled(s), e, Withdrawn))
  {}

  lemma DeclineGuarded(clock: Clock, s: Db, e: EntryId, user: UserId, expected: nat)
    ensures Guarded(s, Decline(clock, s, e, user, expected).db)
  {
    var out := Decline(clock, s, e, user, expected).db;
    if out != s && out != Sampled(s) {
      var en := s.entries[e];
      WithdrawMoves(s, e);
      ReleaseThenPromote(clock, s, CloseWaiting(Sampled(s), e, Withdrawn), en.resource);
      if en.status == Holding && HasOffer(s, en) {
        SettleReleases(Sampled(s), en.hold.value, Cancelled, None, Withdrawn);
        assert Releases(s, DeclineHold(Sampled(s), en.hold.value));
        ReleaseThenPromote(clock, s, DeclineHold(Sampled(s), en.hold.value), en.resource);
      }
    }
  }

  lemma ExpireGuarded(clock: Clock, s: Db, r: ResourceId)
    ensures Guarded(s, ExpireAndPromote(clock, s, r).db)
  {
    var t := ExpireDue(Sampled(s), r, clock(s.tick), |s.bookings|);
    ExpireDueReleases(Sampled(s), r, clock(s.tick), |s.bookings|);
    assert Releases(s, t);
    ReleaseThenPromote(clock, s, t, r);
  }

  /** The transactions that release nothing. */
  lemma PlainGuarded(clock: Clock, s: Db, op: Op)
    requires Fresh(s, op)
    requires !op.OpCancel? && !op.OpLift? && !op.OpAccept? && !op.OpDecline? && !op.OpExpire?
    ensures Guarded(s, Apply(clock, s, op).db)
  {
    hide Promote, Occupied, BookingWindowOk, BlackoutWindowOk, InUse, OwnOverlap, AlreadyQueued, LiveOn;
  }

  /** Every update a transaction makes passes the trigger, and moves a row at most one version. */
  lemma StepIsGuarded(clock: Clock, s: Db, op: Op)
    requires Fresh(s, op)
    ensures Guarded(s, Apply(clock, s, op).db)
    ensures |s.bookings| <= |Apply(clock, s, op).db.bookings|
    ensures forall b | 0 <= b < |s.bookings| ::
      var before, after := s.bookings[b], Apply(clock, s, op).db.bookings[b];
      || after == before
      || (&& after.resource == before.resource && after.owner == before.owner
          && after.kind == before.kind && after.window == before.window
          && after.version == before.version + 1
          && (before.status == Confirmed ==> after.status == Cancelled)
          && (before.status != Confirmed ==>
                && (before.status == Offered || before.status == Pending)
                && (after.status == Confirmed || after.status == Cancelled || after.status == Expired)))
  {
    StepKeepsGuard(clock, s, op);
    hide Apply;
  }

  lemma StepKeepsGuard(clock: Clock, s: Db, op: Op)
    requires Fresh(s, op)
    ensures Guarded(s, Apply(clock, s, op).db)
  {
    hide Promote, Guarded, CancelBooking, CancelBlackout, Accept, Decline, ExpireAndPromote;
    match op {
      case OpCancel(b, owner, expected, reason) => CancelGuarded(clock, s, b, owner, expected, reason);
      case OpLift(b, expected) => LiftGuarded(clock, s, b, expected);
      case OpAccept(e, user, expected) => AcceptGuarded(clock, s, e, user, expected);
      case OpDecline(e, user, expected) => DeclineGuarded(clock, s, e, user, expected);
      case OpExpire(r) => ExpireGuarded(clock, s, r);
      case _ => PlainGuarded(clock, s, op);
    }
  }

  // ---------- Runs ----------

  lemma RunStep(clock: Clock, ops: seq<Op>, states: seq<Db>, i: nat)
    requires IsRun(clock, ops, states) && i + 1 < |states|
    ensures Guarded(states[i], states[i + 1])
  {
    hide Apply, Guarded, Fresh;
    StepIsGuarded(clock, states[i], ops[i]);
  }

  ghost predicate Grows(s: Db, t: Db) {
    |s.bookings| <= |t.bookings| && s.entries.Keys <= t.entries.Keys && s.outbox <= t.outbox
  }

  lemma StepGrows(s: Db, t: Db, u: Db)
    requires Grows(s, t) && Guarded(t, u)
    ensures Grows(s, u)
  {}

  lemma {:induction false} RunGuarded(clock: Clock, ops: seq<Op>, states: seq<Db>, i: nat, j: nat)
    requires IsRun(clock, ops, states) && i <= j < |states|
    ensures Grows(states[i], states[j])
  {
    hide IsRun;
    if i < j {
      hide *;
      RunGuarded(clock, ops, states, i, j - 1);
      RunStep(clock, ops, states, j - 1);
      StepGrows(states[i], states[j - 1], states[j]);
    }
  }

  lemma {:induction false} HistoryPrefix(out: Outbox, more: Outbox, b: BookingId)
    requires out <= more
    ensures History(out, b) <= History(more, b)
  {
    if out != more {
      assert out <= more[..|more| - 1];
      HistoryPrefix(out, more[..|more| - 1], b);
    } else {
      assert out == more;
    }
  }

  /**
    The event written for a version announces the status the booking had at that version, and
    stays the event of that version for the rest of the run.
   */
  lemma EventOfVersion(clock: Clock, ops: seq<Op>, states: seq<Db>, i: nat, j: nat, b: BookingId)
    requires IsRun(clock, ops, states) && i <= j < |states| && b < |states[i].bookings|
    requires states[i].bookings[b].kind == Reservation && !Declined(states[i].bookings[b])
    ensures var k, h := states[i].bookings[b], History(states[j].outbox, b);
      && 0 < k.version <= |h|
      && h[k.version - 1].1 == k.version
      && Announces(h[k.version - 1].0, k.status)
  {
    EventConservation(clock, ops, states, i, b);
    RunGuarded(clock, ops, states, i, j);
    HistoryPrefix(states[i].outbox, states[j].outbox, b);
  }

  /** How often booking b changes status up to state j, counted from its first appearance. */
  ghost function StatusChanges(states: seq<Db>, b: BookingId, j: nat): nat
    requires j < |states|
  {
    if j == 0 then 0
    else
      StatusChanges(states, b, j - 1)
      + (if b < |states[j - 1].bookings| && b < |states[j].bookings|
            && states[j - 1].bookings[b].status != states[j].bookings[b].status then 1 else 0)
  }

  lemma {:induction false} NoChangesBeforeBirth(states: seq<Db>, b: BookingId, j: nat)
    requires j < |states| && forall i | 0 <= i < j :: |states[i].bookings| <= b
    ensures StatusChanges(states, b, j) == 0
  {
    if j > 0 {
      NoChangesBeforeBirth(states, b, j - 1);
    }
  }

  lemma VersionBound(s: Db, b: BookingId)
    requires Inv(s) && b < |s.bookings|
    ensures s.bookings[b].version <= 3
  {}

  /** A booking's version counts its status changes, and never exceeds three. */
  lemma {:induction false} VersionCountsChanges(clock: Clock, ops: seq<Op>, states: seq<Db>, i: nat, b: BookingId)
    requires IsRun(clock, ops, states) && i < |states| && b < |states[i].bookings|
    ensures states[i].bookings[b].version == 1 + StatusChanges(states, b, i) <= 3
  {
    hide Apply, Inv;
    RunsKeepInv(clock, ops, states, i);
    VersionBound(states[i], b);
    RunStep(clock, ops, states, i - 1);
    if b < |states[i - 1].bookings| {
      VersionCountsChanges(clock, ops, states, i - 1, b);
    } else {
      forall j | 0 <= j < i ensures |states[j].bookings| <= b {
        RunGuarded(clock, ops, states, j, i - 1);
      }
      NoChangesBeforeBirth(states, b, i);
    }
  }

  ghost predicate NotOlder(s: Db, t: Db, b: BookingId) {
    b < |s.bookings| ==> b < |t.bookings| && s.bookings[b].version <= t.bookings[b].version
  }

  lemma StepNotOlder(s: Db, t: Db, u: Db, b: BookingId)
    requires NotOlder(s, t, b) && Guarded(t, u)
    ensures NotOlder(s, u, b)
  {}

  /** Along a run a version never goes down. */
  lemma {:induction false} VersionGrows(clock: Clock, ops: seq<Op>, states: seq<Db>, i: nat, j: nat, b: BookingId)
    requires IsRun(clock, ops, states) && i <= j < |states|
    ensures NotOlder(states[i], states[j], b)
  {
    hide IsRun;
    if i < j {
      hide *;
      VersionGrows(clock, ops, states, i, j - 1, b);
      RunStep(clock, ops, states, j - 1);
      StepNotOlder(states[i], states[j - 1], states[j], b);
    }
  }

  /** The If-Match version a cancellation was pinned to. */
  predicate PinnedTo(op: Op, b: BookingId, v: nat) {
    match op
    case OpCancel(id, _, expected, _) => id == b && expected == v
    case OpLift(id, expected) => id == b && expected == v
    case _ => false
  }

  predicate Changes(s: Db, t: Db, b: BookingId) {
    b < |s.bookings| && b < |t.bookings| && t.bookings[b] != s.bookings[b]
  }

  lemma PinIsCurrent(clock: Clock, s: Db, op: Op, b: BookingId, v: nat)
    requires PinnedTo(op, b, v) && Changes(s, Apply(clock, s, op).db, b)
    ensures s.bookings[b].version == v
  {}

  /** If-Match: of all the cancellations pinned to one version, at most one changes the booking. */
  lemma OneChangePerVersion(clock: Clock, ops: seq<Op>, states: seq<Db>, i: nat, j: nat, b: BookingId, v: nat)
    requires IsRun(clock, ops, states) && i <= j < |ops|
    requires PinnedTo(ops[i], b, v) && Changes(states[i], states[i + 1], b)
    requires PinnedTo(ops[j], b, v) && Changes(states[j], states[j + 1], b)
    ensures i == j
  {
    hide Apply;
    PinIsCurrent(clock, states[i], ops[i], b, v);
    PinIsCurrent(clock, states[j], ops[j], b, v);
    RunStep(clock, ops, states, i);
    if i < j {
      VersionGrows(clock, ops, states, i + 1, j, b);
    }
  }

  /** The same for the waitlist: accepting and declining an entry are pinned to its version. */
  predicate EntryPinnedTo(op: Op, e: EntryId, v: nat) {
    match op
    case OpAccept(id, _, expected) => id == e && expected == v
    case OpDecline(id, _, expected) => id == e && expected == v
    case _ => false
  }

  predicate EntryChanges(s: Db, t: Db, e: EntryId) {
    e in s.entries && e in t.entries && t.entries[e] != s.entries[e]
  }

  lemma EntryPinIsCurrent(clock: Clock, s: Db, op: Op, e: EntryId, v: nat)
    requires EntryPinnedTo(op, e, v) && EntryChanges(s, Apply(clock, s, op).db, e)
    ensures s.entries[e].version == v
  {}

  ghost predicate EntryNotOlder(s: Db, t: Db, e: EntryId) {
    e in s.entries ==> e in t.entries && s.entries[e].version <= t.entries[e].version
  }

  lemma StepEntryNotOlder(s: Db, t: Db, u: Db, e: EntryId)
    requires EntryNotOlder(s, t, e) && Guarded(t, u)
    ensures EntryNotOlder(s, u, e)
  {}

  lemma {:induction false} EntryVersionGrows(clock: Clock, ops: seq<Op>, states: seq<Db>, i: nat, j: nat, e: EntryId)
    requires IsRun(clock, ops, states) && i <= j < |states|
    ensures EntryNotOlder(states[i], states[j], e)
  {
    hide IsRun;
    if i < j {
      hide *;
      EntryVersionGrows(clock, ops, states, i, j - 1, e);
      RunStep(clock, ops, states, j - 1);
      StepEntryNotOlder(states[i], states[j - 1], states[j], e);
    }
  }

  lemma OneEntryChangePerVersion(clock: Clock, ops: seq<Op>, states: seq<Db>, i: nat, j: nat, e: EntryId, v: nat)
    requires IsRun(clock, ops, states) && i <= j < |ops|
    requires EntryPinnedTo(ops[i], e, v) && EntryChanges(states[i], states[i + 1], e)
    requires EntryPinnedTo(ops[j], e, v) && EntryChanges(states[j], states[j + 1], e)
    ensures i == j
  {
    hide Apply;
    EntryPinIsCurrent(clock, states[i], ops[i], e, v);
    EntryPinIsCurrent(clock, states[j], ops[j], e, v);
    RunStep(clock, ops, states, i);
    if i < j {
      EntryVersionGrows(clock, ops, states, i + 1, j, e);
    }
  }
}
