/**
  Every transaction keeps the invariant, hence every committed state of every run satisfies it.
 */
module Safety {
  import opened Times
  import opened Wrappers
  import opened Inventory
  import opened Invariant
  import opened Transitions
  import opened Promotion
  import opened Operations

  // ---------- When waiters stay blocked ----------

  /** Active claims stay active, and nobody new waits. */
  ghost predicate Holds(s: Db, t: Db, r: ResourceId) {
    && |s.bookings| <= |t.bookings|
    && (forall i | 0 <= i < |s.bookings| && s.bookings[i].Active() && s.bookings[i].resource == r ::
          t.bookings[i].Active() && t.bookings[i].resource == r && t.bookings[i].window == s.bookings[i].window)
    && (forall e | e in t.entries && t.entries[e].WaitsFor(r) ::
          e in s.entries && s.entries[e].WaitsFor(r) && s.entries[e].window == t.entries[e].window)
  }

  lemma NoIdleKept(s: Db, t: Db, r: ResourceId)
    requires Holds(s, t, r) && NoIdleOn(s.bookings, s.entries, r)
    ensures NoIdleOn(t.bookings, t.entries, r)
  {}

  lemma AllKept(s: Db, t: Db)
    requires NoIdle(s) && forall r: ResourceId :: Holds(s, t, r)
    ensures NoIdle(t)
  {
    forall r: ResourceId ensures NoIdleOn(t.bookings, t.entries, r) {
      NoIdleKept(s, t, r);
    }
  }

  /** A release on r, followed by its promotion. */
  lemma ReleaseKeepsInv(clock: Clock, s: Db, t: Db, r: ResourceId)
    requires Inv(s) && Sound(t)
    requires forall r': ResourceId | r' != r :: Holds(s, t, r')
    ensures Inv(Promote(clock, t, r))
  {
    forall r': ResourceId | r' != r ensures NoIdleOn(t.bookings, t.entries, r') {
      NoIdleKept(s, t, r');
    }
    PromoteRestores(clock, t, r);
  }

  /** A settled or cancelled booking takes nothing away from other resources. */
  lemma ReleaseHoldsElsewhere(s: Db, b: BookingId, t: Db, r: ResourceId)
    requires b < |s.bookings| && r != s.bookings[b].resource
    requires |t.bookings| == |s.bookings|
    requires forall i | 0 <= i < |s.bookings| && i != b :: t.bookings[i] == s.bookings[i]
    requires forall e | e in t.entries :: e in s.entries && t.entries[e].resource == s.entries[e].resource
                && t.entries[e].window == s.entries[e].window
                && (t.entries[e].status == Waiting ==> s.entries[e].status == Waiting)
    ensures Holds(s, t, r)
  {}

  // ---------- Creating ----------

  lemma InsertKeepsInv(s: Db, r: ResourceId, owner: Option<UserId>, w: Window)
    requires Inv(s) && w.Proper() && r in s.resources && s.resources[r].active
    ensures Inv(InsertIfFree(s, r, owner, w).db)
  {
    if !Occupied(s.bookings, r, w) {
      InsertKeepsSound(s, r, owner, w);
      AllKept(s, InsertConfirmed(s, r, owner, w));
    }
  }

  lemma SampledKeepsInv(s: Db)
    requires Inv(s)
    ensures Inv(Sampled(s))
  {}

  lemma JoinKeepsInv(clock: Clock, s: Db, e: EntryId, createdAt: Time, user: UserId, r: ResourceId, w: Window)
    requires Inv(s) && e !in s.entries
    ensures Inv(Join(clock, s, e, createdAt, user, r, w).db)
  {
    SampledKeepsInv(s);
    if Join(clock, s, e, createdAt, user, r, w).reply == Done {
      var s1 := Sampled(s);
      var t := Enqueue(s1, e, user, r, w, createdAt);
      EnqueueKeepsSound(s1, e, user, r, w, createdAt);
      EnqueueLeavesNoIdle(s1, e, user, r, w, createdAt);
      hide Sound, NoIdle;
    }
  }

  lemma EnqueueLeavesNoIdle(s: Db, e: EntryId, user: UserId, r: ResourceId, w: Window, createdAt: Time)
    requires NoIdle(s) && Occupied(s.bookings, r, w)
    ensures NoIdle(Enqueue(s, e, user, r, w, createdAt))
  {
    hide Occupied;
    var t := Enqueue(s, e, user, r, w, createdAt);
    forall r': ResourceId ensures NoIdleOn(t.bookings, t.entries, r') {
      assert NoIdleOn(s.bookings, s.entries, r');
    }
  }

  // ---------- Cancelling ----------

  lemma CancelReleaseKeepsInv(clock: Clock, s: Db, b: BookingId, reason: string)
    requires Inv(s) && b < |s.bookings| && s.bookings[b].Active() && s.bookings[b].kind == Reservation
    ensures Inv(Promote(clock, CancelReservation(s, b, reason), s.bookings[b].resource))
  {
    var r := s.bookings[b].resource;
    var t := CancelReservation(s, b, reason);
    CancelReservationKeepsSound(s, b, reason);
    forall r': ResourceId | r' != r {
      ReleaseHoldsElsewhere(s, b, t, r');
    }
    ReleaseKeepsInv(clock, s, t, r);
  }

  lemma CancelKeepsInv(clock: Clock, s: Db, id: BookingId, owner: Option<UserId>, expected: nat, reason: string)
    requires Inv(s)
    ensures Inv(CancelBooking(clock, s, id, owner, expected, reason).db)
  {
    hide Inv, Promote;
    SampledKeepsInv(s);
    if id < |s.bookings| && s.bookings[id].Active() && s.bookings[id].kind == Reservation {
      CancelReleaseKeepsInv(clock, Sampled(s), id, reason);
    }
  }

  lemma LiftReleaseKeepsInv(clock: Clock, s: Db, b: BookingId)
    requires Inv(s) && b < |s.bookings| && s.bookings[b].status == Confirmed && s.bookings[b].kind == Blackout
    ensures Inv(Promote(clock, LiftBlackout(s, b), s.bookings[b].resource))
  {
    var r := s.bookings[b].resource;
    var t := LiftBlackout(s, b);
    LiftKeepsSound(s, b);
    forall r': ResourceId | r' != r {
      ReleaseHoldsElsewhere(s, b, t, r');
    }
    ReleaseKeepsInv(clock, s, t, r);
  }

  lemma LiftKeepsInv(clock: Clock, s: Db, id: BookingId, expected: nat)
    requires Inv(s)
    ensures Inv(CancelBlackout(clock, s, id, expected).db)
  {
    hide Inv, Promote;
    SampledKeepsInv(s);
    if id < |s.bookings| && s.bookings[id].status == Confirmed && s.bookings[id].kind == Blackout {
      LiftReleaseKeepsInv(clock, Sampled(s), id);
    }
  }

  // ---------- Offers ----------

  lemma HolderResource(s: Db, e: EntryId)
    requires Inv(s) && e in s.entries && s.entries[e].status == Holding
    ensures HasOffer(s, s.entries[e])
    ensures s.bookings[s.entries[e].hold.value].resource == s.entries[e].resource
    ensures s.bookings[s.entries[e].hold.value].window == s.entries[e].window
    ensures s.bookings[s.entries[e].hold.value].owner == Some(s.entries[e].user)
  {}

  lemma ExpireOneKeepsInv(clock: Clock, s: Db, b: BookingId)
    requires Inv(s) && b < |s.bookings| && s.bookings[b].status == Offered
    ensures Inv(Promote(clock, ExpireHold(s, b), s.bookings[b].resource))
  {
    var r := s.bookings[b].resource;
    var t := ExpireHold(s, b);
    ExpireKeepsSound(s, b);
    forall r': ResourceId | r' != r {
      ReleaseHoldsElsewhere(s, b, t, r');
    }
    ReleaseKeepsInv(clock, s, t, r);
  }

  lemma ConfirmHolds(s: Db, b: BookingId, r: ResourceId)
    requires b < |s.bookings| && s.bookings[b].status == Offered
    ensures Holds(s, ConfirmHold(s, b), r)
  {}

  lemma ConfirmKeepsInv(s: Db, b: BookingId)
    requires Inv(s) && b < |s.bookings| && s.bookings[b].status == Offered
    ensures Inv(ConfirmHold(s, b))
  {
    hide Sound, NoIdle, ConfirmHold;
    ConfirmKeepsSound(s, b);
    forall r: ResourceId {
      ConfirmHolds(s, b, r);
    }
    AllKept(s, ConfirmHold(s, b));
  }

  lemma AcceptKeepsInv(clock: Clock, s: Db, e: EntryId, user: UserId, expected: nat)
    requires Inv(s)
    ensures Inv(Accept(clock, s, e, user, expected).db)
  {
    hide Inv, Promote;
    SampledKeepsInv(s);
    if e in s.entries && s.entries[e].status == Holding {
      HolderResource(s, e);
      ExpireOneKeepsInv(clock, Sampled(s), s.entries[e].hold.value);
      ConfirmKeepsInv(Sampled(s), s.entries[e].hold.value);
    }
  }

  lemma DeclineHoldKeepsInv(clock: Clock, s: Db, b: BookingId)
    requires Inv(s) && b < |s.bookings| && s.bookings[b].status == Offered
    ensures Inv(Promote(clock, DeclineHold(s, b), s.bookings[b].resource))
  {
    var r := s.bookings[b].resource;
    var t := DeclineHold(s, b);
    DeclineKeepsSound(s, b);
    forall r': ResourceId | r' != r {
      ReleaseHoldsElsewhere(s, b, t, r');
    }
    ReleaseKeepsInv(clock, s, t, r);
  }

  lemma WithdrawKeepsInv(s: Db, e: EntryId)
    requires Inv(s) && e in s.entries && s.entries[e].status == Waiting
    ensures Inv(CloseWaiting(s, e, Withdrawn))
  {
    CloseKeepsSound(s, e, Withdrawn);
    AllKept(s, CloseWaiting(s, e, Withdrawn));
  }

  lemma DeclineKeepsInv(clock: Clock, s: Db, e: EntryId, user: UserId, expected: nat)
    requires Inv(s)
    ensures Inv(Decline(clock, s, e, user, expected).db)
  {
    hide Inv, Promote;
    SampledKeepsInv(s);
    var out := Decline(clock, s, e, user, expected).db;
    if out != s && out != Sampled(s) {
      if s.entries[e].status == Holding {
        HolderResource(s, e);
        DeclineHoldKeepsInv(clock, Sampled(s), s.entries[e].hold.value);
      } else {
        WithdrawKeepsInv(Sampled(s), e);
        assert out == CloseWaiting(Sampled(s), e, Withdrawn);
      }
    }
  }

  // ---------- Hold expiry ----------

  /** How far the expiry loop has come: bookings from n on, and other resources, are as they were. */
  ghost predicate ExpiredUpTo(s: Db, r: ResourceId, now: Time, n: nat, t: Db) {
    && |t.bookings| == |s.bookings|
    && (forall b | 0 <= b < |s.bookings| :: t.bookings[b] ==
          if b < n && s.bookings[b].Due(r, now) then Moved(s.bookings[b], Expired, None) else s.bookings[b])
    && t.entries.Keys == s.entries.Keys
    && (forall e | e in s.entries ::
          && t.entries[e].resource == s.entries[e].resource
          && t.entries[e].window == s.entries[e].window
          && (t.entries[e].status == Waiting <==> s.entries[e].status == Waiting)
          && (t.entries[e] == s.entries[e] || s.entries[e].status == Holding))
    && t.users == s.users && t.resources == s.resources && t.tick == s.tick
  }

  lemma ExpireStep(s: Db, r: ResourceId, now: Time, n: nat, t: Db)
    requires n < |s.bookings| && ExpiredUpTo(s, r, now, n, t) && s.bookings[n].Due(r, now)
    ensures ExpiredUpTo(s, r, now, n + 1, ExpireHold(t, n))
  {}

  lemma {:induction false} ExpireDueShape(s: Db, r: ResourceId, now: Time, n: nat)
    requires n <= |s.bookings|
    ensures ExpiredUpTo(s, r, now, n, ExpireDue(s, r, now, n))
  {
    if n > 0 {
      ExpireDueShape(s, r, now, n - 1);
      if s.bookings[n - 1].Due(r, now) {
        ExpireStep(s, r, now, n - 1, ExpireDue(s, r, now, n - 1));
      }
    }
  }

  lemma ExpireDueAhead(s: Db, r: ResourceId, now: Time, n: nat)
    requires n < |s.bookings|
    ensures ExpireDue(s, r, now, n).bookings[n] == s.bookings[n]
  {
    ExpireDueShape(s, r, now, n);
  }

  lemma {:induction false} ExpireDueKeepsSound(s: Db, r: ResourceId, now: Time, n: nat)
    requires Sound(s) && n <= |s.bookings|
    ensures Sound(ExpireDue(s, r, now, n))
  {
    hide Sound, ExpireHold;
    if n > 0 {
      var t, u := ExpireDue(s, r, now, n - 1), ExpireDue(s, r, now, n);
      ExpireDueKeepsSound(s, r, now, n - 1);
      if s.bookings[n - 1].Due(r, now) {
        ExpireDueAhead(s, r, now, n - 1);
        ExpireKeepsSound(t, n - 1);
        assert u == ExpireHold(t, n - 1);
      } else {
        assert u == t;
      }
    }
  }

  lemma ExpireHoldsElsewhere(s: Db, r: ResourceId, now: Time, t: Db, r': ResourceId)
    requires ExpiredUpTo(s, r, now, |s.bookings|, t) && r' != r
    ensures Holds(s, t, r')
  {}

  lemma ExpireAllKeepsInv(clock: Clock, s: Db, r: ResourceId)
    requires Inv(s)
    ensures Inv(ExpireAndPromote(clock, s, r).db)
  {
    if r in s.resources {
      var s1, now := Sampled(s), clock(s.tick);
      SampledKeepsInv(s);
      hide Sound, NoIdle, ExpiredUpTo, ExpireDue, Promote, Holds;
      var t := ExpireDue(s1, r, now, |s.bookings|);
      ExpireDueKeepsSound(s1, r, now, |s.bookings|);
      ExpireDueShape(s1, r, now, |s.bookings|);
      forall r': ResourceId | r' != r {
        ExpireHoldsElsewhere(s1, r, now, t, r');
      }
      ReleaseKeepsInv(clock, s1, t, r);
    }
  }

  // ---------- Resources and users ----------

  lemma SetActiveKeepsInv(s: Db, r: ResourceId, active: bool, now: Time)
    requires Inv(s) && r in s.resources
    requires !active && s.resources[r].active ==> !InUse(s, r, now)
    ensures Inv(SetActive(s, r, active, now))
  {}

  lemma ArchiveKeepsInv(clock: Clock, s: Db, r: ResourceId, expected: nat)
    requires Inv(s)
    ensures Inv(ArchiveResource(clock, s, r, expected).db)
  {
    hide Inv, Promote;
    SampledKeepsInv(s);
    if ArchiveResource(clock, s, r, expected).reply == Done {
      SetActiveKeepsInv(Sampled(s), r, false, clock(s.tick));
    }
  }

  lemma PatchKeepsInv(clock: Clock, s: Db, r: ResourceId, expected: nat, active: Option<bool>, others: bool)
    requires Inv(s)
    ensures Inv(PatchResource(clock, s, r, expected, active, others).db)
  {
    hide Inv, Promote;
    SampledKeepsInv(s);
    if PatchResource(clock, s, r, expected, active, others).reply == Done {
      SetActiveKeepsInv(Sampled(s), r, if active.Some? then active.value else s.resources[r].active, clock(s.tick));
    }
  }

  lemma AddResourceKeepsInv(s: Db, r: ResourceId)
    requires Inv(s) && r !in s.resources
    ensures Inv(AddResource(s, r).db)
  {}

  lemma SetEnabledKeepsInv(s: Db, u: UserId, enabled: bool)
    requires Inv(s)
    ensures Inv(SetEnabled(s, u, enabled).db)
  {}

  lemma CreateKeepsInv(clock: Clock, s: Db, user: UserId, r: ResourceId, w: Window)
    requires Inv(s)
    ensures Inv(CreateBooking(clock, s, user, r, w).db)
  {
    hide Inv, Promote;
    SampledKeepsInv(s);
    if BookingWindowOk(w, clock(s.tick)) && r in s.resources && s.resources[r].active {
      InsertKeepsInv(Sampled(s), r, Some(user), w);
    }
  }

  lemma BlackoutKeepsInv(clock: Clock, s: Db, r: ResourceId, w: Window)
    requires Inv(s)
    ensures Inv(CreateBlackout(clock, s, r, w).db)
  {
    hide Inv, Promote;
    SampledKeepsInv(s);
    if r in s.resources && s.resources[r].active && BlackoutWindowOk(w, clock(s.tick)) {
      InsertKeepsInv(Sampled(s), r, None, w);
    }
  }

  // ---------- Every transaction, every run ----------

  lemma ApplyKeepsInv(clock: Clock, s: Db, op: Op)
    requires Inv(s) && Fresh(s, op)
    ensures Inv(Apply(clock, s, op).db)
  {
    hide Inv, Promote;
    match op {
      case OpSetEnabled(u, enabled) => SetEnabledKeepsInv(s, u, enabled);
      case OpAddResource(r) => AddResourceKeepsInv(s, r);
      case OpPatch(r, expected, active, others) => PatchKeepsInv(clock, s, r, expected, active, others);
      case OpArchive(r, expected) => ArchiveKeepsInv(clock, s, r, expected);
      case OpCreate(user, r, w) => CreateKeepsInv(clock, s, user, r, w);
      case OpBlackout(r, w) => BlackoutKeepsInv(clock, s, r, w);
      case OpCancel(b, owner, expected, reason) => CancelKeepsInv(clock, s, b, owner, expected, reason);
      case OpLift(b, expected) => LiftKeepsInv(clock, s, b, expected);
      case OpJoin(e, createdAt, user, r, w) => JoinKeepsInv(clock, s, e, createdAt, user, r, w);
      case OpAccept(e, user, expected) => AcceptKeepsInv(clock, s, e, user, expected);
      case OpDecline(e, user, expected) => DeclineKeepsInv(clock, s, e, user, expected);
      case OpExpire(r) => ExpireAllKeepsInv(clock, s, r);
    }
  }

  lemma EmptyInv()
    ensures Inv(EMPTY)
  {}

  /** In every run, every committed state satisfies the whole invariant. */
  lemma {:induction false} RunsKeepInv(clock: Clock, ops: seq<Op>, states: seq<Db>, i: nat)
    requires IsRun(clock, ops, states) && i < |states|
    ensures Inv(states[i])
  {
    hide Inv, Apply, Fresh;
    if i == 0 {
      EmptyInv();
    } else {
      RunsKeepInv(clock, ops, states, i - 1);
      ApplyKeepsInv(clock, states[i - 1], ops[i - 1]);
    }
  }
}
