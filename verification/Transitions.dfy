/**
  Each row change keeps the inventory sound.
 */
module Transitions {
  import opened Times
  import opened Wrappers
  import opened Inventory
  import opened Invariant
  import opened Sizes

  // ---------- Events ----------

  lemma HistoryAppend(out: Outbox, ev: Event, b: BookingId)
    ensures History(out + [ev], b)
         == History(out, b) + if ev.booking == b then [(ev.kind, ev.version)] else []
  {}

  lemma {:induction false} HistoryOfUnknown(out: Outbox, b: BookingId)
    requires forall i | 0 <= i < |out| :: out[i].booking < b
    ensures History(out, b) == []
  {
    if out != [] {
      HistoryOfUnknown(out[..|out| - 1], b);
    }
  }

  // ---------- Links ----------

  ghost predicate SameHolds(es: Entries, fs: Entries) {
    es.Keys == fs.Keys && forall e | e in es :: es[e].hold == fs[e].hold
  }

  lemma LinkedKept(es: Entries, fs: Entries, b: BookingId)
    requires SameHolds(es, fs)
    ensures Linked(es, b) <==> Linked(fs, b)
  {}

  /** No entry names a booking that is not there yet. */
  lemma UnlinkedIfNew(bs: Bookings, es: Entries)
    requires LinksOk(bs, es)
    ensures !Linked(es, |bs|)
  {}

  // ---------- The exclusion constraint ----------

  /** Each active row of the new table was the same claim, active, in the old one. */
  ghost predicate Shrinks(bs: Bookings, cs: Bookings) {
    && |bs| == |cs|
    && forall i | 0 <= i < |bs| && cs[i].Active() ::
         bs[i].Active() && bs[i].resource == cs[i].resource && bs[i].window == cs[i].window
  }

  lemma ExclusiveIfShrinks(bs: Bookings, cs: Bookings)
    requires Exclusive(bs) && Shrinks(bs, cs)
    ensures Exclusive(cs)
  {}

  lemma ExclusiveIfFree(bs: Bookings, k: Booking)
    requires Exclusive(bs) && !Occupied(bs, k.resource, k.window)
    ensures Exclusive(bs + [k])
  {}

  // ---------- Capacity ----------

  lemma CapIfShrinks(es: Entries, fs: Entries)
    requires WithinCap(es)
    requires forall e | e in fs && fs[e].Live() :: e in es && es[e].Live() && es[e].resource == fs[e].resource
    ensures WithinCap(fs)
  {
    forall r: ResourceId ensures |LiveOn(fs, r)| <= WAITLIST_CAP {
      assert LiveOn(fs, r) <= LiveOn(es, r);
      SubsetSize(LiveOn(fs, r), LiveOn(es, r));
    }
  }

  /** A change that makes no entry live, and moves no live claim, keeps the queue's bounds. */
  lemma QueueIfShrinks(es: Entries, fs: Entries)
    requires QueueOk(es) && es.Keys == fs.Keys
    requires forall e | e in fs ::
      fs[e].user == es[e].user && fs[e].resource == es[e].resource && fs[e].window == es[e].window
    requires forall e | e in fs && fs[e].Live() :: es[e].Live()
    ensures QueueOk(fs)
  {
    CapIfShrinks(es, fs);
  }

  // ---------- insert_confirmed and create_blackout ----------

  lemma InsertKeepsClaims(bs: Bookings, es: Entries, k: Booking)
    requires ClaimsOk(bs, es)
    requires BookingRowOk(k) && k.status == Confirmed && k.version == 1
    ensures ClaimsOk(bs + [k], es)
  {}

  lemma InsertKeepsEvents(s: Db, r: ResourceId, owner: Option<UserId>, w: Window)
    requires EventsOk(s) && LinksOk(s.bookings, s.entries)
    ensures EventsOk(InsertConfirmed(s, r, owner, w))
  {
    var t := InsertConfirmed(s, r, owner, w);
    var n := |s.bookings|;
    UnlinkedIfNew(s.bookings, s.entries);
    HistoryOfUnknown(s.outbox, n);
    forall b | 0 <= b < |t.bookings|
      ensures History(t.outbox, b) == Expected(t.bookings[b], Linked(t.entries, b))
    {
      if owner.Some? {
        HistoryAppend(s.outbox, Event(BookingConfirmed, n, 1), b);
      }
      if b < n {
        assert t.bookings[b] == s.bookings[b];
      }
    }
  }

  lemma InsertKeepsSound(s: Db, r: ResourceId, owner: Option<UserId>, w: Window)
    requires Sound(s) && w.Proper()
    requires r in s.resources && s.resources[r].active
    requires !Occupied(s.bookings, r, w)
    ensures Sound(InsertConfirmed(s, r, owner, w))
  {
    var t := InsertConfirmed(s, r, owner, w);
    var k := t.bookings[|s.bookings|];
    InsertKeepsClaims(s.bookings, s.entries, k);
    ExclusiveIfFree(s.bookings, k);
    InsertKeepsEvents(s, r, owner, w);
  }

  // ---------- join_waitlist ----------

  lemma EnqueueKeepsClaims(bs: Bookings, es: Entries, e: EntryId, en: Entry)
    requires ClaimsOk(bs, es) && e !in es
    requires en.status == Waiting && EntryRowOk(en)
    ensures ClaimsOk(bs, es[e := en])
    ensures forall b: BookingId :: Linked(es[e := en], b) <==> Linked(es, b)
  {
    var fs := es[e := en];
    forall b: BookingId ensures Linked(fs, b) <==> Linked(es, b) {
      if f :| f in es && es[f].hold == Some(b) {
        assert f in fs && fs[f].hold == Some(b);
      }
      if f :| f in fs && fs[f].hold == Some(b) {
        assert f in es && es[f].hold == Some(b);
      }
    }
  }

  lemma EnqueueKeepsCap(es: Entries, e: EntryId, en: Entry)
    requires WithinCap(es) && e !in es && |LiveOn(es, en.resource)| < WAITLIST_CAP
    ensures WithinCap(es[e := en])
  {
    var fs := es[e := en];
    forall r: ResourceId ensures |LiveOn(fs, r)| <= WAITLIST_CAP {
      if r == en.resource {
        assert LiveOn(fs, r) <= LiveOn(es, r) + {e};
        SubsetSize(LiveOn(fs, r), LiveOn(es, r) + {e});
      } else {
        assert LiveOn(fs, r) <= LiveOn(es, r);
        SubsetSize(LiveOn(fs, r), LiveOn(es, r));
      }
    }
  }

  predicate SameClaim(en: Entry, user: UserId, r: ResourceId, w: Window) {
    en.Live() && en.user == user && en.resource == r && en.window == w
  }

  lemma EnqueueKeepsSound(s: Db, e: EntryId, user: UserId, r: ResourceId, w: Window, at: Time)
    requires Sound(s) && w.Proper() && e !in s.entries
    requires r in s.resources && s.resources[r].active
    requires forall f | f in s.entries :: !SameClaim(s.entries[f], user, r, w)
    requires |LiveOn(s.entries, r)| < WAITLIST_CAP
    ensures Sound(Enqueue(s, e, user, r, w, at))
  {
    var t := Enqueue(s, e, user, r, w, at);
    var en := t.entries[e];
    EnqueueKeepsClaims(s.bookings, s.entries, e, en);
    EnqueueKeepsCap(s.entries, e, en);
    forall f | f in s.entries ensures !SameClaim(s.entries[f], user, r, w) {}
    assert LiveDistinct(t.entries) by {
      forall f, g | f in t.entries && g in t.entries && f != g && t.entries[f].Live() && t.entries[g].Live()
        ensures !(t.entries[f].user == t.entries[g].user && t.entries[f].resource == t.entries[g].resource
                  && t.entries[f].window == t.entries[g].window)
      {
        assert f != e ==> !SameClaim(s.entries[f], user, r, w);
        assert g != e ==> !SameClaim(s.entries[g], user, r, w);
      }
    }
  }

  // ---------- A waiting entry closed ----------

  lemma CloseKeepsClaims(s: Db, e: EntryId, status: EntryStatus)
    requires ClaimsOk(s.bookings, s.entries) && e in s.entries && s.entries[e].status == Waiting
    requires status == Withdrawn || status == Lapsed
    ensures var t := CloseWaiting(s, e, status);
      && ClaimsOk(t.bookings, t.entries)
      && SameHolds(s.entries, t.entries)
      && forall b: BookingId :: Linked(t.entries, b) <==> Linked(s.entries, b)
  {
    var t := CloseWaiting(s, e, status);
    assert EntryRowOk(s.entries[e]);
    forall b: BookingId ensures Linked(t.entries, b) <==> Linked(s.entries, b) {
      LinkedKept(s.entries, t.entries, b);
    }
  }

  lemma EventsKept(s: Db, t: Db)
    requires EventsOk(s) && t.bookings == s.bookings && t.outbox == s.outbox
    requires forall b: BookingId :: Linked(t.entries, b) <==> Linked(s.entries, b)
    ensures EventsOk(t)
  {}

  lemma CloseKeepsSound(s: Db, e: EntryId, status: EntryStatus)
    requires Sound(s) && e in s.entries && s.entries[e].status == Waiting
    requires status == Withdrawn || status == Lapsed
    ensures Sound(CloseWaiting(s, e, status))
  {
    hide ClaimsOk, EventsOk, QueueOk, Linked;
    var t := CloseWaiting(s, e, status);
    CloseKeepsClaims(s, e, status);
    EventsKept(s, t);
    QueueIfShrinks(s.entries, t.entries);
  }

  // ---------- Promotion ----------

  lemma OfferLinks(bs: Bookings, es: Entries, e: EntryId, en: Entry)
    requires LinksOk(bs, es) && e in es && es[e].hold.None? && en.hold == Some(|bs|)
    ensures forall b: BookingId :: Linked(es[e := en], b) <==> Linked(es, b) || b == |bs|
  {
    var fs := es[e := en];
    forall b: BookingId ensures Linked(fs, b) <==> Linked(es, b) || b == |bs| {
      if b == |bs| {
        assert fs[e].hold == Some(b);
      } else {
        if f :| f in es && es[f].hold == Some(b) {
          assert f in fs && fs[f].hold == Some(b);
        }
        if f :| f in fs && fs[f].hold == Some(b) {
          assert f in es && es[f].hold == Some(b);
        }
      }
    }
  }

  lemma OfferKeepsLinks(s: Db, e: EntryId, deadline: Time)
    requires RowsOk(s.bookings, s.entries) && LinksOk(s.bookings, s.entries) && HoldsDistinct(s.entries)
    requires e in s.entries && s.entries[e].status == Waiting && deadline <= s.entries[e].window.lo
    ensures var t := Offer(s, e, deadline);
      RowsOk(t.bookings, t.entries) && LinksOk(t.bookings, t.entries) && HoldsDistinct(t.entries)
  {}

  lemma OfferKeepsClaims(s: Db, e: EntryId, deadline: Time)
    requires ClaimsOk(s.bookings, s.entries)
    requires e in s.entries && s.entries[e].status == Waiting && deadline <= s.entries[e].window.lo
    ensures var t := Offer(s, e, deadline); ClaimsOk(t.bookings, t.entries)
  {
    var t := Offer(s, e, deadline);
    OfferKeepsLinks(s, e, deadline);
    assert s.entries[e].hold.None? by {
      assert EntryRowOk(s.entries[e]);
    }
    UnlinkedIfNew(s.bookings, s.entries);
    OfferLinks(s.bookings, s.entries, e, t.entries[e]);
    hide RowsOk, LinksOk, HoldsDistinct, Linked;
    assert HoldsOwned(t.bookings, t.entries);
    assert VersionsOk(t.bookings, t.entries);
    assert DeclinesOk(t.bookings, t.entries);
  }

  lemma OfferKeepsEvents(s: Db, e: EntryId, deadline: Time)
    requires EventsOk(s) && LinksOk(s.bookings, s.entries)
    requires e in s.entries && s.entries[e].hold.None?
    ensures EventsOk(Offer(s, e, deadline))
  {
    var t := Offer(s, e, deadline);
    var n := |s.bookings|;
    OfferLinks(s.bookings, s.entries, e, t.entries[e]);
    HistoryOfUnknown(s.outbox, n);
    forall b | 0 <= b < |t.bookings|
      ensures History(t.outbox, b) == Expected(t.bookings[b], Linked(t.entries, b))
    {
      HistoryAppend(s.outbox, Event(WaitlistOffered, n, 1), b);
      if b < n {
        assert t.bookings[b] == s.bookings[b];
      }
    }
  }

  lemma OfferKeepsExclusive(s: Db, e: EntryId, deadline: Time)
    requires Exclusive(s.bookings) && e in s.entries
    requires !Occupied(s.bookings, s.entries[e].resource, s.entries[e].window)
    ensures Exclusive(Offer(s, e, deadline).bookings)
  {
    ExclusiveIfFree(s.bookings, HoldFor(s.entries[e], deadline));
    hide Exclusive, Occupied;
  }

  lemma OfferKeepsQueue(s: Db, e: EntryId, deadline: Time)
    requires QueueOk(s.entries) && e in s.entries && s.entries[e].Live()
    ensures QueueOk(Offer(s, e, deadline).entries)
  {
    hide QueueOk;
    QueueIfShrinks(s.entries, Offer(s, e, deadline).entries);
  }

  lemma OfferKeepsResources(s: Db, e: EntryId, deadline: Time)
    requires ForeignKeys(s) && ArchivedQuiet(s) && e in s.entries && s.entries[e].status == Waiting
    ensures ForeignKeys(Offer(s, e, deadline)) && ArchivedQuiet(Offer(s, e, deadline))
  {}

  lemma WaitingHasNoHold(bs: Bookings, es: Entries, e: EntryId)
    requires ClaimsOk(bs, es) && e in es && es[e].status == Waiting
    ensures es[e].hold.None? && LinksOk(bs, es)
  {
    assert EntryRowOk(es[e]);
  }

  lemma OfferKeepsSound(s: Db, e: EntryId, deadline: Time)
    requires Sound(s)
    requires e in s.entries && s.entries[e].status == Waiting && deadline <= s.entries[e].window.lo
    requires !Occupied(s.bookings, s.entries[e].resource, s.entries[e].window)
    ensures Sound(Offer(s, e, deadline))
  {
    hide ClaimsOk, EventsOk, QueueOk, Exclusive, ForeignKeys, ArchivedQuiet, LinksOk, Offer, Occupied;
    WaitingHasNoHold(s.bookings, s.entries, e);
    OfferKeepsClaims(s, e, deadline);
    OfferKeepsEvents(s, e, deadline);
    OfferKeepsExclusive(s, e, deadline);
    OfferKeepsQueue(s, e, deadline);
    OfferKeepsResources(s, e, deadline);
  }

  // ---------- A claim settled: its booking and the entry that holds it change together ----------

  /** At most one entry carries a given offer, so the set-based update touches one row. */
  lemma HoldersAreOne(s: Db, e: EntryId, b: BookingId, status: EntryStatus)
    requires HoldsDistinct(s.entries)
    requires e in s.entries && s.entries[e].status == Holding && s.entries[e].hold == Some(b)
    ensures CloseHolders(s, b, status) == CloseWaiting(s, e, status)
  {}

  /** Only an offered booking has an entry holding it. */
  lemma NoHolders(s: Db, b: BookingId, status: EntryStatus)
    requires LinksOk(s.bookings, s.entries)
    requires b < |s.bookings| && s.bookings[b].status != Offered
    ensures CloseHolders(s, b, status) == s
  {}

  predicate Settles(k: Booking, k': Booking, status: EntryStatus) {
    && k' == Moved(k, k'.status, k'.reason)
    && (k'.reason.Some? ==> k'.status == Cancelled)
    && match k'.status
       case Confirmed => status == Accepted
       case Cancelled => status == Withdrawn
       case Expired => status == Lapsed
       case Pending => false
       case Offered => false
  }

  lemma SettleRows(s: Db, b: BookingId, k: Booking, status: EntryStatus)
    requires ClaimsOk(s.bookings, s.entries)
    requires b < |s.bookings| && s.bookings[b].status == Offered && Settles(s.bookings[b], k, status)
    ensures var fs := CloseHolders(s, b, status).entries; var bs := s.bookings[b := k];
      RowsOk(bs, fs) && LinksOk(bs, fs) && SameHolds(s.entries, fs)
  {
    var fs := CloseHolders(s, b, status).entries;
    var bs := s.bookings[b := k];
    assert BookingRowOk(s.bookings[b]);
    assert VersionOk(s.bookings[b], Linked(s.entries, b));
    forall e | e in fs ensures LinkOk(bs, fs[e]) && EntryRowOk(fs[e]) {
      assert LinkOk(s.bookings, s.entries[e]) && EntryRowOk(s.entries[e]);
    }
  }

  lemma SettleKeepsClaims(s: Db, b: BookingId, k: Booking, status: EntryStatus)
    requires ClaimsOk(s.bookings, s.entries)
    requires b < |s.bookings| && s.bookings[b].status == Offered && Settles(s.bookings[b], k, status)
    ensures ClaimsOk(s.bookings[b := k], CloseHolders(s, b, status).entries)
    ensures forall x: BookingId :: Linked(CloseHolders(s, b, status).entries, x) <==> Linked(s.entries, x)
    ensures Linked(s.entries, b)
  {
    SettleRows(s, b, k, status);
    var fs := CloseHolders(s, b, status).entries;
    forall x: BookingId ensures Linked(fs, x) <==> Linked(s.entries, x) {
      LinkedKept(s.entries, fs, x);
    }
    assert VersionOk(s.bookings[b], Linked(s.entries, b));
    assert VersionsOk(s.bookings[b := k], fs);
  }

  lemma SettleKeepsQueue(s: Db, b: BookingId, status: EntryStatus)
    requires QueueOk(s.entries) && (status == Accepted || status == Withdrawn || status == Lapsed)
    ensures QueueOk(CloseHolders(s, b, status).entries)
  {
    QueueIfShrinks(s.entries, CloseHolders(s, b, status).entries);
  }

  /** The event a settlement writes: none when the waiter turns the offer down. */
  function Notice(b: BookingId, k: Booking): Outbox {
    match k.status
    case Confirmed => [Event(BookingConfirmed, b, k.version)]
    case Expired => [Event(HoldExpired, b, k.version)]
    case Cancelled => if k.reason.Some? then [Event(BookingCancelled, b, k.version)] else []
    case Pending => []
    case Offered => []
  }

  /** A status change adds to what is expected of a booking just the event it writes. */
  lemma ExpectedGrows(b: BookingId, k: Booking, k': Booking, linked: bool)
    requires BookingRowOk(k) && VersionOk(k, linked) && LegalMove(k.status, k'.status)
    requires k' == Moved(k, k'.status, k'.reason)
    requires k'.reason.Some? ==> k'.status == Cancelled
    requires k'.status == Cancelled && k.status == Confirmed ==> (k'.reason.Some? <==> k.kind == Reservation)
    ensures Expected(k', linked) == Expected(k, linked) + History(Notice(b, k'), b)
  {}

  lemma NoticeHistory(out: Outbox, b: BookingId, k: Booking, x: BookingId)
    ensures History(out + Notice(b, k), x) == History(out, x) + if x == b then History(Notice(b, k), b) else []
  {
    if Notice(b, k) != [] {
      var ev := Notice(b, k)[0];
      HistoryAppend(out, ev, x);
      HistoryAppend([], ev, b);
      assert Notice(b, k) == [] + [ev] && out + Notice(b, k) == out + [ev];
    } else {
      assert out + Notice(b, k) == out;
    }
  }

  lemma NoticeKeepsEvents(s: Db, b: BookingId, k: Booking, t: Db)
    requires EventsOk(s) && b < |s.bookings|
    requires t.bookings == s.bookings[b := k] && t.outbox == s.outbox + Notice(b, k)
    requires forall x: BookingId :: Linked(t.entries, x) <==> Linked(s.entries, x)
    requires Expected(k, Linked(s.entries, b))
          == Expected(s.bookings[b], Linked(s.entries, b)) + History(Notice(b, k), b)
    ensures EventsOk(t)
  {
    hide Expected, History, Linked;
    forall x | 0 <= x < |t.bookings|
      ensures History(t.outbox, x) == Expected(t.bookings[x], Linked(t.entries, x))
    {
      NoticeHistory(s.outbox, b, k, x);
      assert History(s.outbox, x) == Expected(s.bookings[x], Linked(s.entries, x));
      assert Linked(t.entries, x) == Linked(s.entries, x);
    }
  }

  lemma SettleKeepsEvents(s: Db, b: BookingId, k: Booking, status: EntryStatus, t: Db)
    requires EventsOk(s) && ClaimsOk(s.bookings, s.entries)
    requires b < |s.bookings| && s.bookings[b].status == Offered && Settles(s.bookings[b], k, status)
    requires t.bookings == s.bookings[b := k] && t.outbox == s.outbox + Notice(b, k)
    requires forall x: BookingId :: Linked(t.entries, x) <==> Linked(s.entries, x)
    ensures EventsOk(t)
  {
    hide Expected, EventsOk, History;
    assert BookingRowOk(s.bookings[b]) && VersionOk(s.bookings[b], Linked(s.entries, b));
    ExpectedGrows(b, s.bookings[b], k, Linked(s.entries, b));
    NoticeKeepsEvents(s, b, k, t);
  }

  /** The common step of accepting, declining, cancelling and expiring an offer. */
  lemma SettleKeepsSound(s: Db, b: BookingId, k: Booking, status: EntryStatus, t: Db)
    requires Sound(s)
    requires b < |s.bookings| && s.bookings[b].status == Offered && Settles(s.bookings[b], k, status)
    requires t == s.(bookings := s.bookings[b := k], entries := CloseHolders(s, b, status).entries,
                     outbox := s.outbox + Notice(b, k))
    ensures Sound(t)
  {
    hide ClaimsOk, EventsOk, QueueOk, Exclusive, Notice, Linked;
    SettleKeepsClaims(s, b, k, status);
    SettleKeepsQueue(s, b, status);
    SettleKeepsEvents(s, b, k, status, t);
    ExclusiveIfShrinks(s.bookings, t.bookings);
    assert ForeignKeys(t);
    assert ArchivedQuiet(t);
  }

  lemma ExpireKeepsSound(s: Db, b: BookingId)
    requires Sound(s) && b < |s.bookings| && s.bookings[b].status == Offered
    ensures Sound(ExpireHold(s, b))
  {
    SettleKeepsSound(s, b, Moved(s.bookings[b], Expired, None), Lapsed, ExpireHold(s, b));
  }

  lemma ConfirmKeepsSound(s: Db, b: BookingId)
    requires Sound(s) && b < |s.bookings| && s.bookings[b].status == Offered
    ensures Sound(ConfirmHold(s, b))
  {
    SettleKeepsSound(s, b, Moved(s.bookings[b], Confirmed, None), Accepted, ConfirmHold(s, b));
  }

  lemma DeclineKeepsSound(s: Db, b: BookingId)
    requires Sound(s) && b < |s.bookings| && s.bookings[b].status == Offered
    ensures Sound(DeclineHold(s, b))
  {
    var k := Moved(s.bookings[b], Cancelled, None);
    assert s.outbox + Notice(b, k) == s.outbox;
    SettleKeepsSound(s, b, k, Withdrawn, DeclineHold(s, b));
  }

  // ---------- A confirmed row cancelled ----------

  lemma CancelKeepsClaims(bs: Bookings, es: Entries, b: BookingId, reason: Option<string>)
    requires ClaimsOk(bs, es)
    requires b < |bs| && bs[b].status == Confirmed && (reason.Some? <==> bs[b].kind == Reservation)
    ensures ClaimsOk(bs[b := Moved(bs[b], Cancelled, reason)], es)
  {}

  lemma CancelKeepsEvents(s: Db, b: BookingId, reason: Option<string>, t: Db)
    requires EventsOk(s) && ClaimsOk(s.bookings, s.entries)
    requires b < |s.bookings| && s.bookings[b].status == Confirmed
    requires reason.Some? <==> s.bookings[b].kind == Reservation
    requires var k := Moved(s.bookings[b], Cancelled, reason);
      t.bookings == s.bookings[b := k] && t.outbox == s.outbox + Notice(b, k)
    requires t.entries == s.entries
    ensures EventsOk(t)
  {
    hide Expected, EventsOk, History;
    var k := Moved(s.bookings[b], Cancelled, reason);
    assert BookingRowOk(s.bookings[b]) && VersionOk(s.bookings[b], Linked(s.entries, b));
    ExpectedGrows(b, s.bookings[b], k, Linked(s.entries, b));
    NoticeKeepsEvents(s, b, k, t);
  }

  lemma CancelConfirmedKeepsSound(s: Db, b: BookingId, reason: Option<string>, t: Db)
    requires Sound(s) && b < |s.bookings| && s.bookings[b].status == Confirmed
    requires reason.Some? <==> s.bookings[b].kind == Reservation
    requires var k := Moved(s.bookings[b], Cancelled, reason);
      t == s.(bookings := s.bookings[b := k], outbox := s.outbox + Notice(b, k))
    ensures Sound(t)
  {
    hide ClaimsOk, EventsOk, QueueOk, Exclusive, Notice;
    CancelKeepsClaims(s.bookings, s.entries, b, reason);
    CancelKeepsEvents(s, b, reason, t);
    ExclusiveIfShrinks(s.bookings, t.bookings);
    assert ForeignKeys(t);
    assert ArchivedQuiet(t);
  }

  lemma CancelReservationKeepsSound(s: Db, b: BookingId, reason: string)
    requires Sound(s) && b < |s.bookings| && s.bookings[b].kind == Reservation && s.bookings[b].Active()
    ensures Sound(CancelReservation(s, b, reason))
  {
    var k := Moved(s.bookings[b], Cancelled, Some(reason));
    if s.bookings[b].status == Offered {
      SettleKeepsSound(s, b, k, Withdrawn, CancelReservation(s, b, reason));
    } else {
      NoHolders(s, b, Withdrawn);
      CancelConfirmedKeepsSound(s, b, Some(reason), CancelReservation(s, b, reason));
    }
  }

  lemma LiftKeepsSound(s: Db, b: BookingId)
    requires Sound(s) && b < |s.bookings| && s.bookings[b].kind == Blackout && s.bookings[b].status == Confirmed
    ensures Sound(LiftBlackout(s, b))
  {
    assert s.outbox + Notice(b, Moved(s.bookings[b], Cancelled, None)) == s.outbox;
    CancelConfirmedKeepsSound(s, b, None, LiftBlackout(s, b));
  }
}
