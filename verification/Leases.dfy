/**
  Outbox rows, the leases on them, and the receipts of what was sent.
 */
module Leases {
  import opened Times
  import opened Wrappers
  import Inventory

  type EventId = nat
  type UserId = Inventory.UserId
  // Lease tokens are fresh uuids.
  type Token = nat

  const MAX_ATTEMPTS: nat := 8
  const LEASE_TIME: Time := 60 * SECOND

  datatype RowStatus = Pending | Processing | Delivered | Dead

  datatype Row = Row(
    kind: Inventory.EventType,
    recipient: Option<UserId>,
    status: RowStatus,
    attempts: nat,
    occurredAt: Time,
    availableAt: Time,
    token: Option<Token>,
    until: Option<Time>,
    deliveredAt: Option<Time>)
  {
    predicate Claimable(now: Time) {
      status == Pending && availableAt <= now
    }

    predicate Stale(now: Time) {
      status == Processing && until.Some? && until.value <= now
    }
  }

  type Rows = map<EventId, Row>

  // What a worker carries away from its claim.
  datatype Lease = Lease(event: EventId, token: Token, attempts: nat)

  datatype Receipt = Unsent | Sent | Skipped

  type Receipts = map<EventId, Receipt>

  /** append_event. */
  function NewRow(kind: Inventory.EventType, recipient: Option<UserId>, now: Time): Row {
    Row(kind, recipient, Pending, 0, now, now, None, None, None)
  }

  /** WHERE id = ... AND lease_token = ... AND status = 'processing'. */
  predicate Owns(rows: Rows, lease: Lease) {
    && lease.event in rows
    && rows[lease.event].token == Some(lease.token)
    && rows[lease.event].status == Processing
  }

  function Claim(rows: Rows, e: EventId, token: Token, now: Time): Rows
    requires e in rows
  {
    var row := rows[e];
    rows[e := row.(status := Processing, attempts := row.attempts + 1,
                   token := Some(token), until := Some(now + LEASE_TIME))]
  }

  function Renew(rows: Rows, lease: Lease, now: Time): Rows {
    if Owns(rows, lease) then rows[lease.event := rows[lease.event].(until := Some(now + LEASE_TIME))] else rows
  }

  function Acknowledge(rows: Rows, lease: Lease, now: Time): Rows {
    if Owns(rows, lease)
    then
      var row := rows[lease.event];
      rows[lease.event := row.(status := Delivered, deliveredAt := Some(now), token := None, until := None)]
    else rows
  }

  function Fail(rows: Rows, lease: Lease, now: Time): Rows {
    if Owns(rows, lease) then
      var row := rows[lease.event];
      rows[lease.event :=
        if lease.attempts >= MAX_ATTEMPTS then row.(status := Dead, availableAt := now, token := None, until := None)
        else row.(status := Pending, availableAt := now + BackoffSeconds(lease.event, lease.attempts) * SECOND,
                  token := None, until := None)]
    else rows
  }

  function RecoverRow(row: Row, now: Time): Row {
    if !row.Stale(now) then row
    else if row.attempts >= MAX_ATTEMPTS then row.(status := Dead, token := None, until := None)
    else row.(status := Pending, token := None, until := None, availableAt := now)
  }

  function Recover(rows: Rows, now: Time): Rows {
    map e | e in rows :: RecoverRow(rows[e], now)
  }

  function StaleRows(rows: Rows, now: Time): set<EventId> {
    set e | e in rows && rows[e].Stale(now)
  }

  /** Recovery, said of the rows: those still leased past their time die at eight attempts or wait again. */
  lemma RecoveredRows(rows: Rows, now: Time)
    ensures Recover(rows, now).Keys == rows.Keys
    ensures forall e | e in rows ::
      var row, after := rows[e], Recover(rows, now)[e];
      if row.status == Processing && row.until.Some? && row.until.value <= now
      then e in StaleRows(rows, now)
        && after == if row.attempts >= 8 then row.(status := Dead, token := None, until := None)
                    else row.(status := Pending, token := None, until := None, availableAt := now)
      else e !in StaleRows(rows, now) && after == row
  {}

  /** The administrator's retry of a dead row. */
  function Retry(rows: Rows, e: EventId, now: Time): Rows
    requires e in rows
  {
    rows[e := rows[e].(status := Pending, attempts := 0, availableAt := now, token := None, until := None)]
  }

  // ---------- Backoff ----------

  function Power2(n: nat): nat {
    if n == 0 then 1 else 2 * Power2(n - 1)
  }

  const BACKOFF_CAP: nat := 3600

  function BackoffSeconds(e: EventId, attempt: int): nat {
    var safe: nat := if attempt < 1 then 1 else attempt;
    var base := 5 * Power2(safe - 1);
    (if base < BACKOFF_CAP then base else BACKOFF_CAP) + e % 5
  }

  lemma {:induction false} Power2Grows(m: nat, n: nat)
    requires m <= n
    ensures Power2(m) <= Power2(n)
  {
    if m < n {
      Power2Grows(m, n - 1);
    }
  }

  /** Waits never shrink from one attempt to the next, and stay between 5 and 3604 seconds. */
  lemma BackoffGrows(e: EventId, m: int, n: int)
    requires m <= n
    ensures 5 <= BackoffSeconds(e, m) <= BackoffSeconds(e, n) <= BACKOFF_CAP + 4
  {
    var a: nat := if m < 1 then 1 else m;
    var b: nat := if n < 1 then 1 else n;
    Power2Grows(0, a - 1);
    Power2Grows(a - 1, b - 1);
  }

  /** The waits: five seconds, doubled by each further attempt up to the cap, and up to four seconds more. */
  lemma BackoffDoubles(e: EventId, attempt: int)
    ensures attempt <= 1 ==> BackoffSeconds(e, attempt) == 5 + e % 5
    ensures attempt >= 1 ==>
      var before, after := BackoffSeconds(e, attempt) - e % 5, BackoffSeconds(e, attempt + 1) - e % 5;
      after == if 2 * before < 3600 then 2 * before else 3600
  {
    if attempt >= 1 {
      assert Power2(attempt) == 2 * Power2(attempt - 1);
    }
  }

  /** Only attempts below eight wait, so the cap is never reached: no wait exceeds 324 seconds. */
  lemma BackoffInUse(e: EventId, attempts: nat)
    requires attempts < MAX_ATTEMPTS
    ensures BackoffSeconds(e, attempts) <= 324
  {
    BackoffGrows(e, attempts, 7);
    assert Power2(6) == 64 by {
      assert Power2(3) == 8;
    }
  }

  // ---------- The tables ----------

  /** The order in which due rows are claimed: available_at, occurred_at, id. */
  predicate ClaimedBefore(rows: Rows, a: EventId, b: EventId)
    requires a in rows && b in rows
  {
    var x, y := rows[a], rows[b];
    || x.availableAt < y.availableAt
    || (x.availableAt == y.availableAt && x.occurredAt < y.occurredAt)
    || (x.availableAt == y.availableAt && x.occurredAt == y.occurredAt && a < b)
  }

  predicate IsNext(rows: Rows, locked: set<EventId>, now: Time, e: EventId) {
    && e in rows && e !in locked && rows[e].Claimable(now)
    && forall f | f in rows && f !in locked && rows[f].Claimable(now) && f != e :: ClaimedBefore(rows, e, f)
  }

  function Due(rows: Rows, locked: set<EventId>, now: Time): set<EventId> {
    set e | e in rows && e !in locked && rows[e].Claimable(now)
  }

  predicate IsLeast(rows: Rows, due: set<EventId>, e: EventId)
    requires due <= rows.Keys
  {
    e in due && forall f | f in due :: f == e || ClaimedBefore(rows, e, f)
  }

  lemma LeastOfTwo(rows: Rows, due: set<EventId>, x: EventId, m: EventId)
    requires due <= rows.Keys && x in due && IsLeast(rows, due - {x}, m)
    ensures IsLeast(rows, due, if ClaimedBefore(rows, m, x) then m else x)
  {
    var e := if ClaimedBefore(rows, m, x) then m else x;
    forall f | f in due ensures f == e || ClaimedBefore(rows, e, f) {
      assert f == x || f == m || ClaimedBefore(rows, m, f);
    }
  }

  lemma {:induction false} LeastExists(rows: Rows, due: set<EventId>)
    requires due <= rows.Keys && due != {}
    ensures exists e :: IsLeast(rows, due, e)
    decreases due
  {
    var x :| x in due;
    if due == {x} {
      assert IsLeast(rows, due, x);
    } else {
      LeastExists(rows, due - {x});
      var m :| IsLeast(rows, due - {x}, m);
      LeastOfTwo(rows, due, x, m);
    }
  }

  /**
    ORDER BY ... LIMIT 1 FOR UPDATE SKIP LOCKED: of the pending rows that no one has locked and whose
    available_at has come, the first by available_at, then occurred_at, then id.
   */
  function FirstDue(rows: Rows, locked: set<EventId>, now: Time): (next: Option<EventId>)
    ensures next.None? <==> Due(rows, locked, now) == {}
    ensures next.Some? ==> IsNext(rows, locked, now, next.value)
    ensures next.None? <==>
      forall f | f in rows && f !in locked && rows[f].status == Pending :: now < rows[f].availableAt
    ensures next.Some? ==>
      && next.value in rows && next.value !in locked
      && var first := rows[next.value];
         && first.status == Pending && first.availableAt <= now
         && forall f | f in rows && f !in locked && f != next.value
                    && rows[f].status == Pending && rows[f].availableAt <= now ::
              || first.availableAt < rows[f].availableAt
              || (first.availableAt == rows[f].availableAt && first.occurredAt < rows[f].occurredAt)
              || (first.availableAt == rows[f].availableAt && first.occurredAt == rows[f].occurredAt && next.value < f)
  {
    var due := Due(rows, locked, now);
    if due == {} then
      assert forall f | f in rows && f !in locked && rows[f].status == Pending && rows[f].availableAt <= now ::
        f in due;
      None
    else
      LeastExists(rows, due);
      var e :| IsLeast(rows, due, e);
      assert forall f | f in rows && f !in locked && rows[f].Claimable(now) && f != e :: f in due;
      Some(e)
  }

  class Mail {
    var rows: Rows
    var receipts: Receipts

    constructor ()
      ensures rows == map[] && receipts == map[]
    {
      rows, receipts := map[], map[];
    }

    /** At most one row; nothing is claimed when nothing is due. */
    method ClaimBatch(now: Time, locked: set<EventId>, token: Token) returns (lease: Option<Lease>)
      modifies this`rows
      ensures lease.None? <==> Due(old(rows), locked, now) == {}
      ensures lease.None? <==>
        forall e | e in old(rows) && e !in locked && old(rows)[e].status == Pending :: now < old(rows)[e].availableAt
      ensures lease.None? ==> rows == old(rows)
      ensures lease.Some? ==>
        && IsNext(old(rows), locked, now, lease.value.event)
        && rows == Claim(old(rows), lease.value.event, token, now)
      ensures lease.Some? ==>
        && var e := lease.value.event;
        && e in old(rows) && e !in locked
        && var row := old(rows)[e];
        && row.status == Pending && row.availableAt <= now
        && rows == old(rows)[e := row.(status := Processing, attempts := row.attempts + 1,
                                       token := Some(token), until := Some(now + 60 * SECOND))]
        && lease.value == Lease(e, token, row.attempts + 1)
    {
      var next := FirstDue(rows, locked, now);
      if next.None? {
        return None;
      }
      var e := next.value;
      var attempts := rows[e].attempts + 1;
      if rows[e].status == Pending {
        rows := rows[e := rows[e].(status := Processing, attempts := attempts,
                                   token := Some(token), until := Some(now + LEASE_TIME))];
      }
      return Some(Lease(e, token, attempts));
    }

    /** A lease that lost its row changes nothing and is told so. */
    method RenewLease(lease: Lease, now: Time) returns (ok: bool)
      modifies this`rows
      ensures rows == Renew(old(rows), lease, now)
      ensures ok <==>
        && lease.event in old(rows)
        && old(rows)[lease.event].token == Some(lease.token)
        && old(rows)[lease.event].status == Processing
      ensures ok ==>
        rows == old(rows)[lease.event := old(rows)[lease.event].(until := Some(now + 60 * SECOND))]
      ensures !ok ==> rows == old(rows)
    {
      ok := Owns(rows, lease);
      if ok {
        rows := rows[lease.event := rows[lease.event].(until := Some(now + LEASE_TIME))];
      }
    }

    method Ack(lease: Lease, now: Time) returns (ok: bool)
      modifies this`rows
      ensures rows == Acknowledge(old(rows), lease, now)
      ensures ok <==>
        && lease.event in old(rows)
        && old(rows)[lease.event].token == Some(lease.token)
        && old(rows)[lease.event].status == Processing
      ensures ok ==>
        rows == old(rows)[lease.event :=
          old(rows)[lease.event].(status := Delivered, deliveredAt := Some(now), token := None, until := None)]
      ensures !ok ==> rows == old(rows)
    {
      ok := Owns(rows, lease);
      if ok {
        var row := rows[lease.event];
        rows := rows[lease.event := row.(status := Delivered, deliveredAt := Some(now), token := None, until := None)];
      }
    }

    /** Below eight attempts the row waits for its backoff; at the eighth it is dead. */
    method FailLease(lease: Lease, now: Time) returns (ok: bool)
      modifies this`rows
      ensures rows == Fail(old(rows), lease, now)
      ensures ok <==>
        && lease.event in old(rows)
        && old(rows)[lease.event].token == Some(lease.token)
        && old(rows)[lease.event].status == Processing
      ensures ok ==>
        rows.Keys == old(rows).Keys
        && (forall f | f in rows && f != lease.event :: rows[f] == old(rows)[f])
        && var row := rows[lease.event];
           && row.token.None? && row.until.None? && row.attempts == old(rows)[lease.event].attempts
           && (lease.attempts >= 8 ==> row.status == Dead)
           && (lease.attempts < 8 ==>
                 row.status == Pending
                 && row.availableAt == now + BackoffSeconds(lease.event, lease.attempts) * SECOND)
      ensures !ok ==> rows == old(rows)
    {
      var status, available := Dead, now;
      if lease.attempts < MAX_ATTEMPTS {
        status, available := Pending, now + BackoffSeconds(lease.event, lease.attempts) * SECOND;
      }
      ok := Owns(rows, lease);
      if ok {
        var row := rows[lease.event];
        rows := rows[lease.event := row.(status := status, availableAt := available, token := None, until := None)];
      }
    }

    /** Two updates: exhausted rows die, then the others return to the queue. */
    method RecoverStaleLeases(now: Time) returns (count: nat)
      modifies this`rows
      ensures rows == Recover(old(rows), now)
      ensures count == |StaleRows(old(rows), now)|
    {
      var dead := set e | e in rows && rows[e].Stale(now) && rows[e].attempts >= MAX_ATTEMPTS;
      rows := map e | e in rows ::
        if rows[e].Stale(now) && rows[e].attempts >= MAX_ATTEMPTS
        then rows[e].(status := Dead, token := None, until := None) else rows[e];
      var pending := set e | e in rows && rows[e].Stale(now) && rows[e].attempts < MAX_ATTEMPTS;
      assert StaleRows(old(rows), now) == dead + pending;
      count := |dead| + |pending|;
      rows := map e | e in rows ::
        if rows[e].Stale(now) && rows[e].attempts < MAX_ATTEMPTS
        then rows[e].(status := Pending, token := None, until := None, availableAt := now) else rows[e];
    }

    method RetryEvent(e: EventId, now: Time) returns (ok: bool)
      modifies this`rows
      ensures ok <==> e in old(rows) && old(rows)[e].status == Dead
      ensures rows == if ok then Retry(old(rows), e, now) else old(rows)
      ensures ok ==>
        rows == old(rows)[e :=
          old(rows)[e].(status := Pending, attempts := 0, availableAt := now, token := None, until := None)]
    {
      ok := e in rows && rows[e].status == Dead;
      if ok {
        rows := rows[e := rows[e].(status := Pending, attempts := 0, availableAt := now, token := None, until := None)];
      }
    }

    /**
      The transaction before the send; enabled says whether the recipient exists and is enabled, and
      booking is the row the message is about. It creates the receipt if there is none, and acknowledges
      without sending when there is nobody to send to, when the receipt is already closed, or when
      the recipient is disabled or the offer is no longer open, which closes it as skipped.
     */
    method Prepare(lease: Lease, now: Time, enabled: bool, booking: Option<Inventory.Booking>) returns (send: bool)
      requires lease.event in rows
      modifies this`rows, this`receipts
      ensures var wanted := IsWanted(old(rows)[lease.event].kind, enabled, booking, now);
        && (send <==> old(rows)[lease.event].recipient.Some? && wanted
                      && ReceiptOf(old(receipts), lease.event) == Unsent)
        && receipts == PreparedReceipts(old(rows), old(receipts), lease.event, wanted)
        && rows == if send then old(rows) else Acknowledge(old(rows), lease, now)
      ensures var row := old(rows)[lease.event];
        var open := lease.event !in old(receipts) || old(receipts)[lease.event] == Unsent;
        var offerStands := booking.Some? && booking.value.status == Inventory.Offered
          && (booking.value.expiresAt.Some? ==> now < booking.value.expiresAt.value);
        && (send <==> row.recipient.Some? && open && enabled && (row.kind == Inventory.WaitlistOffered ==> offerStands))
        && (!send && row.recipient.Some? && open ==> receipts == old(receipts)[lease.event := Skipped])
        && (send ==> receipts == old(receipts)[lease.event := Unsent])
        && (row.recipient.None? || !open ==> receipts == old(receipts))
    {
      var e := lease.event;
      var kind := rows[e].kind;
      if rows[e].recipient.None? {
        var ok := Ack(lease, now);
        return false;
      }
      if e !in receipts {
        receipts := receipts[e := Unsent];
      }
      if receipts[e] == Sent || receipts[e] == Skipped {
        var ok := Ack(lease, now);
        return false;
      }
      if !enabled {
        receipts := receipts[e := Skipped];
        var ok := Ack(lease, now);
        return false;
      }
      if kind == Inventory.WaitlistOffered {
        if booking.None? || booking.value.status != Inventory.Offered
          || (booking.value.expiresAt.Some? && booking.value.expiresAt.value <= now) {
          receipts := receipts[e := Skipped];
          var ok := Ack(lease, now);
          return false;
        }
      }
      return true;
    }

    /** The transaction after a successful send. */
    method RecordSent(lease: Lease, now: Time)
      modifies this`rows, this`receipts
      ensures receipts == SentReceipts(old(receipts), lease.event)
      ensures rows == Acknowledge(old(rows), lease, now)
    {
      if lease.event in receipts {
        receipts := receipts[lease.event := Sent];
      }
      var ok := Ack(lease, now);
    }

    /**
      One turn of the dispatcher's loop with no other worker about: recover, claim, renew, dispatch.
      accepts says whether the adapter takes the message. The claimed row ends delivered unless a
      message was due and the adapter refused it; then it waits for its backoff, or is dead at the
      eighth attempt. A message goes out only if there is a recipient who wants it and none was sent.
     */
    method RunCycle(now: Time, emailEnabled: bool, locked: set<EventId>, token: Token, renewNow: Time,
                    dbNow: Time, enabled: bool, booking: Option<Inventory.Booking>, accepts: bool)
      returns (event: Option<EventId>, sent: bool)
      modifies this
      ensures var recovered := Recover(old(rows), now);
        && (event.None? ==> rows == recovered && receipts == old(receipts) && !sent)
        && (event.None? <==> !emailEnabled || Due(recovered, locked, now) == {})
        && (event.None? <==>
              || !emailEnabled
              || forall e | e in recovered && e !in locked && recovered[e].status == Pending ::
                   now < recovered[e].availableAt)
        && (event.Some? ==>
              && IsNext(recovered, locked, now, event.value)
              && recovered[event.value].status == Pending && recovered[event.value].availableAt <= now
              && rows.Keys == recovered.Keys
              && (forall f | f in recovered && f != event.value :: rows[f] == recovered[f])
              && var wanted := IsWanted(recovered[event.value].kind, enabled, booking, dbNow);
                 var open := ReceiptOf(old(receipts), event.value) == Unsent;
                 var due := recovered[event.value].recipient.Some? && wanted && open;
                 && (sent <==> due && accepts)
                 && Settled(recovered[event.value], rows[event.value], event.value, !due || accepts, dbNow)
                 && (sent ==> receipts == old(receipts)[event.value := Sent]))
    {
      hide Recover, Claim, Renew, IsNext, Due, ClaimedBefore, BackoffSeconds;
      sent, event := false, None;
      var count := RecoverStaleLeases(now);
      if !emailEnabled {
        return;
      }
      ghost var recovered := rows;
      var lease := ClaimBatch(now, locked, token);
      if lease.None? {
        return;
      }
      var l := lease.value;
      ClaimedRow(recovered, l.event, token, now, renewNow);
      var ok := RenewLease(l, renewNow);
      event := Some(l.event);
      var send := Prepare(l, dbNow, enabled, booking);
      if send {
        sent := accepts;
        if accepts {
          RecordSent(l, dbNow);
        } else {
          ok := FailLease(l, dbNow);
        }
      }
    }
  }

  /** A row is claimed and its worker's turn ends, with no other worker about. */
  lemma ClaimedRow(rows: Rows, e: EventId, token: Token, now: Time, renewNow: Time)
    requires e in rows
    ensures var lease := Lease(e, token, rows[e].attempts + 1);
      && Claim(rows, e, token, now)[e].attempts == lease.attempts
      && Owns(Claim(rows, e, token, now), lease)
      && Owns(Renew(Claim(rows, e, token, now), lease, renewNow), lease)
      && Renew(Claim(rows, e, token, now), lease, renewNow)[e].recipient == rows[e].recipient
      && Renew(Claim(rows, e, token, now), lease, renewNow)[e].kind == rows[e].kind
      && Renew(Claim(rows, e, token, now), lease, renewNow)[e].attempts == lease.attempts
      && Renew(Claim(rows, e, token, now), lease, renewNow).Keys == rows.Keys
      && forall f | f in rows && f != e :: Renew(Claim(rows, e, token, now), lease, renewNow)[f] == rows[f]
  {}

  /** What has become of a claimed row when its worker's turn ends undisturbed. */
  predicate Settled(before: Row, after: Row, e: EventId, done: bool, at: Time) {
    && after.token.None? && after.until.None?
    && after.attempts == before.attempts + 1
    && if done then after.status == Delivered && after.deliveredAt == Some(at)
       else if after.attempts >= MAX_ATTEMPTS then after.status == Dead
       else after.status == Pending && after.availableAt == at + BackoffSeconds(e, after.attempts) * SECOND
  }

  /** The recipient is enabled and, if the message is about an offer, the offer is open and not overdue. */
  predicate IsWanted(kind: Inventory.EventType, enabled: bool, booking: Option<Inventory.Booking>, now: Time) {
    enabled
    && (kind == Inventory.WaitlistOffered ==>
          booking.Some? && booking.value.status == Inventory.Offered
          && (booking.value.expiresAt.Some? ==> now < booking.value.expiresAt.value))
  }

  function ReceiptOf(receipts: Receipts, e: EventId): Receipt {
    if e in receipts then receipts[e] else Unsent
  }

  function PreparedReceipts(rows: Rows, receipts: Receipts, e: EventId, wanted: bool): Receipts
    requires e in rows
  {
    if rows[e].recipient.None? then receipts
    else if ReceiptOf(receipts, e) == Unsent then receipts[e := if wanted then Unsent else Skipped]
    else receipts
  }

  /** UPDATE notification_deliveries SET state = 'sent': only an existing receipt is touched. */
  function SentReceipts(receipts: Receipts, e: EventId): Receipts {
    if e in receipts then receipts[e := Sent] else receipts
  }
}
