/**
  Outbox delivery: any number of workers that claim, renew, send, acknowledge, fail, stall and
  crash at will, stale-lease recovery, and an administrator who retries dead rows.

  There is one clock, which never goes back. The instant a statement uses may have been read any
  time before the statement runs, as the workers do. Fresh tokens are distinct.
 */
module Dispatch {
  import opened Times
  import opened Wrappers
  import opened Leases
  import opened Sizes
  import Inventory

  type WorkerId = nat

  /** Where a worker stands in OutboxDispatcher.run; until is the lease_until it last wrote. */
  datatype Worker =
    | Idle
    | Claimed(lease: Lease, until: Time)   // claim committed
    | Renewed(lease: Lease, until: Time)   // lease renewed, nothing dispatched yet
    | Ready(lease: Lease, until: Time)     // first transaction committed: about to send
    | SentOk(lease: Lease, until: Time)    // the adapter returned; nothing recorded yet
    | SendFailed(lease: Lease, until: Time)

  /** A send that returned: for which event, under which deadline, and when it was recorded. */
  datatype Send = Send(event: EventId, until: Time, recordedAt: Option<Time>)

  /**
    ended has the events about an offer that is no longer open. issued, sends and retries are history:
    each claim, each returned send, each retry.
   */
  datatype System = System(
    rows: Rows,
    receipts: Receipts,
    workers: map<WorkerId, Worker>,
    clock: Time,
    ended: set<EventId>,
    issued: map<Token, EventId>,
    sends: map<Token, Send>,
    retries: map<EventId, nat>)

  datatype Action =
    | Tick(to: Time)
    | Append(event: EventId, kind: Inventory.EventType, recipient: Option<UserId>, now: Time)
    | EndOffer(event: EventId)
    | TakeLease(worker: WorkerId, event: EventId, token: Token, now: Time)
    | RenewLease(worker: WorkerId, now: Time)
    // wanted: the recipient is enabled and, for an offer, the offer is still open
    | Prepare(worker: WorkerId, now: Time, wanted: bool)
    | CallAdapter(worker: WorkerId, ok: bool)
    | Record(worker: WorkerId, now: Time)
    | GiveUp(worker: WorkerId, now: Time)
    | Crash(worker: WorkerId)
    | RecoverAll(now: Time)
    | RetryDead(event: EventId, now: Time)

  function At(s: System, w: WorkerId): Worker {
    if w in s.workers then s.workers[w] else Idle
  }

  predicate Enabled(s: System, a: Action) {
    match a
    case Tick(to) => s.clock <= to
    case Append(e, _, _, now) => e !in s.rows && now <= s.clock
    case EndOffer(e) => e in s.rows && s.rows[e].kind == Inventory.WaitlistOffered
    case TakeLease(w, e, token, now) =>
      At(s, w).Idle? && e in s.rows && now <= s.clock && s.rows[e].Claimable(now) && token !in s.issued
    case RenewLease(w, now) => At(s, w).Claimed? && now <= s.clock
    case Prepare(w, now, wanted) =>
      && At(s, w).Renewed? && At(s, w).lease.event in s.rows && now <= s.clock
      && (wanted ==> At(s, w).lease.event !in s.ended)
    case CallAdapter(w, _) => At(s, w).Ready?
    case Record(w, now) => At(s, w).SentOk? && now <= s.clock
    case GiveUp(w, now) => At(s, w).SendFailed? && now <= s.clock
    case Crash(_) => true
    case RecoverAll(now) => now <= s.clock
    case RetryDead(e, now) => e in s.rows && s.rows[e].status == Dead && now <= s.clock
  }

  function Goes(s: System, w: WorkerId, to: Worker): System {
    s.(workers := s.workers[w := to])
  }

  function Next(s: System, a: Action): System
    requires Enabled(s, a)
  {
    match a
    case Tick(to) => s.(clock := to)
    case Append(e, kind, recipient, now) =>
      s.(rows := s.rows[e := NewRow(kind, recipient, now)], retries := s.retries[e := 0])
    case EndOffer(e) => s.(ended := s.ended + {e})
    case TakeLease(w, e, token, now) =>
      var rows := Claim(s.rows, e, token, now);
      Goes(s, w, Claimed(Lease(e, token, rows[e].attempts), now + LEASE_TIME))
        .(rows := rows, issued := s.issued[token := e])
    case RenewLease(w, now) =>
      var lease := At(s, w).lease;
      Goes(s, w, if Owns(s.rows, lease) then Renewed(lease, now + LEASE_TIME) else Idle)
        .(rows := Renew(s.rows, lease, now))
    case Prepare(w, now, wanted) =>
      var lease := At(s, w).lease;
      var send := s.rows[lease.event].recipient.Some? && wanted && ReceiptOf(s.receipts, lease.event) == Unsent;
      Goes(s, w, if send then Ready(lease, At(s, w).until) else Idle)
        .(receipts := PreparedReceipts(s.rows, s.receipts, lease.event, wanted),
          rows := if send then s.rows else Acknowledge(s.rows, lease, now))
    case CallAdapter(w, ok) =>
      var lease, until := At(s, w).lease, At(s, w).until;
      if ok then Goes(s, w, SentOk(lease, until)).(sends := s.sends[lease.token := Send(lease.event, until, None)])
      else Goes(s, w, SendFailed(lease, until))
    case Record(w, now) =>
      var lease := At(s, w).lease;
      Goes(s, w, Idle)
        .(receipts := SentReceipts(s.receipts, lease.event),
          rows := Acknowledge(s.rows, lease, now),
          sends := if lease.token !in s.sends then s.sends
                   else s.sends[lease.token := s.sends[lease.token].(recordedAt := Some(s.clock))])
    case GiveUp(w, now) =>
      Goes(s, w, Idle).(rows := Fail(s.rows, At(s, w).lease, now))
    case Crash(w) => Goes(s, w, Idle)
    case RecoverAll(now) => s.(rows := Recover(s.rows, now))
    case RetryDead(e, now) =>
      s.(rows := Retry(s.rows, e, now), retries := s.retries[e := RetriesOf(s, e) + 1])
  }

  function RetriesOf(s: System, e: EventId): nat {
    if e in s.retries then s.retries[e] else 0
  }

  ghost predicate Initial(s: System) {
    && s.rows == map[] && s.receipts == map[] && s.ended == {}
    && s.issued == map[] && s.sends == map[] && s.retries == map[]
    && forall w | w in s.workers :: s.workers[w].Idle?
  }

  ghost predicate IsRun(actions: seq<Action>, states: seq<System>) {
    && |states| == |actions| + 1
    && Initial(states[0])
    && forall i | 0 <= i < |actions| :: Enabled(states[i], actions[i]) && states[i + 1] == Next(states[i], actions[i])
  }

  // ---------- The invariant ----------

  predicate RowOk(row: Row) {
    && (row.token.Some? <==> row.status == Processing)
    && (row.until.Some? <==> row.status == Processing)
    && match row.status
       case Pending => row.attempts < MAX_ATTEMPTS
       case Processing => 1 <= row.attempts <= MAX_ATTEMPTS
       case Delivered => 1 <= row.attempts <= MAX_ATTEMPTS
       case Dead => row.attempts == MAX_ATTEMPTS
  }

  ghost predicate RowsOk(s: System) {
    forall e | e in s.rows :: RowOk(s.rows[e])
  }

  ghost predicate TokensOk(s: System) {
    forall e | e in s.rows && s.rows[e].token.Some? ::
      s.rows[e].token.value in s.issued && s.issued[s.rows[e].token.value] == e
  }

  /** A lease in a worker's hands: issued for its event, and either still its row's or past its time. */
  predicate LeaseOk(s: System, k: Worker) {
    !k.Idle? ==>
      && k.lease.token in s.issued && s.issued[k.lease.token] == k.lease.event
      && k.lease.event in s.rows
      && var row := s.rows[k.lease.event];
         && (row.token == Some(k.lease.token) ==> row.attempts == k.lease.attempts && row.until == Some(k.until))
         && (row.token == Some(k.lease.token) || k.until <= s.clock)
  }

  ghost predicate LeasesOk(s: System) {
    forall w | w in s.workers :: LeaseOk(s, s.workers[w])
  }

  /** No two workers carry the same lease. */
  ghost predicate LeasesDistinct(s: System) {
    forall w, v | w in s.workers && v in s.workers && w != v && !s.workers[w].Idle? && !s.workers[v].Idle? ::
      s.workers[w].lease.token != s.workers[v].lease.token
  }

  /** A worker's send is in the history exactly when the adapter has returned. */
  predicate SendOk(s: System, k: Worker) {
    && (k.Claimed? || k.Renewed? || k.Ready? || k.SendFailed? ==> k.lease.token !in s.sends)
    && (k.SentOk? ==> k.lease.token in s.sends && s.sends[k.lease.token] == Send(k.lease.event, k.until, None))
    && (k.Ready? || k.SentOk? || k.SendFailed? ==> k.lease.event in s.receipts)
  }

  ghost predicate SendsOk(s: System) {
    && (forall w | w in s.workers :: SendOk(s, s.workers[w]))
    && (forall t | t in s.sends :: t in s.issued && s.issued[t] == s.sends[t].event && s.sends[t].event in s.rows)
  }

  /** The event was sent: some send of it returned. */
  predicate WasSent(s: System, e: EventId) {
    exists t | t in s.sends :: s.sends[t].event == e
  }

  ghost predicate ReceiptsOk(s: System) {
    && (forall e | e in s.rows && s.rows[e].status == Delivered && s.rows[e].recipient.Some? ::
          ReceiptOf(s.receipts, e) != Unsent)
    && (forall e | e in s.receipts && s.receipts[e] == Sent :: WasSent(s, e))
  }

  /** A send recorded before its lease ran out has delivered its row. */
  ghost predicate RecordedInTime(s: System) {
    forall t | t in s.sends && s.sends[t].recordedAt.Some? && s.sends[t].recordedAt.value < s.sends[t].until ::
      s.sends[t].event in s.rows && s.rows[s.sends[t].event].status == Delivered
  }

  function ClaimsOf(s: System, e: EventId): set<Token> {
    set t | t in s.issued && s.issued[t] == e
  }

  function SendsOf(s: System, e: EventId): set<Token> {
    set t | t in s.sends && s.sends[t].event == e
  }

  ghost predicate ClaimsCounted(s: System) {
    && (forall e | e in s.rows :: |ClaimsOf(s, e)| == MAX_ATTEMPTS * RetriesOf(s, e) + s.rows[e].attempts)
    && (forall t | t in s.issued :: s.issued[t] in s.rows)
  }

  ghost predicate Inv(s: System) {
    && RowsOk(s)
    && TokensOk(s)
    && LeasesOk(s)
    && LeasesDistinct(s)
    && SendsOk(s)
    && ReceiptsOk(s)
    && RecordedInTime(s)
    && ClaimsCounted(s)
  }

  // ---------- Each action keeps it ----------

  lemma KeepsRows(s: System, a: Action)
    requires Enabled(s, a) && RowsOk(s) && LeasesOk(s)
    ensures RowsOk(Next(s, a))
  {
    if a.GiveUp? || a.RenewLease? || a.Record? || a.Prepare? {
      assert LeaseOk(s, s.workers[a.worker]);
    }
  }

  /** An action leaves a row's token alone, clears it, or is the claim that sets it. */
  lemma TokenStep(s: System, a: Action, e: EventId)
    requires Enabled(s, a) && e in Next(s, a).rows
    ensures var row := Next(s, a).rows[e];
      || row.token.None?
      || (e in s.rows && row.token == s.rows[e].token)
      || (a.TakeLease? && e == a.event && row.token == Some(a.token))
  {}

  lemma IssuedStep(s: System, a: Action)
    requires Enabled(s, a)
    ensures a.TakeLease? ==> a.token !in s.issued && Next(s, a).issued == s.issued[a.token := a.event]
    ensures !a.TakeLease? ==> Next(s, a).issued == s.issued
    ensures s.rows.Keys <= Next(s, a).rows.Keys
  {}

  lemma KeepsTokens(s: System, a: Action)
    requires Enabled(s, a) && TokensOk(s)
    ensures TokensOk(Next(s, a))
  {
    hide Enabled, Next;
    var t := Next(s, a);
    IssuedStep(s, a);
    forall e | e in t.rows && t.rows[e].token.Some?
      ensures t.rows[e].token.value in t.issued && t.issued[t.rows[e].token.value] == e
    {
      TokenStep(s, a, e);
    }
  }

  predicate Acts(a: Action, w: WorkerId) {
    !a.Tick? && !a.Append? && !a.EndOffer? && !a.RecoverAll? && !a.RetryDead? && a.worker == w
  }

  /** Only the acting worker moves. */
  lemma BystanderStep(s: System, a: Action, w: WorkerId)
    requires Enabled(s, a) && w in Next(s, a).workers && !Acts(a, w)
    ensures w in s.workers && Next(s, a).workers[w] == s.workers[w]
  {
    hide Claim, Renew, Acknowledge, Fail, Recover, Retry, PreparedReceipts, SentReceipts;
  }

  /** What an action does to the row of a lease that another worker carries: nothing, or it ends the lease. */
  lemma LeasedRowFrame(s: System, a: Action, w: WorkerId)
    requires Enabled(s, a) && LeasesDistinct(s) && w in s.workers && !s.workers[w].Idle? && !Acts(a, w)
    requires s.workers[w].lease.event in s.rows && !a.RecoverAll? && !a.RetryDead?
    ensures var e, k := s.workers[w].lease.event, s.workers[w].lease.token;
      && e in Next(s, a).rows
      && (s.rows[e].token == Some(k) && s.rows[e].status == Processing ==> Next(s, a).rows[e] == s.rows[e])
      && (s.rows[e].token != Some(k) && k in s.issued ==> Next(s, a).rows[e].token != Some(k))
  {
    hide LeaseOk, BackoffSeconds;
  }

  lemma LeasedRowStep(s: System, a: Action, w: WorkerId)
    requires Enabled(s, a) && LeasesDistinct(s) && RowsOk(s) && w in s.workers && !s.workers[w].Idle? && !Acts(a, w)
    requires LeaseOk(s, s.workers[w])
    ensures LeaseOk(Next(s, a), s.workers[w])
  {
    assert RowOk(s.rows[s.workers[w].lease.event]);
    if !a.RecoverAll? && !a.RetryDead? {
      LeasedRowFrame(s, a, w);
      IssuedStep(s, a);
      ClockGoesOn(s, a);
      hide Enabled, Next, RowsOk, LeasesDistinct;
    } else {
      hide RowsOk, LeasesDistinct;
    }
  }

  lemma ClockGoesOn(s: System, a: Action)
    requires Enabled(s, a)
    ensures s.clock <= Next(s, a).clock
  {}

  lemma KeepsLease(s: System, a: Action, w: WorkerId)
    requires Enabled(s, a) && RowsOk(s) && LeasesOk(s) && w in Next(s, a).workers && Acts(a, w)
    ensures LeaseOk(Next(s, a), Next(s, a).workers[w])
  {
    assert w in s.workers ==> LeaseOk(s, s.workers[w]);
  }

  lemma KeepsLeases(s: System, a: Action)
    requires Enabled(s, a) && RowsOk(s) && LeasesOk(s) && LeasesDistinct(s)
    ensures LeasesOk(Next(s, a))
  {
    hide Enabled, Next, RowsOk, LeasesDistinct, LeaseOk;
    var t := Next(s, a);
    forall w | w in t.workers ensures LeaseOk(t, t.workers[w]) {
      if Acts(a, w) {
        KeepsLease(s, a, w);
      } else {
        BystanderStep(s, a, w);
        if s.workers[w].Idle? {
          IdleLeaseOk(t, s.workers[w]);
        } else {
          LeasedRowStep(s, a, w);
        }
      }
    }
  }

  lemma IdleLeaseOk(s: System, k: Worker)
    requires k.Idle?
    ensures LeaseOk(s, k)
  {}

  lemma KeepsLeasesDistinct(s: System, a: Action)
    requires Enabled(s, a) && LeasesOk(s) && LeasesDistinct(s)
    ensures LeasesDistinct(Next(s, a))
  {
    if a.TakeLease? {
      forall w | w in s.workers && !s.workers[w].Idle? ensures s.workers[w].lease.token != a.token {
        assert LeaseOk(s, s.workers[w]);
      }
    }
  }

  /** A lease sends at most once: when a worker is about to send, nothing was sent under its lease. */
  lemma KeepsSend(s: System, a: Action, w: WorkerId)
    requires Enabled(s, a) && w in Next(s, a).workers && Acts(a, w)
    requires w in s.workers ==> SendOk(s, s.workers[w]) && LeaseOk(s, s.workers[w])
    requires forall k | k in s.sends :: k in s.issued
    ensures SendOk(Next(s, a), Next(s, a).workers[w])
  {}

  lemma SendsStep(s: System, a: Action)
    requires Enabled(s, a)
    ensures var t := Next(s, a);
      && s.receipts.Keys <= t.receipts.Keys
      && (a.CallAdapter? || a.Record? ==>
            a.worker in s.workers && !s.workers[a.worker].Idle?
            && forall k | k != s.workers[a.worker].lease.token ::
                 (k in s.sends <==> k in t.sends) && (k in s.sends ==> t.sends[k] == s.sends[k]))
      && (!a.CallAdapter? && !a.Record? ==> t.sends == s.sends)
  {}

  lemma BystanderSend(s: System, a: Action, w: WorkerId)
    requires Enabled(s, a) && LeasesDistinct(s) && w in s.workers && !Acts(a, w)
    requires SendOk(s, s.workers[w])
    ensures SendOk(Next(s, a), s.workers[w])
  {
    hide Enabled, Next;
    SendsStep(s, a);
  }

  lemma KeepsSends(s: System, a: Action)
    requires Enabled(s, a) && LeasesOk(s) && LeasesDistinct(s) && SendsOk(s) && ClaimsCounted(s)
    ensures SendsOk(Next(s, a))
  {
    hide Enabled, Next, LeasesDistinct, LeaseOk, SendOk, ClaimsCounted;
    var t := Next(s, a);
    forall w | w in t.workers ensures SendOk(t, t.workers[w]) {
      if Acts(a, w) {
        KeepsSend(s, a, w);
      } else {
        BystanderStep(s, a, w);
        BystanderSend(s, a, w);
      }
    }
    KeepsSendRecords(s, a);
  }

  lemma KeepsSendRecords(s: System, a: Action)
    requires Enabled(s, a) && LeasesOk(s) && SendsOk(s) && ClaimsCounted(s)
    ensures var t := Next(s, a);
      forall k | k in t.sends :: k in t.issued && t.issued[k] == t.sends[k].event && t.sends[k].event in t.rows
  {
    if a.CallAdapter? {
      assert LeaseOk(s, s.workers[a.worker]);
    }
  }

  lemma SentStays(s: System, a: Action, e: EventId)
    requires Enabled(s, a) && LeasesOk(s) && LeasesDistinct(s) && SendsOk(s)
    requires WasSent(s, e)
    ensures WasSent(Next(s, a), e)
  {
    var k :| k in s.sends && s.sends[k].event == e;
    if a.CallAdapter? {
      assert SendOk(s, s.workers[a.worker]);
    }
    assert k in Next(s, a).sends && Next(s, a).sends[k].event == e;
  }

  lemma KeepsSettledReceipts(s: System, a: Action, e: EventId)
    requires Enabled(s, a) && RowsOk(s) && SendsOk(s) && ReceiptsOk(s)
    requires e in Next(s, a).rows && Next(s, a).rows[e].status == Delivered && Next(s, a).rows[e].recipient.Some?
    ensures ReceiptOf(Next(s, a).receipts, e) != Unsent
  {
    if a.Record? {
      assert SendOk(s, s.workers[a.worker]);
    }
  }

  /** A receipt becomes sent only as the record of a send. */
  lemma SentStep(s: System, a: Action, e: EventId)
    requires Enabled(s, a) && e in Next(s, a).receipts && Next(s, a).receipts[e] == Sent
    ensures (e in s.receipts && s.receipts[e] == Sent)
      || (a.Record? && At(s, a.worker).SentOk? && e == At(s, a.worker).lease.event)
  {}

  lemma KeepsReceipts(s: System, a: Action)
    requires Enabled(s, a) && RowsOk(s) && LeasesOk(s) && LeasesDistinct(s) && SendsOk(s) && ReceiptsOk(s)
    ensures ReceiptsOk(Next(s, a))
  {
    hide Enabled, Next, RowsOk, LeasesOk, LeasesDistinct, WasSent, ReceiptOf;
    var t := Next(s, a);
    forall e | e in t.rows && t.rows[e].status == Delivered && t.rows[e].recipient.Some?
      ensures ReceiptOf(t.receipts, e) != Unsent
    {
      KeepsSettledReceipts(s, a, e);
    }
    forall e | e in t.receipts && t.receipts[e] == Sent ensures WasSent(t, e) {
      SentStep(s, a, e);
      if e !in s.receipts || s.receipts[e] != Sent {
        SentByHolder(s, s.workers[a.worker]);
      }
      SentStays(s, a, e);
    }
  }

  lemma SentByHolder(s: System, k: Worker)
    requires k.SentOk? && SendOk(s, k)
    ensures WasSent(s, k.lease.event)
  {}

  lemma KeepsRecordedInTime(s: System, a: Action)
    requires Enabled(s, a) && RowsOk(s) && LeasesOk(s) && SendsOk(s) && RecordedInTime(s)
    ensures RecordedInTime(Next(s, a))
  {
    if a.Record? || a.CallAdapter? {
      var k := s.workers[a.worker];
      assert LeaseOk(s, k) && SendOk(s, k);
      assert RowOk(s.rows[k.lease.event]);
    }
  }

  lemma ClaimsAfterClaim(s: System, a: Action, e: EventId)
    requires Enabled(s, a) && a.TakeLease? && e in Next(s, a).rows
    ensures e in s.rows && a.token !in ClaimsOf(s, e)
    ensures ClaimsOf(Next(s, a), e) == if e == a.event then ClaimsOf(s, e) + {a.token} else ClaimsOf(s, e)
    ensures RetriesOf(Next(s, a), e) == RetriesOf(s, e)
    ensures Next(s, a).rows[e].attempts == s.rows[e].attempts + (if e == a.event then 1 else 0)
  {}

  lemma ClaimCounted(s: System, a: Action)
    requires Enabled(s, a) && a.TakeLease? && ClaimsCounted(s)
    ensures ClaimsCounted(Next(s, a))
  {
    hide Next, ClaimsOf, RetriesOf;
    var t := Next(s, a);
    IssuedStep(s, a);
    forall e | e in t.rows ensures |ClaimsOf(t, e)| == MAX_ATTEMPTS * RetriesOf(t, e) + t.rows[e].attempts {
      ClaimsAfterClaim(s, a, e);
    }
  }

  lemma AppendCounted(s: System, a: Action)
    requires Enabled(s, a) && a.Append? && ClaimsCounted(s)
    ensures ClaimsCounted(Next(s, a))
  {}

  /** A retry forgets exactly the eight attempts of the life it ends. */
  lemma AttemptsKept(s: System, a: Action, e: EventId)
    requires Enabled(s, a) && !a.TakeLease? && !a.Append? && RowsOk(s) && e in s.rows
    ensures var t := Next(s, a);
      && e in t.rows
      && MAX_ATTEMPTS * RetriesOf(t, e) + t.rows[e].attempts == MAX_ATTEMPTS * RetriesOf(s, e) + s.rows[e].attempts
  {
    assert RowOk(s.rows[e]);
  }

  lemma KeepsCounts(s: System, a: Action)
    requires Enabled(s, a) && RowsOk(s) && ClaimsCounted(s)
    ensures ClaimsCounted(Next(s, a))
  {
    if a.TakeLease? {
      ClaimCounted(s, a);
    } else if a.Append? {
      AppendCounted(s, a);
    } else {
      OthersCounted(s, a);
    }
  }

  lemma OthersCounted(s: System, a: Action)
    requires Enabled(s, a) && !a.TakeLease? && !a.Append? && RowsOk(s) && ClaimsCounted(s)
    ensures ClaimsCounted(Next(s, a))
  {
    hide Next, Enabled;
    var t := Next(s, a);
    NothingIssued(s, a);
    forall e | e in s.rows ensures |ClaimsOf(t, e)| == MAX_ATTEMPTS * RetriesOf(t, e) + t.rows[e].attempts {
      AttemptsKept(s, a, e);
      assert ClaimsOf(t, e) == ClaimsOf(s, e);
    }
  }

  lemma NothingIssued(s: System, a: Action)
    requires Enabled(s, a) && !a.TakeLease? && !a.Append?
    ensures Next(s, a).issued == s.issued && Next(s, a).rows.Keys == s.rows.Keys
  {}

  lemma ActionKeepsInv(s: System, a: Action)
    requires Enabled(s, a) && Inv(s)
    ensures Inv(Next(s, a))
  {
    hide Enabled, Next, RowsOk, TokensOk, LeasesOk, LeasesDistinct, SendsOk, ReceiptsOk, RecordedInTime, ClaimsCounted;
    KeepsRows(s, a);
    KeepsTokens(s, a);
    KeepsLeases(s, a);
    KeepsLeasesDistinct(s, a);
    KeepsSends(s, a);
    KeepsReceipts(s, a);
    KeepsRecordedInTime(s, a);
    KeepsCounts(s, a);
  }

  lemma {:induction false} RunsKeepInv(actions: seq<Action>, states: seq<System>, i: nat)
    requires IsRun(actions, states) && i < |states|
    ensures Inv(states[i])
  {
    hide Inv, Enabled, Next;
    if i == 0 {
      InitialInv(states[0]);
    } else {
      RunsKeepInv(actions, states, i - 1);
      ActionKeepsInv(states[i - 1], actions[i - 1]);
    }
  }

  lemma InitialInv(s: System)
    requires Initial(s)
    ensures Inv(s)
  {}

  // ---------- Exactly once when timely ----------

  /** The send was recorded before its lease ran out, or can still be: its worker holds it in time. */
  ghost predicate Timely(s: System, k: Token) {
    && k in s.sends
    && match s.sends[k].recordedAt
       case Some(at) => at < s.sends[k].until
       case None => s.clock < s.sends[k].until
                    && exists w :: w in s.workers && s.workers[w].SentOk? && s.workers[w].lease.token == k
  }

  /** No event has two timely sends. */
  ghost predicate TimelyOnce(s: System) {
    forall j, k | Timely(s, j) && Timely(s, k) && s.sends[j].event == s.sends[k].event :: j == k
  }

  /** Timeliness cannot be won back: a send that is timely after a step was so before it, or is new. */
  lemma TimelyBefore(s: System, a: Action, k: Token)
    requires Enabled(s, a) && SendsOk(s) && Timely(Next(s, a), k)
    ensures Timely(s, k) || (a.CallAdapter? && a.ok && k == At(s, a.worker).lease.token && k !in s.sends)
    ensures k in s.sends ==> s.sends[k].event == Next(s, a).sends[k].event
  {}

  lemma ActionKeepsTimelyOnce(s: System, a: Action)
    requires Enabled(s, a) && Inv(s) && TimelyOnce(s)
    ensures TimelyOnce(Next(s, a))
  {
    var t := Next(s, a);
    forall j, k | Timely(t, j) && Timely(t, k) && t.sends[j].event == t.sends[k].event ensures j == k {
      PairStaysOnce(s, a, j, k);
    }
  }

  lemma PairStaysOnce(s: System, a: Action, j: Token, k: Token)
    requires Enabled(s, a) && Inv(s) && TimelyOnce(s)
    requires Timely(Next(s, a), j) && Timely(Next(s, a), k) && Next(s, a).sends[j].event == Next(s, a).sends[k].event
    ensures j == k
  {
    TimelyBefore(s, a, j);
    TimelyBefore(s, a, k);
    if !Timely(s, j) && Timely(s, k) {
      NewIsAlone(s, a, j, k);
    }
    if !Timely(s, k) && Timely(s, j) {
      NewIsAlone(s, a, k, j);
    }
  }

  /** A send that can still be recorded in time finds no earlier timely send of its event. */
  lemma NewIsAlone(s: System, a: Action, j: Token, k: Token)
    requires Enabled(s, a) && Inv(s) && a.CallAdapter? && a.ok && j == At(s, a.worker).lease.token
    requires Timely(Next(s, a), j) && Timely(s, k)
    ensures s.sends[k].event != At(s, a.worker).lease.event
  {}

  lemma {:induction false} TimelySendsAreOnce(actions: seq<Action>, states: seq<System>, i: nat)
    requires IsRun(actions, states) && i < |states|
    ensures TimelyOnce(states[i])
  {
    hide Inv, Enabled, Next, TimelyOnce;
    if i == 0 {
      NoSendsAtFirst(states[0]);
    } else {
      TimelySendsAreOnce(actions, states, i - 1);
      RunsKeepInv(actions, states, i - 1);
      ActionKeepsTimelyOnce(states[i - 1], actions[i - 1]);
    }
  }

  lemma NoSendsAtFirst(s: System)
    requires Initial(s)
    ensures TimelyOnce(s)
  {}

  /**
    In every interleaving of workers, crashes, recoveries and retries: if every send of an event that
    returned was recorded before its lease ran out, or can still be, then it was sent at most once.
   */
  lemma ExactlyOnceWhenTimely(actions: seq<Action>, states: seq<System>, i: nat, e: EventId)
    requires IsRun(actions, states) && i < |states|
    requires forall k | k in SendsOf(states[i], e) :: Timely(states[i], k)
    ensures |SendsOf(states[i], e)| <= 1
  {
    TimelySendsAreOnce(actions, states, i);
    var sends := SendsOf(states[i], e);
    if sends != {} {
      var k :| k in sends;
      forall j | j in sends ensures j == k {
        assert Timely(states[i], j) && Timely(states[i], k);
      }
      assert sends == {k};
    }
  }

  // ---------- In all runs ----------

  /** Each returned send had a claim of its own, and claims are at most eight for each life of a row. */
  lemma SendsAreBounded(actions: seq<Action>, states: seq<System>, i: nat, e: EventId)
    requires IsRun(actions, states) && i < |states| && e in states[i].rows
    ensures |SendsOf(states[i], e)| <= |ClaimsOf(states[i], e)|
    ensures |ClaimsOf(states[i], e)| <= MAX_ATTEMPTS * (RetriesOf(states[i], e) + 1)
  {
    RunsKeepInv(actions, states, i);
    var s := states[i];
    assert RowOk(s.rows[e]);
    assert SendsOf(s, e) <= ClaimsOf(s, e);
    SubsetSize(SendsOf(s, e), ClaimsOf(s, e));
  }

  /** What a delivered row and a sent receipt tell, timely or not. */
  lemma DeliveredIsSettled(actions: seq<Action>, states: seq<System>, i: nat, e: EventId)
    requires IsRun(actions, states) && i < |states| && e in states[i].rows
    ensures var s := states[i];
      && (s.rows[e].status == Delivered && s.rows[e].recipient.Some? ==>
            e in s.receipts && (s.receipts[e] == Sent || s.receipts[e] == Skipped))
      && (e in s.receipts && s.receipts[e] == Sent ==> SendsOf(s, e) != {})
  {
    RunsKeepInv(actions, states, i);
    var s := states[i];
    if e in s.receipts && s.receipts[e] == Sent {
      var k :| k in s.sends && s.sends[k].event == e;
      assert k in SendsOf(s, e);
    }
  }

  /** Delivered rows and sent receipts never change again. */
  lemma ActionKeepsSettled(s: System, a: Action, e: EventId)
    requires Enabled(s, a) && RowsOk(s)
    ensures var t := Next(s, a);
      && (e in s.rows && s.rows[e].status == Delivered ==> e in t.rows && t.rows[e] == s.rows[e])
      && (e in s.receipts && s.receipts[e] == Sent ==> e in t.receipts && t.receipts[e] == Sent)
  {
    if e in s.rows {
      assert RowOk(s.rows[e]);
    }
  }

  lemma {:induction false} SettledStays(actions: seq<Action>, states: seq<System>, i: nat, j: nat, e: EventId)
    requires IsRun(actions, states) && i <= j < |states|
    ensures var s, t := states[i], states[j];
      && (e in s.rows && s.rows[e].status == Delivered ==> e in t.rows && t.rows[e] == s.rows[e])
      && (e in s.receipts && s.receipts[e] == Sent ==> e in t.receipts && t.receipts[e] == Sent)
  {
    hide Next, Enabled, RowsOk;
    if i < j {
      SettledStays(actions, states, i, j - 1, e);
      RunsKeepInv(actions, states, j - 1);
      ActionKeepsSettled(states[j - 1], actions[j - 1], e);
    }
  }

  /** Attempts by status; and a lease that still owns its row carries the row's attempts. */
  lemma AttemptsByStatus(actions: seq<Action>, states: seq<System>, i: nat, e: EventId, w: WorkerId)
    requires IsRun(actions, states) && i < |states| && e in states[i].rows
    ensures var row := states[i].rows[e];
      && (row.status == Pending ==> row.attempts <= 7)
      && (row.status == Processing ==> 1 <= row.attempts <= 8)
      && (row.status == Dead ==> row.attempts == 8)
      && (row.token.Some? <==> row.status == Processing)
    ensures var k := At(states[i], w);
      !k.Idle? && Owns(states[i].rows, k.lease) ==> states[i].rows[k.lease.event].attempts == k.lease.attempts
  {
    RunsKeepInv(actions, states, i);
    assert RowOk(states[i].rows[e]);
    if w in states[i].workers {
      assert LeaseOk(states[i], states[i].workers[w]);
    }
  }
}
