/**
  How long rows of the outbox are left alone: through their backoff, and through their lease.
 */
module Timing {
  import opened Times
  import opened Wrappers
  import opened Leases
  import opened Dispatch

  // ---------- Backoff ----------

  /** A row that nobody works on is changed only by a claim, or, once it is dead, by a retry. */
  lemma IdleRowStep(s: System, a: Action, e: EventId)
    requires Enabled(s, a) && e in s.rows && s.rows[e].status != Processing
    requires !(a.TakeLease? && a.event == e) && !(a.RetryDead? && a.event == e)
    ensures e in Next(s, a).rows && Next(s, a).rows[e] == s.rows[e]
  {
    hide BackoffSeconds, PreparedReceipts, SentReceipts;
  }

  lemma NoRetryOfPending(s: System, a: Action, e: EventId)
    requires Enabled(s, a) && e in s.rows && s.rows[e].status == Pending
    ensures !(a.RetryDead? && a.event == e)
  {}

  ghost predicate NotClaimed(actions: seq<Action>, i: nat, j: nat, e: EventId)
    requires j <= |actions|
  {
    forall m | i < m < j :: !(actions[m].TakeLease? && actions[m].event == e)
  }

  lemma {:induction false} PendingStays(actions: seq<Action>, states: seq<System>, i: nat, j: nat, e: EventId)
    requires IsRun(actions, states) && i < j <= |actions| && NotClaimed(actions, i, j, e)
    requires e in states[i + 1].rows && states[i + 1].rows[e].status == Pending
    ensures e in states[j].rows && states[j].rows[e] == states[i + 1].rows[e]
    decreases j
  {
    hide Enabled, Next;
    if i + 1 < j {
      PendingStays(actions, states, i, j - 1, e);
      NoRetryOfPending(states[j - 1], actions[j - 1], e);
      IdleRowStep(states[j - 1], actions[j - 1], e);
    }
  }

  lemma MadePending(s: System, a: Action)
    requires Enabled(s, a) && (a.Append? || a.RetryDead?)
    ensures a.event in Next(s, a).rows
    ensures var row := Next(s, a).rows[a.event];
      row.status == Pending && row.attempts == 0 && row.availableAt == a.now
  {}

  /** A new row, and a dead row that is retried, can be claimed from that instant on, with all its attempts. */
  lemma ReadyAtOnce(actions: seq<Action>, states: seq<System>, i: nat, j: nat)
    requires IsRun(actions, states) && i < j <= |actions| && (actions[i].Append? || actions[i].RetryDead?)
    requires NotClaimed(actions, i, j, actions[i].event)
    ensures actions[i].event in states[j].rows
    ensures var row := states[j].rows[actions[i].event];
      row.status == Pending && row.attempts == 0 && row.availableAt == actions[i].now
  {
    hide Enabled, Next;
    MadePending(states[i], actions[i]);
    PendingStays(actions, states, i, j, actions[i].event);
  }

  lemma GivenUp(s: System, a: Action)
    requires Enabled(s, a) && a.GiveUp? && Owns(s.rows, At(s, a.worker).lease)
    ensures var lease := At(s, a.worker).lease;
      && lease.event in Next(s, a).rows
      && var row := Next(s, a).rows[lease.event];
         if lease.attempts >= MAX_ATTEMPTS then row.status == Dead
         else row.status == Pending && row.availableAt == a.now + BackoffSeconds(lease.event, lease.attempts) * SECOND
  {
    hide BackoffSeconds;
  }

  lemma BackoffBelowCap(e: EventId, attempt: nat)
    requires 1 <= attempt < 8
    ensures BackoffSeconds(e, attempt) == 5 * Power2(attempt - 1) + e % 5
  {
    Power2Grows(attempt - 1, 6);
    assert Power2(6) == 64 by {
      assert Power2(3) == 8;
    }
  }

  lemma Claimed(s: System, a: Action)
    requires Enabled(s, a) && a.TakeLease?
    ensures a.event in s.rows && s.rows[a.event].status == Pending && s.rows[a.event].availableAt <= a.now
  {}

  /**
    Backoff over runs. After the k-th attempt at an event fails, k being less than eight, its next claim
    comes no earlier than 5 * 2^(k - 1) seconds, and up to four more, after the failure.
   */
  lemma BackoffIsKept(actions: seq<Action>, states: seq<System>, i: nat, j: nat)
    requires IsRun(actions, states) && i < j < |actions|
    requires actions[i].GiveUp? && Owns(states[i].rows, At(states[i], actions[i].worker).lease)
    requires var lease := At(states[i], actions[i].worker).lease;
      && lease.attempts < 8
      && actions[j].TakeLease? && actions[j].event == lease.event && NotClaimed(actions, i, j, lease.event)
    ensures var lease := At(states[i], actions[i].worker).lease;
      && lease.attempts >= 1
      && actions[i].now + (5 * Power2(lease.attempts - 1) + lease.event % 5) * SECOND <= actions[j].now
  {
    assert Enabled(states[i], actions[i]) && At(states[i], actions[i].worker).SendFailed?;
    hide Enabled, Next, Inv, Owns, BackoffSeconds, Power2;
    var lease := At(states[i], actions[i].worker).lease;
    LeaseHasAttempts(actions, states, i, actions[i].worker);
    GivenUp(states[i], actions[i]);
    BackoffBelowCap(lease.event, lease.attempts);
    PendingStays(actions, states, i, j, lease.event);
    Claimed(states[j], actions[j]);
  }

  lemma LeaseHasAttempts(actions: seq<Action>, states: seq<System>, i: nat, w: WorkerId)
    requires IsRun(actions, states) && i < |states| && !At(states[i], w).Idle?
    requires Owns(states[i].rows, At(states[i], w).lease)
    ensures At(states[i], w).lease.attempts >= 1
  {
    RunsKeepInv(actions, states, i);
    hide Enabled, Next;
    assert LeaseOk(states[i], states[i].workers[w]);
    assert RowOk(states[i].rows[At(states[i], w).lease.event]);
  }

  lemma {:induction false} DeadStays(actions: seq<Action>, states: seq<System>, i: nat, j: nat, e: EventId)
    requires IsRun(actions, states) && i < j <= |actions|
    requires forall m | i < m < j :: !(actions[m].RetryDead? && actions[m].event == e)
    requires e in states[i + 1].rows && states[i + 1].rows[e].status == Dead
    ensures e in states[j].rows && states[j].rows[e] == states[i + 1].rows[e]
    decreases j
  {
    hide Enabled, Next;
    if i + 1 < j {
      DeadStays(actions, states, i, j - 1, e);
      NoClaimOfDead(states[j - 1], actions[j - 1], e);
      IdleRowStep(states[j - 1], actions[j - 1], e);
    }
  }

  lemma NoClaimOfDead(s: System, a: Action, e: EventId)
    requires Enabled(s, a) && e in s.rows && s.rows[e].status == Dead
    ensures !(a.TakeLease? && a.event == e)
  {}

  /** After the eighth attempt fails the event is claimed again only if an administrator retries it. */
  lemma DeadUntilRetried(actions: seq<Action>, states: seq<System>, i: nat, j: nat)
    requires IsRun(actions, states) && i < j < |actions|
    requires actions[i].GiveUp? && Owns(states[i].rows, At(states[i], actions[i].worker).lease)
    requires At(states[i], actions[i].worker).lease.attempts >= 8
    requires actions[j].TakeLease? && actions[j].event == At(states[i], actions[i].worker).lease.event
    ensures exists m :: i < m < j && actions[m].RetryDead? && actions[m].event == actions[j].event
  {
    hide Enabled, Next, Inv, Owns, BackoffSeconds;
    GivenUp(states[i], actions[i]);
    if forall m | i < m < j :: !(actions[m].RetryDead? && actions[m].event == actions[j].event) {
      DeadStays(actions, states, i, j, actions[j].event);
      NoClaimOfDead(states[j], actions[j], actions[j].event);
    }
  }

  // ---------- Leases ----------

  /** Action a, taken in s, is the claim or the renewal that writes lease k on event e. */
  predicate WritesLease(s: System, a: Action, e: EventId, k: Token) {
    || (a.TakeLease? && a.event == e && a.token == k)
    || (a.RenewLease? && At(s, a.worker).Claimed?
        && At(s, a.worker).lease.event == e && At(s, a.worker).lease.token == k)
  }

  /** The worker that carries lease k on event e acknowledges the row or gives it up. */
  predicate SettlesLease(s: System, a: Action, e: EventId, k: Token) {
    && (a.Prepare? || a.Record? || a.GiveUp?) && !At(s, a.worker).Idle?
    && At(s, a.worker).lease.event == e && At(s, a.worker).lease.token == k
  }

  lemma LeaseWritten(s: System, a: Action, e: EventId, k: Token)
    requires Enabled(s, a) && WritesLease(s, a, e, k)
    requires e in Next(s, a).rows && Next(s, a).rows[e].token == Some(k)
    requires e in s.rows && RowOk(s.rows[e])
    ensures Next(s, a).rows[e].until == Some(a.now + 60 * SECOND)
  {}

  /** A leased row keeps its lease until the lease's worker settles it or recovery finds it overdue. */
  lemma LeasedStep(s: System, a: Action, e: EventId, k: Token)
    requires Enabled(s, a) && e in s.rows && RowOk(s.rows[e]) && s.rows[e].token == Some(k)
    requires !WritesLease(s, a, e, k)
    ensures e in Next(s, a).rows
    ensures var before, after := s.rows[e], Next(s, a).rows[e];
      && (after.token == Some(k) ==> after.until == before.until)
      && (after.token != Some(k) ==>
            SettlesLease(s, a, e, k) || (a.RecoverAll? && before.until.Some? && before.until.value <= a.now))
  {
    hide BackoffSeconds, PreparedReceipts, SentReceipts;
  }

  ghost predicate LeaseKept(actions: seq<Action>, states: seq<System>, i: nat, j: nat, e: EventId, k: Token)
    requires |states| == |actions| + 1
  {
    && i < j < |actions|
    && (forall m | i < m <= j :: e in states[m].rows && states[m].rows[e].token == Some(k))
    && (forall m | i < m <= j :: !WritesLease(states[m], actions[m], e, k))
  }

  lemma RowIsOk(actions: seq<Action>, states: seq<System>, i: nat, e: EventId)
    requires IsRun(actions, states) && i < |states| && e in states[i].rows
    ensures RowOk(states[i].rows[e])
  {
    RunsKeepInv(actions, states, i);
    hide Enabled, Next;
  }

  lemma WriterHasRow(actions: seq<Action>, states: seq<System>, i: nat, e: EventId, k: Token)
    requires IsRun(actions, states) && i < |actions| && WritesLease(states[i], actions[i], e, k)
    ensures e in states[i].rows
  {
    RunsKeepInv(actions, states, i);
    hide Next;
    if actions[i].RenewLease? {
      assert LeaseOk(states[i], states[i].workers[actions[i].worker]);
    }
  }

  lemma {:induction false} DeadlineKept(actions: seq<Action>, states: seq<System>, i: nat, j: nat, e: EventId, k: Token)
    requires IsRun(actions, states) && LeaseKept(actions, states, i, j, e, k)
    requires WritesLease(states[i], actions[i], e, k)
    ensures states[j].rows[e].until == Some(actions[i].now + 60 * SECOND)
    decreases j
  {
    hide Enabled, Next, WritesLease, SettlesLease;
    WriterHasRow(actions, states, i, e, k);
    assert Enabled(states[j - 1], actions[j - 1]) && states[j] == Next(states[j - 1], actions[j - 1]);
    assert e in states[j].rows && states[j].rows[e].token == Some(k);
    RowIsOk(actions, states, j - 1, e);
    if i + 1 < j {
      assert e in states[j - 1].rows && states[j - 1].rows[e].token == Some(k);
      assert !WritesLease(states[j - 1], actions[j - 1], e, k);
      DeadlineKept(actions, states, i, j - 1, e, k);
      LeasedStep(states[j - 1], actions[j - 1], e, k);
    } else {
      LeaseWritten(states[i], actions[i], e, k);
    }
  }

  /**
    Leases over runs. Once a claim or renewal has written a lease, its row is taken from it only by its
    own worker, or by a recovery no earlier than 60 seconds after that claim or renewal.
   */
  lemma LeaseLasts(actions: seq<Action>, states: seq<System>, i: nat, j: nat, e: EventId, k: Token)
    requires IsRun(actions, states) && LeaseKept(actions, states, i, j, e, k)
    requires WritesLease(states[i], actions[i], e, k)
    requires e in states[j + 1].rows && states[j + 1].rows[e].token != Some(k)
    ensures || SettlesLease(states[j], actions[j], e, k)
      || (actions[j].RecoverAll? && actions[i].now + 60 * SECOND <= actions[j].now)
  {
    hide Enabled, Next, WritesLease, SettlesLease, RowOk;
    DeadlineKept(actions, states, i, j, e, k);
    RowIsOk(actions, states, j, e);
    LeasedStep(states[j], actions[j], e, k);
  }
}
