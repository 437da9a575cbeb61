/**
  When a message can go out again: exactly while its receipt is open and the offer it may be about has
  not ended, or while a worker has passed the checks and not yet sent.

  A continuation may find the recipient enabled whenever a worker asks.
 */
module Resending {
  import opened Times
  import opened Wrappers
  import opened Leases
  import opened Dispatch
  import opened Sizes
  import Inventory

  // ---------- Continuations ----------

  ghost predicate Leads(s: System, actions: seq<Action>, t: System)
    decreases |actions|
  {
    if actions == [] then s == t
    else Enabled(s, actions[0]) && Leads(Next(s, actions[0]), actions[1..], t)
  }

  lemma LeadsBy(s: System, a: Action)
    requires Enabled(s, a)
    ensures Leads(s, [a], Next(s, a))
  {
    hide Enabled, Next;
  }

  lemma {:induction false} LeadsOn(s: System, actions: seq<Action>, t: System, more: seq<Action>, u: System)
    requires Leads(s, actions, t) && Leads(t, more, u)
    ensures Leads(s, actions + more, u)
    decreases |actions|
  {
    hide Enabled, Next;
    if actions == [] {
      assert actions + more == more;
    } else {
      LeadsOn(Next(s, actions[0]), actions[1..], t, more, u);
      assert (actions + more)[1..] == actions[1..] + more;
    }
  }

  /** A continuation, followed by one more step. */
  lemma LeadsThen(s: System, actions: seq<Action>, t: System, a: Action)
    requires Leads(s, actions, t) && Enabled(t, a)
    ensures Leads(s, actions + [a], Next(t, a))
  {
    hide Enabled, Next, Leads;
    LeadsBy(t, a);
    LeadsOn(s, actions, t, [a], Next(t, a));
  }

  lemma {:induction false} LeadsIsRun(s: System, actions: seq<Action>, t: System) returns (states: seq<System>)
    requires Leads(s, actions, t)
    ensures |states| == |actions| + 1 && states[0] == s && states[|actions|] == t
    ensures forall i | 0 <= i < |actions| ::
      Enabled(states[i], actions[i]) && states[i + 1] == Next(states[i], actions[i])
    decreases |actions|
  {
    hide Enabled, Next;
    if actions == [] {
      states := [s];
    } else {
      var rest := LeadsIsRun(Next(s, actions[0]), actions[1..], t);
      states := [s] + rest;
      forall i | 0 <= i < |actions|
        ensures Enabled(states[i], actions[i]) && states[i + 1] == Next(states[i], actions[i])
      {
        if i > 0 {
          assert states[i] == rest[i - 1] && actions[i] == actions[1..][i - 1] && states[i + 1] == rest[i - 1 + 1];
        }
      }
    }
  }

  /** Some continuation sends the event once more. */
  ghost predicate CanSendMore(s: System, e: EventId) {
    exists actions, t :: Leads(s, actions, t) && |SendsOf(s, e)| < |SendsOf(t, e)|
  }

  /** The receipt is open and no offer has ended, or a worker that found it so is about to send. */
  predicate Exposed(s: System, e: EventId) {
    || (ReceiptOf(s.receipts, e) == Unsent && e !in s.ended)
    || exists w | w in s.workers :: s.workers[w].Ready? && s.workers[w].lease.event == e
  }

  // ---------- A closed receipt, or an ended offer, stops all sending ----------

  lemma ClosedStays(s: System, a: Action, e: EventId)
    requires Enabled(s, a) && !Exposed(s, e)
    ensures !Exposed(Next(s, a), e)
  {}

  lemma ClosedSendsNothing(s: System, a: Action, e: EventId)
    requires Enabled(s, a) && SendsOk(s) && !Exposed(s, e)
    ensures SendsOf(Next(s, a), e) == SendsOf(s, e)
  {
    if a.CallAdapter? || a.Record? {
      assert SendOk(s, s.workers[a.worker]);
    }
  }

  lemma {:induction false} ClosedForGood(s: System, actions: seq<Action>, t: System, e: EventId)
    requires Leads(s, actions, t) && Inv(s) && !Exposed(s, e)
    ensures !Exposed(t, e) && SendsOf(t, e) == SendsOf(s, e)
    decreases |actions|
  {
    hide Enabled, Next, Exposed, SendsOf;
    if actions != [] {
      ClosedStays(s, actions[0], e);
      ClosedSendsNothing(s, actions[0], e);
      ActionKeepsInv(s, actions[0]);
      ClosedForGood(Next(s, actions[0]), actions[1..], t, e);
    }
  }

  // ---------- An open receipt lets one more message out ----------

  /** A reachable kind of state in which the event has a recipient, an open receipt and no ended offer. */
  ghost predicate Open(s: System, e: EventId) {
    Inv(s) && e in s.rows && s.rows[e].recipient.Some? && ReceiptOf(s.receipts, e) == Unsent && e !in s.ended
  }

  /** From s to t nothing was sent and the receipt stayed open. */
  ghost predicate Quietly(s: System, t: System, e: EventId) {
    Open(t, e) && SendsOf(t, e) == SendsOf(s, e)
  }

  predicate Due(s: System, e: EventId) {
    e in s.rows && s.rows[e].Claimable(s.clock)
  }

  lemma Passing(s: System, e: EventId, to: Time)
    requires Open(s, e) && s.clock <= to
    ensures var t := Next(s, Tick(to));
      Enabled(s, Tick(to)) && Quietly(s, t, e) && t.clock == to && t.rows == s.rows
  {
    hide Inv;
    ActionKeepsInv(s, Tick(to));
  }

  lemma Recovering(s: System, e: EventId)
    requires Open(s, e) && s.rows[e].Stale(s.clock)
    ensures var t := Next(s, RecoverAll(s.clock));
      && Enabled(s, RecoverAll(s.clock)) && Quietly(s, t, e) && t.clock == s.clock
      && t.rows[e].attempts == s.rows[e].attempts
      && if s.rows[e].attempts >= MAX_ATTEMPTS then t.rows[e].status == Dead else Due(t, e)
  {
    hide Inv;
    ActionKeepsInv(s, RecoverAll(s.clock));
  }

  lemma Retrying(s: System, e: EventId)
    requires Open(s, e) && s.rows[e].status == Dead
    ensures var a := RetryDead(e, s.clock); Enabled(s, a) && Quietly(s, Next(s, a), e) && Due(Next(s, a), e)
  {
    hide Inv;
    ActionKeepsInv(s, RetryDead(e, s.clock));
  }

  function Later(a: Time, b: Time): Time {
    if a < b then b else a
  }

  lemma OpenIsUndelivered(s: System, e: EventId)
    requires Open(s, e)
    ensures s.rows[e].status != Delivered
    ensures s.rows[e].status == Processing ==> s.rows[e].until.Some? && 0 < s.rows[e].attempts <= MAX_ATTEMPTS
    ensures s.rows[e].status == Pending ==> s.rows[e].attempts < MAX_ATTEMPTS
  {
    assert RowOk(s.rows[e]);
  }

  /** Once the lease has run out, recovery returns the row or declares it dead. */
  lemma RunOut(s: System, e: EventId) returns (actions: seq<Action>, t: System)
    requires Open(s, e) && s.rows[e].status == Processing
    ensures Leads(s, actions, t) && Quietly(s, t, e) && t.rows[e].attempts == s.rows[e].attempts
    ensures if s.rows[e].attempts >= MAX_ATTEMPTS then t.rows[e].status == Dead else Due(t, e)
  {
    OpenIsUndelivered(s, e);
    hide Enabled, Next, Inv, Leads, SendsOf;
    var to := Later(s.clock, s.rows[e].until.value);
    Passing(s, e, to);
    var u := Next(s, Tick(to));
    Recovering(u, e);
    LeadsBy(s, Tick(to));
    LeadsThen(s, [Tick(to)], u, RecoverAll(u.clock));
    actions, t := [Tick(to)] + [RecoverAll(u.clock)], Next(u, RecoverAll(u.clock));
  }

  /** The row can be made ready to be claimed, whatever its status. */
  lemma BecomesDue(s: System, e: EventId) returns (actions: seq<Action>, t: System)
    requires Open(s, e)
    ensures Leads(s, actions, t) && Quietly(s, t, e) && Due(t, e)
    ensures s.rows[e].status != Dead && s.rows[e].attempts < MAX_ATTEMPTS ==> t.rows[e].attempts == s.rows[e].attempts
  {
    OpenIsUndelivered(s, e);
    hide Enabled, Next, Inv, Leads, SendsOf;
    if s.rows[e].status == Pending {
      var to := Later(s.clock, s.rows[e].availableAt);
      Passing(s, e, to);
      LeadsBy(s, Tick(to));
      actions, t := [Tick(to)], Next(s, Tick(to));
    } else if s.rows[e].status == Dead {
      Retrying(s, e);
      LeadsBy(s, RetryDead(e, s.clock));
      actions, t := [RetryDead(e, s.clock)], Next(s, RetryDead(e, s.clock));
    } else {
      actions, t := RunOut(s, e);
      if t.rows[e].status == Dead {
        Retrying(t, e);
        var retry := RetryDead(e, t.clock);
        LeadsThen(s, actions, t, retry);
        actions, t := actions + [retry], Next(t, retry);
      }
    }
  }

  /** A worker w holds the row of e under token k and has come as far as the given stage. */
  predicate Holds(s: System, w: WorkerId, e: EventId, k: Token) {
    && !At(s, w).Idle? && At(s, w).lease.event == e && At(s, w).lease.token == k
    && Owns(s.rows, At(s, w).lease) && k in s.issued && k !in s.sends
  }

  lemma Claiming(s: System, e: EventId, w: WorkerId, k: Token)
    requires Open(s, e) && Due(s, e) && w !in s.workers && k !in s.issued
    ensures var a := TakeLease(w, e, k, s.clock); var t := Next(s, a);
      && Enabled(s, a) && Quietly(s, t, e) && Holds(t, w, e, k) && At(t, w).Claimed?
      && t.rows[e].attempts == s.rows[e].attempts + 1
  {
    ActionKeepsInv(s, TakeLease(w, e, k, s.clock));
  }

  lemma Renewing(s: System, e: EventId, w: WorkerId, k: Token)
    requires Open(s, e) && Holds(s, w, e, k) && At(s, w).Claimed?
    ensures var a := Action.RenewLease(w, s.clock); var t := Next(s, a);
      && Enabled(s, a) && Quietly(s, t, e) && Holds(t, w, e, k) && At(t, w).Renewed?
      && At(t, w).until == s.clock + 60 * SECOND && t.clock == s.clock
      && t.rows[e].attempts == s.rows[e].attempts
  {
    hide Inv;
    ActionKeepsInv(s, Action.RenewLease(w, s.clock));
  }

  lemma Preparing(s: System, e: EventId, w: WorkerId, k: Token)
    requires Open(s, e) && Holds(s, w, e, k) && At(s, w).Renewed?
    ensures var a := Action.Prepare(w, s.clock, true); var t := Next(s, a);
      && Enabled(s, a) && Quietly(s, t, e) && Holds(t, w, e, k) && At(t, w).Ready?
      && At(t, w).until == At(s, w).until && t.clock == s.clock
      && t.rows[e].attempts == s.rows[e].attempts
  {
    hide Inv;
    ActionKeepsInv(s, Action.Prepare(w, s.clock, true));
  }

  lemma SendAdds(s: System, e: EventId, w: WorkerId)
    requires At(s, w).Ready? && At(s, w).lease.event == e && At(s, w).lease.token !in s.sends
    ensures var a := CallAdapter(w, true); var t := Next(s, a);
      && t.rows == s.rows && t.receipts == s.receipts && t.ended == s.ended
      && SendsOf(t, e) == SendsOf(s, e) + {At(s, w).lease.token}
      && At(s, w).lease.token !in SendsOf(s, e)
      && At(t, w).SentOk? && At(t, w).lease == At(s, w).lease
      && At(t, w).until == At(s, w).until && t.clock == s.clock
  {}

  /** A worker that is ready sends, whatever has become of its lease and of the receipt. */
  lemma Sending(s: System, e: EventId, w: WorkerId)
    requires Inv(s) && At(s, w).Ready? && At(s, w).lease.event == e
    ensures var a := CallAdapter(w, true); var t := Next(s, a);
      && Enabled(s, a) && Inv(t) && t.rows == s.rows && t.receipts == s.receipts && t.ended == s.ended
      && |SendsOf(t, e)| == |SendsOf(s, e)| + 1
      && At(t, w).SentOk? && At(t, w).lease == At(s, w).lease
      && At(t, w).until == At(s, w).until && t.clock == s.clock
  {
    assert SendOk(s, s.workers[w]);
    hide Inv, Next, SendsOf;
    ActionKeepsInv(s, CallAdapter(w, true));
    SendAdds(s, e, w);
  }

  lemma OwnedIsProcessing(s: System, w: WorkerId, e: EventId, k: Token)
    requires Holds(s, w, e, k)
    ensures e in s.rows && s.rows[e].status == Processing
  {}

  /** A due row is claimed and its message goes out; the receipt is still open afterwards. */
  lemma ClaimAndSend(s: System, e: EventId) returns (actions: seq<Action>, t: System, w: WorkerId)
    requires Open(s, e) && Due(s, e)
    ensures At(t, w).SentOk? && At(t, w).lease.event == e && Owns(t.rows, At(t, w).lease)
    ensures At(t, w).until == t.clock + 60 * SECOND
    ensures Leads(s, actions, t) && Open(t, e) && |SendsOf(t, e)| == |SendsOf(s, e)| + 1
    ensures t.rows[e].status == Processing && t.rows[e].attempts == s.rows[e].attempts + 1
  {
    w := FreshNat(s.workers.Keys);
    var k := FreshNat(s.issued.Keys);
    hide Enabled, Next, Leads, SendsOf, Inv, Due, Holds;
    var a, d := TakeLease(w, e, k, s.clock), CallAdapter(w, true);
    Claiming(s, e, w, k);
    var s1 := Next(s, a);
    LeadsBy(s, a);
    var b := Action.RenewLease(w, s1.clock);
    Renewing(s1, e, w, k);
    var s2 := Next(s1, b);
    LeadsThen(s, [a], s1, b);
    var c := Action.Prepare(w, s2.clock, true);
    Preparing(s2, e, w, k);
    var s3 := Next(s2, c);
    LeadsThen(s, [a] + [b], s2, c);
    OwnedIsProcessing(s3, w, e, k);
    LeaseOf(s3, w, e, k);
    Sending(s3, e, w);
    t := Next(s3, d);
    LeadsThen(s, [a] + [b] + [c], s3, d);
    actions := [a] + [b] + [c] + [d];
  }

  lemma LeaseOf(s: System, w: WorkerId, e: EventId, k: Token)
    requires Holds(s, w, e, k)
    ensures !At(s, w).Idle? && At(s, w).lease.event == e && Owns(s.rows, At(s, w).lease)
  {}

  /** While the receipt is open, the message can always be made to go out once more. */
  lemma SendAgain(s: System, e: EventId) returns (actions: seq<Action>, t: System)
    requires Open(s, e)
    ensures Leads(s, actions, t) && Open(t, e) && |SendsOf(t, e)| == |SendsOf(s, e)| + 1
    ensures t.rows[e].status == Processing
    ensures s.rows[e].status != Dead && s.rows[e].attempts < MAX_ATTEMPTS ==>
      t.rows[e].attempts == s.rows[e].attempts + 1
  {
    hide Inv, Leads, SendsOf, Due;
    var first, u := BecomesDue(s, e);
    var second, w;
    second, t, w := ClaimAndSend(u, e);
    LeadsOn(s, first, u, second, t);
    actions := first + second;
  }

  lemma Recording(s: System, e: EventId, w: WorkerId)
    requires Open(s, e) && At(s, w).SentOk? && At(s, w).lease.event == e && Owns(s.rows, At(s, w).lease)
    requires At(s, w).until == s.clock + 60 * SECOND
    ensures var a := Record(w, s.clock); var t := Next(s, a);
      && Enabled(s, a) && e in t.rows && t.rows[e].status == Delivered && e in t.receipts && t.receipts[e] == Sent
      && SendsOf(t, e) == SendsOf(s, e)
      && exists k :: k in SendsOf(t, e) && Timely(t, k)
  {
    assert SendOk(s, s.workers[w]);
    var k, t := At(s, w).lease.token, Next(s, Record(w, s.clock));
    hide Inv;
    assert k in SendsOf(t, e) && Timely(t, k);
  }

  /** And it can be delivered, in time: one message more, its row delivered and its receipt closed. */
  lemma CanBeDelivered(actions: seq<Action>, states: seq<System>, i: nat, e: EventId)
      returns (more: seq<Action>, t: System)
    requires IsRun(actions, states) && i < |states|
    requires e in states[i].rows && states[i].rows[e].recipient.Some?
    requires ReceiptOf(states[i].receipts, e) == Unsent && e !in states[i].ended
    ensures Leads(states[i], more, t) && |SendsOf(t, e)| == |SendsOf(states[i], e)| + 1
    ensures e in t.rows && t.rows[e].status == Delivered && e in t.receipts && t.receipts[e] == Sent
    ensures exists k :: k in SendsOf(t, e) && Timely(t, k)
  {
    RunsKeepInv(actions, states, i);
    hide Enabled, Next, IsRun, Inv, Leads, SendsOf, Timely;
    more, t := Delivers(states[i], e);
  }

  lemma Delivers(s: System, e: EventId) returns (more: seq<Action>, t: System)
    requires Open(s, e)
    ensures Leads(s, more, t) && |SendsOf(t, e)| == |SendsOf(s, e)| + 1
    ensures e in t.rows && t.rows[e].status == Delivered && e in t.receipts && t.receipts[e] == Sent
    ensures exists k :: k in SendsOf(t, e) && Timely(t, k)
  {
    hide Enabled, Next, Inv, Leads, SendsOf, Due, Timely, Owns, Open;
    var first, u := BecomesDue(s, e);
    var second, v, w := ClaimAndSend(u, e);
    LeadsOn(s, first, u, second, v);
    Recording(v, e, w);
    var a := Record(w, v.clock);
    LeadsThen(s, first + second, v, a);
    more, t := first + second + [a], Next(v, a);
    OpenHasRow(v, e);
  }

  lemma OpenHasRow(s: System, e: EventId)
    requires Open(s, e)
    ensures e in s.rows
  {}

  /**
    The exact condition. In a reachable state a message can still go out once more if and only if
    its receipt is open and its offer, if it is about one, has not ended, or a worker is past the checks.
   */
  lemma ResendsExactlyWhileExposed(actions: seq<Action>, states: seq<System>, i: nat, e: EventId)
    requires IsRun(actions, states) && i < |states|
    requires e in states[i].rows && states[i].rows[e].recipient.Some?
    ensures CanSendMore(states[i], e) <==> Exposed(states[i], e)
  {
    RunsKeepInv(actions, states, i);
    hide Enabled, Next, IsRun;
    var s := states[i];
    if ReceiptOf(s.receipts, e) == Unsent && e !in s.ended {
      var more, t := SendAgain(s, e);
    } else if Exposed(s, e) {
      var w :| w in s.workers && s.workers[w].Ready? && s.workers[w].lease.event == e;
      Sending(s, e, w);
      LeadsBy(s, CallAdapter(w, true));
    } else {
      forall more, t | Leads(s, more, t) ensures SendsOf(t, e) == SendsOf(s, e) {
        ClosedForGood(s, more, t, e);
      }
    }
  }

  // ---------- Runs that send twice ----------

  const NOTHING: System := System(map[], map[], map[], 0, {}, map[], map[], map[])

  lemma {:induction false} Appended() returns (actions: seq<Action>, t: System)
    ensures Leads(NOTHING, actions, t) && Open(t, 0) && SendsOf(t, 0) == {}
    ensures t.rows[0].status == Pending && t.rows[0].attempts == 0
  {
    var a := Append(0, Inventory.BookingConfirmed, Some(0), 0);
    t := Next(NOTHING, a);
    assert Inv(NOTHING) by {
      InitialInv(NOTHING);
    }
    ActionKeepsInv(NOTHING, a);
    LeadsBy(NOTHING, a);
    actions := [a];
  }

  /** n sends, none of them recorded, in the first eight attempts. */
  lemma {:induction false} SentUnrecorded(n: nat) returns (actions: seq<Action>, t: System)
    requires n <= MAX_ATTEMPTS
    ensures Leads(NOTHING, actions, t) && Open(t, 0) && |SendsOf(t, 0)| == n
    ensures t.rows[0].attempts == n && t.rows[0].status == if n == 0 then Pending else Processing
  {
    hide Leads, Inv;
    if n == 0 {
      actions, t := Appended();
    } else {
      var first, u := SentUnrecorded(n - 1);
      var more;
      more, t := SendAgain(u, 0);
      LeadsOn(NOTHING, first, u, more, t);
      actions := first + more;
    }
  }

  lemma NothingIsInitial(actions: seq<Action>, t: System) returns (states: seq<System>)
    requires Leads(NOTHING, actions, t)
    ensures IsRun(actions, states) && states[|actions|] == t
  {
    hide Enabled, Next, Leads;
    states := LeadsIsRun(NOTHING, actions, t);
  }

  /** Workers that crash between sending and recording make one event go out eight times without a retry. */
  lemma UntimelySendsRepeat() returns (actions: seq<Action>, states: seq<System>)
    ensures IsRun(actions, states) && |SendsOf(states[|actions|], 0)| == 8
  {
    var t;
    actions, t := SentUnrecorded(8);
    hide Leads, IsRun, SendsOf;
    states := NothingIsInitial(actions, t);
  }

  lemma DeadAfterSends() returns (actions: seq<Action>, t: System)
    ensures Leads(NOTHING, actions, t) && Open(t, 0) && t.rows[0].status == Dead && |SendsOf(t, 0)| == 8
  {
    var first, u := SentUnrecorded(8);
    hide Leads, Inv, SendsOf;
    var more;
    more, t := RunOut(u, 0);
    LeadsOn(NOTHING, first, u, more, t);
    actions := first + more;
  }

  /** An administrator's retry of a dead row sends again a message that has already gone out. */
  lemma RetriedSendsRepeat() returns (actions: seq<Action>, states: seq<System>, i: nat)
    ensures IsRun(actions, states) && i < |actions| && actions[i].RetryDead? && actions[i].event == 0
    ensures 0 in states[i].rows && states[i].rows[0].status == Dead
    ensures 0 < |SendsOf(states[i], 0)| < |SendsOf(states[|actions|], 0)|
  {
    var first, s := DeadAfterSends();
    Retrying(s, 0);
    var retry := RetryDead(0, s.clock);
    var u := Next(s, retry);
    hide Leads, Inv, SendsOf, Enabled, Next, Due;
    var more, t := SendAgain(u, 0);
    LeadsBy(s, retry);
    LeadsOn(s, [retry], u, more, t);
    var before := LeadsIsRun(NOTHING, first, s);
    var after := LeadsIsRun(s, [retry] + more, t);
    actions, states, i := first + ([retry] + more), before + after[1..], |first|;
    JoinRuns(first, before, [retry] + more, after);
  }

  lemma JoinRuns(first: seq<Action>, before: seq<System>, more: seq<Action>, after: seq<System>)
    requires |before| == |first| + 1 && |after| == |more| + 1 && before[|first|] == after[0] && before[0] == NOTHING
    requires forall i | 0 <= i < |first| :: Enabled(before[i], first[i]) && before[i + 1] == Next(before[i], first[i])
    requires forall i | 0 <= i < |more| :: Enabled(after[i], more[i]) && after[i + 1] == Next(after[i], more[i])
    ensures IsRun(first + more, before + after[1..])
  {
    hide Enabled, Next;
    var actions, states := first + more, before + after[1..];
    forall i | 0 <= i < |actions|
      ensures Enabled(states[i], actions[i]) && states[i + 1] == Next(states[i], actions[i])
    {
      if i >= |first| {
        var j := i - |first|;
        assert actions[i] == more[j] && states[i] == after[j] && states[i + 1] == after[j + 1];
      }
    }
  }
}
