/**
  Bounds on what rows live through: entry versions, the size of a waiting list, archived resources.
 */
module Lifecycle {
  import opened Times
  import opened Inventory
  import opened Invariant
  import opened Promotion
  import opened Operations
  import opened Safety
  import opened Guarantees

  /** What a promotion leaves alone: no entry appears, and resources are not touched. */
  lemma PromoteLeaves(clock: Clock, s: Db, r: ResourceId)
    ensures Promote(clock, s, r).entries.Keys == s.entries.Keys
    ensures Promote(clock, s, r).resources == s.resources
  {
    PromotionFrame(clock, s, r);
  }

  lemma {:induction false} ExpireDueLeaves(s: Db, r: ResourceId, now: Time, n: nat)
    requires n <= |s.bookings|
    ensures ExpireDue(s, r, now, n).entries.Keys == s.entries.Keys
    ensures ExpireDue(s, r, now, n).resources == s.resources
  {
    if n > 0 {
      ExpireDueLeaves(s, r, now, n - 1);
    }
  }

  ghost predicate Leaves(s: Db, t: Db) {
    t.entries.Keys == s.entries.Keys && t.resources == s.resources
  }

  lemma CancelLeaves(clock: Clock, s: Db, op: Op)
    requires op.OpCancel? || op.OpLift?
    ensures Leaves(s, Apply(clock, s, op).db)
  {
    hide Promote;
    var id := op.booking;
    if id < |s.bookings| {
      var r := s.bookings[id].resource;
      if op.OpCancel? {
        PromoteLeaves(clock, CancelReservation(Sampled(s), id, op.reason), r);
      } else {
        PromoteLeaves(clock, LiftBlackout(Sampled(s), id), r);
      }
    }
  }

  lemma AcceptLeaves(clock: Clock, s: Db, op: Op)
    requires op.OpAccept?
    ensures Leaves(s, Apply(clock, s, op).db)
  {
    hide Promote;
    if op.entry in s.entries && HasOffer(s, s.entries[op.entry]) {
      var en := s.entries[op.entry];
      PromoteLeaves(clock, ExpireHold(Sampled(s), en.hold.value), en.resource);
    }
  }

  lemma DeclineLeaves(clock: Clock, s: Db, op: Op)
    requires op.OpDecline?
    ensures Leaves(s, Apply(clock, s, op).db)
  {
    hide Promote;
    if op.entry in s.entries {
      var en := s.entries[op.entry];
      PromoteLeaves(clock, CloseWaiting(Sampled(s), op.entry, Withdrawn), en.resource);
      if HasOffer(s, en) {
        PromoteLeaves(clock, DeclineHold(Sampled(s), en.hold.value), en.resource);
      }
    }
  }

  lemma ExpireLeaves(clock: Clock, s: Db, op: Op)
    requires op.OpExpire?
    ensures Leaves(s, Apply(clock, s, op).db)
  {
    hide Promote;
    ExpireDueLeaves(Sampled(s), op.resource, clock(s.tick), |s.bookings|);
    PromoteLeaves(clock, ExpireDue(Sampled(s), op.resource, clock(s.tick), |s.bookings|), op.resource);
  }

  /** New entries come from joining, with version 1; only an administrator changes a resource. */
  lemma StepLeaves(clock: Clock, s: Db, op: Op)
    requires Fresh(s, op)
    ensures var t := Apply(clock, s, op).db;
      && (forall e | e in t.entries && e !in s.entries :: t.entries[e].version == 1 && t.entries[e].status == Waiting)
      && (t.resources != s.resources ==> op.OpAddResource? || op.OpPatch? || op.OpArchive?)
  {
    match op {
      case OpCancel(_, _, _, _) => hide Apply; CancelLeaves(clock, s, op);
      case OpLift(_, _) => hide Apply; CancelLeaves(clock, s, op);
      case OpAccept(_, _, _) => hide Apply; AcceptLeaves(clock, s, op);
      case OpDecline(_, _, _) => hide Apply; DeclineLeaves(clock, s, op);
      case OpExpire(_) => hide Apply; ExpireLeaves(clock, s, op);
      case _ =>
    }
  }

  // ---------- Entries ----------

  /** How often entry e changes status up to state j, counted from its first appearance. */
  ghost function EntryChangesUpTo(states: seq<Db>, e: EntryId, j: nat): nat
    requires j < |states|
  {
    if j == 0 then 0
    else
      EntryChangesUpTo(states, e, j - 1)
      + (if e in states[j - 1].entries && e in states[j].entries
            && states[j - 1].entries[e].status != states[j].entries[e].status then 1 else 0)
  }

  lemma {:induction false} NoEntryChangesBeforeBirth(states: seq<Db>, e: EntryId, j: nat)
    requires j < |states| && forall i | 0 <= i < j :: e !in states[i].entries
    ensures EntryChangesUpTo(states, e, j) == 0
  {
    if j > 0 {
      NoEntryChangesBeforeBirth(states, e, j - 1);
    }
  }

  lemma EntryVersionBound(s: Db, e: EntryId)
    requires Inv(s) && e in s.entries
    ensures s.entries[e].version <= 3
  {}

  lemma EntryStep(clock: Clock, ops: seq<Op>, states: seq<Db>, i: nat, e: EntryId)
    requires IsRun(clock, ops, states) && 0 < i < |states| && e in states[i].entries
    ensures if e in states[i - 1].entries
      then states[i].entries[e] == states[i - 1].entries[e] || EntryMove(states[i - 1].entries[e], states[i].entries[e])
      else states[i].entries[e].version == 1
  {
    hide Apply, Guarded;
    StepLeaves(clock, states[i - 1], ops[i - 1]);
    RunStep(clock, ops, states, i - 1);
    if e in states[i - 1].entries {
      GuardedEntry(states[i - 1], states[i], e);
    }
  }

  lemma GuardedEntry(s: Db, t: Db, e: EntryId)
    requires Guarded(s, t) && e in s.entries
    ensures e in t.entries && (t.entries[e] == s.entries[e] || EntryMove(s.entries[e], t.entries[e]))
  {}

  /** An entry's version counts its status changes, and never exceeds three. */
  lemma {:induction false} EntryVersionCountsChanges(clock: Clock, ops: seq<Op>, states: seq<Db>, i: nat, e: EntryId)
    requires IsRun(clock, ops, states) && i < |states| && e in states[i].entries
    ensures states[i].entries[e].version == 1 + EntryChangesUpTo(states, e, i) <= 3
  {
    hide Apply, Inv, Guarded;
    RunsKeepInv(clock, ops, states, i);
    EntryVersionBound(states[i], e);
    EntryStep(clock, ops, states, i, e);
    if e in states[i - 1].entries {
      EntryVersionCountsChanges(clock, ops, states, i - 1, e);
    } else {
      forall j | 0 <= j < i ensures e !in states[j].entries {
        RunGuarded(clock, ops, states, j, i - 1);
      }
      NoEntryChangesBeforeBirth(states, e, i);
    }
  }

  /** A resource never has more than 500 entries that wait or hold an offer. */
  lemma WaitlistIsCapped(clock: Clock, ops: seq<Op>, states: seq<Db>, i: nat, r: ResourceId)
      returns (live: set<EntryId>)
    requires IsRun(clock, ops, states) && i < |states|
    ensures var es := states[i].entries;
      forall e :: e in live <==> e in es && es[e].resource == r && (es[e].status == Waiting || es[e].status == Holding)
    ensures |live| <= 500
  {
    hide Apply;
    live := LiveOn(states[i].entries, r);
    RunsKeepInv(clock, ops, states, i);
    hide LiveOn, NoIdle, ClaimsOk, Exclusive, EventsOk;
  }

  /** Two bookings that are confirmed or offered on one resource never overlap. */
  lemma ActiveAreDisjoint(clock: Clock, ops: seq<Op>, states: seq<Db>, i: nat, a: BookingId, b: BookingId)
    requires IsRun(clock, ops, states) && i < |states| && a < |states[i].bookings| && b < |states[i].bookings| && a != b
    requires states[i].bookings[a].status == Confirmed || states[i].bookings[a].status == Offered
    requires states[i].bookings[b].status == Confirmed || states[i].bookings[b].status == Offered
    requires states[i].bookings[a].resource == states[i].bookings[b].resource
    ensures var v, w := states[i].bookings[a].window, states[i].bookings[b].window;
      v.lo < v.hi && w.lo < w.hi && (v.hi <= w.lo || w.hi <= v.lo)
  {
    hide Apply;
    RunsKeepInv(clock, ops, states, i);
    var x, y := if a < b then a else b, if a < b then b else a;
    assert !Collide(states[i].bookings[x], states[i].bookings[y]);
    hide NoIdle, ClaimsOk, EventsOk, QueueOk;
  }

  // ---------- Archived resources ----------

  predicate Inactive(s: Db, r: ResourceId) {
    r in s.resources && !s.resources[r].active
  }

  lemma StepArchived(clock: Clock, s: Db, op: Op, r: ResourceId)
    requires Fresh(s, op) && r in s.resources && Inactive(Apply(clock, s, op).db, r)
    ensures Apply(clock, s, op).db.resources[r].archivedAt
         == if s.resources[r].active then clock(s.tick) else s.resources[r].archivedAt
  {
    StepLeaves(clock, s, op);
    if !op.OpAddResource? && !op.OpPatch? && !op.OpArchive? {
      hide Apply;
    }
  }

  /** Step i archives r, and r stays inactive up to state j. */
  predicate ArchivedFrom(states: seq<Db>, i: nat, j: nat, r: ResourceId) {
    && i < j < |states|
    && r in states[i].resources && states[i].resources[r].active
    && forall n | i < n <= j :: Inactive(states[n], r)
  }

  lemma {:induction false} ArchiveTimeStays(clock: Clock, ops: seq<Op>, states: seq<Db>, i: nat, j: nat, r: ResourceId)
    requires IsRun(clock, ops, states) && ArchivedFrom(states, i, j, r)
    ensures states[j].resources[r].archivedAt == clock(states[i].tick)
  {
    hide Apply;
    if i + 1 < j {
      ArchiveTimeStays(clock, ops, states, i, j - 1, r);
    }
    assert states[j] == Apply(clock, states[j - 1], ops[j - 1]).db by {
      var n := j - 1;
      assert states[n + 1] == Apply(clock, states[n], ops[n]).db;
    }
    StepArchived(clock, states[j - 1], ops[j - 1], r);
  }

  /**
    From the moment a resource is archived until it is made active again nobody waits for it, and
    no booking on it that is confirmed or offered ends after the instant at which it was archived.
   */
  lemma ArchivedIsQuiet(clock: Clock, ops: seq<Op>, states: seq<Db>, i: nat, j: nat, r: ResourceId)
    requires IsRun(clock, ops, states) && ArchivedFrom(states, i, j, r)
    ensures forall e | e in states[j].entries && states[j].entries[e].status == Waiting ::
      states[j].entries[e].resource != r
    ensures forall b | 0 <= b < |states[j].bookings| && states[j].bookings[b].resource == r
                    && (states[j].bookings[b].status == Confirmed || states[j].bookings[b].status == Offered) ::
      states[j].bookings[b].window.hi <= clock(states[i].tick)
  {
    hide Apply;
    RunsKeepInv(clock, ops, states, j);
    ArchiveTimeStays(clock, ops, states, i, j, r);
    hide NoIdle, ClaimsOk, Exclusive, EventsOk, QueueOk, IsRun;
  }
}
