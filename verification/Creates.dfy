/**
  Transactions on one resource, statement by statement and interleaved at will, as far as they read
  and write its bookings and its active flag.

  A create takes the resource row FOR SHARE, so that creates run side by side; it makes no check of
  its own and leaves overlaps to the exclusion constraint. Releases, joins and archiving take the
  row FOR UPDATE. The database is assumed to hold row locks to the end of the transaction, to make
  an insert wait for an overlapping uncommitted row and to fail it on an overlapping committed one.
 */
module Creates {
  import opened Wrappers
  import opened Times
  import opened Inventory
  import Operations
  import opened Invariant

  type Pid = nat

  datatype CreatePc =
    | Idle          // nothing done yet
    | Sharing       // holds the resource row FOR SHARE, has seen it active
    | Inserted      // has an uncommitted row
    | Conflicted    // the exclusion constraint rejected the row
    | Committed     // committed with its row
    | SlotConflict  // committed without a row, answering with a conflict
    | Inactive      // refused, because the resource is archived
    | Dead          // rolled back

  datatype ExclusivePc =
    | Queued
    | Locked(active: bool, view: Bookings)                    // holds the row FOR UPDATE; what it read
    | Written(active: bool, view: Bookings, nextActive: bool, next: Bookings)
    | Finished

  datatype Process = Create(row: Booking, pc: CreatePc) | Exclusively(step: ExclusivePc)

  /** The committed state of the resource and the transactions in flight. */
  datatype System = System(active: bool, table: Bookings, procs: map<Pid, Process>)

  predicate HoldsShare(p: Process) {
    p.Create? && (p.pc == Sharing || p.pc == Inserted || p.pc == Conflicted)
  }

  predicate HoldsExclusive(p: Process) {
    p.Exclusively? && (p.step.Locked? || p.step.Written?)
  }

  ghost predicate Clashes(bs: Bookings, k: Booking) {
    exists i | 0 <= i < |bs| :: Collide(bs[i], k)
  }

  function Put(s: System, p: Pid, q: Process): System {
    s.(procs := s.procs[p := q])
  }

  datatype Action =
    | Share(p: Pid) | Insert(p: Pid) | Commit(p: Pid) | Crash(p: Pid)
    | Exclude(p: Pid) | Write(p: Pid, nextActive: bool, next: Bookings) | Release(p: Pid)

  /** One statement of one transaction. A statement that has to wait is simply not enabled. */
  ghost predicate Step(s: System, a: Action, t: System) {
    a.p in s.procs && var q := s.procs[a.p];
    match a
    case Share(p) =>
      && q.Create? && q.pc == Idle
      && (forall o | o in s.procs :: !HoldsExclusive(s.procs[o]))
      && t == Put(s, p, q.(pc := if s.active then Sharing else Inactive))
    case Insert(p) =>
      && q.Create? && q.pc == Sharing
      && if Clashes(s.table, q.row) then t == Put(s, p, q.(pc := Conflicted))
         else
           && (forall o | o in s.procs && s.procs[o].Create? && s.procs[o].pc == Inserted ::
                 !Collide(s.procs[o].row, q.row))
           && t == Put(s, p, q.(pc := Inserted))
    case Commit(p) =>
      && q.Create?
      && (q.pc == Inserted || q.pc == Conflicted)
      && t == if q.pc == Inserted then Put(s, p, q.(pc := Committed)).(table := s.table + [q.row])
              else Put(s, p, q.(pc := SlotConflict))
    case Crash(p) =>
      && (HoldsShare(q) || HoldsExclusive(q))
      && t == Put(s, p, if q.Create? then q.(pc := Dead) else Exclusively(Finished))
    case Exclude(p) =>
      && q == Exclusively(Queued)
      && (forall o | o in s.procs :: !HoldsExclusive(s.procs[o]) && !HoldsShare(s.procs[o]))
      && t == Put(s, p, Exclusively(Locked(s.active, s.table)))
    case Write(p, nextActive, next) =>
      // any change whatever that the exclusion constraint lets through
      && q.Exclusively? && q.step.Locked?
      && Exclusive(next)
      && t == Put(s, p, Exclusively(Written(q.step.active, q.step.view, nextActive, next)))
    case Release(p) =>
      && q.Exclusively? && q.step.Written?
      && t == Put(s, p, Exclusively(Finished)).(active := q.step.nextActive, table := q.step.next)
  }

  ghost predicate Initial(s: System) {
    && Exclusive(s.table)
    && forall p | p in s.procs ::
         if s.procs[p].Create? then s.procs[p].pc == Idle && s.procs[p].row.Active() else s.procs[p].step == Queued
  }

  ghost predicate IsRun(actions: seq<Action>, states: seq<System>) {
    && |states| == |actions| + 1
    && Initial(states[0])
    && forall i | 0 <= i < |actions| :: Step(states[i], actions[i], states[i + 1])
  }

  // ---------- The invariant ----------

  /** An uncommitted row clashes neither with a committed row nor with another uncommitted one. */
  ghost predicate PendingDisjoint(s: System) {
    forall p | p in s.procs && s.procs[p].Create? && s.procs[p].pc == Inserted ::
      && !Clashes(s.table, s.procs[p].row)
      && forall o | o in s.procs && o != p && s.procs[o].Create? && s.procs[o].pc == Inserted ::
           !Collide(s.procs[o].row, s.procs[p].row)
  }

  /** A FOR UPDATE lock is alone, and what its holder read is still what is committed. */
  ghost predicate LocksOk(s: System) {
    && (forall p | p in s.procs && HoldsExclusive(s.procs[p]) ::
          && s.procs[p].step.active == s.active
          && s.procs[p].step.view == s.table
          && (s.procs[p].step.Written? ==> Exclusive(s.procs[p].step.next))
          && forall o | o in s.procs && o != p :: !HoldsExclusive(s.procs[o]) && !HoldsShare(s.procs[o]))
    && (forall p | p in s.procs && HoldsShare(s.procs[p]) :: s.active)
  }

  ghost predicate Inv(s: System) {
    && Exclusive(s.table)
    && PendingDisjoint(s)
    && LocksOk(s)
    && (forall p | p in s.procs && s.procs[p].Create? :: s.procs[p].row.Active())
  }

  lemma ExclusiveAppend(bs: Bookings, k: Booking)
    requires Exclusive(bs) && !Clashes(bs, k)
    ensures Exclusive(bs + [k])
  {}

  lemma ClashesAppend(bs: Bookings, k: Booking, x: Booking)
    ensures Clashes(bs + [k], x) <==> Clashes(bs, x) || Collide(k, x)
  {
    var cs := bs + [k];
    if Clashes(bs, x) {
      var i :| 0 <= i < |bs| && Collide(bs[i], x);
      assert Collide(cs[i], x);
    }
    if Collide(k, x) {
      assert Collide(cs[|bs|], x);
    }
  }

  lemma StepKeepsPending(s: System, a: Action, t: System)
    requires Inv(s) && Step(s, a, t)
    ensures PendingDisjoint(t)
  {}

  lemma StepKeepsLocks(s: System, a: Action, t: System)
    requires Inv(s) && Step(s, a, t)
    ensures LocksOk(t)
  {}

  lemma StepKeepsInv(s: System, a: Action, t: System)
    requires Inv(s) && Step(s, a, t)
    ensures Inv(t)
  {
    StepKeepsPending(s, a, t);
    StepKeepsLocks(s, a, t);
    if a.Commit? && s.procs[a.p].pc == Inserted {
      ExclusiveAppend(s.table, s.procs[a.p].row);
    }
  }

  /** Active bookings of a resource are pairwise disjoint in every state of every interleaving. */
  lemma {:induction false} InterleavingsKeepInv(actions: seq<Action>, states: seq<System>, i: nat)
    requires IsRun(actions, states) && i < |states|
    ensures Inv(states[i])
  {
    if i > 0 {
      InterleavingsKeepInv(actions, states, i - 1);
      StepKeepsInv(states[i - 1], actions[i - 1], states[i]);
    }
  }

  // ---------- Transactions may be read as atomic, as far as bookings and the active flag go ----------

  /** The whole create as one indivisible step, at the instant of its commit. */
  ghost predicate AtomicCreate(active: bool, table: Bookings, row: Booking, table': Bookings) {
    active && !Clashes(table, row) && table' == table + [row]
  }

  /**
    Every interleaved step changes the committed state as one whole transaction does: a create that
    commits inserts a row that is free in the table it commits to, on an active resource; a holder
    of the exclusive lock replaces exactly the state it read; no other step changes anything.
   */
  lemma StepsAreAtomic(actions: seq<Action>, states: seq<System>, i: nat)
    requires IsRun(actions, states) && i < |actions|
    ensures var s, t, a := states[i], states[i + 1], actions[i];
      && a.p in s.procs
      && var q := s.procs[a.p];
         if a.Commit? && q.pc == Inserted then t.active == s.active && AtomicCreate(s.active, s.table, q.row, t.table)
         else if a.Release? then
           q.step.Written? && q.step.active == s.active && q.step.view == s.table
           && t.active == q.step.nextActive && t.table == q.step.next
         else t.active == s.active && t.table == s.table
  {
    InterleavingsKeepInv(actions, states, i);
    assert Step(states[i], actions[i], states[i + 1]);
  }

  /** The row that insert_confirmed and create_blackout try to insert. */
  function NewRow(r: ResourceId, owner: Option<UserId>, w: Window): Booking {
    Booking(r, owner, if owner.Some? then Reservation else Blackout, w, BookingStatus.Confirmed, None, None, 1)
  }

  /** The atomic create is the insert of Operations: it succeeds exactly when that one does. */
  lemma AtomicCreateIsOperation(db: Db, r: ResourceId, owner: Option<UserId>, w: Window)
    ensures var out := Operations.InsertIfFree(db, r, owner, w);
      && (out.reply == Operations.Done <==> !Clashes(db.bookings, NewRow(r, owner, w)))
      && (out.reply == Operations.Done ==> AtomicCreate(true, db.bookings, NewRow(r, owner, w), out.db.bookings))
  {}

  /**
    While a transaction holds the lock, an insert of a row that is free in the table it read can
    neither wait nor fail: no other transaction has an uncommitted row on the resource.
   */
  lemma NoConflictUnderLock(actions: seq<Action>, states: seq<System>, i: nat, p: Pid, k: Booking)
    requires IsRun(actions, states) && i < |states|
    requires p in states[i].procs && HoldsExclusive(states[i].procs[p]) && !Clashes(states[i].procs[p].step.view, k)
    ensures !Clashes(states[i].table, k)
    ensures forall o | o in states[i].procs && states[i].procs[o].Create? :: states[i].procs[o].pc != Inserted
  {
    InterleavingsKeepInv(actions, states, i);
    var s := states[i];
    forall o | o in s.procs && s.procs[o].Create? ensures s.procs[o].pc != Inserted {
      assert o != p ==> !HoldsShare(s.procs[o]);
    }
  }

  // ---------- Progress ----------

  predicate Ended(q: Process) {
    if q.Create? then q.pc != Idle && !HoldsShare(q) else q.step == Finished
  }

  lemma HolderSteps(s: System, p: Pid) returns (a: Action, t: System)
    requires Inv(s) && p in s.procs && HoldsExclusive(s.procs[p])
    ensures Step(s, a, t) && !a.Crash?
  {
    var step := s.procs[p].step;
    if step.Locked? {
      a := Write(p, step.active, s.table);
      t := Put(s, p, Exclusively(Written(step.active, step.view, step.active, s.table)));
    } else {
      a := Release(p);
      t := Put(s, p, Exclusively(Finished)).(active := step.nextActive, table := step.next);
    }
  }

  /** With no pending row about, a create that shares the lock inserts its row or meets the conflict. */
  lemma SharerSteps(s: System, p: Pid) returns (a: Action, t: System)
    requires p in s.procs && s.procs[p].Create? && s.procs[p].pc == Sharing
    requires forall o | o in s.procs && s.procs[o].Create? :: s.procs[o].pc != Inserted
    ensures Step(s, a, t) && !a.Crash?
  {
    hide Clashes, Collide;
    a := Insert(p);
    t := Put(s, p, s.procs[p].(pc := if Clashes(s.table, s.procs[p].row) then Conflicted else Inserted));
  }

  lemma WriterSteps(s: System, p: Pid) returns (a: Action, t: System)
    requires p in s.procs && s.procs[p].Create? && (s.procs[p].pc == Inserted || s.procs[p].pc == Conflicted)
    ensures Step(s, a, t) && !a.Crash?
  {
    var q := s.procs[p];
    a := Commit(p);
    t := if q.pc == Inserted then Put(s, p, q.(pc := Committed)).(table := s.table + [q.row])
         else Put(s, p, q.(pc := SlotConflict));
  }

  lemma StarterSteps(s: System, p: Pid) returns (a: Action, t: System)
    requires p in s.procs && (if s.procs[p].Create? then s.procs[p].pc == Idle else s.procs[p].step == Queued)
    requires forall o | o in s.procs :: !HoldsExclusive(s.procs[o]) && !HoldsShare(s.procs[o])
    ensures Step(s, a, t) && !a.Crash?
  {
    var q := s.procs[p];
    a := if q.Create? then Share(p) else Exclude(p);
    t := Put(s, p, if q.Create? then q.(pc := if s.active then Sharing else Inactive)
                   else Exclusively(Locked(s.active, s.table)));
  }

  /** Nothing waits in a circle: while a transaction has not ended, some statement can run. */
  lemma SomeStatementRuns(actions: seq<Action>, states: seq<System>, i: nat, p: Pid) returns (a: Action, t: System)
    requires IsRun(actions, states) && i < |states| && p in states[i].procs && !Ended(states[i].procs[p])
    ensures Step(states[i], a, t) && !a.Crash?
  {
    InterleavingsKeepInv(actions, states, i);
    var s := states[i];
    hide Inv, Step, IsRun;
    if h :| h in s.procs && HoldsExclusive(s.procs[h]) {
      a, t := HolderSteps(s, h);
    } else if w :| w in s.procs && s.procs[w].Create? && (s.procs[w].pc == Inserted || s.procs[w].pc == Conflicted) {
      a, t := WriterSteps(s, w);
    } else if h :| h in s.procs && HoldsShare(s.procs[h]) {
      a, t := SharerSteps(s, h);
    } else {
      a, t := StarterSteps(s, p);
    }
  }

  // ---------- N creates of one free window ----------

  /** Only creates, all for windows that pairwise collide, over a table in which those are free. */
  ghost predicate Rivals(s: System) {
    && s.active
    && (forall p | p in s.procs :: s.procs[p].Create?)
    && (forall p, o | p in s.procs && o in s.procs :: Collide(s.procs[p].row, s.procs[o].row))
    && (forall p | p in s.procs :: !Clashes(s.table, s.procs[p].row))
  }

  /** Any number of users can start such a race for one window of a free resource. */
  lemma RaceCanStart(r: ResourceId, w: Window, users: map<Pid, UserId>)
    requires w.lo < w.hi
    ensures var s := System(true, [], map p | p in users :: Create(NewRow(r, Some(users[p]), w), Idle));
      Initial(s) && Rivals(s) && s.procs.Keys == users.Keys
  {}

  ghost predicate Won(s: System, p: Pid) {
    p in s.procs && s.procs[p].Create? && s.procs[p].pc == Committed
  }

  ghost predicate Lost(s: System, p: Pid) {
    p in s.procs && s.procs[p].Create? && (s.procs[p].pc == Conflicted || s.procs[p].pc == SlotConflict)
  }

  ghost predicate OnlyCreates(s: System) {
    s.active && forall p | p in s.procs :: s.procs[p].Create? && s.procs[p].pc != Inactive
  }

  /** The state of the race: nobody, or exactly one, has won, and there are losers only after a win. */
  ghost predicate RaceOk(s: System) {
    && OnlyCreates(s)
    && (forall p, o | p in s.procs && o in s.procs :: Collide(s.procs[p].row, s.procs[o].row))
    && (forall p, o | Won(s, p) && Won(s, o) :: p == o)
    && (forall p, o | Won(s, o) && p in s.procs :: Clashes(s.table, s.procs[p].row))
    && (forall p | p in s.procs && Clashes(s.table, s.procs[p].row) :: exists o :: Won(s, o))
    && (forall p | Lost(s, p) :: exists o :: Won(s, o))
  }

  predicate Wins(s: System, a: Action) {
    a.Commit? && a.p in s.procs && s.procs[a.p].Create? && s.procs[a.p].pc == Inserted
  }

  /** What a step of the race can do: nobody leaves, rows stay, and only a win changes the table. */
  lemma RaceStep(s: System, a: Action, t: System)
    requires OnlyCreates(s) && Step(s, a, t)
    ensures t.procs.Keys == s.procs.Keys && OnlyCreates(t)
    ensures forall p | p in s.procs :: t.procs[p].Create? && t.procs[p].row == s.procs[p].row
    ensures t.table == if Wins(s, a) then s.table + [s.procs[a.p].row] else s.table
  {
    hide Clashes, Exclusive, Collide;
  }

  lemma RaceOutcomes(s: System, a: Action, t: System)
    requires OnlyCreates(s) && Step(s, a, t)
    ensures forall p :: Won(t, p) <==> Won(s, p) || (Wins(s, a) && p == a.p)
    ensures forall p | Lost(t, p) ::
      Lost(s, p) || (p in s.procs && s.procs[p].Create? && Clashes(s.table, s.procs[p].row))
  {}

  /** Nobody has won before a win. */
  lemma FirstWin(s: System, a: Action)
    requires Inv(s) && RaceOk(s) && Wins(s, a)
    ensures forall o :: !Won(s, o)
  {}

  lemma WinKeepsRace(s: System, a: Action, t: System)
    requires Inv(s) && RaceOk(s) && Step(s, a, t) && Wins(s, a)
    ensures RaceOk(t)
  {
    RaceStep(s, a, t);
    RaceOutcomes(s, a, t);
    FirstWin(s, a);
    assert Won(t, a.p) && forall p :: Won(t, p) <==> p == a.p;
    hide Inv, Clashes, Step, Collide, OnlyCreates, Lost, Won;
    forall p | p in t.procs ensures Clashes(t.table, t.procs[p].row) {
      ClashesAppend(s.table, s.procs[a.p].row, t.procs[p].row);
    }
  }

  lemma OtherStepKeepsRace(s: System, a: Action, t: System)
    requires RaceOk(s) && Step(s, a, t) && !Wins(s, a)
    ensures RaceOk(t)
  {
    RaceStep(s, a, t);
    RaceOutcomes(s, a, t);
    hide Clashes, Step, Collide, OnlyCreates;
    forall p | p in t.procs && (Clashes(t.table, t.procs[p].row) || Lost(t, p)) ensures exists o :: Won(t, o) {
      var o :| Won(s, o);
      assert Won(t, o);
    }
  }

  lemma StepKeepsRace(s: System, a: Action, t: System)
    requires Inv(s) && RaceOk(s) && Step(s, a, t)
    ensures RaceOk(t) && t.procs.Keys == s.procs.Keys
  {
    RaceStep(s, a, t);
    hide Inv, Step, Clashes, Collide;
    if Wins(s, a) {
      WinKeepsRace(s, a, t);
    } else {
      OtherStepKeepsRace(s, a, t);
    }
  }

  lemma RaceStarts(s: System)
    requires Initial(s) && Rivals(s)
    ensures RaceOk(s)
  {}

  lemma {:induction false} RaceHolds(actions: seq<Action>, states: seq<System>, i: nat)
    requires IsRun(actions, states) && Rivals(states[0]) && i < |states|
    ensures RaceOk(states[i]) && states[i].procs.Keys == states[0].procs.Keys
  {
    hide Inv, Step, RaceOk, Rivals, Initial;
    if i == 0 {
      RaceStarts(states[0]);
    } else {
      RaceHolds(actions, states, i - 1);
      InterleavingsKeepInv(actions, states, i - 1);
      StepKeepsRace(states[i - 1], actions[i - 1], states[i]);
    }
  }

  /** Every create has committed: none is still on its way and none crashed. */
  predicate AllComplete(s: System) {
    forall p | p in s.procs :: s.procs[p].Create? &&
      (s.procs[p].pc == Committed || s.procs[p].pc == SlotConflict || s.procs[p].pc == Inactive)
  }

  /**
    Of any number of concurrent creates of one free window that all complete, in whatever order
    their statements run, exactly one is confirmed and every other one gets the conflict.
   */
  lemma ExactlyOneWins(actions: seq<Action>, states: seq<System>, i: nat) returns (winner: Pid)
    requires IsRun(actions, states) && Rivals(states[0]) && states[0].procs != map[]
    requires i < |states| && AllComplete(states[i])
    ensures winner in states[i].procs
    ensures forall p | p in states[i].procs ::
      if p == winner then states[i].procs[p].pc == Committed else states[i].procs[p].pc == SlotConflict
  {
    RaceHolds(actions, states, i);
    var s := states[i];
    assert s.procs.Keys != {};
    var p :| p in s.procs;
    assert Won(s, p) || Lost(s, p);
    winner :| Won(s, winner);
    forall o | o in s.procs && o != winner ensures s.procs[o].pc == SlotConflict {
      assert !Won(s, o);
    }
  }
}
