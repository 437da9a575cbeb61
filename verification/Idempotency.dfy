/**
  Idempotent creation: any number of requests that insert, lock, delete and replay key rows at the
  same time, with the purge of expired rows running beside them.

  A statement waits on a row that another open transaction has inserted or deleted; a row lock is
  held to commit; an aborted transaction leaves no trace. There is one clock, which never goes
  back; the instant a statement uses may have been read any time before the statement takes effect.
 */
module Idempotency {
  import opened Times
  import opened Wrappers

  // The primary key of idempotency_keys: user_id and key.
  datatype Key = Key(user: nat, id: nat)

  // SHA-256 of method, path and normalised body.
  type Hash = nat

  datatype Response = Response(status: int, body: string)

  // A transaction: a request or a batch of the purge.
  type Pid = nat

  const LIFETIME: Time := 24 * HOUR
  const MAX_TRIES: nat := 5

  // owner and heldSince are bookkeeping of the model: who inserted the row, and when it got it in.
  datatype Row = Row(
    owner: Pid,
    hash: Hash,
    response: Option<Response>,
    createdAt: Time,
    expiresAt: Time,
    heldSince: Time)

  datatype Outcome =
    | Created(response: Response)    // committed; the operation ran
    | Replayed(response: Response)
    | Mismatch
    | Incomplete
    | Failed                         // the operation raised, or the request was lost: rolled back

  datatype Phase =
    | Inserting
    | Conflicted                     // INSERT ... DO NOTHING returned no row
    | Waiting(row: Row)              // SELECT ... FOR UPDATE has found this row
    | Locked(row: Row, expired: bool)
    | Running(row: Row)              // its own row is inserted; the operation runs
    | Stored(row: Row)               // the response is written to its row
    | Finished(outcome: Outcome)

  // deleted: it has deleted the committed row of its key and not committed yet.
  datatype Request = Request(key: Key, hash: Hash, phase: Phase, tries: nat, deleted: bool) {
    /** Whether it keeps others off its key's row. */
    predicate Holds() {
      phase.Locked? || phase.Running? || phase.Stored? || deleted
    }
  }

  /** A purge batch: the rows its subquery saw, and those it has deleted so far. */
  datatype Purge = Purge(victims: map<Key, Row>, deleted: set<Key>)

  /** rows is the committed table; log keeps every row ever committed, in commit order. */
  datatype System = System(
    rows: map<Key, Row>,
    locks: map<Key, Pid>,
    requests: map<Pid, Request>,
    purges: map<Pid, Purge>,
    clock: Time,
    log: seq<(Key, Row)>)

  datatype Action =
    | Tick(to: Time)
    | Start(p: Pid, key: Key, hash: Hash)
    | Insert(p: Pid, at: Time)
    | Look(p: Pid)
    | Acquire(p: Pid, now: Time)
    | Decide(p: Pid)
    | Answer(p: Pid, response: Response)
    | Commit(p: Pid)
    | Abort(p: Pid)
    | PurgeScan(p: Pid, now: Time, victims: map<Key, Row>)
    | PurgeRow(p: Pid, key: Key)
    | PurgeEnd(p: Pid, commits: bool)

  function PhaseOf(s: System, p: Pid): Phase {
    if p in s.requests then s.requests[p].phase else Finished(Failed)
  }

  /** The committed row of the key is being deleted by a transaction that is still open. */
  predicate BeingDeleted(s: System, key: Key) {
    key in s.locks
    && var q := s.locks[key];
       q in s.purges || (q in s.requests && s.requests[q].deleted)
  }

  /** The row a statement of request p sees under its key: committed, and not deleted by p itself. */
  predicate Sees(s: System, p: Pid)
    requires p in s.requests
  {
    s.requests[p].key in s.rows && !s.requests[p].deleted
  }

  predicate LockedByOther(s: System, p: Pid, key: Key) {
    key in s.locks && s.locks[key] != p
  }

  predicate Enabled(s: System, a: Action) {
    match a
    case Tick(to) => s.clock <= to
    case Start(p, _, _) => p !in s.requests && p !in s.purges
    case Insert(p, at) =>
      && PhaseOf(s, p).Inserting? && at <= s.clock
      && var key := s.requests[p].key;
         if Sees(s, p) then !BeingDeleted(s, key) else !LockedByOther(s, p, key)
    case Look(p) => PhaseOf(s, p).Conflicted?
    case Acquire(p, now) =>
      && PhaseOf(s, p).Waiting? && now <= s.clock
      && var key := s.requests[p].key;
         (key in s.rows && s.rows[key] == s.requests[p].phase.row ==> !LockedByOther(s, p, key))
    case Decide(p) => PhaseOf(s, p).Locked?
    case Answer(p, _) => PhaseOf(s, p).Running?
    case Commit(p) => PhaseOf(s, p).Stored?
    case Abort(p) => !PhaseOf(s, p).Finished?
    case PurgeScan(p, now, victims) =>
      && p !in s.requests && p !in s.purges && now <= s.clock
      && forall k | k in victims :: k in s.rows && s.rows[k] == victims[k] && victims[k].expiresAt <= now
    case PurgeRow(p, key) =>
      && p in s.purges && key in s.purges[p].victims && key !in s.locks
      && key in s.rows && s.rows[key] == s.purges[p].victims[key]
    case PurgeEnd(p, _) => p in s.purges
  }

  function Release(locks: map<Key, Pid>, p: Pid): map<Key, Pid> {
    map k | k in locks && locks[k] != p :: locks[k]
  }

  function Goes(s: System, p: Pid, phase: Phase): System
    requires p in s.requests
  {
    s.(requests := s.requests[p := s.requests[p].(phase := phase)])
  }

  /** The end of a request's transaction. */
  function Ends(s: System, p: Pid, outcome: Outcome): System
    requires p in s.requests
  {
    s.(locks := Release(s.locks, p),
       requests := s.requests[p := s.requests[p].(phase := Finished(outcome), deleted := false)])
  }

  /** continue: the next round of the loop, or the error after the last one. */
  function Continues(s: System, p: Pid): System
    requires p in s.requests
  {
    var q := s.requests[p];
    var t := s.(requests := s.requests[p := q.(phase := Inserting, tries := q.tries + 1)]);
    if q.tries + 1 < MAX_TRIES then t else Ends(t, p, Incomplete)
  }

  function Next(s: System, a: Action): System
    requires Enabled(s, a)
  {
    match a
    case Tick(to) => s.(clock := to)
    case Start(p, key, hash) =>
      s.(requests := s.requests[p := Request(key, hash, Inserting, 0, false)])
    case Insert(p, at) =>
      if Sees(s, p) then Goes(s, p, Conflicted)
      else
        var q := s.requests[p];
        Goes(s, p, Running(Row(p, q.hash, None, at, at + LIFETIME, s.clock))).(locks := s.locks[q.key := p])
    case Look(p) =>
      var key := s.requests[p].key;
      if key in s.rows then Goes(s, p, Waiting(s.rows[key])) else Continues(s, p)
    case Acquire(p, now) =>
      var q := s.requests[p];
      if q.key in s.rows && s.rows[q.key] == q.phase.row
      then Goes(s, p, Locked(q.phase.row, q.phase.row.expiresAt <= now)).(locks := s.locks[q.key := p])
      else Continues(s, p)
    case Decide(p) =>
      var q := s.requests[p];
      if q.phase.expired then Continues(s.(requests := s.requests[p := q.(deleted := true)]), p)
      else if q.phase.row.hash != q.hash then Ends(s, p, Mismatch)
      else if q.phase.row.response.None? then Ends(s, p, Incomplete)
      else Ends(s, p, Replayed(q.phase.row.response.value))
    case Answer(p, response) =>
      Goes(s, p, Stored(s.requests[p].phase.row.(response := Some(response))))
    case Commit(p) =>
      var q := s.requests[p];
      var row := q.phase.row;
      if row.response.Some?
      then Ends(s, p, Created(row.response.value)).(rows := s.rows[q.key := row], log := s.log + [(q.key, row)])
      else Ends(s, p, Failed)
    case Abort(p) => Ends(s, p, Failed)
    case PurgeScan(p, _, victims) => s.(purges := s.purges[p := Purge(victims, {})])
    case PurgeRow(p, key) =>
      var g := s.purges[p];
      s.(purges := s.purges[p := g.(deleted := g.deleted + {key})], locks := s.locks[key := p])
    case PurgeEnd(p, commits) =>
      s.(rows := if commits then s.rows - s.purges[p].deleted else s.rows,
         locks := Release(s.locks, p),
         purges := s.purges - {p})
  }

  ghost predicate Initial(s: System) {
    s.rows == map[] && s.locks == map[] && s.requests == map[] && s.purges == map[] && s.log == []
  }

  ghost predicate IsRun(actions: seq<Action>, states: seq<System>) {
    && |states| == |actions| + 1
    && Initial(states[0])
    && forall i | 0 <= i < |actions| :: Enabled(states[i], actions[i]) && states[i + 1] == Next(states[i], actions[i])
  }

  // ---------- The invariant ----------

  predicate LockOk(s: System, key: Key) {
    key in s.locks ==>
      var p := s.locks[key];
      || (p in s.requests && s.requests[p].key == key && s.requests[p].Holds())
      || (p in s.purges && key in s.purges[p].deleted)
  }

  /** Every lock has its holder, a request or a purge batch. */
  ghost predicate LocksOk(s: System) {
    && (forall k | k in s.locks :: LockOk(s, k))
    && (forall p | p in s.requests :: p !in s.purges)
  }

  /** What a request's own row, not yet committed, has overcome. */
  predicate OwnRowOk(s: System, p: Pid, q: Request, row: Row) {
    && row.owner == p && row.hash == q.hash
    && row.heldSince <= s.clock
    && (q.key in s.rows <==> q.deleted)
    && (forall i | 0 <= i < |s.log| && s.log[i].0 == q.key :: s.log[i].1.expiresAt <= row.heldSince)
  }

  predicate Known(s: System, key: Key, row: Row) {
    exists i | 0 <= i < |s.log| :: s.log[i] == (key, row)
  }

  /** A result that was handed out comes from a row that was committed under the same key. */
  ghost predicate OutcomeOk(s: System, p: Pid, q: Request)
    requires q.phase.Finished?
  {
    match q.phase.outcome
    case Created(r) =>
      exists row :: Known(s, q.key, row) && row.owner == p && row.hash == q.hash && row.response == Some(r)
    case Replayed(r) => exists row :: Known(s, q.key, row) && row.hash == q.hash && row.response == Some(r)
    case Mismatch => exists row :: Known(s, q.key, row) && row.hash != q.hash
    case Incomplete => q.tries == MAX_TRIES
    case Failed => true
  }

  ghost predicate RequestOk(s: System, p: Pid) {
    p in s.requests ==>
      && var q := s.requests[p];
      && (q.Holds() ==> q.key in s.locks && s.locks[q.key] == p)
      && (!q.phase.Finished? ==> q.tries < MAX_TRIES)
      && (q.deleted ==> q.key in s.rows && s.rows[q.key].expiresAt <= s.clock)
      && (q.deleted ==> q.phase.Inserting? || q.phase.Running? || q.phase.Stored?)
      && (match q.phase
          case Inserting => true
          case Conflicted => true
          case Waiting(row) => true
          case Locked(row, expired) =>
            q.key in s.rows && s.rows[q.key] == row && (expired ==> row.expiresAt <= s.clock)
          case Running(row) => row.response.None? && OwnRowOk(s, p, q, row)
          case Stored(row) => row.response.Some? && OwnRowOk(s, p, q, row)
          case Finished(_) => OutcomeOk(s, p, q))
  }

  ghost predicate RequestsOk(s: System) {
    forall p | p in s.requests :: RequestOk(s, p)
  }

  predicate PurgeOk(s: System, p: Pid) {
    p in s.purges ==>
      && (forall k | k in s.purges[p].victims :: s.purges[p].victims[k].expiresAt <= s.clock)
      && (forall k | k in s.purges[p].deleted ::
            k in s.locks && s.locks[k] == p && k in s.rows && s.rows[k].expiresAt <= s.clock)
  }

  ghost predicate PurgesOk(s: System) {
    forall p | p in s.purges :: PurgeOk(s, p)
  }

  /** A committed row has its response, and the table holds every committed row that has not expired. */
  ghost predicate TableOk(s: System) {
    && (forall k | k in s.rows :: s.rows[k].response.Some? && Known(s, k, s.rows[k]))
    && (forall i | 0 <= i < |s.log| ::
          || s.log[i].1.expiresAt <= s.clock
          || (s.log[i].0 in s.rows && s.rows[s.log[i].0] == s.log[i].1))
  }

  /** Of two rows committed under one key, the later got in when the earlier had expired. */
  ghost predicate LivesApart(s: System) {
    forall i, j | 0 <= i < j < |s.log| && s.log[i].0 == s.log[j].0 ::
      s.log[i].1.expiresAt <= s.log[j].1.heldSince
  }

  ghost predicate Inv(s: System) {
    LocksOk(s) && RequestsOk(s) && PurgesOk(s) && TableOk(s) && LivesApart(s)
  }

  // ---------- Each action keeps it ----------

  predicate Acts(a: Action, p: Pid) {
    match a
    case Tick(_) => false
    case _ => a.p == p
  }

  lemma ContinuesAlone(s: System, p: Pid, q: Pid)
    requires p in s.requests && p != q
    ensures q in s.requests <==> q in Continues(s, p).requests
    ensures q in s.requests ==> Continues(s, p).requests[q] == s.requests[q]
  {
    hide Release;
  }

  /** What an action leaves alone. */
  lemma LoopFrame(s: System, a: Action, p: Pid)
    requires Enabled(s, a) && !Acts(a, p) && (a.Insert? || a.Look? || a.Acquire?)
    ensures p in s.requests <==> p in Next(s, a).requests
    ensures p in s.requests ==> Next(s, a).requests[p] == s.requests[p]
  {
    if a.p in s.requests {
      ContinuesAlone(s, a.p, p);
    }
    hide Continues, Ends, Sees, BeingDeleted, LockedByOther;
  }

  lemma EndFrame(s: System, a: Action, p: Pid)
    requires Enabled(s, a) && !Acts(a, p) && (a.Decide? || a.Answer? || a.Commit? || a.Abort?)
    ensures p in s.requests <==> p in Next(s, a).requests
    ensures p in s.requests ==> Next(s, a).requests[p] == s.requests[p]
  {
    hide Release;
  }

  lemma RequestFrame(s: System, a: Action, p: Pid)
    requires Enabled(s, a) && !Acts(a, p)
    ensures p in s.requests <==> p in Next(s, a).requests
    ensures p in s.requests ==> Next(s, a).requests[p] == s.requests[p]
  {
    if a.Insert? || a.Look? || a.Acquire? {
      hide Enabled, Next;
      LoopFrame(s, a, p);
    } else if a.Decide? || a.Answer? || a.Commit? || a.Abort? {
      hide Enabled, Next;
      EndFrame(s, a, p);
    } else {
      hide Ends, Continues, Goes, Release;
    }
  }

  lemma PurgeFrame(s: System, a: Action, p: Pid)
    requires Enabled(s, a) && !Acts(a, p)
    ensures p in s.purges <==> p in Next(s, a).purges
    ensures p in s.purges ==> Next(s, a).purges[p] == s.purges[p]
  {}

  lemma LockFrame(s: System, a: Action, k: Key, p: Pid)
    requires Enabled(s, a) && !Acts(a, p)
    ensures (k in s.locks && s.locks[k] == p) <==> (k in Next(s, a).locks && Next(s, a).locks[k] == p)
  {
    if !a.Tick? {
      assert k in Release(s.locks, a.p) <==> k in s.locks && s.locks[k] != a.p;
      hide Release;
    }
  }

  lemma LogFrame(s: System, a: Action)
    requires Enabled(s, a)
    ensures s.clock <= Next(s, a).clock
    ensures s.log <= Next(s, a).log
    ensures !a.Commit? ==> Next(s, a).log == s.log
  {}

  lemma KnownStays(s: System, a: Action, k: Key, row: Row)
    requires Enabled(s, a) && Known(s, k, row)
    ensures Known(Next(s, a), k, row)
  {
    hide Enabled, Next;
    LogFrame(s, a);
    var i :| 0 <= i < |s.log| && s.log[i] == (k, row);
    assert Next(s, a).log[i] == (k, row);
  }

  /** A committed row is replaced or removed only by the transaction that holds its lock. */
  lemma RowFrame(s: System, a: Action, k: Key)
    requires Enabled(s, a) && RequestsOk(s) && PurgesOk(s)
    requires k in s.rows && !(k in Next(s, a).rows && Next(s, a).rows[k] == s.rows[k])
    ensures k in s.locks && Acts(a, s.locks[k]) && s.rows[k].expiresAt <= s.clock
  {
    if a.Commit? {
      assert RequestOk(s, a.p);
    } else {
      assert a.PurgeEnd? && PurgeOk(s, a.p);
    }
  }

  lemma NewRowFrame(s: System, a: Action, k: Key)
    requires Enabled(s, a) && RequestsOk(s)
    requires k in Next(s, a).rows && !(k in s.rows && Next(s, a).rows[k] == s.rows[k])
    ensures a.Commit? && s.requests[a.p].key == k && k in s.locks && s.locks[k] == a.p
    ensures s.requests[a.p].phase.Stored? && Next(s, a).rows[k] == s.requests[a.p].phase.row
    ensures Next(s, a).log == s.log + [(k, Next(s, a).rows[k])]
  {
    if a.Commit? {
      assert RequestOk(s, a.p);
    }
  }

  // Locks

  lemma PurgerLock(s: System, a: Action, k: Key)
    requires Enabled(s, a) && LocksOk(s) && k in Next(s, a).locks && Acts(a, Next(s, a).locks[k])
    requires a.PurgeScan? || a.PurgeRow? || a.PurgeEnd?
    ensures LockOk(Next(s, a), k)
  {}

  lemma InsertLock(s: System, a: Action, k: Key)
    requires Enabled(s, a) && LockOk(s, k) && k in Next(s, a).locks && Acts(a, Next(s, a).locks[k])
    requires a.Insert? && RequestOk(s, a.p)
    ensures LockOk(Next(s, a), k)
  {}

  lemma AcquireLock(s: System, a: Action, k: Key)
    requires Enabled(s, a) && LockOk(s, k) && k in Next(s, a).locks && Acts(a, Next(s, a).locks[k])
    requires (a.Look? || a.Acquire?) && RequestOk(s, a.p)
    ensures LockOk(Next(s, a), k)
  {}

  lemma DecideLock(s: System, a: Action, k: Key)
    requires Enabled(s, a) && LockOk(s, k) && k in Next(s, a).locks && Acts(a, Next(s, a).locks[k])
    requires a.Decide? || a.Answer?
    ensures LockOk(Next(s, a), k)
  {}

  /** A request holds nothing when it starts or ends. */
  lemma EndsHoldNothing(s: System, a: Action, k: Key)
    requires Enabled(s, a) && LockOk(s, k) && (a.Start? || a.Commit? || a.Abort?)
    ensures k in Next(s, a).locks ==> Next(s, a).locks[k] != a.p
  {}

  lemma ActorLock(s: System, a: Action, k: Key)
    requires Enabled(s, a) && LocksOk(s) && RequestsOk(s) && k in Next(s, a).locks && Acts(a, Next(s, a).locks[k])
    ensures LockOk(Next(s, a), k)
  {
    hide LockOk, RequestOk, Next;
    if a.PurgeScan? || a.PurgeRow? || a.PurgeEnd? {
      PurgerLock(s, a, k);
    } else {
      NoLockOk(s, k);
      hide LocksOk;
      match a
      case Insert(_, _) => InsertLock(s, a, k);
      case Look(_) => AcquireLock(s, a, k);
      case Acquire(_, _) => AcquireLock(s, a, k);
      case Decide(_) => DecideLock(s, a, k);
      case Answer(_, _) => DecideLock(s, a, k);
      case _ => EndsHoldNothing(s, a, k);
    }
  }

  lemma NoLockOk(s: System, k: Key)
    requires LocksOk(s)
    ensures LockOk(s, k)
  {}

  lemma KeepsLocks(s: System, a: Action)
    requires Enabled(s, a) && LocksOk(s) && RequestsOk(s)
    ensures LocksOk(Next(s, a))
  {
    hide Enabled, Next, RequestsOk, RequestOk;
    var t := Next(s, a);
    forall k | k in t.locks ensures LockOk(t, k) {
      var p := t.locks[k];
      if Acts(a, p) {
        ActorLock(s, a, k);
      } else {
        LockFrame(s, a, k, p);
        assert LockOk(s, k);
        RequestFrame(s, a, p);
        PurgeFrame(s, a, p);
      }
    }
    forall p | p in t.requests ensures p !in t.purges {
      KeepsApart(s, a, p);
    }
  }

  lemma KeepsApart(s: System, a: Action, p: Pid)
    requires Enabled(s, a) && LocksOk(s)
    ensures p in Next(s, a).requests ==> p !in Next(s, a).purges
  {}

  // Requests

  /** Nobody but the holder of its lock touches a row. */
  lemma HeldRow(s: System, a: Action, k: Key, p: Pid)
    requires Enabled(s, a) && RequestsOk(s) && PurgesOk(s) && !Acts(a, p) && k in s.locks && s.locks[k] == p
    ensures k in s.rows <==> k in Next(s, a).rows
    ensures k in s.rows ==> Next(s, a).rows[k] == s.rows[k]
    ensures forall i | |s.log| <= i < |Next(s, a).log| :: Next(s, a).log[i].0 != k
  {
    HeldLog(s, a, k, p);
    hide Enabled, Next, RequestsOk, PurgesOk;
    if k in s.rows && !(k in Next(s, a).rows && Next(s, a).rows[k] == s.rows[k]) {
      RowFrame(s, a, k);
    }
    if k in Next(s, a).rows && k !in s.rows {
      NewRowFrame(s, a, k);
    }
  }

  lemma HeldLog(s: System, a: Action, k: Key, p: Pid)
    requires Enabled(s, a) && RequestsOk(s) && !Acts(a, p) && k in s.locks && s.locks[k] == p
    ensures forall i | |s.log| <= i < |Next(s, a).log| :: Next(s, a).log[i].0 != k
  {}

  lemma OutcomeStays(s: System, a: Action, p: Pid, q: Request)
    requires Enabled(s, a) && q.phase.Finished? && OutcomeOk(s, p, q)
    ensures OutcomeOk(Next(s, a), p, q)
  {
    hide Enabled, Next, Known;
    forall row | Known(s, q.key, row) ensures Known(Next(s, a), q.key, row) {
      KnownStays(s, a, q.key, row);
    }
  }

  lemma OwnRowStays(s: System, a: Action, p: Pid, row: Row)
    requires Enabled(s, a) && RequestsOk(s) && PurgesOk(s) && !Acts(a, p) && p in s.requests && s.requests[p].Holds()
    requires RequestOk(s, p) && OwnRowOk(s, p, s.requests[p], row)
    ensures OwnRowOk(Next(s, a), p, s.requests[p], row)
  {
    hide Enabled, Next, RequestsOk, PurgesOk;
    HeldRow(s, a, s.requests[p].key, p);
    LogFrame(s, a);
  }

  lemma BystanderOk(s: System, a: Action, p: Pid)
    requires Enabled(s, a) && RequestsOk(s) && PurgesOk(s) && !Acts(a, p) && p in s.requests
    ensures RequestOk(Next(s, a), p)
  {
    hide Enabled, Next, PurgesOk, OutcomeOk, OwnRowOk;
    assert RequestOk(s, p);
    var q := s.requests[p];
    RequestFrame(s, a, p);
    LogFrame(s, a);
    if q.Holds() {
      LockFrame(s, a, q.key, p);
      HeldRow(s, a, q.key, p);
    }
    if q.phase.Running? || q.phase.Stored? {
      OwnRowStays(s, a, p, q.phase.row);
    } else if q.phase.Finished? {
      OutcomeStays(s, a, p, q);
    }
  }

  /** A request gets its row in only when every earlier row of its key has expired. */
  lemma InsertOk(s: System, a: Action)
    requires Enabled(s, a) && Inv(s) && a.Insert?
    ensures RequestOk(Next(s, a), a.p)
  {}

  lemma AcquireOk(s: System, a: Action)
    requires Enabled(s, a) && RequestsOk(s) && a.Acquire?
    ensures RequestOk(Next(s, a), a.p)
  {}

  lemma LookOk(s: System, a: Action)
    requires Enabled(s, a) && RequestsOk(s) && a.Look?
    ensures RequestOk(Next(s, a), a.p)
  {}

  lemma DecideOk(s: System, a: Action)
    requires Enabled(s, a) && Inv(s) && a.Decide?
    ensures RequestOk(Next(s, a), a.p)
  {
    assert RequestOk(s, a.p);
    var q := s.requests[a.p];
    assert Known(s, q.key, q.phase.row);
    assert Known(Next(s, a), q.key, q.phase.row);
  }

  lemma CommitOk(s: System, a: Action)
    requires Enabled(s, a) && Inv(s) && a.Commit?
    ensures RequestOk(Next(s, a), a.p)
  {
    assert RequestOk(s, a.p);
    var q := s.requests[a.p];
    assert Next(s, a).log[|s.log|] == (q.key, q.phase.row);
    assert Known(Next(s, a), q.key, q.phase.row);
  }

  lemma OthersOk(s: System, a: Action)
    requires Enabled(s, a) && RequestsOk(s) && (a.Start? || a.Answer? || a.Abort?)
    ensures RequestOk(Next(s, a), a.p)
  {}

  lemma ActorOk(s: System, a: Action, p: Pid)
    requires Enabled(s, a) && Inv(s) && Acts(a, p)
    ensures RequestOk(Next(s, a), p)
  {
    hide RequestOk, LocksOk, TableOk, PurgesOk, LivesApart;
    match a
    case Insert(_, _) => InsertOk(s, a);
    case Look(_) => LookOk(s, a);
    case Acquire(_, _) => AcquireOk(s, a);
    case Decide(_) => DecideOk(s, a);
    case Commit(_) => CommitOk(s, a);
    case PurgeScan(_, _, _) => PurgersAreNot(s, a, p);
    case PurgeRow(_, _) => PurgersAreNot(s, a, p);
    case PurgeEnd(_, _) => PurgersAreNot(s, a, p);
    case _ => OthersOk(s, a);
  }

  lemma PurgersAreNot(s: System, a: Action, p: Pid)
    requires Enabled(s, a) && LocksOk(s) && Acts(a, p) && (a.PurgeScan? || a.PurgeRow? || a.PurgeEnd?)
    ensures p !in Next(s, a).requests
    ensures RequestOk(Next(s, a), p)
  {}

  lemma KeepsRequests(s: System, a: Action)
    requires Enabled(s, a) && Inv(s)
    ensures RequestsOk(Next(s, a))
  {
    hide Enabled, Next, RequestOk;
    var t := Next(s, a);
    forall p | p in t.requests ensures RequestOk(t, p) {
      if Acts(a, p) {
        ActorOk(s, a, p);
      } else {
        RequestFrame(s, a, p);
        BystanderOk(s, a, p);
      }
    }
  }

  // The purge

  lemma KeepsPurge(s: System, a: Action, p: Pid)
    requires Enabled(s, a) && RequestsOk(s) && PurgesOk(s) && !Acts(a, p) && p in s.purges
    ensures PurgeOk(Next(s, a), p)
  {
    hide Enabled, Next, RequestsOk;
    assert PurgeOk(s, p);
    PurgeFrame(s, a, p);
    LogFrame(s, a);
    var t := Next(s, a);
    forall k | k in s.purges[p].deleted
      ensures k in t.locks && t.locks[k] == p && k in t.rows && t.rows[k] == s.rows[k]
    {
      LockFrame(s, a, k, p);
      HeldRow(s, a, k, p);
    }
  }

  lemma ActorPurge(s: System, a: Action, p: Pid)
    requires Enabled(s, a) && PurgesOk(s) && LocksOk(s) && Acts(a, p)
    ensures PurgeOk(Next(s, a), p)
  {}

  lemma KeepsPurges(s: System, a: Action)
    requires Enabled(s, a) && Inv(s)
    ensures PurgesOk(Next(s, a))
  {
    hide Enabled, Next, PurgeOk, RequestsOk, TableOk;
    var t := Next(s, a);
    forall p | p in t.purges ensures PurgeOk(t, p) {
      if Acts(a, p) {
        ActorPurge(s, a, p);
      } else {
        PurgeFrame(s, a, p);
        KeepsPurge(s, a, p);
      }
    }
  }

  // The table

  /** Whatever changes a committed row changes an expired one; so unexpired rows stay. */
  lemma UnexpiredStays(s: System, a: Action, k: Key)
    requires Enabled(s, a) && Inv(s) && k in s.rows && s.clock < s.rows[k].expiresAt
    ensures k in Next(s, a).rows && Next(s, a).rows[k] == s.rows[k]
  {
    hide Enabled, Next;
    if !(k in Next(s, a).rows && Next(s, a).rows[k] == s.rows[k]) {
      RowFrame(s, a, k);
    }
  }

  lemma NewRowOk(s: System, a: Action, k: Key)
    requires Enabled(s, a) && Inv(s)
    requires k in Next(s, a).rows && !(k in s.rows && Next(s, a).rows[k] == s.rows[k])
    ensures Next(s, a).rows[k].response.Some? && Known(Next(s, a), k, Next(s, a).rows[k])
  {
    NewRowFrame(s, a, k);
    hide Enabled, Next;
    assert RequestOk(s, a.p);
    assert Next(s, a).log[|s.log|] == (k, Next(s, a).rows[k]);
  }

  lemma KeepsRows(s: System, a: Action)
    requires Enabled(s, a) && Inv(s)
    ensures var t := Next(s, a);
      forall k | k in t.rows :: t.rows[k].response.Some? && Known(t, k, t.rows[k])
  {
    hide Enabled, Next, LocksOk, RequestsOk, PurgesOk, LivesApart, Known;
    var t := Next(s, a);
    forall k | k in t.rows ensures t.rows[k].response.Some? && Known(t, k, t.rows[k]) {
      if k in s.rows && t.rows[k] == s.rows[k] {
        KnownStays(s, a, k, s.rows[k]);
      } else {
        NewRowOk(s, a, k);
      }
    }
  }

  lemma CommitLog(s: System, a: Action)
    requires Enabled(s, a) && Inv(s)
    ensures var t := Next(s, a);
      || t.log == s.log
      || (&& a.Commit? && a.p in s.requests
          && var q := s.requests[a.p];
             && q.phase.Stored? && t.log == s.log + [(q.key, q.phase.row)]
             && q.key in t.rows && t.rows[q.key] == q.phase.row && OwnRowOk(s, a.p, q, q.phase.row))
  {
    if a.Commit? {
      assert RequestOk(s, a.p);
    }
  }

  lemma KeepsTable(s: System, a: Action)
    requires Enabled(s, a) && Inv(s)
    ensures TableOk(Next(s, a))
  {
    KeepsRows(s, a);
    LogFrame(s, a);
    CommitLog(s, a);
    hide Enabled, Next, LocksOk, RequestsOk, PurgesOk, LivesApart, Known;
    var t := Next(s, a);
    forall i | 0 <= i < |t.log|
      ensures t.log[i].1.expiresAt <= t.clock || (t.log[i].0 in t.rows && t.rows[t.log[i].0] == t.log[i].1)
    {
      if i < |s.log| {
        assert t.log[i] == s.log[i];
        if s.clock < s.log[i].1.expiresAt {
          UnexpiredStays(s, a, s.log[i].0);
        }
      }
    }
  }

  lemma KeepsLives(s: System, a: Action)
    requires Enabled(s, a) && Inv(s)
    ensures LivesApart(Next(s, a))
  {
    CommitLog(s, a);
    hide Enabled, Next, LocksOk, RequestsOk, PurgesOk, TableOk;
    var t := Next(s, a);
    forall i, j | 0 <= i < j < |t.log| && t.log[i].0 == t.log[j].0
      ensures t.log[i].1.expiresAt <= t.log[j].1.heldSince
    {
      assert t.log[i] == s.log[i];
    }
  }

  lemma ActionKeepsInv(s: System, a: Action)
    requires Enabled(s, a) && Inv(s)
    ensures Inv(Next(s, a))
  {
    KeepsLocks(s, a);
    KeepsRequests(s, a);
    KeepsPurges(s, a);
    KeepsTable(s, a);
    KeepsLives(s, a);
    hide *;
  }

  lemma {:induction false} RunsKeepInv(actions: seq<Action>, states: seq<System>, i: nat)
    requires IsRun(actions, states) && i < |states|
    ensures Inv(states[i])
  {
    hide Inv, Enabled, Next;
    if i == 0 {
      InitialInv(states[0]);
    } else {
      RunsKeepInv(actions, states, i - 1);
      ActionKeepsInv(states[i - 1], actions[i - 1]);
    }
  }

  lemma InitialInv(s: System)
    requires Initial(s)
    ensures Inv(s)
  {}

  // ---------- How long a key lives ----------

  /**
    Action j of a run is the INSERT that made the row, at the reading it was created at; the row lives
    for the 24 hours from that reading on.
   */
  ghost predicate MadeBy(actions: seq<Action>, states: seq<System>, j: nat, key: Key, row: Row)
    requires |states| == |actions| + 1 && j < |actions|
  {
    Makes(states[j], actions[j], key, row)
  }

  predicate Makes(s: System, a: Action, key: Key, row: Row) {
    && a == Insert(row.owner, row.createdAt)
    && row.owner in s.requests && s.requests[row.owner].key == key && s.requests[row.owner].hash == row.hash
    && row.expiresAt == row.createdAt + 24 * HOUR
    && row.heldSince == s.clock
  }

  ghost predicate Made(actions: seq<Action>, states: seq<System>, i: nat, key: Key, row: Row)
    requires |states| == |actions| + 1 && i <= |actions|
  {
    exists j :: 0 <= j < i && MadeBy(actions, states, j, key, row)
  }

  predicate HasRow(s: System, p: Pid) {
    p in s.requests && (s.requests[p].phase.Running? || s.requests[p].phase.Stored?)
  }

  /** Request p has at t the row it had at s, but for the response. */
  predicate SameOwnRow(s: System, t: System, p: Pid) {
    && HasRow(s, p) && HasRow(t, p) && t.requests[p].key == s.requests[p].key
    && t.requests[p].phase.row.(response := None) == s.requests[p].phase.row.(response := None)
  }

  lemma ActorRow(s: System, a: Action)
    requires Enabled(s, a) && (a.Insert? || a.Answer?) && HasRow(Next(s, a), a.p)
    ensures var t := Next(s, a);
      SameOwnRow(s, t, a.p) || Makes(s, a, t.requests[a.p].key, t.requests[a.p].phase.row)
  {
    hide BeingDeleted, LockedByOther;
  }

  lemma OthersHoldNoRow(s: System, a: Action)
    requires Enabled(s, a)
    requires a.Start? || a.Look? || a.Acquire? || a.Decide? || a.Commit? || a.Abort?
    ensures !HasRow(Next(s, a), a.p)
  {
    hide Release, BeingDeleted, LockedByOther;
  }

  lemma PurgesLeaveRequests(s: System, a: Action)
    requires Enabled(s, a) && (a.PurgeScan? || a.PurgeRow? || a.PurgeEnd?)
    ensures Next(s, a).requests == s.requests
  {}

  /** A row that a request holds uncommitted comes from its INSERT, at this step or before. */
  lemma OwnRowStep(s: System, a: Action, p: Pid)
    requires Enabled(s, a) && HasRow(Next(s, a), p)
    ensures var t := Next(s, a);
      SameOwnRow(s, t, p) || Makes(s, a, t.requests[p].key, t.requests[p].phase.row)
  {
    hide Enabled, Next, Makes;
    if !Acts(a, p) {
      RequestFrame(s, a, p);
    } else if a.Insert? || a.Answer? {
      ActorRow(s, a);
    } else if a.PurgeScan? || a.PurgeRow? || a.PurgeEnd? {
      PurgesLeaveRequests(s, a);
    } else {
      OthersHoldNoRow(s, a);
    }
  }

  lemma MadeLater(actions: seq<Action>, states: seq<System>, i: nat, key: Key, row: Row, row': Row)
    requires |states| == |actions| + 1 && i < |actions|
    requires Made(actions, states, i, key, row) && row'.(response := None) == row.(response := None)
    ensures Made(actions, states, i + 1, key, row')
  {
    var j :| 0 <= j < i && MadeBy(actions, states, j, key, row);
    assert MadeBy(actions, states, j, key, row');
  }

  /** The last step before state i of a run. */
  lemma LastStep(actions: seq<Action>, states: seq<System>, i: nat)
    requires IsRun(actions, states) && i <= |actions|
    ensures |states| == |actions| + 1
    ensures i == 0 ==> states[0].log == [] && states[0].requests == map[]
    ensures i > 0 ==> Enabled(states[i - 1], actions[i - 1]) && states[i] == Next(states[i - 1], actions[i - 1])
  {
    hide Enabled, Next;
  }

  lemma {:induction false} OwnRowIsMade(actions: seq<Action>, states: seq<System>, i: nat, p: Pid)
    requires |states| == |actions| + 1 && IsRun(actions, states) && i <= |actions| && HasRow(states[i], p)
    ensures Made(actions, states, i, states[i].requests[p].key, states[i].requests[p].phase.row)
  {
    hide IsRun, Enabled, Next, Made, Makes;
    LastStep(actions, states, i);
    var s, a, q := states[i - 1], actions[i - 1], states[i].requests[p];
    OwnRowStep(s, a, p);
    if Makes(s, a, q.key, q.phase.row) {
      MadeNow(actions, states, i - 1, q.key, q.phase.row);
    } else {
      OwnRowIsMade(actions, states, i - 1, p);
      MadeLater(actions, states, i - 1, q.key, s.requests[p].phase.row, q.phase.row);
    }
  }

  lemma MadeNow(actions: seq<Action>, states: seq<System>, j: nat, key: Key, row: Row)
    requires |states| == |actions| + 1 && j < |actions| && Makes(states[j], actions[j], key, row)
    ensures Made(actions, states, j + 1, key, row)
  {
    assert MadeBy(actions, states, j, key, row);
  }

  /** What a commit adds to the log is the row its request held. */
  lemma CommittedRow(s: System, a: Action, m: nat)
    requires Enabled(s, a) && Inv(s) && |s.log| <= m < |Next(s, a).log|
    ensures !a.Tick? && HasRow(s, a.p)
    ensures Next(s, a).log[m] == (s.requests[a.p].key, s.requests[a.p].phase.row)
  {
    CommitLog(s, a);
    hide Enabled, Next, Inv, OwnRowOk;
  }

  /** Every row ever committed was made by an INSERT of the run, for 24 hours from the instant it sampled. */
  lemma {:induction false} CommittedIsMade(actions: seq<Action>, states: seq<System>, i: nat, m: nat)
    requires |states| == |actions| + 1 && IsRun(actions, states) && i <= |actions| && m < |states[i].log|
    ensures Made(actions, states, i, states[i].log[m].0, states[i].log[m].1)
  {
    hide IsRun, Enabled, Next, Made, Inv;
    LastStep(actions, states, i);
    var s, a, entry := states[i - 1], actions[i - 1], states[i].log[m];
    LogFrame(s, a);
    if m < |s.log| {
      CommittedIsMade(actions, states, i - 1, m);
    } else {
      RunsKeepInv(actions, states, i - 1);
      CommittedRow(s, a, m);
      OwnRowIsMade(actions, states, i - 1, a.p);
    }
    MadeLater(actions, states, i - 1, entry.0, entry.1, entry.1);
  }

  lemma RowIsMade(actions: seq<Action>, states: seq<System>, i: nat, k: Key)
    requires IsRun(actions, states) && i <= |actions| && k in states[i].rows
    ensures Made(actions, states, i, k, states[i].rows[k])
    ensures states[i].rows[k].expiresAt == states[i].rows[k].createdAt + 24 * HOUR
  {
    RunsKeepInv(actions, states, i);
    hide Enabled, Next;
    assert Known(states[i], k, states[i].rows[k]);
    var m :| 0 <= m < |states[i].log| && states[i].log[m] == (k, states[i].rows[k]);
    CommittedIsMade(actions, states, i, m);
  }

  /**
    Every committed row, the table's own included, was inserted by an action of the run: at that
    action's reading, under its request's key and hash, and to live for 24 hours.
   */
  lemma KeysLiveADay(actions: seq<Action>, states: seq<System>, i: nat, m: nat) returns (j: nat)
    requires IsRun(actions, states) && i <= |actions| && m < |states[i].log|
    ensures j < i
    ensures var (key, row) := states[i].log[m];
      && actions[j] == Insert(row.owner, row.createdAt)
      && row.owner in states[j].requests
      && states[j].requests[row.owner].key == key && states[j].requests[row.owner].hash == row.hash
      && row.expiresAt == row.createdAt + 24 * HOUR
  {
    CommittedIsMade(actions, states, i, m);
    hide Enabled, Next;
    var (key, row) := states[i].log[m];
    j :| 0 <= j < i && MadeBy(actions, states, j, key, row);
  }

  // ---------- What callers are promised ----------

  /**
    Two operations committed under one key: the second got its row in no earlier than 24 hours after
    the instant that the INSERT of the first had sampled.
   */
  lemma OneOperationPerLifetime(actions: seq<Action>, states: seq<System>, i: nat, m: nat, n: nat)
      returns (first: nat, second: nat)
    requires IsRun(actions, states) && i <= |actions|
    requires m < n < |states[i].log| && states[i].log[m].0 == states[i].log[n].0
    ensures first < i && second < i
    ensures actions[first].Insert? && actions[first].p == states[i].log[m].1.owner
    ensures actions[second].Insert? && actions[second].p == states[i].log[n].1.owner
    ensures actions[first].at + 24 * HOUR <= states[second].clock
  {
    RunsKeepInv(actions, states, i);
    CommittedIsMade(actions, states, i, m);
    CommittedIsMade(actions, states, i, n);
    hide Enabled, Next, IsRun;
    var k := states[i].log[m].0;
    first :| 0 <= first < i && MadeBy(actions, states, first, k, states[i].log[m].1);
    second :| 0 <= second < i && MadeBy(actions, states, second, k, states[i].log[n].1);
  }

  /** No committed row lacks a response, so only running out of rounds can report an incomplete record. */
  lemma NoIncompleteRecord(actions: seq<Action>, states: seq<System>, i: nat, k: Key, p: Pid)
    requires IsRun(actions, states) && i < |states|
    ensures k in states[i].rows ==> states[i].rows[k].response.Some?
    ensures PhaseOf(states[i], p) == Finished(Incomplete) ==> states[i].requests[p].tries == 5
    ensures PhaseOf(states[i], p).Locked? ==> states[i].requests[p].phase.row.response.Some?
  {
    RunsKeepInv(actions, states, i);
    hide Enabled, Next;
    assert RequestOk(states[i], p);
  }

  /** Whatever is handed out was committed under the same key, for the same hash; a refusal is never wrong. */
  lemma AnswersAreCommitted(actions: seq<Action>, states: seq<System>, i: nat, p: Pid)
    requires IsRun(actions, states) && i < |states| && p in states[i].requests
    requires states[i].requests[p].phase.Finished?
    ensures var q := states[i].requests[p];
      match q.phase.outcome
      case Created(r) =>
        exists row :: Known(states[i], q.key, row) && row.owner == p && row.hash == q.hash && row.response == Some(r)
      case Replayed(r) => exists row :: Known(states[i], q.key, row) && row.hash == q.hash && row.response == Some(r)
      case Mismatch => exists row :: Known(states[i], q.key, row) && row.hash != q.hash
      case _ => true
  {
    RunsKeepInv(actions, states, i);
    hide Enabled, Next;
    assert RequestOk(states[i], p);
  }

  /** A stored row answers its own request again and refuses any other. */
  function AnswerFrom(row: Row, hash: Hash): Outcome {
    if row.hash != hash then Mismatch
    else if row.response.Some? then Replayed(row.response.value)
    else Incomplete
  }

  /** Where a request for k may stand when it has found row there since it arrived. */
  predicate OnCourse(s: System, p: Pid, k: Key, row: Row) {
    p in s.requests && s.requests[p].key == k ==>
      && var q := s.requests[p];
      && !q.deleted
      && match q.phase
         case Inserting => true
         case Conflicted => true
         case Waiting(found) => found == row
         case Locked(found, expired) => found == row && !expired
         case Running(_) => false
         case Stored(_) => false
         case Finished(outcome) => outcome == Failed || (outcome == AnswerFrom(row, q.hash) && outcome != Incomplete)
  }

  lemma LooksOnCourse(s: System, a: Action, p: Pid, k: Key, row: Row)
    requires Enabled(s, a) && OnCourse(s, p, k, row) && Acts(a, p) && (a.Start? || a.Insert? || a.Look?)
    requires k in s.rows && s.rows[k] == row
    ensures OnCourse(Next(s, a), p, k, row)
  {}

  lemma EndsOnCourse(s: System, a: Action, p: Pid, k: Key, row: Row)
    requires Enabled(s, a) && OnCourse(s, p, k, row) && Acts(a, p) && !a.Start? && !a.Insert? && !a.Look?
    requires k in s.rows && s.rows[k] == row && row.response.Some? && s.clock < row.expiresAt
    ensures OnCourse(Next(s, a), p, k, row)
  {}

  lemma StaysOnCourse(s: System, a: Action, p: Pid, k: Key, row: Row)
    requires Enabled(s, a) && Inv(s) && OnCourse(s, p, k, row) && Acts(a, p)
    requires k in s.rows && s.rows[k] == row && s.clock < row.expiresAt
    ensures OnCourse(Next(s, a), p, k, row)
  {
    hide OnCourse, Next;
    if a.Start? || a.Insert? || a.Look? {
      LooksOnCourse(s, a, p, k, row);
    } else {
      EndsOnCourse(s, a, p, k, row);
    }
  }

  lemma {:induction false} AnsweredUntilExpiry(
      actions: seq<Action>, states: seq<System>, i: nat, j: nat, p: Pid, k: Key)
    requires IsRun(actions, states) && i <= j < |states|
    requires k in states[i].rows && states[j].clock < states[i].rows[k].expiresAt && p !in states[i].requests
    ensures k in states[j].rows && states[j].rows[k] == states[i].rows[k]
    ensures OnCourse(states[j], p, k, states[i].rows[k])
  {
    hide Enabled, Next, Inv, OnCourse;
    var row := states[i].rows[k];
    if i == j {
      NotStarted(states[i], p, k, row);
    } else {
      var s, a := states[j - 1], actions[j - 1];
      LogFrame(s, a);
      AnsweredUntilExpiry(actions, states, i, j - 1, p, k);
      RunsKeepInv(actions, states, j - 1);
      UnexpiredStays(s, a, k);
      if Acts(a, p) {
        StaysOnCourse(s, a, p, k, row);
      } else {
        RequestFrame(s, a, p);
        CourseFrame(s, Next(s, a), p, k, row);
      }
    }
  }

  lemma NotStarted(s: System, p: Pid, k: Key, row: Row)
    requires p !in s.requests
    ensures OnCourse(s, p, k, row)
  {}

  lemma CourseFrame(s: System, t: System, p: Pid, k: Key, row: Row)
    requires OnCourse(s, p, k, row) && (p in t.requests ==> p in s.requests && t.requests[p] == s.requests[p])
    ensures OnCourse(t, p, k, row)
  {}

  /**
    Once a row is committed, and until 24 hours after the instant it was created at, every request for
    its key that arrives later is on its way to the stored response, or to a refusal if its hash
    differs, or is rolled back; it never runs its operation. Neither other requests nor the purge can
    take the row away.
   */
  lemma AnsweredWithinLifetime(actions: seq<Action>, states: seq<System>, i: nat, j: nat, p: Pid, k: Key)
    requires IsRun(actions, states) && i <= j < |states| && k in states[i].rows && p !in states[i].requests
    requires states[j].clock < states[i].rows[k].createdAt + 24 * HOUR
    ensures k in states[j].rows && states[j].rows[k] == states[i].rows[k]
    ensures OnCourse(states[j], p, k, states[i].rows[k])
  {
    hide Enabled, Next, OnCourse;
    RowIsMade(actions, states, i, k);
    AnsweredUntilExpiry(actions, states, i, j, p, k);
  }

  /** The same, said of the outcome: a replay of exactly the stored response, or a refusal. */
  lemma LaterRequestsReplay(actions: seq<Action>, states: seq<System>, i: nat, j: nat, p: Pid, k: Key)
    requires IsRun(actions, states) && i <= j < |states| && k in states[i].rows && p !in states[i].requests
    requires states[j].clock < states[i].rows[k].createdAt + 24 * HOUR
    requires p in states[j].requests && states[j].requests[p].key == k && states[j].requests[p].phase.Finished?
    ensures var row, q := states[i].rows[k], states[j].requests[p];
      && row.response.Some?
      && (q.phase.outcome == Failed
          || q.phase.outcome == if q.hash == row.hash then Replayed(row.response.value) else Mismatch)
  {
    AnsweredWithinLifetime(actions, states, i, j, p, k);
    NoIncompleteRecord(actions, states, i, k, p);
    hide Enabled, Next;
  }

  // ---------- Both answers can happen ----------

  ghost predicate Reaches(s: System) {
    exists actions, states :: IsRun(actions, states) && states[|actions|] == s
  }

  lemma ReachesNext(s: System, a: Action)
    requires Reaches(s) && Enabled(s, a)
    ensures Reaches(Next(s, a))
  {
    var actions, states :| IsRun(actions, states) && states[|actions|] == s;
    hide Enabled, Next, Initial;
    assert IsRun(actions + [a], states + [Next(s, a)]);
  }

  lemma ReachedRow(s: System, k: Key)
    requires Reaches(s) && k in s.rows
    ensures s.rows[k].response.Some? && s.rows[k].expiresAt == s.rows[k].createdAt + 24 * HOUR
  {
    var actions, states :| IsRun(actions, states) && states[|actions|] == s;
    hide Enabled, Next;
    RunsKeepInv(actions, states, |actions|);
    RowIsMade(actions, states, |actions|, k);
  }

  /** A request whose key's row is gone, or deleted by itself, runs its operation. */
  lemma CanCreate(s: System, p: Pid, response: Response) returns (t: System)
    requires Reaches(s) && PhaseOf(s, p).Inserting? && !Sees(s, p) && !LockedByOther(s, p, s.requests[p].key)
    ensures Reaches(t) && PhaseOf(t, p) == Finished(Created(response))
  {
    hide Reaches;
    var insert, answer, commit := Insert(p, s.clock), Answer(p, response), Commit(p);
    ReachesNext(s, insert);
    var s1 := Next(s, insert);
    ReachesNext(s1, answer);
    var s2 := Next(s1, answer);
    ReachesNext(s2, commit);
    t := Next(s2, commit);
  }

  /** A request that finds a committed row, with nobody else about, comes to lock it. */
  lemma CanLock(s: System, p: Pid, k: Key, hash: Hash) returns (t: System)
    requires Reaches(s) && p !in s.requests && p !in s.purges && k in s.rows && k !in s.locks
    ensures Reaches(t)
    ensures var row := s.rows[k];
      t == s.(locks := s.locks[k := p],
              requests := s.requests[p := Request(k, hash, Locked(row, row.expiresAt <= s.clock), 0, false)])
  {
    hide Reaches;
    var start, insert, look, acquire := Start(p, k, hash), Insert(p, s.clock), Look(p), Acquire(p, s.clock);
    ReachesNext(s, start);
    var s1 := Next(s, start);
    ReachesNext(s1, insert);
    var s2 := Next(s1, insert);
    assert s2.requests == s.requests[p := Request(k, hash, Conflicted, 0, false)];
    ReachesNext(s2, look);
    var s3 := Next(s2, look);
    assert s3.requests == s.requests[p := Request(k, hash, Waiting(s.rows[k]), 0, false)];
    ReachesNext(s3, acquire);
    t := Next(s3, acquire);
    assert t.requests == s.requests[p := t.requests[p]];
  }

  lemma CanDecide(s: System, p: Pid, response: Response) returns (t: System)
    requires Reaches(s) && PhaseOf(s, p).Locked? && s.requests[p].tries == 0
    requires var q := s.requests[p]; q.phase.row.response.Some? && q.key in s.locks && s.locks[q.key] == p
    ensures Reaches(t)
    ensures var q := s.requests[p];
      PhaseOf(t, p) == Finished(if q.phase.expired then Created(response)
                                else if q.hash == q.phase.row.hash then Replayed(q.phase.row.response.value)
                                else Mismatch)
  {
    hide Reaches;
    ReachesNext(s, Decide(p));
    t := Next(s, Decide(p));
    if s.requests[p].phase.expired {
      t := CanCreate(t, p, response);
    }
  }

  /** An expired row that nobody holds can be purged. */
  lemma CanPurge(s: System, p: Pid, k: Key) returns (t: System)
    requires Reaches(s) && p !in s.requests && p !in s.purges && k !in s.locks
    requires k in s.rows && s.rows[k].createdAt + 24 * HOUR <= s.clock
    ensures Reaches(t) && t.rows == s.rows - {k} && t.log == s.log
  {
    hide Reaches;
    ReachedRow(s, k);
    var scan, row, end := PurgeScan(p, s.clock, map[k := s.rows[k]]), PurgeRow(p, k), PurgeEnd(p, true);
    ReachesNext(s, scan);
    var s1 := Next(s, scan);
    ReachesNext(s1, row);
    var s2 := Next(s1, row);
    ReachesNext(s2, end);
    t := Next(s2, end);
  }

  /**
    In every reachable state a new request for a key that nobody holds can go through: within 24 hours
    of the row's creation to its stored response, or the refusal; from then on, or without a row, to an
    operation of its own.
   */
  lemma EachAnswerHappens(s: System, p: Pid, k: Key, hash: Hash, response: Response) returns (t: System)
    requires Reaches(s) && p !in s.requests && p !in s.purges && k !in s.locks
    ensures Reaches(t)
    ensures PhaseOf(t, p) == Finished(
      if k !in s.rows || s.rows[k].createdAt + 24 * HOUR <= s.clock then Created(response)
      else if hash == s.rows[k].hash && s.rows[k].response.Some? then Replayed(s.rows[k].response.value)
      else Mismatch)
  {
    hide Reaches;
    if k in s.rows {
      ReachedRow(s, k);
      t := CanLock(s, p, k, hash);
      t := CanDecide(t, p, response);
    } else {
      var start := Start(p, k, hash);
      ReachesNext(s, start);
      t := CanCreate(Next(s, start), p, response);
    }
  }
}
