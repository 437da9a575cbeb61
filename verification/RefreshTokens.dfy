/**
  Refresh-token families: logins, rotations, logouts, detected reuse and account changes, in any
  interleaving of their lock, read, write and commit steps.

  A transaction's writes show at its commit, when it also releases its locks; a transaction that
  fails or is lost leaves no trace. Row locks on users are shared or exclusive; a family lock is
  exclusive. Fresh identifiers are distinct.
 */
module RefreshTokens {
  import opened Sizes
  import opened Times
  import opened Wrappers

  type UserId = nat
  // What the client presents stands for the row that holds its hash.
  type TokenId = nat
  type FamilyId = nat
  type Pid = nat

  const TOKEN_LIFE: Time := 7 * DAY
  const FAMILY_LIFE: Time := 30 * DAY

  datatype Token = Token(
    user: UserId,
    family: FamilyId,
    parent: Option<TokenId>,
    createdAt: Time,
    expiresAt: Time,
    familyExpiresAt: Time,
    usedAt: Option<Time>,
    revokedAt: Option<Time>)
  {
    predicate Live(now: Time) {
      revokedAt.None? && now < expiresAt && now < familyExpiresAt
    }
  }

  type Tokens = map<TokenId, Token>

  // ---------- What transactions do to the table ----------

  function WithRoot(tokens: Tokens, id: TokenId, user: UserId, family: FamilyId, now: Time): Tokens {
    tokens[id := Token(user, family, None, now, now + TOKEN_LIFE, now + FAMILY_LIFE, None, None)]
  }

  function ChildOf(tokens: Tokens, raw: TokenId, now: Time): Token
    requires raw in tokens
  {
    var t := tokens[raw];
    var expiresAt := Min(now + TOKEN_LIFE, t.familyExpiresAt);
    Token(t.user, t.family, Some(raw), now, expiresAt, t.familyExpiresAt, None, None)
  }

  function Rotated(tokens: Tokens, raw: TokenId, id: TokenId, now: Time): Tokens
    requires raw in tokens
  {
    tokens[raw := tokens[raw].(usedAt := Some(now))][id := ChildOf(tokens, raw, now)]
  }

  function OfFamily(tokens: Tokens, family: FamilyId): set<TokenId> {
    set t | t in tokens && tokens[t].family == family && tokens[t].revokedAt.None?
  }

  function OfUser(tokens: Tokens, user: UserId): set<TokenId> {
    set t | t in tokens && tokens[t].user == user && tokens[t].revokedAt.None?
  }

  function Revoked(tokens: Tokens, targets: set<TokenId>, now: Time): Tokens {
    map t | t in tokens :: if t in targets then tokens[t].(revokedAt := Some(now)) else tokens[t]
  }

  // ---------- Transactions ----------

  datatype Job =
    | Login(user: UserId, now: Time)
    | Rotate(raw: TokenId, now: Time)
    | Logout(raw: TokenId, now: Time)    // revoke_family
    | SetEnabled(user: UserId, to: bool, now: Time)

  datatype Reply = Issued(id: TokenId) | Done | Refused

  datatype Phase =
    | Begun
    | Resolved(user: UserId, family: FamilyId)
    | UserHeld(user: UserId, under: Option<FamilyId>)
    | FamilyHeld(user: UserId, family: FamilyId)
    | Read(user: UserId, family: FamilyId, row: Token)
    | Minted(user: UserId, family: FamilyId, id: TokenId)   // a new row written, not committed
    | Swept(user: UserId, under: Option<FamilyId>, targets: set<TokenId>)   // revocations written, not committed
    | Finished(reply: Reply)

  datatype Proc = Proc(job: Job, phase: Phase) {
    /** The user whose row it has locked: exclusively to change the account, shared otherwise. */
    function User(): Option<UserId> {
      match phase
      case UserHeld(u, _) => Some(u)
      case FamilyHeld(u, _) => Some(u)
      case Read(u, _, _) => Some(u)
      case Minted(u, _, _) => Some(u)
      case Swept(u, _, _) => Some(u)
      case _ => None
    }

    /** The family whose advisory lock it holds. */
    function Family(): Option<FamilyId> {
      match phase
      case FamilyHeld(_, f) => Some(f)
      case Read(_, f, _) => Some(f)
      case Minted(_, f, _) => if job.Rotate? then Some(f) else None
      case Swept(_, f, _) => f
      case _ => None
    }

    predicate Conflicts(other: Proc) {
      || (User().Some? && User() == other.User() && (job.SetEnabled? || other.job.SetEnabled?))
      || (Family().Some? && Family() == other.Family())
    }
  }

  datatype System = System(
    users: map<UserId, bool>,
    tokens: Tokens,
    procs: map<Pid, Proc>,
    minted: set<TokenId>,
    families: set<FamilyId>)

  datatype Action =
    | AddUser(user: UserId)
    | Begin(p: Pid, job: Job)
    | Resolve(p: Pid)
    | LockUser(p: Pid)
    | LockFamily(p: Pid)
    | ReadToken(p: Pid)
    | Write(p: Pid, id: TokenId, family: FamilyId)
    | Commit(p: Pid)
    | Fail(p: Pid)      // an error or a crash: rolled back

  const NOBODY := Proc(Logout(0, 0), Finished(Refused))

  function At(s: System, p: Pid): Proc {
    if p in s.procs then s.procs[p] else NOBODY
  }

  /** A lock is granted when no other transaction holds one that conflicts. */
  ghost predicate Granted(s: System, p: Pid, next: Proc) {
    forall q | q in s.procs && q != p :: !next.Conflicts(s.procs[q])
  }

  ghost predicate Enabled(s: System, a: Action) {
    match a
    case AddUser(u) => u !in s.users
    case Begin(p, _) => p !in s.procs
    case Resolve(p) => At(s, p).phase.Begun? && (At(s, p).job.Rotate? || At(s, p).job.Logout?)
    case LockUser(p) =>
      && (if At(s, p).job.Rotate? || At(s, p).job.Logout? then At(s, p).phase.Resolved? else At(s, p).phase.Begun?)
      && Granted(s, p, WithUser(At(s, p)))
    case LockFamily(p) =>
      && At(s, p).phase.UserHeld? && At(s, p).phase.under.Some?
      && Granted(s, p, WithFamily(At(s, p)))
    case ReadToken(p) => At(s, p).phase.FamilyHeld?
    case Write(p, id, family) =>
      && id !in s.minted && family !in s.families
      && (if At(s, p).job.Rotate? || At(s, p).job.Logout? then At(s, p).phase.Read? else At(s, p).phase.UserHeld?)
    case Commit(p) => At(s, p).phase.Minted? || At(s, p).phase.Swept?
    case Fail(p) => p in s.procs && !At(s, p).phase.Finished?
  }

  function WithUser(k: Proc): Proc {
    match k.phase
    case Resolved(u, f) => k.(phase := UserHeld(u, Some(f)))
    case _ =>
      match k.job
      case Login(u, _) => k.(phase := UserHeld(u, None))
      case SetEnabled(u, _, _) => k.(phase := UserHeld(u, None))
      case _ => k
  }

  function WithFamily(k: Proc): Proc {
    match k.phase
    case UserHeld(u, Some(f)) => k.(phase := FamilyHeld(u, f))
    case _ => k
  }

  function Ends(k: Proc, reply: Reply): Proc {
    k.(phase := Finished(reply))
  }

  /** A disabled account is refused a login or a rotation, and a missing one everything. */
  predicate Admits(s: System, k: Proc) {
    k.User().Some? && k.User().value in s.users
    && (k.job.Login? || k.job.Rotate? ==> s.users[k.User().value])
  }

  /** The statement that writes; a used token sends a rotation back to revoke the family instead. */
  function Written(s: System, k: Proc, id: TokenId, family: FamilyId): Proc {
    match k.phase
    case Read(u, f, row) =>
      if k.job.Logout? then k.(phase := Swept(u, Some(f), OfFamily(s.tokens, f)))
      else if !row.Live(k.job.now) then Ends(k, Refused)
      else if row.usedAt.Some? then
        (match k.job
         case Rotate(raw, now) => Proc(Logout(raw, now), Begun)
         case _ => k)
      else k.(phase := Minted(u, f, id))
    case UserHeld(u, _) =>
      if k.job.Login? then k.(phase := Minted(u, family, id))
      else if k.job.SetEnabled?
      then k.(phase := Swept(u, None, if u in s.users && s.users[u] && !k.job.to then OfUser(s.tokens, u) else {}))
      else k
    case _ => k
  }

  function TokensAfter(tokens: Tokens, k: Proc): Tokens {
    match k.phase
    case Minted(u, f, id) =>
      (match k.job
       case Login(_, now) => WithRoot(tokens, id, u, f, now)
       case Rotate(raw, now) => if raw in tokens then Rotated(tokens, raw, id, now) else tokens
       case _ => tokens)
    case Swept(_, _, targets) => Revoked(tokens, targets, k.job.now)
    case _ => tokens
  }

  function UsersAfter(users: map<UserId, bool>, k: Proc): map<UserId, bool> {
    if k.job.SetEnabled? then users[k.job.user := k.job.to] else users
  }

  function Goes(s: System, p: Pid, k: Proc): System {
    s.(procs := s.procs[p := k])
  }

  function Next(s: System, a: Action): System
    requires Enabled(s, a)
  {
    match a
    case AddUser(u) => s.(users := s.users[u := true])
    case Begin(p, job) => Goes(s, p, Proc(job, Begun))
    case Resolve(p) =>
      var k := At(s, p);
      Goes(s, p, if k.job.raw in s.tokens
                 then k.(phase := Resolved(s.tokens[k.job.raw].user, s.tokens[k.job.raw].family))
                 else Ends(k, Refused))
    case LockUser(p) =>
      var k := WithUser(At(s, p));
      Goes(s, p, if Admits(s, k) then k else Ends(k, Refused))
    case LockFamily(p) => Goes(s, p, WithFamily(At(s, p)))
    case ReadToken(p) =>
      var k := At(s, p);
      Goes(s, p, if (k.job.Rotate? || k.job.Logout?) && k.job.raw in s.tokens
                 then k.(phase := Read(k.phase.user, k.phase.family, s.tokens[k.job.raw]))
                 else Ends(k, Refused))
    case Write(p, id, family) =>
      Goes(s, p, Written(s, At(s, p), id, family)).(minted := s.minted + {id}, families := s.families + {family})
    case Commit(p) =>
      var k := At(s, p);
      Goes(s, p, Ends(k, if k.phase.Minted? then Issued(k.phase.id) else Done))
        .(tokens := TokensAfter(s.tokens, k), users := UsersAfter(s.users, k))
    case Fail(p) => Goes(s, p, Ends(At(s, p), Refused))
  }

  ghost predicate Initial(s: System) {
    s.users == map[] && s.tokens == map[] && s.procs == map[]
  }

  ghost predicate IsRun(actions: seq<Action>, states: seq<System>) {
    && |states| == |actions| + 1
    && Initial(states[0])
    && forall i | 0 <= i < |actions| :: Enabled(states[i], actions[i]) && states[i + 1] == Next(states[i], actions[i])
  }

  // ---------- Families ----------

  /**
    The tokens of a family, root first: each is the parent of the next, all but the last are used,
    and they agree on user, family expiry and whether they are revoked.
   */
  ghost predicate IsChain(tokens: Tokens, family: FamilyId, chain: seq<TokenId>) {
    && IsListing(tokens, family, chain)
    && IsLinked(tokens, chain)
    && (forall i | 0 <= i < |chain| :: tokens[chain[i]].usedAt.Some? <==> i < |chain| - 1)
    && (forall i | 0 <= i < |chain| :: Agrees(tokens[chain[i]], tokens[chain[0]]))
  }

  /** Each token of the family, once. */
  ghost predicate IsListing(tokens: Tokens, family: FamilyId, chain: seq<TokenId>) {
    && chain != []
    && (forall t | t in chain :: t in tokens && tokens[t].family == family)
    && (forall t | t in tokens && tokens[t].family == family :: t in chain)
    && (forall i, j | 0 <= i < j < |chain| :: chain[i] != chain[j])
  }

  ghost predicate IsLinked(tokens: Tokens, chain: seq<TokenId>)
    requires chain != [] && forall t | t in chain :: t in tokens
  {
    && tokens[chain[0]].parent == None
    && (forall i, j | 0 <= i && j == i + 1 && j < |chain| :: tokens[chain[j]].parent == Some(chain[i]))
  }

  predicate Agrees(t: Token, root: Token) {
    && t.user == root.user
    && t.familyExpiresAt == root.familyExpiresAt
    && (t.revokedAt.Some? <==> root.revokedAt.Some?)
    && t.expiresAt <= t.familyExpiresAt
  }

  ghost predicate Chained(tokens: Tokens) {
    forall t | t in tokens :: exists chain :: IsChain(tokens, tokens[t].family, chain)
  }

  /** A disabled user has no unrevoked token. */
  ghost predicate DisabledHoldNone(users: map<UserId, bool>, tokens: Tokens) {
    forall t | t in tokens && tokens[t].revokedAt.None? :: tokens[t].user in users && users[tokens[t].user]
  }

  // ---------- The invariant ----------

  ghost predicate Compatible(s: System) {
    forall p, q | p in s.procs && q in s.procs && p != q :: !s.procs[p].Conflicts(s.procs[q])
  }

  ghost predicate MintedOk(s: System) {
    && (forall t | t in s.tokens :: t in s.minted && s.tokens[t].family in s.families)
    && (forall p | p in s.procs && s.procs[p].phase.Minted? ::
          && s.procs[p].phase.id in s.minted && s.procs[p].phase.id !in s.tokens
          && (s.procs[p].job.Login? ==> s.procs[p].phase.family in s.families)
          && (s.procs[p].job.Login? ==> forall t | t in s.tokens :: s.tokens[t].family != s.procs[p].phase.family))
    && (forall p, q | p in s.procs && q in s.procs && p != q && s.procs[p].phase.Minted? && s.procs[q].phase.Minted? ::
          && s.procs[p].phase.id != s.procs[q].phase.id
          && (s.procs[p].job.Login? && s.procs[q].job.Login? ==> s.procs[p].phase.family != s.procs[q].phase.family))
  }

  predicate Presents(s: System, k: Proc, user: UserId, family: FamilyId) {
    && (k.job.Rotate? || k.job.Logout?)
    && k.job.raw in s.tokens
    && s.tokens[k.job.raw].user == user
    && s.tokens[k.job.raw].family == family
  }

  predicate ProcOk(s: System, k: Proc) {
    && (k.User().Some? ==> Admits(s, k))
    && match k.phase
       case Begun => true
       case Resolved(u, f) => Presents(s, k, u, f)
       case UserHeld(u, f) =>
         if f.Some? then Presents(s, k, u, f.value)
         else (k.job.Login? || k.job.SetEnabled?) && k.job.user == u
       case FamilyHeld(u, f) => Presents(s, k, u, f)
       case Read(u, f, row) => Presents(s, k, u, f) && s.tokens[k.job.raw] == row
       case Minted(u, f, _) =>
         || (k.job.Login? && k.job.user == u)
         || (k.job.Rotate? && Presents(s, k, u, f)
             && s.tokens[k.job.raw].usedAt.None? && s.tokens[k.job.raw].Live(k.job.now))
       case Swept(u, f, targets) =>
         || (k.job.Logout? && f.Some? && Presents(s, k, u, f.value) && targets == OfFamily(s.tokens, f.value))
         || (k.job.SetEnabled? && f.None? && k.job.user == u
             && targets == if s.users[u] && !k.job.to then OfUser(s.tokens, u) else {})
       case Finished(_) => true
  }

  ghost predicate ProcsOk(s: System) {
    forall p | p in s.procs :: ProcOk(s, s.procs[p])
  }

  ghost predicate Inv(s: System) {
    Compatible(s) && MintedOk(s) && ProcsOk(s) && Chained(s.tokens) && DisabledHoldNone(s.users, s.tokens)
  }

  // ---------- Each action keeps it ----------

  predicate Acts(a: Action, p: Pid) {
    match a
    case AddUser(_) => false
    case _ => a.p == p
  }

  lemma ProcFrame(s: System, a: Action, p: Pid)
    requires Enabled(s, a) && !Acts(a, p)
    ensures p in s.procs <==> p in Next(s, a).procs
    ensures p in s.procs ==> Next(s, a).procs[p] == s.procs[p]
  {}

  /** Only the two lock steps extend what a transaction holds. */
  lemma LocksHeld(s: System, a: Action, p: Pid)
    requires Enabled(s, a) && ProcsOk(s) && Acts(a, p) && !a.LockUser? && !a.LockFamily?
    ensures var k, n := At(s, p), At(Next(s, a), p);
      && (n.User().Some? ==> n.User() == k.User() && n.job.SetEnabled? == k.job.SetEnabled?)
      && (n.Family().Some? ==> n.Family() == k.Family())
  {}

  lemma LocksGranted(s: System, a: Action, p: Pid)
    requires Enabled(s, a) && Acts(a, p) && (a.LockUser? || a.LockFamily?)
    ensures Granted(s, p, At(Next(s, a), p))
  {}

  lemma StaysGranted(s: System, a: Action, p: Pid)
    requires Enabled(s, a) && ProcsOk(s) && Compatible(s) && Acts(a, p)
    ensures Granted(s, p, At(Next(s, a), p))
  {
    hide Enabled, Next, ProcsOk;
    if a.LockUser? || a.LockFamily? {
      LocksGranted(s, a, p);
    } else {
      LocksHeld(s, a, p);
      var n := At(Next(s, a), p);
      forall q | q in s.procs && q != p ensures !n.Conflicts(s.procs[q]) {
        assert p in s.procs ==> !s.procs[p].Conflicts(s.procs[q]);
      }
    }
  }

  lemma KeepsCompatible(s: System, a: Action)
    requires Enabled(s, a) && ProcsOk(s) && Compatible(s)
    ensures Compatible(Next(s, a))
  {
    hide Enabled, Next, ProcsOk;
    var t := Next(s, a);
    forall p, q | p in t.procs && q in t.procs && p != q ensures !t.procs[p].Conflicts(t.procs[q]) {
      if !Acts(a, p) {
        ProcFrame(s, a, p);
      } else {
        StaysGranted(s, a, p);
      }
      if !Acts(a, q) {
        ProcFrame(s, a, q);
      } else {
        StaysGranted(s, a, q);
      }
    }
  }

  /** Rows keep their user, family, parent and dates for ever, and are never deleted. */
  lemma RowsStay(s: System, a: Action, t: TokenId)
    requires Enabled(s, a) && MintedOk(s) && t in s.tokens
    ensures t in Next(s, a).tokens
    ensures var x, y := s.tokens[t], Next(s, a).tokens[t];
      && y.user == x.user && y.family == x.family && y.parent == x.parent
      && y.createdAt == x.createdAt && y.expiresAt == x.expiresAt && y.familyExpiresAt == x.familyExpiresAt
      && (x.usedAt.Some? ==> y.usedAt.Some?) && (x.revokedAt.Some? ==> y.revokedAt.Some?)
  {}

  lemma NewRow(s: System, a: Action, t: TokenId)
    requires Enabled(s, a) && t in Next(s, a).tokens && t !in s.tokens
    ensures a.Commit? && At(s, a.p).phase.Minted? && t == At(s, a.p).phase.id
    ensures At(s, a.p).job.Login? || At(s, a.p).job.Rotate?
    ensures Next(s, a).minted == s.minted && Next(s, a).families == s.families
    ensures At(s, a.p).job.Login? ==> Next(s, a).tokens[t].family == At(s, a.p).phase.family
    ensures At(s, a.p).job.Rotate? ==>
      At(s, a.p).job.raw in s.tokens && Next(s, a).tokens[t].family == s.tokens[At(s, a.p).job.raw].family
  {}

  lemma KeepsMintedRows(s: System, a: Action, t: TokenId)
    requires Enabled(s, a) && MintedOk(s) && t in Next(s, a).tokens
    ensures t in Next(s, a).minted && Next(s, a).tokens[t].family in Next(s, a).families
  {}

  lemma KeepsPending(s: System, a: Action, p: Pid)
    requires Enabled(s, a) && MintedOk(s) && p in Next(s, a).procs && Next(s, a).procs[p].phase.Minted?
    ensures var t, k := Next(s, a), Next(s, a).procs[p];
      && k.phase.id in t.minted && k.phase.id !in t.tokens
      && (k.job.Login? ==> k.phase.family in t.families)
      && (k.job.Login? ==> forall x | x in t.tokens :: t.tokens[x].family != k.phase.family)
  {}

  /** The row changes of a commit lie under the locks its transaction holds. */
  lemma Touches(s: System, a: Action, t: TokenId)
    requires Enabled(s, a) && ProcsOk(s) && Chained(s.tokens)
    requires t in Next(s, a).tokens && !(t in s.tokens && Next(s, a).tokens[t] == s.tokens[t])
    ensures a.Commit? && a.p in s.procs
    ensures var k, row := s.procs[a.p], Next(s, a).tokens[t];
      && k.User() == Some(row.user)
      && ((k.job.SetEnabled? && t in s.tokens) || k.Family() == Some(row.family)
          || (k.job.Login? && k.phase.Minted? && row.family == k.phase.family))
  {
    CommitTouches(s, a, t);
    var k := s.procs[a.p];
    assert ProcOk(s, k);
    hide Enabled, Next, Chained, ProcsOk, ProcOk;
    if k.phase.Swept? {
      SweepTouches(s, k, t);
    } else {
      MintTouches(s, k);
    }
  }

  lemma SweepTouches(s: System, k: Proc, t: TokenId)
    requires ProcOk(s, k) && Chained(s.tokens) && k.phase.Swept? && t in k.phase.targets && t in s.tokens
    ensures k.User() == Some(s.tokens[t].user)
    ensures k.job.SetEnabled? || k.Family() == Some(s.tokens[t].family)
  {
    hide Chained;
    if k.job.Logout? {
      SameUser(s, k.job.raw, t);
    }
  }

  lemma MintTouches(s: System, k: Proc)
    requires ProcOk(s, k) && k.phase.Minted?
    ensures k.User() == Some(k.phase.user)
    ensures k.job.Rotate? ==> Presents(s, k, k.phase.user, k.phase.family) && k.Family() == Some(k.phase.family)
  {}

  /** Only a commit changes rows: the ones it swept, the one it used, or the one it minted. */
  lemma CommitTouches(s: System, a: Action, t: TokenId)
    requires Enabled(s, a) && t in Next(s, a).tokens && !(t in s.tokens && Next(s, a).tokens[t] == s.tokens[t])
    ensures a.Commit? && a.p in s.procs
    ensures var k, row := s.procs[a.p], Next(s, a).tokens[t];
      || (k.phase.Swept? && t in k.phase.targets && t in s.tokens
          && row.user == s.tokens[t].user && row.family == s.tokens[t].family)
      || (k.phase.Minted? && k.job.Login? && row.user == k.phase.user && row.family == k.phase.family)
      || (k.phase.Minted? && k.job.Rotate? && k.job.raw in s.tokens
          && row.user == s.tokens[k.job.raw].user && row.family == s.tokens[k.job.raw].family)
  {}

  lemma SameUser(s: System, t: TokenId, u: TokenId)
    requires Chained(s.tokens) && t in s.tokens && u in s.tokens && s.tokens[t].family == s.tokens[u].family
    ensures s.tokens[t].user == s.tokens[u].user
    ensures s.tokens[t].revokedAt.Some? <==> s.tokens[u].revokedAt.Some?
  {
    hide IsLinked;
    var chain :| IsChain(s.tokens, s.tokens[t].family, chain);
    var i :| 0 <= i < |chain| && chain[i] == t;
    var j :| 0 <= j < |chain| && chain[j] == u;
  }

  // Transactions other than the one that acts

  /** While a transaction holds a family and its user, the family's rows stand still. */
  lemma FamilyStandsStill(s: System, a: Action, p: Pid, t: TokenId)
    requires Enabled(s, a) && Inv(s) && !Acts(a, p) && p in s.procs
    requires var k := s.procs[p];
      k.Family().Some? && k.User().Some? && Presents(s, k, k.User().value, k.Family().value)
    requires t in Next(s, a).tokens && Next(s, a).tokens[t].family == s.procs[p].Family().value
    ensures t in s.tokens && Next(s, a).tokens[t] == s.tokens[t]
  {
    hide Enabled, Next, IsChain, ProcsOk;
    var k := s.procs[p];
    if !(t in s.tokens && Next(s, a).tokens[t] == s.tokens[t]) {
      Touches(s, a, t);
      assert !k.Conflicts(s.procs[a.p]);
      if t in s.tokens {
        RowsStay(s, a, t);
        SameUser(s, t, k.job.raw);
      }
    }
  }

  /** While an account is locked for change, its user's rows stand still. */
  lemma UserStandsStill(s: System, a: Action, p: Pid, t: TokenId)
    requires Enabled(s, a) && Inv(s) && !Acts(a, p) && p in s.procs
    requires s.procs[p].job.SetEnabled? && s.procs[p].User().Some?
    requires t in Next(s, a).tokens && Next(s, a).tokens[t].user == s.procs[p].User().value
    ensures t in s.tokens && Next(s, a).tokens[t] == s.tokens[t]
  {
    hide Enabled, Next, IsChain, ProcsOk;
    if !(t in s.tokens && Next(s, a).tokens[t] == s.tokens[t]) {
      Touches(s, a, t);
    }
  }

  lemma AdmitsStays(s: System, a: Action, p: Pid)
    requires Enabled(s, a) && Inv(s) && !Acts(a, p) && p in s.procs && s.procs[p].User().Some?
    ensures Admits(Next(s, a), s.procs[p])
    ensures Next(s, a).users[s.procs[p].User().value] == s.users[s.procs[p].User().value]
  {}

  lemma PresentsStays(s: System, a: Action, k: Proc, user: UserId, family: FamilyId)
    requires Enabled(s, a) && MintedOk(s) && Presents(s, k, user, family)
    ensures Presents(Next(s, a), k, user, family)
  {}

  lemma SweepStays(s: System, a: Action, p: Pid)
    requires Enabled(s, a) && Inv(s) && !Acts(a, p) && p in s.procs && s.procs[p].phase.Swept?
    ensures ProcOk(Next(s, a), s.procs[p])
  {
    hide Enabled, Next, IsChain, Compatible, Chained, DisabledHoldNone, Admits, Presents;
    var k, t := s.procs[p], Next(s, a);
    assert ProcOk(s, k);
    AdmitsStays(s, a, p);
    if k.job.Logout? {
      var f := k.phase.under.value;
      PresentsStays(s, a, k, k.phase.user, f);
      forall x | x in t.tokens && t.tokens[x].family == f ensures x in s.tokens && t.tokens[x] == s.tokens[x] {
        FamilyStandsStill(s, a, p, x);
      }
      forall x | x in s.tokens ensures x in t.tokens && t.tokens[x].family == s.tokens[x].family {
        RowsStay(s, a, x);
      }
      assert OfFamily(t.tokens, f) == OfFamily(s.tokens, f);
    } else {
      var u := k.phase.user;
      forall x | x in t.tokens && t.tokens[x].user == u ensures x in s.tokens && t.tokens[x] == s.tokens[x] {
        UserStandsStill(s, a, p, x);
      }
      forall x | x in s.tokens ensures x in t.tokens && t.tokens[x].user == s.tokens[x].user {
        RowsStay(s, a, x);
      }
      assert OfUser(t.tokens, u) == OfUser(s.tokens, u);
    }
  }

  lemma FamilyHolderOk(s: System, a: Action, p: Pid)
    requires Enabled(s, a) && Inv(s) && !Acts(a, p)
    requires p in s.procs && !s.procs[p].phase.Swept? && s.procs[p].Family().Some?
    ensures ProcOk(Next(s, a), s.procs[p])
  {
    hide Enabled, Next, IsChain, Compatible, Chained, DisabledHoldNone, Admits, MintedOk, OfFamily, OfUser;
    var k := s.procs[p];
    assert ProcOk(s, k);
    hide ProcsOk;
    AdmitsStays(s, a, p);
    PresentsStays(s, a, k, k.phase.user, k.phase.family);
    FamilyStandsStill(s, a, p, k.job.raw);
    hide Presents;
  }

  lemma OtherOk(s: System, a: Action, p: Pid)
    requires Enabled(s, a) && Inv(s) && !Acts(a, p)
    requires p in s.procs && !s.procs[p].phase.Swept? && s.procs[p].Family().None?
    ensures ProcOk(Next(s, a), s.procs[p])
  {
    hide Enabled, Next, IsChain, Compatible, Chained, DisabledHoldNone, Admits, MintedOk, OfFamily, OfUser;
    var k := s.procs[p];
    assert ProcOk(s, k);
    hide ProcsOk;
    if k.User().Some? {
      AdmitsStays(s, a, p);
    }
    if (k.job.Rotate? || k.job.Logout?) && k.job.raw in s.tokens {
      PresentsStays(s, a, k, s.tokens[k.job.raw].user, s.tokens[k.job.raw].family);
    }
  }

  lemma BystanderOk(s: System, a: Action, p: Pid)
    requires Enabled(s, a) && Inv(s) && !Acts(a, p) && p in s.procs
    ensures ProcOk(Next(s, a), s.procs[p])
  {
    hide Enabled, Next, Inv, ProcOk;
    if s.procs[p].phase.Swept? {
      SweepStays(s, a, p);
    } else if s.procs[p].Family().Some? {
      FamilyHolderOk(s, a, p);
    } else {
      OtherOk(s, a, p);
    }
  }

  lemma ActorOk(s: System, a: Action, p: Pid)
    requires Enabled(s, a) && ProcsOk(s) && Acts(a, p)
    ensures ProcOk(Next(s, a), At(Next(s, a), p))
  {}

  lemma KeepsProcs(s: System, a: Action)
    requires Enabled(s, a) && Inv(s)
    ensures ProcsOk(Next(s, a))
  {
    hide Enabled, Next, ProcOk;
    var t := Next(s, a);
    forall p | p in t.procs ensures ProcOk(t, t.procs[p]) {
      if Acts(a, p) {
        ActorOk(s, a, p);
      } else {
        ProcFrame(s, a, p);
        BystanderOk(s, a, p);
      }
    }
  }

  lemma PendingDistinct(s: System, a: Action, p: Pid, q: Pid)
    requires Enabled(s, a) && MintedOk(s) && p != q
    requires p in Next(s, a).procs && Next(s, a).procs[p].phase.Minted?
    requires q in Next(s, a).procs && Next(s, a).procs[q].phase.Minted?
    ensures Next(s, a).procs[p].phase.id != Next(s, a).procs[q].phase.id
    ensures Next(s, a).procs[p].job.Login? && Next(s, a).procs[q].job.Login? ==>
      Next(s, a).procs[p].phase.family != Next(s, a).procs[q].phase.family
  {}

  lemma KeepsMinted(s: System, a: Action)
    requires Enabled(s, a) && Inv(s)
    ensures MintedOk(Next(s, a))
  {
    hide Enabled, Next, Compatible, ProcsOk, Chained, DisabledHoldNone;
    var t := Next(s, a);
    forall x | x in t.tokens ensures x in t.minted && t.tokens[x].family in t.families {
      KeepsMintedRows(s, a, x);
    }
    forall p | p in t.procs && t.procs[p].phase.Minted?
      ensures t.procs[p].phase.id in t.minted && t.procs[p].phase.id !in t.tokens
      ensures t.procs[p].job.Login? ==> t.procs[p].phase.family in t.families
      ensures t.procs[p].job.Login? ==> forall x | x in t.tokens :: t.tokens[x].family != t.procs[p].phase.family
    {
      KeepsPending(s, a, p);
    }
    forall p, q | p in t.procs && q in t.procs && p != q && t.procs[p].phase.Minted? && t.procs[q].phase.Minted?
      ensures t.procs[p].phase.id != t.procs[q].phase.id
      ensures t.procs[p].job.Login? && t.procs[q].job.Login? ==> t.procs[p].phase.family != t.procs[q].phase.family
    {
      PendingDistinct(s, a, p, q);
    }
  }

  // Chains

  /** A family whose rows a change leaves alone is the chain it was. */
  lemma SameChain(before: Tokens, after: Tokens, family: FamilyId, chain: seq<TokenId>)
    requires IsChain(before, family, chain)
    requires forall t | t in before && before[t].family == family :: t in after && after[t] == before[t]
    requires forall t | t in after && after[t].family == family :: t in before && before[t].family == family
    ensures IsChain(after, family, chain)
  {}

  lemma RootChain(tokens: Tokens, id: TokenId, user: UserId, family: FamilyId, now: Time)
    requires forall t | t in tokens :: tokens[t].family != family
    ensures IsChain(WithRoot(tokens, id, user, family, now), family, [id])
  {}

  /** Only the last token of a chain is unused, so a rotation adds the child at its end. */
  lemma RotatedListing(tokens: Tokens, raw: TokenId, id: TokenId, now: Time, family: FamilyId, chain: seq<TokenId>)
    requires IsListing(tokens, family, chain) && raw in tokens && tokens[raw].family == family && id !in tokens
    ensures IsListing(Rotated(tokens, raw, id, now), family, chain + [id])
  {}

  lemma RotatedLinks(tokens: Tokens, raw: TokenId, id: TokenId, now: Time, chain: seq<TokenId>)
    requires chain != [] && (forall t | t in chain :: t in tokens) && IsLinked(tokens, chain)
    requires raw == chain[|chain| - 1] && id !in tokens
    ensures IsLinked(Rotated(tokens, raw, id, now), chain + [id])
  {}

  lemma RotatedChain(tokens: Tokens, raw: TokenId, id: TokenId, now: Time, chain: seq<TokenId>)
    requires raw in tokens && id !in tokens && IsChain(tokens, tokens[raw].family, chain)
    requires tokens[raw].usedAt.None? && tokens[raw].revokedAt.None?
    ensures IsChain(Rotated(tokens, raw, id, now), tokens[raw].family, chain + [id])
  {
    var after, longer := Rotated(tokens, raw, id, now), chain + [id];
    var k :| 0 <= k < |chain| && chain[k] == raw;
    RotatedListing(tokens, raw, id, now, tokens[raw].family, chain);
    RotatedLinks(tokens, raw, id, now, chain);
    hide IsListing, IsLinked;
    forall i | 0 <= i < |longer|
      ensures after[longer[i]].usedAt.Some? <==> i < |longer| - 1
      ensures Agrees(after[longer[i]], after[longer[0]])
    {
      assert i < |chain| ==> Agrees(tokens[chain[i]], tokens[chain[0]]);
      assert Agrees(tokens[chain[k]], tokens[chain[0]]);
    }
  }

  /** Revoking all of a family, or none of it, leaves its chain a chain. */
  lemma RevokedChain(tokens: Tokens, targets: set<TokenId>, now: Time, family: FamilyId, chain: seq<TokenId>)
    requires IsChain(tokens, family, chain)
    requires (forall t | t in chain :: t !in targets)
      || (forall t | t in chain :: tokens[t].revokedAt.None? ==> t in targets)
    ensures IsChain(Revoked(tokens, targets, now), family, chain)
  {}

  lemma LoginKeepsChains(s: System, k: Proc, family: FamilyId, chain: seq<TokenId>)
    requires k.phase.Minted? && k.job.Login? && k.phase.id !in s.tokens
    requires forall t | t in s.tokens :: s.tokens[t].family != k.phase.family
    requires IsChain(s.tokens, family, chain) && family != k.phase.family
    ensures IsChain(TokensAfter(s.tokens, k), family, chain)
  {}

  lemma RotationKeepsChains(s: System, k: Proc, family: FamilyId, chain: seq<TokenId>)
    requires ProcOk(s, k) && k.phase.Minted? && k.job.Rotate? && k.phase.id !in s.tokens
    requires IsChain(s.tokens, family, chain)
    ensures exists c :: IsChain(TokensAfter(s.tokens, k), family, c)
  {
    hide IsChain;
    var raw, id := k.job.raw, k.phase.id;
    if family == s.tokens[raw].family {
      RotatedChain(s.tokens, raw, id, k.job.now, chain);
      assert TokensAfter(s.tokens, k) == Rotated(s.tokens, raw, id, k.job.now);
      assert IsChain(TokensAfter(s.tokens, k), family, chain + [id]);
    } else {
      SameChain(s.tokens, TokensAfter(s.tokens, k), family, chain);
    }
  }

  /** A sweep covers a whole family or misses it: by family at a logout, by user when one is disabled. */
  lemma SweepIsAllOrNone(s: System, k: Proc, family: FamilyId, chain: seq<TokenId>)
    requires ProcOk(s, k) && k.phase.Swept? && IsChain(s.tokens, family, chain)
    ensures (forall t | t in chain :: t !in k.phase.targets)
      || (forall t | t in chain :: s.tokens[t].revokedAt.None? ==> t in k.phase.targets)
  {}

  lemma CommitKeepsChains(s: System, p: Pid, family: FamilyId, chain: seq<TokenId>)
    requires MintedOk(s) && ProcsOk(s) && p in s.procs && (s.procs[p].phase.Minted? || s.procs[p].phase.Swept?)
    requires IsChain(s.tokens, family, chain)
    ensures exists c :: IsChain(TokensAfter(s.tokens, s.procs[p]), family, c)
  {
    hide IsChain;
    var k := s.procs[p];
    assert ProcOk(s, k);
    if k.phase.Swept? {
      SweepIsAllOrNone(s, k, family, chain);
      RevokedChain(s.tokens, k.phase.targets, k.job.now, family, chain);
      assert TokensAfter(s.tokens, k) == Revoked(s.tokens, k.phase.targets, k.job.now);
      assert IsChain(TokensAfter(s.tokens, k), family, chain);
    } else if k.job.Login? {
      ChainInhabited(s.tokens, family, chain);
      LoginKeepsChains(s, k, family, chain);
    } else {
      RotationKeepsChains(s, k, family, chain);
    }
  }

  lemma ChainInhabited(tokens: Tokens, family: FamilyId, chain: seq<TokenId>)
    requires IsChain(tokens, family, chain)
    ensures exists t :: t in tokens && tokens[t].family == family
  {}

  lemma NewFamilyChained(s: System, a: Action, t: TokenId)
    requires Enabled(s, a) && MintedOk(s) && ProcsOk(s) && t in Next(s, a).tokens
    requires forall u | u in s.tokens :: s.tokens[u].family != Next(s, a).tokens[t].family
    ensures exists chain :: IsChain(Next(s, a).tokens, Next(s, a).tokens[t].family, chain)
  {
    if t in s.tokens {
      RowsStay(s, a, t);
    } else {
      NewRow(s, a, t);
      var k := s.procs[a.p];
      assert ProcOk(s, k);
      if k.job.Login? {
        RootChain(s.tokens, k.phase.id, k.phase.user, k.phase.family, k.job.now);
      }
    }
  }

  lemma KeepsChained(s: System, a: Action)
    requires Enabled(s, a) && Inv(s)
    ensures Chained(Next(s, a).tokens)
  {
    hide IsChain, MintedOk, ProcsOk, TokensAfter;
    var after := Next(s, a).tokens;
    forall t | t in after ensures exists chain :: IsChain(after, after[t].family, chain) {
      if u :| u in s.tokens && s.tokens[u].family == after[t].family {
        var chain :| IsChain(s.tokens, s.tokens[u].family, chain);
        if a.Commit? {
          CommitKeepsChains(s, a.p, s.tokens[u].family, chain);
        }
      } else {
        NewFamilyChained(s, a, t);
      }
    }
  }

  // Disabled accounts

  lemma KeepsDisabled(s: System, a: Action)
    requires Enabled(s, a) && Inv(s)
    ensures DisabledHoldNone(Next(s, a).users, Next(s, a).tokens)
  {
    hide Chained, Compatible, Enabled, MintedOk;
    var t := Next(s, a);
    forall x | x in t.tokens && t.tokens[x].revokedAt.None?
      ensures t.tokens[x].user in t.users && t.users[t.tokens[x].user]
    {
      UnrevokedIsEnabled(s, a, x);
    }
  }

  lemma UnrevokedIsEnabled(s: System, a: Action, x: TokenId)
    requires Enabled(s, a) && ProcsOk(s) && DisabledHoldNone(s.users, s.tokens)
    requires x in Next(s, a).tokens && Next(s, a).tokens[x].revokedAt.None?
    ensures Next(s, a).tokens[x].user in Next(s, a).users && Next(s, a).users[Next(s, a).tokens[x].user]
  {}

  lemma ActionKeepsInv(s: System, a: Action)
    requires Enabled(s, a) && Inv(s)
    ensures Inv(Next(s, a))
  {
    KeepsCompatible(s, a);
    KeepsMinted(s, a);
    KeepsProcs(s, a);
    KeepsChained(s, a);
    KeepsDisabled(s, a);
    hide Compatible, MintedOk, ProcsOk, Chained, DisabledHoldNone, Enabled, Next;
  }

  lemma {:induction false} RunsKeepInv(actions: seq<Action>, states: seq<System>, i: nat)
    requires IsRun(actions, states) && i < |states|
    ensures Inv(states[i])
  {
    hide Inv, Enabled, Next;
    if i == 0 {
      InitialInv(states[0]);
    } else {
      RunsKeepInv(actions, states, i - 1);
      ActionKeepsInv(states[i - 1], actions[i - 1]);
    }
  }

  lemma InitialInv(s: System)
    requires Initial(s)
    ensures Inv(s)
  {}

  // ---------- What is promised ----------

  /** In every reachable state every family is a chain. */
  lemma FamiliesAreChains(actions: seq<Action>, states: seq<System>, i: nat, t: TokenId)
    requires IsRun(actions, states) && i < |states| && t in states[i].tokens
    ensures exists chain :: IsChain(states[i].tokens, states[i].tokens[t].family, chain)
  {
    RunsKeepInv(actions, states, i);
    hide Enabled, Next;
  }

  /** What being a chain means: one root, at most one child each, used exactly when there is one, one tip. */
  lemma ChainMeans(tokens: Tokens, family: FamilyId, chain: seq<TokenId>)
    requires IsChain(tokens, family, chain)
    ensures exists tip :: IsTip(tokens, family, tip) && forall t :: IsTip(tokens, family, t) ==> t == tip
    ensures exists t :: t in chain && tokens[t].parent.None?
    ensures forall t, u | t in chain && u in chain && tokens[t].parent == tokens[u].parent :: t == u
    ensures forall t | t in chain :: tokens[t].usedAt.Some? <==> exists u :: u in chain && tokens[u].parent == Some(t)
    ensures forall t, u | t in chain && u in chain ::
      tokens[t].familyExpiresAt == tokens[u].familyExpiresAt && tokens[t].expiresAt <= tokens[u].familyExpiresAt
  {
    OneTip(tokens, family, chain);
    assert chain[0] in chain && tokens[chain[0]].parent.None?;
    OneChild(tokens, family, chain);
    UsedHasChild(tokens, family, chain);
    hide IsLinked;
    forall t, u | t in chain && u in chain
      ensures tokens[t].familyExpiresAt == tokens[u].familyExpiresAt && tokens[t].expiresAt <= tokens[u].familyExpiresAt
    {
      var i :| 0 <= i < |chain| && chain[i] == t;
      var j :| 0 <= j < |chain| && chain[j] == u;
      assert Agrees(tokens[chain[i]], tokens[chain[0]]) && Agrees(tokens[chain[j]], tokens[chain[0]]);
    }
  }

  predicate IsTip(tokens: Tokens, family: FamilyId, t: TokenId) {
    t in tokens && tokens[t].family == family && tokens[t].usedAt.None?
  }

  lemma OneTip(tokens: Tokens, family: FamilyId, chain: seq<TokenId>)
    requires IsChain(tokens, family, chain)
    ensures exists tip :: IsTip(tokens, family, tip) && forall t :: IsTip(tokens, family, t) ==> t == tip
  {
    hide IsLinked;
    var tip := chain[|chain| - 1];
    assert tip in chain;
    assert IsTip(tokens, family, tip);
    forall t | IsTip(tokens, family, t) ensures t == tip {
      var i :| 0 <= i < |chain| && chain[i] == t;
    }
  }

  lemma OneChild(tokens: Tokens, family: FamilyId, chain: seq<TokenId>)
    requires IsChain(tokens, family, chain)
    ensures forall t, u | t in chain && u in chain && tokens[t].parent == tokens[u].parent :: t == u
  {
    forall t, u | t in chain && u in chain && tokens[t].parent == tokens[u].parent ensures t == u {
      var i :| 0 <= i < |chain| && chain[i] == t;
      var j :| 0 <= j < |chain| && chain[j] == u;
      ParentIsBefore(tokens, family, chain, i);
      ParentIsBefore(tokens, family, chain, j);
      hide IsChain;
    }
  }

  lemma ParentIsBefore(tokens: Tokens, family: FamilyId, chain: seq<TokenId>, i: nat)
    requires IsChain(tokens, family, chain) && i < |chain|
    ensures tokens[chain[i]].parent == if i == 0 then None else Some(chain[i - 1])
  {}

  lemma UsedHasChild(tokens: Tokens, family: FamilyId, chain: seq<TokenId>)
    requires IsChain(tokens, family, chain)
    ensures forall t | t in chain :: tokens[t].usedAt.Some? <==> exists u :: u in chain && tokens[u].parent == Some(t)
  {
    forall t | t in chain ensures tokens[t].usedAt.Some? <==> exists u :: u in chain && tokens[u].parent == Some(t) {
      var i :| 0 <= i < |chain| && chain[i] == t;
      if i + 1 < |chain| {
        ParentIsBefore(tokens, family, chain, i + 1);
        assert chain[i + 1] in chain;
      }
      forall u | u in chain && tokens[u].parent == Some(t) ensures i < |chain| - 1 {
        var j :| 0 <= j < |chain| && chain[j] == u;
        ParentIsBefore(tokens, family, chain, j);
      }
    }
  }

  lemma RevocationIsAllOrNone(actions: seq<Action>, states: seq<System>, i: nat, t: TokenId, u: TokenId)
    requires IsRun(actions, states) && i < |states| && t in states[i].tokens && u in states[i].tokens
    requires states[i].tokens[t].family == states[i].tokens[u].family
    ensures states[i].tokens[t].revokedAt.Some? <==> states[i].tokens[u].revokedAt.Some?
  {
    RunsKeepInv(actions, states, i);
    hide Enabled, Next;
    SameUser(states[i], t, u);
  }

  lemma RevokedGainsNothing(s: System, a: Action, t: TokenId, u: TokenId)
    requires Enabled(s, a) && Inv(s) && t in s.tokens && s.tokens[t].revokedAt.Some?
    requires u in Next(s, a).tokens && Next(s, a).tokens[u].family == s.tokens[t].family
    ensures u in s.tokens && Next(s, a).tokens[u].revokedAt.Some?
  {
    hide Next, Chained, Compatible, DisabledHoldNone;
    if u in s.tokens {
      RowsStay(s, a, u);
      SameUser(s, t, u);
    } else {
      NewRow(s, a, u);
      var k := s.procs[a.p];
      assert ProcOk(s, k);
      if k.job.Rotate? {
        SameUser(s, t, k.job.raw);
      }
    }
  }

  /** Once one token of a family is revoked, the family never gains a token and all of it stays revoked. */
  lemma {:induction false} RevocationIsPermanent(
      actions: seq<Action>, states: seq<System>, i: nat, j: nat, t: TokenId, u: TokenId)
    requires IsRun(actions, states) && i <= j < |states|
    requires t in states[i].tokens && states[i].tokens[t].revokedAt.Some?
    requires u in states[j].tokens && states[j].tokens[u].family == states[i].tokens[t].family
    ensures u in states[i].tokens && states[j].tokens[u].revokedAt.Some?
    decreases j
  {
    hide Inv, Enabled, Next;
    if i == j {
      RevocationIsAllOrNone(actions, states, i, t, u);
    } else {
      var s, a := states[j - 1], actions[j - 1];
      TokenStays(actions, states, i, j - 1, t);
      RunsKeepInv(actions, states, j - 1);
      RevocationIsPermanent(actions, states, i, j - 1, t, t);
      RevokedGainsNothing(s, a, t, u);
      InvRowsStay(s, a, u);
      RevocationIsPermanent(actions, states, i, j - 1, t, u);
    }
  }

  lemma InvRowsStay(s: System, a: Action, t: TokenId)
    requires Enabled(s, a) && Inv(s) && t in s.tokens
    ensures t in Next(s, a).tokens && Next(s, a).tokens[t].family == s.tokens[t].family
  {
    hide Enabled, Next;
    RowsStay(s, a, t);
  }

  lemma {:induction false} TokenStays(actions: seq<Action>, states: seq<System>, i: nat, j: nat, t: TokenId)
    requires IsRun(actions, states) && i <= j < |states| && t in states[i].tokens
    ensures t in states[j].tokens && states[j].tokens[t].family == states[i].tokens[t].family
    decreases j
  {
    hide Inv, Enabled, Next;
    if i < j {
      TokenStays(actions, states, i, j - 1, t);
      RunsKeepInv(actions, states, j - 1);
      InvRowsStay(states[j - 1], actions[j - 1], t);
    }
  }

  lemma DisabledUsersHoldNothing(actions: seq<Action>, states: seq<System>, i: nat, t: TokenId)
    requires IsRun(actions, states) && i < |states| && t in states[i].tokens
    requires var u := states[i].tokens[t].user; u !in states[i].users || !states[i].users[u]
    ensures states[i].tokens[t].revokedAt.Some?
  {
    RunsKeepInv(actions, states, i);
    hide Enabled, Next;
  }

  // ---------- Commits ----------

  /** The unrevoked tokens of the family are revoked at the given instant; nothing else changes. */
  predicate FamilySwept(before: Tokens, after: Tokens, family: FamilyId, now: Time) {
    && after.Keys == before.Keys
    && forall t | t in before ::
         after[t] == if before[t].family == family && before[t].revokedAt.None?
                     then before[t].(revokedAt := Some(now)) else before[t]
  }

  /** The same for the unrevoked tokens of a user. */
  predicate UserSwept(before: Tokens, after: Tokens, user: UserId, now: Time) {
    && after.Keys == before.Keys
    && forall t | t in before ::
         after[t] == if before[t].user == user && before[t].revokedAt.None?
                     then before[t].(revokedAt := Some(now)) else before[t]
  }

  lemma Sweeps(tokens: Tokens, family: FamilyId, user: UserId, now: Time)
    ensures FamilySwept(tokens, Revoked(tokens, OfFamily(tokens, family), now), family, now)
    ensures UserSwept(tokens, Revoked(tokens, OfUser(tokens, user), now), user, now)
    ensures Revoked(tokens, {}, now) == tokens
  {}

  /** The presented token, live and unused, is used and gets one child; nothing else changes. */
  predicate RotatesExactly(s: System, raw: TokenId, id: TokenId, now: Time, t: System) {
    && t.users == s.users
    && id !in s.tokens && raw in s.tokens
    && var row := s.tokens[raw];
    && row.user in s.users && s.users[row.user]
    && row.usedAt.None? && row.revokedAt.None? && now < row.expiresAt && now < row.familyExpiresAt
    && var expiresAt := if now + 7 * DAY <= row.familyExpiresAt then now + 7 * DAY else row.familyExpiresAt;
       t.tokens == s.tokens
         [raw := row.(usedAt := Some(now))]
         [id := Token(row.user, row.family, Some(raw), now, expiresAt, row.familyExpiresAt, None, None)]
  }

  /** What the commit of transaction k does to the tables of s: the columns of each job's rows, and nothing else. */
  ghost predicate DoesItsJob(s: System, k: Proc, t: System) {
    match k.job
    case Login(user, now) =>
      && user in s.users && s.users[user] && t.users == s.users
      && k.phase.Minted? && k.phase.id !in s.tokens
      && (forall x | x in s.tokens :: s.tokens[x].family != k.phase.family)
      && t.tokens == s.tokens
           [k.phase.id := Token(user, k.phase.family, None, now, now + 7 * DAY, now + 30 * DAY, None, None)]
    case Rotate(raw, now) => k.phase.Minted? && RotatesExactly(s, raw, k.phase.id, now, t)
    case Logout(raw, now) =>
      && raw in s.tokens && t.users == s.users
      && FamilySwept(s.tokens, t.tokens, s.tokens[raw].family, now)
    case SetEnabled(user, to, now) =>
      && user in s.users && t.users == s.users[user := to]
      && if s.users[user] && !to then UserSwept(s.tokens, t.tokens, user, now) else t.tokens == s.tokens
  }

  lemma CommitEffect(s: System, p: Pid)
    requires Inv(s) && Enabled(s, Commit(p))
    ensures p in s.procs && ProcOk(s, s.procs[p]) && At(s, p) == s.procs[p]
    ensures At(s, p).phase.Minted? || At(s, p).phase.Swept?
    ensures Next(s, Commit(p)).tokens == TokensAfter(s.tokens, At(s, p))
    ensures Next(s, Commit(p)).users == UsersAfter(s.users, At(s, p))
  {}

  lemma PendingIsNew(s: System, p: Pid)
    requires Inv(s) && p in s.procs && s.procs[p].phase.Minted?
    ensures s.procs[p].phase.id !in s.tokens
    ensures s.procs[p].job.Login? ==> forall x | x in s.tokens :: s.tokens[x].family != s.procs[p].phase.family
  {}

  lemma PendingLogin(s: System, p: Pid, user: UserId, now: Time)
    requires Inv(s) && At(s, p).job == Login(user, now) && Enabled(s, Commit(p))
    ensures user in s.users && s.users[user] && Next(s, Commit(p)).users == s.users
    ensures At(s, p).phase.Minted? && At(s, p).phase.id !in s.tokens
    ensures forall x | x in s.tokens :: s.tokens[x].family != At(s, p).phase.family
    ensures var k := At(s, p);
      Next(s, Commit(p)).tokens == WithRoot(s.tokens, k.phase.id, user, k.phase.family, now)
  {
    CommitEffect(s, p);
    PendingIsNew(s, p);
    hide Inv, Enabled, Next, OfFamily, OfUser, Revoked, WithRoot, Rotated;
  }

  lemma LoginCommits(s: System, p: Pid, user: UserId, now: Time)
    requires Inv(s) && At(s, p).job == Login(user, now) && Enabled(s, Commit(p))
    ensures DoesItsJob(s, At(s, p), Next(s, Commit(p)))
  {
    hide Inv, Enabled, Next;
    PendingLogin(s, p, user, now);
  }

  lemma RotatedRows(tokens: Tokens, raw: TokenId, id: TokenId, now: Time)
    requires raw in tokens
    ensures var row := tokens[raw];
      var expiresAt := if now + 7 * DAY <= row.familyExpiresAt then now + 7 * DAY else row.familyExpiresAt;
      Rotated(tokens, raw, id, now) == tokens
        [raw := row.(usedAt := Some(now))]
        [id := Token(row.user, row.family, Some(raw), now, expiresAt, row.familyExpiresAt, None, None)]
  {}

  lemma PendingRotation(s: System, p: Pid, raw: TokenId, now: Time)
    requires Inv(s) && At(s, p).job == Rotate(raw, now) && Enabled(s, Commit(p))
    ensures At(s, p).phase.Minted? && At(s, p).phase.id !in s.tokens && raw in s.tokens
    ensures var row := s.tokens[raw];
      && row.user in s.users && s.users[row.user]
      && row.usedAt.None? && row.revokedAt.None? && now < row.expiresAt && now < row.familyExpiresAt
    ensures Next(s, Commit(p)).users == s.users
    ensures Next(s, Commit(p)).tokens == Rotated(s.tokens, raw, At(s, p).phase.id, now)
  {
    CommitEffect(s, p);
    PendingIsNew(s, p);
    hide Inv, Enabled, Next, OfFamily, OfUser, Revoked, WithRoot, Rotated;
  }

  lemma RotationCommits(s: System, p: Pid, raw: TokenId, now: Time)
    requires Inv(s) && At(s, p).job == Rotate(raw, now) && Enabled(s, Commit(p))
    ensures At(s, p).phase.Minted? && RotatesExactly(s, raw, At(s, p).phase.id, now, Next(s, Commit(p)))
  {
    hide Inv, Enabled, Next, Rotated;
    PendingRotation(s, p, raw, now);
    RotatedRows(s.tokens, raw, At(s, p).phase.id, now);
  }

  lemma LogoutCommits(s: System, p: Pid, raw: TokenId, now: Time)
    requires Inv(s) && At(s, p).job == Logout(raw, now) && Enabled(s, Commit(p))
    ensures DoesItsJob(s, At(s, p), Next(s, Commit(p)))
  {
    CommitEffect(s, p);
    hide Inv, Enabled, Next, OfFamily, OfUser, Revoked, FamilySwept, UserSwept;
    Sweeps(s.tokens, s.tokens[raw].family, 0, now);
  }

  lemma AccountCommits(s: System, p: Pid, user: UserId, to: bool, now: Time)
    requires Inv(s) && At(s, p).job == SetEnabled(user, to, now) && Enabled(s, Commit(p))
    ensures DoesItsJob(s, At(s, p), Next(s, Commit(p)))
  {
    CommitEffect(s, p);
    hide Inv, Enabled, Next, OfFamily, OfUser, Revoked, FamilySwept, UserSwept;
    Sweeps(s.tokens, 0, user, now);
  }

  /**
    Transactions are as good as atomic: although a transaction reads and chooses its rows in earlier
    steps, its commit does to the tables, as they are then, what its job asks for.
   */
  lemma CommitsAreAtomic(actions: seq<Action>, states: seq<System>, i: nat)
    requires IsRun(actions, states) && i < |actions| && actions[i].Commit?
    ensures DoesItsJob(states[i], At(states[i], actions[i].p), states[i + 1])
  {
    RunsKeepInv(actions, states, i);
    RunActs(actions, states, i);
    hide Inv, Enabled, Next, IsRun, RotatesExactly, FamilySwept, UserSwept;
    var s, p := states[i], actions[i].p;
    match At(s, p).job
    case Login(user, now) =>
      LoginCommits(s, p, user, now);
      hide DoesItsJob;
    case Rotate(raw, now) => RotationCommits(s, p, raw, now);
    case Logout(raw, now) => LogoutCommits(s, p, raw, now);
    case SetEnabled(user, to, now) => AccountCommits(s, p, user, to, now);
  }

  lemma LogoutSweeps(s: System, a: Action, t: TokenId)
    requires Enabled(s, a) && a.Commit? && At(s, a.p).job.Logout? && ProcOk(s, At(s, a.p))
    requires t in Next(s, a).tokens && At(s, a.p).job.raw in s.tokens
    requires Next(s, a).tokens[t].family == s.tokens[At(s, a.p).job.raw].family
    ensures Next(s, a).tokens[t].revokedAt.Some?
  {}

  /** When a logout, or the revocation that follows a detected reuse, commits, the whole family is revoked. */
  lemma LogoutRevokesAll(actions: seq<Action>, states: seq<System>, i: nat, t: TokenId)
    requires IsRun(actions, states) && i < |actions| && actions[i].Commit?
    requires At(states[i], actions[i].p).job.Logout?
    requires var raw := At(states[i], actions[i].p).job.raw;
      && raw in states[i].tokens && t in states[i + 1].tokens
      && states[i + 1].tokens[t].family == states[i].tokens[raw].family
    ensures states[i + 1].tokens[t].revokedAt.Some?
  {
    hide Inv, ProcOk, Enabled, Next, At;
    ProcInRun(actions, states, i, actions[i].p);
    LogoutSweeps(states[i], actions[i], t);
  }

  lemma ProcInRun(actions: seq<Action>, states: seq<System>, i: nat, p: Pid)
    requires IsRun(actions, states) && i < |states|
    ensures ProcOk(states[i], At(states[i], p))
  {
    RunsKeepInv(actions, states, i);
    hide Enabled, Next, IsRun, ProcOk;
    if p !in states[i].procs {
      NobodyOk(states[i]);
    }
  }

  lemma NobodyOk(s: System)
    ensures ProcOk(s, NOBODY)
  {}

  /**
    What the write of a rotation does. It mints exactly for a live unused token; a live used one turns
    the attempt into a revocation; one that is not live is refused, used or not, without revoking.
   */
  lemma ReuseIsDetected(s: System, a: Action)
    requires Enabled(s, a) && a.Write? && At(s, a.p).job.Rotate? && ProcsOk(s)
    ensures var raw, now, k := At(s, a.p).job.raw, At(s, a.p).job.now, At(Next(s, a), a.p);
      && raw in s.tokens
      && var row := s.tokens[raw];
      && var live := row.revokedAt.None? && now < row.expiresAt && now < row.familyExpiresAt;
      && (k.phase.Minted? <==> live && row.usedAt.None?)
      && (k == Proc(Logout(raw, now), Begun) <==> live && row.usedAt.Some?)
      && (k.phase == Finished(Refused) <==> !live)
      && Next(s, a).tokens == s.tokens
  {}

  // ---------- What becomes of a consumed token that is presented again ----------

  /** The step writes for a rotation and finds the presented token used and unrevoked. */
  predicate FindsConsumed(s: System, a: Action) {
    && a.Write? && At(s, a.p).job.Rotate?
    && At(s, a.p).job.raw in s.tokens
    && s.tokens[At(s, a.p).job.raw].usedAt.Some? && s.tokens[At(s, a.p).job.raw].revokedAt.None?
  }

  /** Neither the token nor its family has expired at the instant of the request. */
  predicate StillLive(s: System, p: Pid)
    requires At(s, p).job.Rotate? && At(s, p).job.raw in s.tokens
  {
    s.tokens[At(s, p).job.raw].Live(At(s, p).job.now)
  }

  /** The reuse is detected: the token is used though live, so the attempt turns into a revocation. */
  predicate DetectsReuse(s: System, a: Action) {
    FindsConsumed(s, a) && StillLive(s, a.p)
  }

  /** Between the rollback and the revocation the transaction can be lost, and the family stays as it was. */
  lemma DetectedReuseCanBeLost(s: System, a: Action)
    requires Enabled(s, a) && DetectsReuse(s, a) && ProcsOk(s)
    ensures var t := Next(s, a);
      && Enabled(t, Fail(a.p)) && Next(t, Fail(a.p)).tokens == s.tokens
      && At(Next(t, Fail(a.p)), a.p).phase == Finished(Refused)
  {
    ReuseIsDetected(s, a);
  }

  /** The process revokes the family of raw: on its way, or ended. */
  predicate Revoking(s: System, p: Pid, raw: TokenId) {
    && p in s.procs && s.procs[p].job.Logout? && s.procs[p].job.raw == raw
    && raw in s.tokens && s.tokens[raw].user in s.users
    && (s.procs[p].phase.Finished? ==> s.procs[p].phase.reply == Done || s.procs[p].phase.reply == Refused)
  }

  /** What a step does to a process that revokes: it ends only by committing or by being lost. */
  lemma RevokingStep(s: System, a: Action, p: Pid, raw: TokenId)
    requires Enabled(s, a) && Acts(a, p) && ProcsOk(s) && Revoking(s, p, raw)
    ensures Revoking(Next(s, a), p, raw) && !s.procs[p].phase.Finished?
    ensures Next(s, a).procs[p].phase == Finished(Done) <==> a.Commit?
    ensures Next(s, a).procs[p].phase == Finished(Refused) <==> a.Fail?
    ensures a.Commit? || Next(s, a).tokens == s.tokens
  {
    assert ProcOk(s, s.procs[p]);
    hide OfFamily, OfUser;
  }

  lemma UsersGrow(s: System, a: Action)
    requires Enabled(s, a)
    ensures s.users.Keys <= Next(s, a).users.Keys
  {}

  lemma RevokingFrame(s: System, a: Action, p: Pid, raw: TokenId)
    requires Enabled(s, a) && !Acts(a, p) && MintedOk(s) && Revoking(s, p, raw)
    ensures Revoking(Next(s, a), p, raw)
  {
    hide Enabled, Next, MintedOk;
    ProcFrame(s, a, p);
    UsersGrow(s, a);
    RowsStay(s, a, raw);
  }

  lemma DetectedIsRevoking(s: System, a: Action)
    requires Enabled(s, a) && DetectsReuse(s, a) && ProcsOk(s)
    ensures Revoking(Next(s, a), a.p, At(s, a.p).job.raw) && Next(s, a).procs[a.p].phase.Begun?
    ensures Next(s, a).tokens == s.tokens
  {
    assert ProcOk(s, s.procs[a.p]);
  }

  /** Some step from d on, before j, is this action. */
  ghost predicate Happened(actions: seq<Action>, d: nat, j: nat, a: Action) {
    exists c | d < c < j && c < |actions| :: actions[c] == a
  }

  lemma HappenedStep(actions: seq<Action>, d: nat, j: nat, a: Action)
    requires d < j < |actions|
    ensures Happened(actions, d, j + 1, a) <==> Happened(actions, d, j, a) || actions[j] == a
  {}

  /** The state of the revocation that a reuse detected at step d has set off. */
  ghost predicate Course(actions: seq<Action>, s: System, d: nat, j: nat, p: Pid, raw: TokenId) {
    && Revoking(s, p, raw)
    && (s.procs[p].phase == Finished(Done) <==> Happened(actions, d, j, Commit(p)))
    && (s.procs[p].phase == Finished(Refused) <==> Happened(actions, d, j, Fail(p)))
  }

  lemma CourseStep(actions: seq<Action>, s: System, d: nat, j: nat, p: Pid, raw: TokenId)
    requires d < j < |actions| && Enabled(s, actions[j]) && Inv(s) && Course(actions, s, d, j, p, raw)
    ensures Course(actions, Next(s, actions[j]), d, j + 1, p, raw)
  {
    hide Enabled, Next, Happened, Compatible, MintedOk, ProcsOk, Chained, DisabledHoldNone, Revoking;
    HappenedStep(actions, d, j, Commit(p));
    HappenedStep(actions, d, j, Fail(p));
    RevokingIs(s, p, raw);
    if Acts(actions[j], p) {
      RevokingStep(s, actions[j], p, raw);
    } else {
      RevokingFrame(s, actions[j], p, raw);
      ProcFrame(s, actions[j], p);
    }
  }

  lemma RevokingIs(s: System, p: Pid, raw: TokenId)
    requires Revoking(s, p, raw)
    ensures p in s.procs
  {}

  lemma CourseStarts(actions: seq<Action>, s: System, d: nat, p: Pid, raw: TokenId)
    requires Revoking(s, p, raw) && s.procs[p].phase.Begun?
    ensures Course(actions, s, d, d + 1, p, raw)
  {}

  lemma DetectionStarts(actions: seq<Action>, s: System, d: nat)
    requires d < |actions| && Enabled(s, actions[d]) && DetectsReuse(s, actions[d]) && Inv(s)
    ensures At(s, actions[d].p).job.Rotate?
    ensures Course(actions, Next(s, actions[d]), d, d + 1, actions[d].p, At(s, actions[d].p).job.raw)
  {
    hide Enabled, Next;
    InvProcs(s);
    DetectedIsRevoking(s, actions[d]);
    CourseStarts(actions, Next(s, actions[d]), d, actions[d].p, At(s, actions[d].p).job.raw);
  }

  lemma {:induction false} CourseGoesOn(
      actions: seq<Action>, states: seq<System>, d: nat, j: nat, p: Pid, raw: TokenId)
    requires IsRun(actions, states) && d < j < |states| && Course(actions, states[d + 1], d, d + 1, p, raw)
    ensures Course(actions, states[j], d, j, p, raw)
    decreases j
  {
    hide IsRun, Enabled, Next, Inv, Course;
    if d + 1 < j {
      CourseGoesOn(actions, states, d, j - 1, p, raw);
      RunsKeepInv(actions, states, j - 1);
      RunActs(actions, states, j - 1);
      CourseStep(actions, states[j - 1], d, j - 1, p, raw);
    }
  }

  lemma ReuseCourse(actions: seq<Action>, states: seq<System>, d: nat, j: nat, p: Pid)
    requires IsRun(actions, states) && d < j < |states|
    requires DetectsReuse(states[d], actions[d]) && p == actions[d].p
    ensures Course(actions, states[j], d, j, p, At(states[d], p).job.raw)
  {
    hide IsRun, Enabled, Next, Inv, Course;
    RunsKeepInv(actions, states, d);
    RunActs(actions, states, d);
    DetectionStarts(actions, states[d], d);
    CourseGoesOn(actions, states, d, j, p, At(states[d], p).job.raw);
  }

  lemma InvProcs(s: System)
    requires Inv(s)
    ensures ProcsOk(s) && MintedOk(s)
  {}

  /** All tokens of a family are revoked. */
  predicate FamilyRevoked(tokens: Tokens, family: FamilyId) {
    forall t | t in tokens && tokens[t].family == family :: tokens[t].revokedAt.Some?
  }

  /** No step of process p among the first j changed a token. */
  ghost predicate TouchedNothing(actions: seq<Action>, states: seq<System>, j: nat, p: Pid)
    requires j <= |actions| < |states|
  {
    forall i | 0 <= i < j && Acts(actions[i], p) :: states[i + 1].tokens == states[i].tokens
  }

  lemma DetectedOutcome(actions: seq<Action>, states: seq<System>, d: nat, j: nat, p: Pid)
    requires IsRun(actions, states) && d < j < |states|
    requires DetectsReuse(states[d], actions[d]) && p == actions[d].p && At(states[j], p).phase.Finished?
    ensures var reply, family := At(states[j], p).phase.reply, states[d].tokens[At(states[d], p).job.raw].family;
      && (reply == Done || reply == Refused)
      && (reply == Done <==> Happened(actions, d, j, Commit(p)))
      && (reply == Refused <==> Happened(actions, d, j, Fail(p)))
      && (reply == Done ==> FamilyRevoked(states[j].tokens, family))
      && (reply == Refused ==> TouchedNothing(actions, states, j, p))
  {
    ReuseCourse(actions, states, d, j, p);
    hide Enabled, Next, Inv, IsRun;
    if Happened(actions, d, j, Commit(p)) {
      var c :| d < c < j && c < |actions| && actions[c] == Commit(p);
      CommittedReuseRevokes(actions, states, d, c, j, p);
    }
    if Happened(actions, d, j, Fail(p)) {
      forall i | 0 <= i < j && Acts(actions[i], p) ensures states[i + 1].tokens == states[i].tokens {
        LostReuseLeaves(actions, states, d, i, j, p);
      }
    }
  }

  /** A consumed token that is no longer live: the process ends at once and has touched nothing. */
  lemma ExpiredOutcome(actions: seq<Action>, states: seq<System>, d: nat, j: nat, p: Pid)
    requires IsRun(actions, states) && d < j < |states|
    requires FindsConsumed(states[d], actions[d]) && !StillLive(states[d], actions[d].p) && p == actions[d].p
    ensures At(states[j], p).phase == Finished(Refused) && TouchedNothing(actions, states, j, p)
    ensures !Happened(actions, d, j, Commit(p)) && !Happened(actions, d, j, Fail(p))
  {
    RunsKeepInv(actions, states, d);
    InvProcs(states[d]);
    RunActs(actions, states, d);
    ReuseIsDetected(states[d], actions[d]);
    hide Enabled, Next, Inv, IsRun, StillLive, ProcsOk, FindsConsumed;
    FinishedStays(actions, states, d + 1, j, p);
    forall i | d < i < j ensures !Acts(actions[i], p) {
      FinishedStays(actions, states, d + 1, i, p);
      RunActs(actions, states, i);
      FinishedDoesNotAct(states[i], actions[i], p);
    }
    forall i | 0 <= i < j && Acts(actions[i], p) ensures states[i + 1].tokens == states[i].tokens {
      BeforeWriteLeaves(actions, states, d, i, p);
    }
  }

  lemma FinishedDoesNotAct(s: System, a: Action, p: Pid)
    requires Enabled(s, a) && p in s.procs && s.procs[p].phase.Finished?
    ensures !Acts(a, p)
  {}

  /** A process that is at its write has committed nothing before, and does not by writing. */
  lemma BeforeWriteLeaves(actions: seq<Action>, states: seq<System>, d: nat, i: nat, p: Pid)
    requires IsRun(actions, states) && i <= d < |actions| && actions[d].Write? && actions[d].p == p
    requires Acts(actions[i], p)
    ensures states[i + 1].tokens == states[i].tokens
  {
    hide Enabled, Next;
    RunActs(actions, states, i);
    RunActs(actions, states, d);
    if actions[i].Commit? {
      CommitEnds(states[i], actions[i]);
      FinishedStays(actions, states, i + 1, d, p);
      FinishedDoesNotAct(states[d], actions[d], p);
    } else {
      OnlyCommitsChange(states[i], actions[i]);
    }
  }

  /**
    The exact condition, for every consumed and unrevoked token that is presented again, up to the
    write, by a process that has ended. The process committed a revocation of the family if and only
    if the token was still live at the instant of the request and the second transaction was not lost.
    If it did, the whole family is revoked; if not, none of its steps changed a token.
   */
  lemma ReuseOutcome(actions: seq<Action>, states: seq<System>, d: nat, j: nat, p: Pid)
    requires IsRun(actions, states) && d < j < |states|
    requires FindsConsumed(states[d], actions[d]) && p == actions[d].p && At(states[j], p).phase.Finished?
    ensures var revoked, live := Happened(actions, d, j, Commit(p)), StillLive(states[d], p);
      var family := states[d].tokens[At(states[d], p).job.raw].family;
      && (revoked <==> live && !Happened(actions, d, j, Fail(p)))
      && (revoked ==> FamilyRevoked(states[j].tokens, family))
      && (!revoked ==> TouchedNothing(actions, states, j, p))
      && At(states[j], p).phase.reply == if revoked then Done else Refused
  {
    hide IsRun, Enabled, Next, FamilyRevoked, TouchedNothing, Happened;
    if StillLive(states[d], p) {
      DetectedOutcome(actions, states, d, j, p);
    } else {
      ExpiredOutcome(actions, states, d, j, p);
    }
  }

  lemma CommittedReuseRevokes(actions: seq<Action>, states: seq<System>, d: nat, c: nat, j: nat, p: Pid)
    requires IsRun(actions, states) && d < c < j < |states| && DetectsReuse(states[d], actions[d]) && p == actions[d].p
    requires actions[c] == Commit(p)
    ensures FamilyRevoked(states[j].tokens, states[d].tokens[At(states[d], p).job.raw].family)
  {
    var raw := At(states[d], p).job.raw;
    ReuseCourse(actions, states, d, c, p);
    assert Revoking(states[c], p, raw);
    hide Enabled, Next, Inv, IsRun, Course;
    TokenStays(actions, states, d, c, raw);
    TokenStays(actions, states, d, c + 1, raw);
    LogoutRevokesAll(actions, states, c, raw);
    forall t | t in states[j].tokens && states[j].tokens[t].family == states[d].tokens[raw].family
      ensures states[j].tokens[t].revokedAt.Some?
    {
      RevocationIsPermanent(actions, states, c + 1, j, raw, t);
    }
  }

  lemma LostReuseLeaves(actions: seq<Action>, states: seq<System>, d: nat, i: nat, j: nat, p: Pid)
    requires IsRun(actions, states) && i < j && d < j < |states|
    requires DetectsReuse(states[d], actions[d]) && p == actions[d].p
    requires Happened(actions, d, j, Fail(p)) && Acts(actions[i], p)
    ensures states[i + 1].tokens == states[i].tokens
  {
    var raw := At(states[d], p).job.raw;
    hide Enabled, Next, Inv;
    if i <= d {
      BeforeWriteLeaves(actions, states, d, i, p);
    } else {
      RunsKeepInv(actions, states, i);
      InvProcs(states[i]);
      RunActs(actions, states, i);
      ReuseCourse(actions, states, d, i, p);
      ReuseCourse(actions, states, d, j, p);
      hide IsRun, Revoking;
      assert actions[i].Commit? ==> Happened(actions, d, j, Commit(p));
      RevokingStep(states[i], actions[i], p, raw);
    }
  }

  lemma OnlyCommitsChange(s: System, a: Action)
    requires Enabled(s, a) && !a.Commit?
    ensures Next(s, a).tokens == s.tokens
  {}

  lemma CommitEnds(s: System, a: Action)
    requires Enabled(s, a) && a.Commit?
    ensures a.p in Next(s, a).procs && At(Next(s, a), a.p).phase.Finished?
  {}

  /** A process that has ended does nothing more. */
  lemma FinishedIsIdle(s: System, a: Action)
    requires Enabled(s, a) && !a.AddUser? && a.p in s.procs
    ensures !s.procs[a.p].phase.Finished?
  {}

  lemma {:induction false} FinishedStays(actions: seq<Action>, states: seq<System>, i: nat, j: nat, p: Pid)
    requires IsRun(actions, states) && i <= j < |states| && p in states[i].procs && states[i].procs[p].phase.Finished?
    ensures p in states[j].procs && states[j].procs[p] == states[i].procs[p]
    decreases j
  {
    hide Enabled, Next;
    if i < j {
      FinishedStays(actions, states, i, j - 1, p);
      if Acts(actions[j - 1], p) {
        FinishedIsIdle(states[j - 1], actions[j - 1]);
      } else {
        ProcFrame(states[j - 1], actions[j - 1], p);
      }
    }
  }

  lemma RunActs(actions: seq<Action>, states: seq<System>, i: nat)
    requires IsRun(actions, states) && i + 1 < |states|
    ensures i < |actions| && Enabled(states[i], actions[i]) && states[i + 1] == Next(states[i], actions[i])
  {
    hide Enabled, Next;
  }

  // A run in which a consumed token is presented again

  ghost predicate Reaches(s: System) {
    exists actions, states :: IsRun(actions, states) && states[|actions|] == s
  }

  lemma ReachesNext(s: System, a: Action)
    requires Reaches(s) && Enabled(s, a)
    ensures Reaches(Next(s, a))
  {
    var actions, states :| IsRun(actions, states) && states[|actions|] == s;
    hide Enabled, Next, Initial;
    assert IsRun(actions + [a], states + [Next(s, a)]);
  }

  const ROOT := Token(0, 0, None, 0, TOKEN_LIFE, FAMILY_LIFE, None, None)
  const LOGGED_IN := System(map[0 := true], map[0 := ROOT],
                            map[0 := Proc(Login(0, 0), Finished(Issued(0)))], {0}, {0})

  lemma NothingIsReached()
    ensures Reaches(System(map[], map[], map[], {}, {}))
  {
    assert IsRun([], [System(map[], map[], map[], {}, {})]);
  }

  lemma SomeoneLogsIn()
    ensures Reaches(LOGGED_IN)
  {
    hide Reaches;
    NothingIsReached();
    var s0 := System(map[], map[], map[], {}, {});
    var a, b, c, d, e := AddUser(0), Begin(0, Login(0, 0)), LockUser(0), Write(0, 0, 0), Commit(0);
    ReachesNext(s0, a);
    var s1 := Next(s0, a);
    ReachesNext(s1, b);
    var s2 := Next(s1, b);
    ReachesNext(s2, c);
    var s3 := Next(s2, c);
    ReachesNext(s3, d);
    var s4 := Next(s3, d);
    ReachesNext(s4, e);
    assert Next(s4, e) == LOGGED_IN;
  }

  /** Everybody else has ended, and user 0 with token 0 is there. */
  predicate Calm(s: System, p: Pid) {
    && 0 in s.tokens && s.tokens[0].user == 0 && 0 in s.users && s.users[0]
    && forall q | q in s.procs && q != p :: s.procs[q].phase.Finished?
  }

  /** Process p begins a rotation of token 0 and locks its user. */
  lemma LocksUserOfRoot(s: System, p: Pid, now: Time) returns (t: System)
    requires Reaches(s) && p !in s.procs && Calm(s, p)
    ensures Reaches(t) && t == s.(procs := s.procs[p := Proc(Rotate(0, now), UserHeld(0, Some(s.tokens[0].family)))])
  {
    hide Reaches;
    var a, b, c := Begin(p, Rotate(0, now)), Resolve(p), LockUser(p);
    ReachesNext(s, a);
    var s1 := Next(s, a);
    ReachesNext(s1, b);
    var s2 := Next(s1, b);
    ReachesNext(s2, c);
    t := Next(s2, c);
    assert t.procs == s.procs[p := t.procs[p]];
  }

  /** And comes as far as reading the token. */
  lemma ReadsRoot(s: System, p: Pid, now: Time) returns (t: System)
    requires Reaches(s) && p !in s.procs && Calm(s, p)
    ensures Reaches(t)
    ensures t == s.(procs := s.procs[p := Proc(Rotate(0, now), Read(0, s.tokens[0].family, s.tokens[0]))])
  {
    hide Reaches;
    var s1 := LocksUserOfRoot(s, p, now);
    ReachesNext(s1, LockFamily(p));
    var s2 := Next(s1, LockFamily(p));
    ReachesNext(s2, ReadToken(p));
    t := Next(s2, ReadToken(p));
    assert t.procs == s.procs[p := t.procs[p]];
  }

  /** One rotation has used the root. */
  lemma RootIsUsed() returns (s: System)
    ensures Reaches(s) && Calm(s, 2) && 2 !in s.procs && s.minted == {0, 1} && s.families == {0, 1}
    ensures s.tokens[0] == ROOT.(usedAt := Some(0))
  {
    hide Reaches;
    SomeoneLogsIn();
    var t := ReadsRoot(LOGGED_IN, 1, 0);
    var write := Write(1, 1, 1);
    ReachesNext(t, write);
    var u := Next(t, write);
    ReachesNext(u, Commit(1));
    s := Next(u, Commit(1));
  }

  /** After one rotation the used root is presented again, at any instant: live or not, as time has it. */
  lemma ConsumedCanBePresented(now: Time) returns (s: System, a: Action)
    ensures Reaches(s) && Enabled(s, a) && FindsConsumed(s, a)
    ensures StillLive(s, a.p) <==> now < TOKEN_LIFE
  {
    hide Reaches;
    var used := RootIsUsed();
    s := ReadsRoot(used, 2, now);
    a := Write(2, 2, 2);
  }

  // ---------- Progress ----------

  /** Process p can take a step of its own other than being lost. */
  ghost predicate CanStep(s: System, p: Pid) {
    exists a :: Enabled(s, a) && Acts(a, p) && !a.Fail?
  }

  predicate Running(s: System, p: Pid) {
    p in s.procs && !s.procs[p].phase.Finished?
  }

  lemma WriterCanStep(s: System, p: Pid)
    requires ProcsOk(s) && Running(s, p)
    requires s.procs[p].phase.Read? || (s.procs[p].phase.UserHeld? && s.procs[p].phase.under.None?)
    ensures CanStep(s, p)
  {
    assert ProcOk(s, s.procs[p]);
    var id := FreshNat(s.minted);
    var family := FreshNat(s.families);
    assert Enabled(s, Write(p, id, family)) && Acts(Write(p, id, family), p);
  }

  /** Whoever holds a family, or waits for nothing but its own next statement, can go on. */
  lemma HolderCanStep(s: System, p: Pid)
    requires ProcsOk(s) && Running(s, p)
    requires s.procs[p].Family().Some? || s.procs[p].phase.FamilyHeld?
      || s.procs[p].phase.Minted? || s.procs[p].phase.Swept?
    ensures CanStep(s, p)
  {
    if s.procs[p].phase.FamilyHeld? {
      assert Enabled(s, ReadToken(p)) && Acts(ReadToken(p), p);
    } else if s.procs[p].phase.Read? {
      WriterCanStep(s, p);
    } else {
      assert Enabled(s, Commit(p)) && Acts(Commit(p), p);
    }
  }

  /** A transaction that has its user's lock can go on, or waits for one that holds its family and can. */
  lemma UserHolderProgress(s: System, p: Pid) returns (q: Pid)
    requires ProcsOk(s) && Compatible(s) && Running(s, p) && s.procs[p].User().Some?
    ensures Running(s, q) && CanStep(s, q)
  {
    var k := s.procs[p];
    q := p;
    if !k.phase.UserHeld? {
      HolderCanStep(s, p);
    } else if k.phase.under.None? {
      WriterCanStep(s, p);
    } else if Granted(s, p, WithFamily(k)) {
      assert Enabled(s, LockFamily(p)) && Acts(LockFamily(p), p);
    } else {
      q :| q in s.procs && q != p && WithFamily(k).Conflicts(s.procs[q]);
      FamilyConflict(s, p, q);
    }
  }

  /** Of two transactions whose users' locks agree, one can block the other's family lock only by holding the family. */
  lemma FamilyConflict(s: System, p: Pid, q: Pid)
    requires ProcsOk(s) && p in s.procs && q in s.procs && s.procs[p].phase.UserHeld? && s.procs[p].phase.under.Some?
    requires WithFamily(s.procs[p]).Conflicts(s.procs[q]) && !s.procs[p].Conflicts(s.procs[q])
    ensures Running(s, q) && CanStep(s, q)
  {
    assert s.procs[q].Family().Some?;
    HolderCanStep(s, q);
  }

  lemma StarterCanStep(s: System, p: Pid)
    requires ProcsOk(s) && Running(s, p) && s.procs[p].User().None?
    requires (s.procs[p].phase.Begun? && (s.procs[p].job.Rotate? || s.procs[p].job.Logout?))
      || Granted(s, p, WithUser(s.procs[p]))
    ensures CanStep(s, p)
  {
    var k := s.procs[p];
    assert ProcOk(s, k);
    hide ProcsOk;
    if k.phase.Begun? && (k.job.Rotate? || k.job.Logout?) {
      assert Enabled(s, Resolve(p)) && Acts(Resolve(p), p);
    } else {
      assert Enabled(s, LockUser(p)) && Acts(LockUser(p), p);
    }
  }

  lemma UserConflict(k: Proc, r: Proc)
    requires k.User().None? && WithUser(k).Conflicts(r)
    ensures r.User().Some?
  {}

  lemma HasUserRuns(s: System, r: Pid)
    requires r in s.procs && s.procs[r].User().Some?
    ensures Running(s, r)
  {}

  lemma Progress(s: System, p: Pid) returns (q: Pid)
    requires ProcsOk(s) && Compatible(s) && Running(s, p)
    ensures Running(s, q) && CanStep(s, q)
  {
    var k := s.procs[p];
    hide Compatible, ProcsOk, CanStep, WithUser, Running;
    q := p;
    if k.User().Some? {
      q := UserHolderProgress(s, p);
    } else if (k.phase.Begun? && (k.job.Rotate? || k.job.Logout?)) || Granted(s, p, WithUser(k)) {
      StarterCanStep(s, p);
    } else {
      var r :| r in s.procs && r != p && WithUser(k).Conflicts(s.procs[r]);
      UserConflict(k, s.procs[r]);
      HasUserRuns(s, r);
      q := UserHolderProgress(s, r);
    }
  }

  lemma InvLocks(s: System)
    requires Inv(s)
    ensures ProcsOk(s) && Compatible(s)
  {}

  function Presented(k: Proc): set<TokenId> {
    if k.job.Rotate? || k.job.Logout? then {k.job.raw} else {}
  }

  /**
    The token rows whose row locks a process holds or is about to take: the one it presents, read FOR
    UPDATE, and those that its revoking update writes.
   */
  function RowsWanted(s: System, k: Proc): set<TokenId> {
    match k.phase
    case FamilyHeld(_, _) => Presented(k)
    case Read(_, f, _) => Presented(k) + if k.job.Logout? then OfFamily(s.tokens, f) else {}
    case Minted(_, _, _) => Presented(k)
    case Swept(_, _, targets) => targets + Presented(k)
    case UserHeld(u, _) => if k.job.SetEnabled? then OfUser(s.tokens, u) else {}
    case _ => {}
  }

  /** A wanted row lies under the family lock of the process, or under its exclusive lock on the user. */
  lemma WantedIsLocked(s: System, k: Proc, t: TokenId)
    requires ProcOk(s, k) && Chained(s.tokens) && t in RowsWanted(s, k)
    ensures t in s.tokens && k.User() == Some(s.tokens[t].user)
    ensures k.job.SetEnabled? || k.Family() == Some(s.tokens[t].family)
  {
    hide Chained;
    if k.job.Logout? && t in s.tokens && s.tokens[t].family == s.tokens[k.job.raw].family {
      SameUser(s, t, k.job.raw);
    }
  }

  /**
    No two processes ever want the lock of one token row, so nobody waits for these locks: the user
    and family locks, taken before, already keep them apart.
   */
  lemma RowLocksNeverWait(actions: seq<Action>, states: seq<System>, i: nat, p: Pid, q: Pid)
    requires IsRun(actions, states) && i < |states| && p in states[i].procs && q in states[i].procs && p != q
    ensures RowsWanted(states[i], states[i].procs[p]) !! RowsWanted(states[i], states[i].procs[q])
  {
    RunsKeepInv(actions, states, i);
    hide IsRun, RowsWanted, Chained, MintedOk, DisabledHoldNone, ProcOk;
    var s := states[i];
    forall t | t in RowsWanted(s, s.procs[p]) ensures t !in RowsWanted(s, s.procs[q]) {
      assert ProcOk(s, s.procs[p]) && ProcOk(s, s.procs[q]);
      if t in RowsWanted(s, s.procs[q]) {
        WantedIsLocked(s, s.procs[p], t);
        WantedIsLocked(s, s.procs[q], t);
      }
    }
  }

  /** The locks are never waited for in a circle: while a transaction runs, some transaction can go on. */
  lemma NeverDeadlocked(actions: seq<Action>, states: seq<System>, i: nat, p: Pid) returns (q: Pid)
    requires IsRun(actions, states) && i < |states| && Running(states[i], p)
    ensures Running(states[i], q) && CanStep(states[i], q)
  {
    hide Inv, Enabled, Next;
    RunsKeepInv(actions, states, i);
    InvLocks(states[i]);
    q := Progress(states[i], p);
  }

  // ---------- The same transactions, each run alone ----------

  class Accounts {
    var users: map<UserId, bool>
    var tokens: Tokens

    constructor ()
      ensures users == map[] && tokens == map[]
    {
      users, tokens := map[], map[];
    }

    method LogIn(user: UserId, now: Time, id: TokenId, family: FamilyId) returns (reply: Reply)
      modifies this`tokens
      ensures reply == if user in users && users[user] then Issued(id) else Refused
      ensures reply.Issued? ==>
        tokens == old(tokens)[id := Token(user, family, None, now, now + 7 * DAY, now + 30 * DAY, None, None)]
      ensures !reply.Issued? ==> tokens == old(tokens)
    {
      if user !in users || !users[user] {
        return Refused;
      }
      tokens := tokens[id := Token(user, family, None, now, now + TOKEN_LIFE, now + FAMILY_LIFE, None, None)];
      return Issued(id);
    }

    method RevokeFamily(raw: TokenId, now: Time)
      modifies this`tokens
      ensures tokens.Keys == old(tokens).Keys
      ensures forall t | t in tokens ::
        var row := old(tokens)[t];
        tokens[t] ==
          if raw in old(tokens) && old(tokens)[raw].user in users && row.family == old(tokens)[raw].family
             && row.revokedAt.None?
          then row.(revokedAt := Some(now)) else row
    {
      if raw !in tokens || tokens[raw].user !in users {
        return;
      }
      var family := tokens[raw].family;
      tokens := map t | t in tokens ::
        if tokens[t].family == family && tokens[t].revokedAt.None?
        then tokens[t].(revokedAt := Some(now)) else tokens[t];
    }

    /** One child for an unused live token; the end of the family for a used one. */
    method RotateRefresh(raw: TokenId, now: Time, id: TokenId) returns (reply: Reply)
      requires id !in tokens
      modifies this`tokens
      ensures var before := old(tokens);
        var admitted := raw in before && before[raw].user in users && users[before[raw].user]
          && before[raw].revokedAt.None? && now < before[raw].expiresAt && now < before[raw].familyExpiresAt;
        if !admitted then reply == Refused && tokens == before
        else if before[raw].usedAt.Some? then
          && reply == Refused
          && tokens.Keys == before.Keys
          && forall t | t in tokens ::
               tokens[t] == if before[t].family == before[raw].family && before[t].revokedAt.None?
                            then before[t].(revokedAt := Some(now)) else before[t]
        else
          var row := before[raw];
          var expiresAt := if now + 7 * DAY <= row.familyExpiresAt then now + 7 * DAY else row.familyExpiresAt;
          && reply == Issued(id)
          && tokens == before
               [raw := row.(usedAt := Some(now))]
               [id := Token(row.user, row.family, Some(raw), now, expiresAt, row.familyExpiresAt, None, None)]
    {
      if raw !in tokens {
        return Refused;
      }
      var user := tokens[raw].user;
      if user !in users || !users[user] {
        return Refused;
      }
      var token := tokens[raw];
      if token.revokedAt.Some? || token.expiresAt <= now || token.familyExpiresAt <= now {
        return Refused;
      }
      if token.usedAt.Some? {
        RevokeFamily(raw, now);
        return Refused;
      }
      tokens := tokens[raw := token.(usedAt := Some(now))];
      var childExpires := Min(now + TOKEN_LIFE, token.familyExpiresAt);
      tokens := tokens[id :=
        Token(user, token.family, Some(raw), now, childExpires, token.familyExpiresAt, None, None)];
      return Issued(id);
    }

    method RevokeUserTokens(user: UserId, now: Time) returns (count: nat)
      modifies this`tokens
      ensures tokens.Keys == old(tokens).Keys
      ensures forall t | t in tokens ::
        tokens[t] == if old(tokens)[t].user == user && old(tokens)[t].revokedAt.None?
                     then old(tokens)[t].(revokedAt := Some(now)) else old(tokens)[t]
      ensures count == |set t | t in old(tokens) && old(tokens)[t].user == user && old(tokens)[t].revokedAt.None?|
    {
      var targets := OfUser(tokens, user);
      count := |targets|;
      assert targets == set t | t in old(tokens) && old(tokens)[t].user == user && old(tokens)[t].revokedAt.None?;
      tokens := map t | t in tokens :: if t in targets then tokens[t].(revokedAt := Some(now)) else tokens[t];
    }

    /** Disabling an enabled account revokes all it holds. */
    method SetEnabledState(user: UserId, to: bool, now: Time) returns (ok: bool)
      modifies this
      ensures ok <==> user in old(users)
      ensures users == if ok then old(users)[user := to] else old(users)
      ensures tokens.Keys == old(tokens).Keys
      ensures forall t | t in tokens ::
        var row := old(tokens)[t];
        tokens[t] == if ok && old(users)[user] && !to && row.user == user && row.revokedAt.None?
                     then row.(revokedAt := Some(now)) else row
    {
      if user !in users {
        return false;
      }
      var was := users[user];
      users := users[user := to];
      if was && !to {
        var n := RevokeUserTokens(user, now);
      }
      return true;
    }
  }
}
