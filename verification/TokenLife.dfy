/**
  How long refresh tokens can be used: seven days from the login or rotation that made them, and no
  longer than thirty days from the login of their family.
 */
module TokenLife {
  import opened Times
  import opened Wrappers
  import opened RefreshTokens

  // ---------- Dates ----------

  /** The dates of a token, against those of its parent. */
  predicate DatedOk(tokens: Tokens, t: TokenId)
    requires t in tokens
  {
    && var row := tokens[t];
    && row.expiresAt ==
         (if row.createdAt + 7 * DAY <= row.familyExpiresAt then row.createdAt + 7 * DAY else row.familyExpiresAt)
    && (row.parent.None? ==> row.familyExpiresAt == row.createdAt + 30 * DAY)
    && (row.parent.Some? ==>
          && row.parent.value in tokens
          && tokens[row.parent.value].usedAt == Some(row.createdAt))
  }

  ghost predicate DatesOk(tokens: Tokens) {
    forall t | t in tokens :: DatedOk(tokens, t)
  }

  /** A token that is used stays used as of the same instant. */
  lemma UsedStays(s: System, a: Action, t: TokenId)
    requires Enabled(s, a) && MintedOk(s) && ProcsOk(s) && t in s.tokens && s.tokens[t].usedAt.Some?
    ensures t in Next(s, a).tokens && Next(s, a).tokens[t].usedAt == s.tokens[t].usedAt
  {}

  lemma OldDates(s: System, a: Action, t: TokenId)
    requires Enabled(s, a) && MintedOk(s) && ProcsOk(s) && t in s.tokens && DatedOk(s.tokens, t)
    ensures t in Next(s, a).tokens && DatedOk(Next(s, a).tokens, t)
  {
    hide Enabled, Next, MintedOk, ProcsOk;
    RowsStay(s, a, t);
    if s.tokens[t].parent.Some? {
      UsedStays(s, a, s.tokens[t].parent.value);
    }
  }

  lemma NewDates(s: System, a: Action, t: TokenId)
    requires Enabled(s, a) && MintedOk(s) && ProcsOk(s) && t !in s.tokens && t in Next(s, a).tokens
    ensures DatedOk(Next(s, a).tokens, t)
  {
    NewRow(s, a, t);
  }

  lemma KeepsDates(s: System, a: Action)
    requires Enabled(s, a) && MintedOk(s) && ProcsOk(s) && DatesOk(s.tokens)
    ensures DatesOk(Next(s, a).tokens)
  {
    hide Enabled, Next, MintedOk, ProcsOk, DatedOk;
    forall t | t in Next(s, a).tokens ensures DatedOk(Next(s, a).tokens, t) {
      if t in s.tokens {
        OldDates(s, a, t);
      } else {
        NewDates(s, a, t);
      }
    }
  }

  lemma {:induction false} RunsKeepDates(actions: seq<Action>, states: seq<System>, i: nat)
    requires IsRun(actions, states) && i < |states|
    ensures DatesOk(states[i].tokens)
  {
    hide Enabled, Next, Inv;
    if i > 0 {
      RunsKeepDates(actions, states, i - 1);
      RunsKeepInv(actions, states, i - 1);
      InvProcs(states[i - 1]);
      RunActs(actions, states, i - 1);
      KeepsDates(states[i - 1], actions[i - 1]);
    }
  }

  /** All tokens of a family share the family expiry of its root. */
  lemma FamilyExpiry(tokens: Tokens, t: TokenId, root: TokenId)
    requires Chained(tokens) && t in tokens && root in tokens && tokens[t].family == tokens[root].family
    ensures tokens[t].familyExpiresAt == tokens[root].familyExpiresAt
  {
    hide IsLinked;
    var chain :| IsChain(tokens, tokens[t].family, chain);
    var i :| 0 <= i < |chain| && chain[i] == t;
    var j :| 0 <= j < |chain| && chain[j] == root;
    assert Agrees(tokens[chain[i]], tokens[chain[0]]) && Agrees(tokens[chain[j]], tokens[chain[0]]);
  }

  /**
    The dates of every token in every reachable state, given the root of its family: it expires seven
    days after it was created, or thirty days after its root was if that comes first; and its parent
    was used at the instant it was created.
   */
  lemma TokenDates(actions: seq<Action>, states: seq<System>, i: nat, t: TokenId, root: TokenId)
    requires IsRun(actions, states) && i < |states| && t in states[i].tokens && root in states[i].tokens
    requires states[i].tokens[root].family == states[i].tokens[t].family && states[i].tokens[root].parent.None?
    ensures var tokens := states[i].tokens;
      var week, month := tokens[t].createdAt + 7 * DAY, tokens[root].createdAt + 30 * DAY;
      && tokens[t].familyExpiresAt == month
      && tokens[t].expiresAt == (if week <= month then week else month)
      && (tokens[t].parent.Some? ==>
            && tokens[t].parent.value in tokens
            && tokens[tokens[t].parent.value].usedAt == Some(tokens[t].createdAt))
  {
    RunsKeepDates(actions, states, i);
    RunsKeepInv(actions, states, i);
    hide Enabled, Next, MintedOk, ProcsOk, Compatible, Chained, IsRun, DisabledHoldNone;
    FamilyExpiry(states[i].tokens, t, root);
    assert DatedOk(states[i].tokens, t) && DatedOk(states[i].tokens, root);
  }

  // ---------- Who made a token, and when ----------

  /** The commit of a login or rotation at the given instant adds token t. */
  predicate Mints(s: System, a: Action, t: TokenId, parent: Option<TokenId>, now: Time) {
    && a.Commit? && a.p in s.procs && s.procs[a.p].phase.Minted? && s.procs[a.p].phase.id == t
    && match s.procs[a.p].job
       case Login(_, at) => at == now && parent.None?
       case Rotate(raw, at) => at == now && parent == Some(raw)
       case _ => false
  }

  lemma NewIsMinted(s: System, a: Action, t: TokenId)
    requires Enabled(s, a) && ProcsOk(s) && t !in s.tokens && t in Next(s, a).tokens
    ensures Mints(s, a, t, Next(s, a).tokens[t].parent, Next(s, a).tokens[t].createdAt)
  {}

  /** Every token was made by a login or a rotation of the run, and created_at is the instant of that request. */
  lemma {:induction false} MadeByRequest(actions: seq<Action>, states: seq<System>, i: nat, t: TokenId) returns (j: nat)
    requires IsRun(actions, states) && i < |states| && t in states[i].tokens
    ensures j < i && j < |actions|
    ensures Mints(states[j], actions[j], t, states[i].tokens[t].parent, states[i].tokens[t].createdAt)
  {
    assert i > 0;
    hide Enabled, Next, Inv, Mints, Initial;
    RunsKeepInv(actions, states, i - 1);
    InvProcs(states[i - 1]);
    RunActs(actions, states, i - 1);
    if t in states[i - 1].tokens {
      RowsStay(states[i - 1], actions[i - 1], t);
      j := MadeByRequest(actions, states, i - 1, t);
    } else {
      NewIsMinted(states[i - 1], actions[i - 1], t);
      j := i - 1;
    }
  }

  // ---------- How long sessions last ----------

  lemma WriterReads(s: System, a: Action)
    requires Enabled(s, a) && a.Write? && At(s, a.p).job.Rotate? && ProcsOk(s)
    ensures At(s, a.p).job.raw in s.tokens
  {}

  /**
    When a rotation comes to its write, it mints a child exactly if the token presented is unused and
    unrevoked, was made less than seven days and its family less than thirty days before the request.
   */
  lemma RotatesWithinItsWeek(actions: seq<Action>, states: seq<System>, i: nat, root: TokenId)
    requires IsRun(actions, states) && i < |actions|
    requires actions[i].Write? && At(states[i], actions[i].p).job.Rotate?
    requires root in states[i].tokens && states[i].tokens[root].parent.None?
    requires var raw := At(states[i], actions[i].p).job.raw;
      raw in states[i].tokens ==> states[i].tokens[raw].family == states[i].tokens[root].family
    ensures At(states[i], actions[i].p).job.raw in states[i].tokens
    ensures var tokens, job := states[i].tokens, At(states[i], actions[i].p).job;
      var raw, now := job.raw, job.now;
      At(states[i + 1], actions[i].p).phase.Minted? <==>
        && tokens[raw].usedAt.None? && tokens[raw].revokedAt.None?
        && now < tokens[raw].createdAt + 7 * DAY
        && now < tokens[root].createdAt + 30 * DAY
  {
    RunsKeepInv(actions, states, i);
    InvProcs(states[i]);
    RunActs(actions, states, i);
    WriterReads(states[i], actions[i]);
    hide Enabled, Next, Inv, IsRun, ProcsOk, MintedOk;
    TokenDates(actions, states, i, At(states[i], actions[i].p).job.raw, root);
    ReuseIsDetected(states[i], actions[i]);
  }

  /** Whoever gets a child by rotation presents a token that a request made less than seven days before. */
  lemma IdleTokensDie(actions: seq<Action>, states: seq<System>, i: nat) returns (j: nat, made: Time)
    requires IsRun(actions, states) && i < |actions|
    requires actions[i].Write? && At(states[i], actions[i].p).job.Rotate?
    requires At(states[i + 1], actions[i].p).phase.Minted?
    ensures j < i
    ensures exists parent :: Mints(states[j], actions[j], At(states[i], actions[i].p).job.raw, parent, made)
    ensures At(states[i], actions[i].p).job.now < made + 7 * DAY
  {
    RunsKeepInv(actions, states, i);
    InvProcs(states[i]);
    RunActs(actions, states, i);
    WriterReads(states[i], actions[i]);
    hide Enabled, Next, IsRun, ProcsOk, MintedOk, Mints;
    var raw := At(states[i], actions[i].p).job.raw;
    j := MadeByRequest(actions, states, i, raw);
    made := states[i].tokens[raw].createdAt;
    RunsKeepDates(actions, states, i);
    assert DatedOk(states[i].tokens, raw);
    ReuseIsDetected(states[i], actions[i]);
  }
}
