/**
  Rate-limit buckets: calls that take the rows of all their buckets in sorted order, hold them to
  commit, and run in any interleaving.
 */
module RateLimit {
  import opened Sizes
  import opened Wrappers

  // The key (scope, identity_hash, window_start), read as its place in the order of such keys.
  type Bucket = nat
  type Pid = nat

  // A window length; a zero length would be a division by zero in the source.
  type Seconds = x: nat | 0 < x witness 1

  datatype Item = Item(bucket: Bucket, limit: nat, windowSeconds: Seconds)

  /** How often a list names a bucket. */
  function Times(items: seq<Item>, b: Bucket): nat {
    if items == [] then 0
    else Times(items[..|items| - 1], b) + if items[|items| - 1].bucket == b then 1 else 0
  }

  predicate IsSorted(items: seq<Item>) {
    forall i, j | 0 <= i <= j < |items| :: items[i].bucket <= items[j].bucket
  }

  /** sorted(buckets, key=...): stable insertion. */
  function Insert(items: seq<Item>, x: Item): seq<Item> {
    if items == [] || items[|items| - 1].bucket <= x.bucket then items + [x]
    else Insert(items[..|items| - 1], x) + [items[|items| - 1]]
  }

  function Sort(items: seq<Item>): seq<Item> {
    if items == [] then [] else Insert(Sort(items[..|items| - 1]), items[|items| - 1])
  }

  lemma {:induction false} InsertSorts(items: seq<Item>, x: Item, top: Bucket)
    requires IsSorted(items) && x.bucket <= top && forall i | 0 <= i < |items| :: items[i].bucket <= top
    ensures IsSorted(Insert(items, x)) && forall i | 0 <= i < |Insert(items, x)| :: Insert(items, x)[i].bucket <= top
  {
    if items != [] && x.bucket < items[|items| - 1].bucket {
      InsertSorts(items[..|items| - 1], x, items[|items| - 1].bucket);
    }
  }

  lemma {:induction false} InsertCounts(items: seq<Item>, x: Item, b: Bucket)
    ensures Times(Insert(items, x), b) == Times(items, b) + if x.bucket == b then 1 else 0
  {
    if items == [] || items[|items| - 1].bucket <= x.bucket {
      assert (items + [x])[..|items|] == items;
    } else {
      var init, last := items[..|items| - 1], items[|items| - 1];
      InsertCounts(init, x, b);
      assert (Insert(init, x) + [last])[..|Insert(init, x)|] == Insert(init, x);
    }
  }

  lemma {:induction false} InsertPermutes(items: seq<Item>, x: Item)
    ensures multiset(Insert(items, x)) == multiset(items) + multiset{x}
  {
    if items != [] && x.bucket < items[|items| - 1].bucket {
      InsertPermutes(items[..|items| - 1], x);
      assert items == items[..|items| - 1] + [items[|items| - 1]];
    }
  }

  lemma {:induction false} SortPermutes(items: seq<Item>)
    ensures multiset(Sort(items)) == multiset(items)
  {
    hide Insert;
    if items != [] {
      var init, last := items[..|items| - 1], items[|items| - 1];
      SortPermutes(init);
      InsertPermutes(Sort(init), last);
      assert multiset(items) == multiset(init) + multiset{last} by {
        assert items == init + [last];
      }
    }
  }

  lemma {:induction false} SortOrders(items: seq<Item>)
    ensures IsSorted(Sort(items))
    ensures forall b :: Times(Sort(items), b) == Times(items, b)
  {
    if items != [] {
      var init, last := items[..|items| - 1], items[|items| - 1];
      SortOrders(init);
      var top := if Sort(init) == [] || Sort(init)[|Sort(init)| - 1].bucket <= last.bucket
                 then last.bucket else Sort(init)[|Sort(init)| - 1].bucket;
      InsertSorts(Sort(init), last, top);
      forall b ensures Times(Sort(items), b) == Times(items, b) {
        InsertCounts(Sort(init), last, b);
      }
    }
  }

  /** Sorting orders the buckets, keeps the items with their limits, and names each bucket as often as before. */
  lemma SortSorts(items: seq<Item>)
    ensures IsSorted(Sort(items))
    ensures multiset(Sort(items)) == multiset(items)
    ensures forall b :: Times(Sort(items), b) == Times(items, b)
  {
    SortOrders(items);
    SortPermutes(items);
    hide *;
  }

  // ---------- Interleaved calls ----------

  /** seen has the counts that its statements so far have written and returned, one for each row taken. */
  datatype Call = Call(items: seq<Item>, seen: seq<nat>, committed: bool, lost: bool) {
    predicate Open() {
      !committed && !lost
    }

    predicate Took(b: Bucket) {
      |seen| <= |items| && exists i | 0 <= i < |seen| :: items[i].bucket == b
    }

    /** It committed and found no bucket over its limit: consume_rate_limits returned. */
    predicate Admitted() {
      committed && |seen| == |items| && forall i | 0 <= i < |items| :: seen[i] <= items[i].limit
    }
  }

  /** ledger is history: for each bucket, the calls whose increments make up its count, in order. */
  datatype System = System(
    counts: map<Bucket, nat>,
    locks: map<Bucket, Pid>,
    calls: map<Pid, Call>,
    ledger: map<Bucket, seq<Pid>>)

  datatype Action =
    | Start(p: Pid, buckets: seq<Item>)
    | Take(p: Pid)
    | Commit(p: Pid)
    | Abort(p: Pid)

  function Count(counts: map<Bucket, nat>, b: Bucket): nat {
    if b in counts then counts[b] else 0
  }

  function Ledger(s: System, b: Bucket): seq<Pid> {
    if b in s.ledger then s.ledger[b] else []
  }

  /** What the next statement of a call waits for. */
  predicate Waits(s: System, p: Pid) {
    && p in s.calls && s.calls[p].Open() && |s.calls[p].seen| < |s.calls[p].items|
  }

  function Wanted(s: System, p: Pid): Bucket
    requires Waits(s, p)
  {
    s.calls[p].items[|s.calls[p].seen|].bucket
  }

  predicate Enabled(s: System, a: Action) {
    match a
    case Start(p, _) => p !in s.calls
    case Take(p) =>
      && Waits(s, p)
      && var b := Wanted(s, p);
         (b in s.locks ==> s.locks[b] == p)
    case Commit(p) => p in s.calls && s.calls[p].Open() && |s.calls[p].seen| == |s.calls[p].items|
    case Abort(p) => p in s.calls && s.calls[p].Open()
  }

  function Named(items: seq<Item>): set<Bucket> {
    set i | 0 <= i < |items| :: items[i].bucket
  }

  function Release(locks: map<Bucket, Pid>, p: Pid): map<Bucket, Pid> {
    map b | b in locks && locks[b] != p :: locks[b]
  }

  function Repeat(p: Pid, n: nat): (r: seq<Pid>)
    ensures |r| == n && forall i | 0 <= i < n :: r[i] == p
  {
    seq(n, _ => p)
  }

  /** A row's count as its transaction sees it: what it wrote last, or else the committed count. */
  function RowCount(items: seq<Item>, seen: seq<nat>, b: Bucket, committed: nat): nat
    requires |seen| <= |items|
  {
    if seen == [] then committed
    else
      var last := |seen| - 1;
      if items[last].bucket == b then seen[last] else RowCount(items, seen[..last], b, committed)
  }

  function Next(s: System, a: Action): System
    requires Enabled(s, a)
  {
    match a
    case Start(p, buckets) => s.(calls := s.calls[p := Call(Sort(buckets), [], false, false)])
    case Take(p) =>
      var k, b := s.calls[p], Wanted(s, p);
      var count := RowCount(k.items, k.seen, b, Count(s.counts, b)) + 1;
      s.(locks := s.locks[b := p], calls := s.calls[p := k.(seen := k.seen + [count])])
    case Commit(p) =>
      // publishes what the statements have written, whatever is committed by now
      var k := s.calls[p];
      s.(counts := s.counts + map b | b in Named(k.items) :: RowCount(k.items, k.seen, b, 0),
         ledger := map b | b in s.ledger.Keys + Named(k.items) :: Ledger(s, b) + Repeat(p, Times(k.items, b)),
         locks := Release(s.locks, p),
         calls := s.calls[p := k.(committed := true)])
    case Abort(p) =>
      s.(locks := Release(s.locks, p), calls := s.calls[p := s.calls[p].(lost := true)])
  }

  ghost predicate Initial(s: System) {
    s.counts == map[] && s.locks == map[] && s.calls == map[] && s.ledger == map[]
  }

  ghost predicate IsRun(actions: seq<Action>, states: seq<System>) {
    && |states| == |actions| + 1
    && Initial(states[0])
    && forall i | 0 <= i < |actions| :: Enabled(states[i], actions[i]) && states[i + 1] == Next(states[i], actions[i])
  }

  // ---------- The invariant ----------

  /** A lock belongs to an open call that has taken the bucket. */
  ghost predicate LocksOk(s: System) {
    forall b | b in s.locks ::
      s.locks[b] in s.calls && s.calls[s.locks[b]].Open() && s.calls[s.locks[b]].Took(b)
  }

  /** An open call holds what it has taken, and saw counts that follow on from the committed ones. */
  ghost predicate CallOk(s: System, p: Pid) {
    p in s.calls ==>
      && var k := s.calls[p];
      && IsSorted(k.items) && |k.seen| <= |k.items|
      && !(k.committed && k.lost)
      && (k.committed ==> |k.seen| == |k.items|)
      && (k.Open() ==> forall i | 0 <= i < |k.seen| ::
            && k.items[i].bucket in s.locks && s.locks[k.items[i].bucket] == p
            && k.seen[i] == Count(s.counts, k.items[i].bucket) + Times(k.items[..i + 1], k.items[i].bucket))
      && (k.committed ==> forall i | 0 <= i < |k.items| ::
            0 < k.seen[i] <= |Ledger(s, k.items[i].bucket)| && Ledger(s, k.items[i].bucket)[k.seen[i] - 1] == p)
  }

  ghost predicate CallsOk(s: System) {
    forall p | p in s.calls :: CallOk(s, p)
  }

  function Namings(s: System, p: Pid, b: Bucket): nat {
    if p in s.calls && s.calls[p].committed then Times(s.calls[p].items, b) else 0
  }

  /** Each count is the length of its ledger, and each call is in it as often as it names the bucket. */
  ghost predicate CountsOk(s: System) {
    && (forall b :: Count(s.counts, b) == |Ledger(s, b)|)
    && (forall b, p :: multiset(Ledger(s, b))[p] == Namings(s, p, b))
  }

  ghost predicate Inv(s: System) {
    LocksOk(s) && CallsOk(s) && CountsOk(s)
  }

  // ---------- Each action keeps it ----------

  lemma {:induction false} TimesGrows(items: seq<Item>, n: nat, b: Bucket)
    requires n <= |items|
    ensures Times(items[..n], b) <= Times(items, b)
    ensures n < |items| && items[n].bucket == b ==> Times(items[..n + 1], b) == Times(items[..n], b) + 1
    decreases |items|
  {
    if n < |items| {
      assert items[..n + 1][..n] == items[..n];
      TimesGrows(items[..|items| - 1], n, b);
      assert items[..|items| - 1][..n] == items[..n];
    } else {
      assert items[..n] == items;
    }
  }

  lemma {:induction false} NotNamed(items: seq<Item>, b: Bucket)
    requires b !in Named(items)
    ensures Times(items, b) == 0
  {
    if items != [] {
      var init := items[..|items| - 1];
      assert items[|items| - 1].bucket in Named(items);
      assert forall i | 0 <= i < |init| :: init[i] == items[i];
      NotNamed(init, b);
    }
  }

  /** A row under a call's lock stands at the committed count plus the call's own namings so far. */
  lemma {:induction false} RowCountIs(items: seq<Item>, seen: seq<nat>, b: Bucket, committed: nat, c: nat)
    requires |seen| <= |items| && (b in Named(items[..|seen|]) || committed == c)
    requires forall i | 0 <= i < |seen| && items[i].bucket == b :: seen[i] == c + Times(items[..i + 1], b)
    ensures RowCount(items, seen, b, committed) == c + Times(items[..|seen|], b)
  {
    if seen != [] {
      var last := |seen| - 1;
      assert items[..|seen|][..last] == items[..last];
      if items[last].bucket != b {
        assert b in Named(items[..|seen|]) ==> b in Named(items[..last]);
        RowCountIs(items, seen[..last], b, committed, c);
      }
    }
  }

  /** The count a commit publishes for a bucket it names: what was committed when it took the row, plus its namings. */
  lemma PublishedCount(k: Call, b: Bucket, c: nat)
    requires |k.seen| == |k.items| && b in Named(k.items)
    requires forall i | 0 <= i < |k.seen| && k.items[i].bucket == b :: k.seen[i] == c + Times(k.items[..i + 1], b)
    ensures RowCount(k.items, k.seen, b, 0) == c + Times(k.items, b)
  {
    assert k.items[..|k.seen|] == k.items;
    RowCountIs(k.items, k.seen, b, 0, c);
  }

  /** Because the row was locked since it was taken, the published count extends the count committed now. */
  lemma CommitAdds(s: System, a: Action, b: Bucket)
    requires Enabled(s, a) && a.Commit? && CallOk(s, a.p)
    ensures Count(Next(s, a).counts, b) == Count(s.counts, b) + Times(s.calls[a.p].items, b)
    ensures Ledger(Next(s, a), b) == Ledger(s, b) + Repeat(a.p, Times(s.calls[a.p].items, b))
  {
    var k := s.calls[a.p];
    if b in Named(k.items) {
      PublishedCount(k, b, Count(s.counts, b));
    } else {
      NotNamed(k.items, b);
    }
    hide CallOk, RowCount, Times;
  }

  lemma NothingAdded(s: System, a: Action, b: Bucket)
    requires Enabled(s, a) && !a.Commit?
    ensures Next(s, a).counts == s.counts && Ledger(Next(s, a), b) == Ledger(s, b)
    ensures forall p :: Namings(Next(s, a), p, b) == Namings(s, p, b)
  {}

  lemma {:induction false} RepeatCounts(p: Pid, n: nat, q: Pid)
    ensures multiset(Repeat(p, n))[q] == if p == q then n else 0
  {
    if n > 0 {
      RepeatCounts(p, n - 1, q);
      assert Repeat(p, n) == Repeat(p, n - 1) + [p];
    }
  }

  lemma KeepsCountsOf(s: System, a: Action, b: Bucket, q: Pid)
    requires Enabled(s, a) && CallsOk(s) && CountsOk(s)
    ensures Count(Next(s, a).counts, b) == |Ledger(Next(s, a), b)|
    ensures multiset(Ledger(Next(s, a), b))[q] == Namings(Next(s, a), q, b)
  {
    if a.Commit? {
      assert CallOk(s, a.p);
      CommitAdds(s, a, b);
      RepeatCounts(a.p, Times(s.calls[a.p].items, b), q);
    } else {
      NothingAdded(s, a, b);
    }
  }

  lemma KeepsCounts(s: System, a: Action)
    requires Enabled(s, a) && CallsOk(s) && CountsOk(s)
    ensures CountsOk(Next(s, a))
  {
    hide Next, Enabled, CallsOk;
    forall b ensures Count(Next(s, a).counts, b) == |Ledger(Next(s, a), b)| {
      KeepsCountsOf(s, a, b, 0);
    }
    forall b, q ensures multiset(Ledger(Next(s, a), b))[q] == Namings(Next(s, a), q, b) {
      KeepsCountsOf(s, a, b, q);
    }
  }

  lemma CallFrame(s: System, a: Action, p: Pid)
    requires Enabled(s, a) && a.p != p
    ensures p in s.calls <==> p in Next(s, a).calls
    ensures p in s.calls ==> Next(s, a).calls[p] == s.calls[p]
    ensures forall b :: (b in s.locks && s.locks[b] == p) <==> (b in Next(s, a).locks && Next(s, a).locks[b] == p)
  {}

  lemma KeepsLock(s: System, a: Action, b: Bucket)
    requires Enabled(s, a) && LocksOk(s) && CallsOk(s) && b in Next(s, a).locks
    ensures var t := Next(s, a);
      t.locks[b] in t.calls && t.calls[t.locks[b]].Open() && t.calls[t.locks[b]].Took(b)
  {
    var t := Next(s, a);
    var p := t.locks[b];
    if a.p != p {
      CallFrame(s, a, p);
      hide Next;
    } else if a.Take? {
      var k := s.calls[p];
      if b != Wanted(s, p) {
        var i :| 0 <= i < |k.seen| && k.items[i].bucket == b;
        assert t.calls[p].items[i].bucket == b;
      } else {
        assert t.calls[p].items[|k.seen|].bucket == b;
      }
    }
  }

  lemma KeepsLocks(s: System, a: Action)
    requires Enabled(s, a) && LocksOk(s) && CallsOk(s)
    ensures LocksOk(Next(s, a))
  {
    hide Next, Enabled, CallsOk;
    forall b | b in Next(s, a).locks
      ensures var t := Next(s, a);
        t.locks[b] in t.calls && t.calls[t.locks[b]].Open() && t.calls[t.locks[b]].Took(b)
    {
      KeepsLock(s, a, b);
    }
  }

  /** Rows that a call has locked do not change under it; committed ledgers only grow at the end. */
  lemma RowsHeld(s: System, a: Action, p: Pid, b: Bucket)
    requires Enabled(s, a) && CallsOk(s) && a.p != p
    ensures b in s.locks && s.locks[b] == p ==> Count(Next(s, a).counts, b) == Count(s.counts, b)
    ensures Ledger(s, b) <= Ledger(Next(s, a), b)
  {
    if a.Commit? {
      var k := s.calls[a.p];
      assert CallOk(s, a.p);
      CommitAdds(s, a, b);
      if b in s.locks && s.locks[b] == p {
        assert b !in Named(k.items);
        NotNamed(k.items, b);
      }
    } else {
      NothingAdded(s, a, b);
    }
  }

  lemma BystanderOk(s: System, a: Action, p: Pid)
    requires Enabled(s, a) && CallsOk(s) && a.p != p && p in s.calls
    ensures CallOk(Next(s, a), p)
  {
    hide Next, Enabled;
    assert CallOk(s, p);
    CallFrame(s, a, p);
    forall b
      ensures b in s.locks && s.locks[b] == p ==> Count(Next(s, a).counts, b) == Count(s.counts, b)
      ensures Ledger(s, b) <= Ledger(Next(s, a), b)
    {
      RowsHeld(s, a, p, b);
    }
    hide CallsOk, Times, IsSorted, Count, Ledger;
  }

  lemma TakerOk(s: System, a: Action)
    requires Enabled(s, a) && CallsOk(s) && a.Take?
    ensures CallOk(Next(s, a), a.p)
  {
    assert CallOk(s, a.p);
    var k, b := s.calls[a.p], Wanted(s, a.p);
    var n := |k.seen|;
    RowCountIs(k.items, k.seen, b, Count(s.counts, b), Count(s.counts, b));
    TimesGrows(k.items, n, b);
    TookNext(s, a);
    hide CallsOk, Times, RowCount, IsSorted, Next, Enabled;
  }

  lemma TookNext(s: System, a: Action)
    requires Enabled(s, a) && a.Take?
    ensures var k, b, t := s.calls[a.p], Wanted(s, a.p), Next(s, a);
      && b in t.locks && t.locks[b] == a.p
      && (forall c | c in s.locks && c != b :: c in t.locks && t.locks[c] == s.locks[c])
      && t.counts == s.counts && t.ledger == s.ledger && |k.seen| <= |k.items|
      && a.p in t.calls && t.calls[a.p] == k.(seen := k.seen + [RowCount(k.items, k.seen, b, Count(s.counts, b)) + 1])
  {
    hide RowCount, Times;
  }

  /** The places a commit gives its increments are the counts that its statements returned. */
  lemma SeenIsPlace(s: System, a: Action, i: nat)
    requires Enabled(s, a) && CallOk(s, a.p) && CountsOk(s) && a.Commit? && i < |s.calls[a.p].items|
    ensures var k, b := s.calls[a.p], s.calls[a.p].items[i].bucket;
      0 < k.seen[i] <= |Ledger(Next(s, a), b)| && Ledger(Next(s, a), b)[k.seen[i] - 1] == a.p
  {
    var k, b := s.calls[a.p], s.calls[a.p].items[i].bucket;
    assert k.seen[i] == Count(s.counts, b) + Times(k.items[..i + 1], b);
    CommitAdds(s, a, b);
    TimesGrows(k.items, i, b);
    TimesGrows(k.items, i + 1, b);
    hide CallOk, Times, Next;
  }

  lemma CommitterOk(s: System, a: Action)
    requires Enabled(s, a) && CallsOk(s) && CountsOk(s) && a.Commit?
    ensures CallOk(Next(s, a), a.p)
  {
    hide CountsOk, Ledger, Count, Times;
    assert CallOk(s, a.p);
    var k, t := s.calls[a.p], Next(s, a);
    forall i | 0 <= i < |k.items|
      ensures 0 < k.seen[i] <= |Ledger(t, k.items[i].bucket)| && Ledger(t, k.items[i].bucket)[k.seen[i] - 1] == a.p
    {
      SeenIsPlace(s, a, i);
    }
  }

  lemma OthersOk(s: System, a: Action)
    requires Enabled(s, a) && CallsOk(s) && (a.Start? || a.Abort?)
    ensures CallOk(Next(s, a), a.p)
  {
    if a.Start? {
      SortSorts(a.buckets);
    } else {
      assert CallOk(s, a.p);
    }
  }

  lemma KeepsCalls(s: System, a: Action)
    requires Enabled(s, a) && CallsOk(s) && CountsOk(s)
    ensures CallsOk(Next(s, a))
  {
    hide Next, Enabled, CallOk, CountsOk;
    forall p | p in Next(s, a).calls ensures CallOk(Next(s, a), p) {
      if p != a.p {
        CallFrame(s, a, p);
        BystanderOk(s, a, p);
      } else if a.Take? {
        TakerOk(s, a);
      } else if a.Commit? {
        CommitterOk(s, a);
      } else {
        OthersOk(s, a);
      }
    }
  }

  lemma ActionKeepsInv(s: System, a: Action)
    requires Enabled(s, a) && Inv(s)
    ensures Inv(Next(s, a))
  {
    KeepsLocks(s, a);
    KeepsCalls(s, a);
    KeepsCounts(s, a);
    hide LocksOk, CallsOk, CountsOk, Next, Enabled;
  }

  lemma {:induction false} RunsKeepInv(actions: seq<Action>, states: seq<System>, i: nat)
    requires IsRun(actions, states) && i < |states|
    ensures Inv(states[i])
  {
    hide Inv, Enabled, Next;
    if i == 0 {
      InitialInv(states[0]);
    } else {
      RunsKeepInv(actions, states, i - 1);
      ActionKeepsInv(states[i - 1], actions[i - 1]);
    }
  }

  lemma InitialInv(s: System)
    requires Initial(s)
    ensures Inv(s)
  {}

  // ---------- What is promised ----------

  predicate CanStep(s: System, p: Pid) {
    Enabled(s, Take(p)) || Enabled(s, Commit(p))
  }

  function LockedAbove(s: System, b: Bucket): set<Bucket> {
    set c | c in s.locks && b < c
  }

  /** Whoever holds the bucket that p waits for is further along the order. */
  lemma HolderIsAhead(s: System, p: Pid)
    requires LocksOk(s) && CallsOk(s) && Waits(s, p) && !CanStep(s, p)
    ensures Wanted(s, p) in s.locks
    ensures var q := s.locks[Wanted(s, p)];
      q in s.calls && s.calls[q].Open() && (CanStep(s, q) || (Waits(s, q) && Wanted(s, p) < Wanted(s, q)))
  {
    var b := Wanted(s, p);
    var q := s.locks[b];
    HolderOf(s, b);
    hide LocksOk, CallsOk;
  }

  /** The holder of b can commit, or wants b or something after it. */
  lemma HolderOf(s: System, b: Bucket)
    requires LocksOk(s) && CallsOk(s) && b in s.locks
    ensures var q := s.locks[b];
      && q in s.calls && s.calls[q].Open()
      && (|s.calls[q].seen| == |s.calls[q].items| || (Waits(s, q) && b <= Wanted(s, q)))
  {}

  lemma {:induction false} SomeoneSteps(s: System, p: Pid)
    requires LocksOk(s) && CallsOk(s) && p in s.calls && s.calls[p].Open()
    ensures exists q :: q in s.calls && s.calls[q].Open() && CanStep(s, q)
    decreases if Waits(s, p) then |LockedAbove(s, Wanted(s, p))| + 1 else 0
  {
    assert CallOk(s, p);
    if !CanStep(s, p) {
      HolderIsAhead(s, p);
      var q := s.locks[Wanted(s, p)];
      if !CanStep(s, q) {
        HolderIsAhead(s, q);
        FewerAbove(s, Wanted(s, p), Wanted(s, q));
        SomeoneSteps(s, q);
      }
    }
  }

  lemma FewerAbove(s: System, b: Bucket, c: Bucket)
    requires b < c && c in s.locks
    ensures |LockedAbove(s, c)| < |LockedAbove(s, b)|
  {
    SmallerSet(LockedAbove(s, c), LockedAbove(s, b), c);
  }

  /** No deadlock: as long as a call is open, some open call can take its next row or commit. */
  lemma NeverDeadlocked(actions: seq<Action>, states: seq<System>, i: nat, p: Pid)
    requires IsRun(actions, states) && i < |states| && p in states[i].calls && states[i].calls[p].Open()
    ensures exists q :: q in states[i].calls && states[i].calls[q].Open() && CanStep(states[i], q)
  {
    RunsKeepInv(actions, states, i);
    hide Next, LocksOk, CallsOk, CanStep;
    SomeoneSteps(states[i], p);
  }

  /** A count is made up of the committed calls that name its bucket, admitted or refused, and of nothing else. */
  lemma CountsAreExact(actions: seq<Action>, states: seq<System>, i: nat, b: Bucket)
    requires IsRun(actions, states) && i < |states|
    ensures Count(states[i].counts, b) == |Ledger(states[i], b)|
    ensures forall p :: multiset(Ledger(states[i], b))[p] == Namings(states[i], p, b)
  {
    RunsKeepInv(actions, states, i);
    hide Next, Enabled;
  }

  /** The calls that a bucket of the given limit let through. */
  function AdmittedUnder(s: System, b: Bucket, limit: nat): set<Pid> {
    set p | p in s.calls && s.calls[p].Admitted() && IsLimited(s.calls[p].items, b, limit)
  }

  predicate IsLimited(items: seq<Item>, b: Bucket, limit: nat) {
    exists i | 0 <= i < |items| :: items[i].bucket == b && items[i].limit <= limit
  }

  lemma {:induction false} FewNames(names: seq<Pid>, found: set<Pid>)
    requires forall p | p in found :: p in names
    ensures |found| <= |names|
  {
    if names != [] {
      var last, init := names[|names| - 1], names[..|names| - 1];
      assert forall p | p in names :: p == last || p in init;
      FewNames(init, found - {last});
      SubsetSize(found, (found - {last}) + {last});
    } else {
      assert found == {};
    }
  }

  /** In any run, at most limit calls are admitted by a bucket. */
  lemma AtMostLimitAdmitted(actions: seq<Action>, states: seq<System>, i: nat, b: Bucket, limit: nat)
    requires IsRun(actions, states) && i < |states|
    ensures |AdmittedUnder(states[i], b, limit)| <= limit
  {
    RunsKeepInv(actions, states, i);
    hide Next, Enabled, IsRun;
    var s := states[i];
    var ledger := Ledger(s, b);
    var first := if |ledger| <= limit then ledger else ledger[..limit];
    forall p | p in AdmittedUnder(s, b, limit) ensures p in first {
      var k := s.calls[p];
      var j :| 0 <= j < |k.items| && k.items[j].bucket == b && k.items[j].limit <= limit;
      assert CallOk(s, p);
      assert first[k.seen[j] - 1] == p;
    }
    FewNames(first, AdmittedUnder(s, b, limit));
  }

  /**
    Which calls are let through: in every interleaving, exactly those that at their commit find every
    bucket's committed count, and their own namings so far, within the limit. This is what Consume
    decides for a call that runs alone.
   */
  lemma AdmittedExactly(actions: seq<Action>, states: seq<System>, i: nat)
    requires IsRun(actions, states) && i < |actions| && actions[i].Commit?
    ensures actions[i].p in states[i].calls && actions[i].p in states[i + 1].calls
    ensures var counts, k := states[i].counts, states[i].calls[actions[i].p];
      states[i + 1].calls[actions[i].p].Admitted() <==>
        forall j | 0 <= j < |k.items| ::
          Count(counts, k.items[j].bucket) + Times(k.items[..j + 1], k.items[j].bucket) <= k.items[j].limit
  {
    RunsKeepInv(actions, states, i);
    var s, p := states[i], actions[i].p;
    assert Enabled(s, actions[i]) && CallOk(s, p);
    var k, after := s.calls[p], states[i + 1].calls[p];
    assert after == k.(committed := true);
    hide Next, Enabled, LocksOk, CountsOk, IsRun, CallsOk;
    forall j | 0 <= j < |k.items|
      ensures k.seen[j] == Count(s.counts, k.items[j].bucket) + Times(k.items[..j + 1], k.items[j].bucket)
    {}
  }

  /** A refusal is never wrong: one of the buckets has been counted past the limit given for it. */
  lemma RefusedIsOver(actions: seq<Action>, states: seq<System>, i: nat, p: Pid) returns (j: nat)
    requires IsRun(actions, states) && i < |states| && p in states[i].calls
    requires states[i].calls[p].committed && !states[i].calls[p].Admitted()
    ensures j < |states[i].calls[p].items|
    ensures var item := states[i].calls[p].items[j]; Count(states[i].counts, item.bucket) > item.limit
  {
    RunsKeepInv(actions, states, i);
    var s, k := states[i], states[i].calls[p];
    assert CallOk(s, p);
    hide Next, Enabled, LocksOk, IsRun, CallsOk;
    j :| 0 <= j < |k.items| && k.seen[j] > k.items[j].limit;
    assert Count(s.counts, k.items[j].bucket) == |Ledger(s, k.items[j].bucket)|;
  }

  // ---------- One call ----------

  /** window_start_for, in whole seconds. */
  function WindowStart(now: nat, windowSeconds: Seconds): nat {
    now - now % windowSeconds
  }

  function Max(a: int, b: int): int {
    if a < b then b else a
  }

  function RetryAfter(now: nat, windowSeconds: Seconds): int {
    Max(1, windowSeconds - now % windowSeconds)
  }

  lemma ModOfMultiple(q: nat, d: nat)
    requires d > 0
    ensures (q * d) % d == 0
  {
    SameQuotient((q * d) / d, (q * d) % d, q, 0, d);
  }

  /** Waiting for the time a refusal names leads exactly to the start of the next window. */
  lemma RetryOpensNextWindow(now: nat, windowSeconds: Seconds)
    ensures 1 <= RetryAfter(now, windowSeconds) <= windowSeconds
    ensures WindowStart(now, windowSeconds) <= now < WindowStart(now, windowSeconds) + windowSeconds
    ensures now + RetryAfter(now, windowSeconds) == WindowStart(now, windowSeconds) + windowSeconds
    ensures WindowStart(now + RetryAfter(now, windowSeconds), windowSeconds)
         == WindowStart(now, windowSeconds) + windowSeconds
  {
    var q, w := now / windowSeconds, windowSeconds;
    assert now == q * w + now % w;
    var next := now + RetryAfter(now, w);
    assert next == (q + 1) * w;
    ModOfMultiple(q + 1, w);
  }

  /** The count that item i of a call finds, if the call runs alone. */
  function Seen(counts: map<Bucket, nat>, items: seq<Item>, i: nat): nat
    requires i < |items|
  {
    Count(counts, items[i].bucket) + Times(items[..i + 1], items[i].bucket)
  }

  predicate Over(counts: map<Bucket, nat>, items: seq<Item>, i: nat)
    requires i < |items|
  {
    Seen(counts, items, i) > items[i].limit
  }

  /** The longest wait among the first n items that are over their limit, if any is. */
  ghost predicate IsLongestWait(counts: map<Bucket, nat>, items: seq<Item>, n: nat, now: nat -> nat, wait: Option<int>)
    requires n <= |items|
  {
    && (wait.None? ==> forall i | 0 <= i < n :: !Over(counts, items, i))
    && (wait.Some? ==> forall i | 0 <= i < n && Over(counts, items, i) ::
          RetryAfter(now(i), items[i].windowSeconds) <= wait.value)
    && (wait.Some? ==> exists i | 0 <= i < n ::
          Over(counts, items, i) && wait.value == RetryAfter(now(i), items[i].windowSeconds))
  }

  lemma LongestStep(counts: map<Bucket, nat>, items: seq<Item>, n: nat, now: nat -> nat, wait: Option<int>)
    requires n < |items| && IsLongestWait(counts, items, n, now, wait)
    ensures !Over(counts, items, n) ==> IsLongestWait(counts, items, n + 1, now, wait)
    ensures Over(counts, items, n) ==>
      var w := RetryAfter(now(n), items[n].windowSeconds);
      IsLongestWait(counts, items, n + 1, now, if wait.None? || w > wait.value then Some(w) else wait)
  {}

  class Limiter {
    var counts: map<Bucket, nat>

    constructor ()
      ensures counts == map[]
    {
      counts := map[];
    }

    /**
      now(i) is the wall clock, in seconds, at the i-th bucket. Every bucket is counted, also when
      the call is refused; the refusal names the longest wait among the buckets over their limit.
     */
    method Consume(buckets: seq<Item>, now: nat -> nat) returns (retryAfter: Option<int>)
      modifies this
      ensures forall b :: Count(counts, b) == Count(old(counts), b) + Times(buckets, b)
      ensures retryAfter.None? <==>
        forall i | 0 <= i < |Sort(buckets)| ::
          var item := Sort(buckets)[i];
          Count(old(counts), item.bucket) + Times(Sort(buckets)[..i + 1], item.bucket) <= item.limit
      ensures IsLongestWait(old(counts), Sort(buckets), |Sort(buckets)|, now, retryAfter)
    {
      SortSorts(buckets);
      var items := Sort(buckets);
      hide Sort, IsSorted, IsLongestWait, RetryAfter, Times;
      retryAfter := None;
      NothingYet(old(counts), items, now);
      for i := 0 to |items|
        invariant forall b :: Count(counts, b) == Count(old(counts), b) + Times(items[..i], b)
        invariant IsLongestWait(old(counts), items, i, now, retryAfter)
      {
        TimesStep(items, i);
        LongestStep(old(counts), items, i, now, retryAfter);
        var current := Count(counts, items[i].bucket) + 1;
        counts := counts[items[i].bucket := current];
        if current > items[i].limit {
          var wait := RetryAfter(now(i), items[i].windowSeconds);
          if retryAfter.None? || wait > retryAfter.value {
            retryAfter := Some(wait);
          }
        }
      }
      assert items[..|items|] == items;
      NoneOver(old(counts), items, now, retryAfter);
    }
  }

  lemma NoneOver(counts: map<Bucket, nat>, items: seq<Item>, now: nat -> nat, wait: Option<int>)
    requires IsLongestWait(counts, items, |items|, now, wait)
    ensures wait.None? <==>
      forall i | 0 <= i < |items| ::
        Count(counts, items[i].bucket) + Times(items[..i + 1], items[i].bucket) <= items[i].limit
  {
    hide Times, RetryAfter;
    if wait.Some? {
      var i :| 0 <= i < |items| && Over(counts, items, i) && wait.value == RetryAfter(now(i), items[i].windowSeconds);
      assert Count(counts, items[i].bucket) + Times(items[..i + 1], items[i].bucket) > items[i].limit;
    } else {
      forall i | 0 <= i < |items|
        ensures Count(counts, items[i].bucket) + Times(items[..i + 1], items[i].bucket) <= items[i].limit
      {
        assert !Over(counts, items, i);
      }
    }
  }

  lemma NothingYet(counts: map<Bucket, nat>, items: seq<Item>, now: nat -> nat)
    ensures IsLongestWait(counts, items, 0, now, None)
    ensures forall b :: Times(items[..0], b) == 0
  {}

  lemma TimesStep(items: seq<Item>, i: nat)
    requires i < |items|
    ensures forall b :: Times(items[..i + 1], b) == Times(items[..i], b) + if items[i].bucket == b then 1 else 0
  {
    assert items[..i + 1][..i] == items[..i];
  }
}
