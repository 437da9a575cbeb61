/**
  Keyset pages of a queue that changes while it is paged through.
 */
module Paging {
  import opened Times
  import opened Wrappers
  import opened Inventory
  import opened Promotion

  lemma SameEmptiness(p: seq<EntryId>, q: seq<EntryId>)
    requires forall e :: e in p <==> e in q
    ensures p == [] <==> q == []
  {
    if |p| > 0 {
      assert p[0] in q;
    }
    if |q| > 0 {
      assert q[0] in p;
    }
  }

  /** Two ordered listings of the same entries are the same listing. */
  lemma {:induction false} OrderedUnique(es: Entries, p: seq<EntryId>, q: seq<EntryId>)
    requires Ordered(es, p) && Ordered(es, q)
    requires forall e :: e in p <==> e in q
    ensures p == q
  {
    SameEmptiness(p, q);
    if p != [] {
      assert p[0] in q && q[0] in p;
      var i :| 0 <= i < |q| && q[i] == p[0];
      var j :| 0 <= j < |p| && p[j] == q[0];
      assert j > 0 ==> KeyOf(es, p[0]).Less(KeyOf(es, p[j]));
      assert i > 0 ==> KeyOf(es, q[0]).Less(KeyOf(es, q[i]));
      assert p[0] == q[0];
      OrderedTail(es, p);
      OrderedTail(es, q);
      forall e ensures e in p[1..] <==> e in q[1..] {
        InTail(p, e);
        InTail(q, e);
      }
      OrderedUnique(es, p[1..], q[1..]);
    }
  }

  lemma OrderedTail(es: Entries, p: seq<EntryId>)
    requires Ordered(es, p) && p != []
    ensures Ordered(es, p[1..]) && p[0] !in p[1..]
  {}

  lemma InTail(p: seq<EntryId>, e: EntryId)
    requires p != [] && p[0] !in p[1..]
    ensures e in p[1..] <==> e in p && e != p[0]
  {}

  /** Where a scan has come to: the key of the last entry it handled. */
  function Cursor(es: Entries, q: seq<EntryId>, k: nat): Option<Key>
    requires k <= |q| && forall i | 0 <= i < |q| :: q[i] in es
  {
    if k == 0 then None else Some(KeyOf(es, q[k - 1]))
  }

  lemma OrderedAt(es: Entries, q: seq<EntryId>, i: nat, j: nat)
    requires Ordered(es, q) && i <= j < |q|
    ensures q[i] in es && q[j] in es
    ensures i < j ==> KeyOf(es, q[i]).Less(KeyOf(es, q[j]))
  {}

  /** An entry the scan has passed is not after the cursor. */
  lemma PassedIsBehind(clock: Clock, s: Db, r: ResourceId, q: seq<EntryId>, k: nat, i: nat)
    requires IsQueue(s, r, q) && i < k <= |q|
    ensures q[i] !in WaitingAfter(At(clock, s, q, k).entries, r, Cursor(s.entries, q, k))
  {
    AtStart(clock, s, q);
    AtExtends(clock, s, q, 0, k);
    OrderedAt(s.entries, q, i, k - 1);
    hide At, IsQueue;
  }

  /** An entry still to come waits after the cursor. */
  lemma ComingIsAhead(clock: Clock, s: Db, r: ResourceId, q: seq<EntryId>, k: nat, i: nat)
    requires IsQueue(s, r, q) && k <= i < |q|
    ensures q[i] in WaitingAfter(At(clock, s, q, k).entries, r, Cursor(s.entries, q, k))
  {
    QueueDistinct(s, r, q);
    AtFrame(clock, s, q, 0, k, q[i]);
    AtStart(clock, s, q);
    if k > 0 {
      OrderedAt(s.entries, q, k - 1, i);
    }
    hide At;
  }

  /** An entry outside the queue does not begin to wait. */
  lemma OthersDoNotWait(clock: Clock, s: Db, r: ResourceId, q: seq<EntryId>, k: nat, e: EntryId)
    requires IsQueue(s, r, q) && k <= |q| && e in s.entries && e !in q && !s.entries[e].WaitsFor(r)
    ensures e !in WaitingAfter(At(clock, s, q, k).entries, r, Cursor(s.entries, q, k))
  {
    AtFrame(clock, s, q, 0, k, e);
    AtStart(clock, s, q);
    hide At;
  }

  /** The entries that are still to come are the ones that wait after the cursor. */
  lemma WaitingIsRest(clock: Clock, s: Db, r: ResourceId, k: nat, e: EntryId)
    requires k <= |Queue(s.entries, r)|
    ensures var q := Queue(s.entries, r);
      e in WaitingAfter(At(clock, s, q, k).entries, r, Cursor(s.entries, q, k)) <==> e in q[k..]
  {
    var q := Queue(s.entries, r);
    assert IsQueue(s, r, q);
    QueueDistinct(s, r, q);
    hide At, WaitingAfter, Cursor, IsQueue;
    if i :| 0 <= i < |q| && q[i] == e {
      if i < k {
        PassedIsBehind(clock, s, r, q, k, i);
      } else {
        ComingIsAhead(clock, s, r, q, k, i);
        assert q[k..][i - k] == e;
      }
    } else if e in s.entries {
      OthersDoNotWait(clock, s, r, q, k, e);
    } else {
      assert e !in WaitingAfter(At(clock, s, q, k).entries, r, Cursor(s.entries, q, k)) by {
        NotThere(At(clock, s, q, k).entries, r, Cursor(s.entries, q, k), e);
      }
    }
  }

  lemma NotThere(es: Entries, r: ResourceId, after: Option<Key>, e: EntryId)
    requires e !in es
    ensures e !in WaitingAfter(es, r, after)
  {}

  lemma OrderedKept(s: Db, t: Db, q: seq<EntryId>)
    requires Extends(s, t) && Ordered(s.entries, q)
    ensures Ordered(t.entries, q)
  {}

  /** What is still to come, sorted, is the rest of the queue. */
  lemma RestSorted(clock: Clock, s: Db, r: ResourceId, k: nat)
    requires k <= |Queue(s.entries, r)|
    ensures var q := Queue(s.entries, r); var t := At(clock, s, q, k);
      Sort(t.entries, WaitingAfter(t.entries, r, Cursor(s.entries, q, k))) == q[k..]
  {
    var q := Queue(s.entries, r);
    var t := At(clock, s, q, k);
    assert Ordered(t.entries, q[k..]) by {
      AtStart(clock, s, q);
      AtExtends(clock, s, q, 0, k);
      OrderedKept(s, t, q);
    }
    hide At, Queue, WaitingAfter, Cursor, Ordered, Sort;
    var rest := Sort(t.entries, WaitingAfter(t.entries, r, Cursor(s.entries, q, k)));
    forall e ensures e in rest <==> e in q[k..] {
      WaitingIsRest(clock, s, r, k, e);
    }
    OrderedUnique(t.entries, rest, q[k..]);
  }

  lemma TakeDrop(q: seq<EntryId>, k: nat, n: nat)
    requires k + n <= |q|
    ensures q[k..][..n] == q[k..k + n]
  {}

  /** A page read in the middle of the scan is the next stretch of the queue the scan started with. */
  lemma PageIsNext(clock: Clock, s: Db, r: ResourceId, k: nat, n: nat)
    requires k <= |Queue(s.entries, r)|
    ensures var q := Queue(s.entries, r);
      Page(At(clock, s, q, k).entries, r, Cursor(s.entries, q, k), n)
        == if |q| - k <= n then q[k..] else q[k..k + n]
  {
    var q := Queue(s.entries, r);
    RestSorted(clock, s, r, k);
    hide At, Queue, Cursor, WaitingAfter, Sort;
    if |q| - k > n {
      TakeDrop(q, k, n);
    }
  }

  /** The order of joining: by created_at, and by id at the same instant. */
  predicate Earlier(createdAt: Time, id: EntryId, later: Time, laterId: EntryId) {
    createdAt < later || (createdAt == later && id < laterId)
  }

  /** The entries that wait for r past the cursor, said of the rows. */
  predicate IsPast(es: Entries, r: ResourceId, after: Option<Key>, e: EntryId) {
    && e in es && es[e].resource == r && es[e].status == Waiting
    && (after.Some? ==> Earlier(after.value.createdAt, after.value.id, es[e].createdAt, e))
  }

  /**
    What a page is: entries that wait past the cursor, in the order of joining and at most n; and
    whoever else waits past the cursor joined later than all of a full page.
   */
  lemma PageMeans(es: Entries, r: ResourceId, after: Option<Key>, n: nat)
    ensures var page := Page(es, r, after, n);
      && |page| <= n
      && (forall i | 0 <= i < |page| :: IsPast(es, r, after, page[i]))
      && (forall i, j | 0 <= i < j < |page| :: Earlier(es[page[i]].createdAt, page[i], es[page[j]].createdAt, page[j]))
      && (forall e | IsPast(es, r, after, e) && e !in page ::
            |page| == n && forall i | 0 <= i < n :: Earlier(es[page[i]].createdAt, page[i], es[e].createdAt, e))
  {
    var q := Sort(es, WaitingAfter(es, r, after));
    var page := Page(es, r, after, n);
    hide Sort;
    assert forall i | 0 <= i < |page| :: page[i] == q[i] && q[i] in WaitingAfter(es, r, after);
    forall i, j | 0 <= i < j < |page|
      ensures Earlier(es[page[i]].createdAt, page[i], es[page[j]].createdAt, page[j])
    {
      assert KeyOf(es, q[i]).Less(KeyOf(es, q[j]));
    }
    forall e | IsPast(es, r, after, e) && e !in page
      ensures |page| == n && forall i | 0 <= i < n :: Earlier(es[page[i]].createdAt, page[i], es[e].createdAt, e)
    {
      assert e in WaitingAfter(es, r, after) && e in q;
      var j :| 0 <= j < |q| && q[j] == e;
      forall i | 0 <= i < |page| ensures Earlier(es[page[i]].createdAt, page[i], es[e].createdAt, e) {
        assert KeyOf(es, q[i]).Less(KeyOf(es, q[j]));
      }
    }
  }
}
