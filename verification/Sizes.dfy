/**
  Sizes of sets, and quotients.
 */
module Sizes {

  lemma {:induction false} SubsetSize<T>(a: set<T>, b: set<T>)
    requires a <= b
    ensures |a| <= |b|
  {
    if a != {} {
      var x :| x in a;
      SubsetSize(a - {x}, b - {x});
    }
  }

  lemma SmallerSet<T>(a: set<T>, b: set<T>, x: T)
    requires a <= b && x in b && x !in a
    ensures |a| < |b|
  {
    SubsetSize(a, b - {x});
  }

  lemma DisjointSizes<T>(a: set<T>, b: set<T>, all: set<T>)
    requires a !! b && a <= all && b <= all
    ensures |a| + |b| <= |all|
  {
    assert |a + b| == |a| + |b|;
    SubsetSize(a + b, all);
  }

  lemma SizeAfter<T>(all: set<T>, gone: set<T>)
    requires gone <= all
    ensures |all - gone| == |all| - |gone|
  {
    assert all == (all - gone) + gone;
  }

  lemma {:induction false} FreshNat(used: set<nat>) returns (n: nat)
    ensures n !in used && forall m | m in used :: m < n
    decreases used
  {
    if used == {} {
      n := 0;
    } else {
      var m :| m in used;
      var rest := FreshNat(used - {m});
      n := if rest <= m then m + 1 else rest;
      assert forall x | x in used :: x == m || x in used - {m};
    }
  }

  /** Quotient and remainder are unique. */
  lemma SameQuotient(p: int, r: nat, q: int, s: nat, d: nat)
    requires r < d && s < d && p * d + r == q * d + s
    ensures p == q && r == s
  {
    if p < q {
      Multiple(q - p, d);
    } else if q < p {
      Multiple(p - q, d);
    }
  }

  lemma Multiple(k: nat, d: nat)
    requires k > 0
    ensures k * d >= d
  {
    assert k * d == (k - 1) * d + d;
  }
}
