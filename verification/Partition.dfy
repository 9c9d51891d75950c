/** The contiguous near-equal split used both for threads (SPLIT_THREADS) and for the row
    windows of context-parallel ranks (cpRowWindow): the first `len % n` parts get one
    element more. */
module Partition {
  import opened Common

  function Start(len: nat, n: nat, r: nat): nat
    requires n > 0
  {
    r * (len / n) + Min(r, len % n)
  }

  function Count(len: nat, n: nat, r: nat): nat
    requires n > 0
  {
    len / n + if r < len % n then 1 else 0
  }

  lemma NextStart(len: nat, n: nat, r: nat)
    requires n > 0
    ensures Start(len, n, r + 1) == Start(len, n, r) + Count(len, n, r)
  {
    var base := len / n;
    assert (r + 1) * base == r * base + base;
  }

  lemma Ends(len: nat, n: nat)
    requires n > 0
    ensures Start(len, n, 0) == 0 && Start(len, n, n) == len
  {
    assert len == n * (len / n) + len % n;
  }

  lemma {:induction false} StartMonotone(len: nat, n: nat, q: nat, r: nat)
    requires n > 0 && q <= r
    ensures Start(len, n, q) <= Start(len, n, r)
    decreases r - q
  {
    if q < r {
      NextStart(len, n, q);
      StartMonotone(len, n, q + 1, r);
    }
  }

  predicate InPart(len: nat, n: nat, r: nat, x: nat)
    requires n > 0
  {
    Start(len, n, r) <= x < Start(len, n, r) + Count(len, n, r)
  }

  lemma {:induction false} OwnerBelow(len: nat, n: nat, x: nat, k: nat) returns (r: nat)
    requires n > 0 && k <= n && x < Start(len, n, k)
    ensures r < k && InPart(len, n, r, x)
  {
    hide Start, Count;
    if k == 0 {
      Ends(len, n);
      assert false;
    } else {
      NextStart(len, n, k - 1);
      if x < Start(len, n, k - 1) {
        r := OwnerBelow(len, n, x, k - 1);
      } else {
        r := k - 1;
      }
    }
  }

  /** Every element lies in exactly one part, and parts hold nothing else. */
  lemma EveryElementHasOneOwner(len: nat, n: nat, x: nat)
    requires n > 0
    ensures x < len ==> exists r :: 0 <= r < n && InPart(len, n, r, x)
    ensures forall q, r :: 0 <= q < n && 0 <= r < n && InPart(len, n, q, x) && InPart(len, n, r, x) ==> q == r
    ensures forall r :: 0 <= r < n && InPart(len, n, r, x) ==> x < len
  {
    hide Start, Count;
    Ends(len, n);
    if x < len {
      var r := OwnerBelow(len, n, x, n);
    }
    forall r | 0 <= r < n && InPart(len, n, r, x)
      ensures x < len
    {
      NextStart(len, n, r);
      StartMonotone(len, n, r + 1, n);
    }
    forall q, r | 0 <= q < n && 0 <= r < n && InPart(len, n, q, x) && InPart(len, n, r, x)
      ensures q == r
    {
      if q < r {
        NextStart(len, n, q);
        StartMonotone(len, n, q + 1, r);
      } else if r < q {
        NextStart(len, n, r);
        StartMonotone(len, n, r + 1, q);
      }
    }
  }
}
