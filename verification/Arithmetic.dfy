/** Small facts about products and quotients that the solver does not find by itself. */
module Arithmetic {

  lemma ProductMonotone(m: int, n: int, k: nat)
    requires m <= n
    ensures m * k <= n * k
  {
  }

  lemma QuotientUnique(x: nat, d: nat, q: nat, r: nat)
    requires d > 0 && x == q * d + r && r < d
    ensures x / d == q
  {
    var p, s := x / d, x % d;
    assert (p - q) * d == r - s by {
      assert x == p * d + s;
      assert (p - q) * d == p * d - q * d;
    }
    SmallMultiple(p - q, d);
  }

  lemma SmallMultiple(k: int, d: int)
    requires d > 0 && -d < k * d < d
    ensures k == 0
  {
    if k > 0 {
      ProductMonotone(1, k, d);
    } else if k < 0 {
      ProductMonotone(k, -1, d);
    }
  }

  lemma NextMultiple(j: nat, w: nat)
    ensures (j + 1) * w == j * w + w
  {
  }
}
