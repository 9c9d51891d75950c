/** Masked softmax averages of one sequence of scores, relative to any reference maximum. */
module Softmax {

  /** The exponential is a parameter of the kernels; only these two laws are used. */
  ghost predicate IsExp(e: real -> real) {
    && (forall x :: e(x) > 0.0)
    && (forall x, y :: e(x) * e(y) == e(x + y))
  }

  /** The scores of one query against the keys, and which keys it may look at. */
  datatype Lane = Lane(score: seq<real>, seen: seq<bool>)

  predicate Ok(l: Lane, n: nat) {
    n <= |l.score| && n <= |l.seen|
  }

  /** A running maximum, with the -infinity it starts from. */
  datatype RunMax = NegInf | At(m: real)

  // exp(score - m) for visible keys, zero otherwise.
  ghost function Weight(e: real -> real, l: Lane, m: RunMax, t: nat): real
    requires Ok(l, t + 1)
  {
    if m.At? && l.seen[t] then e(l.score[t] - m.m) else 0.0
  }

  ghost function Mass(e: real -> real, l: Lane, m: RunMax, n: nat): real
    requires Ok(l, n)
  {
    if n == 0 then 0.0 else Mass(e, l, m, n - 1) + Weight(e, l, m, n - 1)
  }

  ghost function Blend(e: real -> real, l: Lane, x: seq<real>, m: RunMax, n: nat): real
    requires Ok(l, n) && n <= |x|
  {
    if n == 0 then 0.0 else Blend(e, l, x, m, n - 1) + Weight(e, l, m, n - 1) * x[n - 1]
  }

  ghost predicate NoneSeen(l: Lane, n: nat)
    requires Ok(l, n)
  {
    forall t :: 0 <= t < n ==> !l.seen[t]
  }

  /** The exact answer: the average of x over the visible keys, weighted by plain
      exponentials of the scores with no maximum subtracted. */
  ghost function Average(e: real -> real, l: Lane, x: seq<real>, n: nat): real
    requires IsExp(e) && Ok(l, n) && n <= |x| && !NoneSeen(l, n)
  {
    MassPositive(e, l, At(0.0), n);
    Blend(e, l, x, At(0.0), n) / Mass(e, l, At(0.0), n)
  }

  lemma {:induction false} MassNonNegative(e: real -> real, l: Lane, m: RunMax, n: nat)
    requires IsExp(e) && Ok(l, n)
    ensures Mass(e, l, m, n) >= 0.0
  {
    if n > 0 {
      MassNonNegative(e, l, m, n - 1);
    }
  }

  /** As soon as one key is visible the normaliser is positive. */
  lemma {:induction false} MassPositive(e: real -> real, l: Lane, m: RunMax, n: nat)
    requires IsExp(e) && Ok(l, n) && m.At? && !NoneSeen(l, n)
    ensures Mass(e, l, m, n) > 0.0
  {
    if l.seen[n - 1] {
      MassNonNegative(e, l, m, n - 1);
    } else {
      MassPositive(e, l, m, n - 1);
    }
  }

  lemma {:induction false} NothingSeenNoMass(e: real -> real, l: Lane, x: seq<real>, m: RunMax, n: nat)
    requires Ok(l, n) && n <= |x| && (NoneSeen(l, n) || m == NegInf)
    ensures Mass(e, l, m, n) == 0.0 && Blend(e, l, x, m, n) == 0.0
  {
    if n > 0 {
      NothingSeenNoMass(e, l, x, m, n - 1);
    }
  }

  /** Keys that are not visible add nothing. */
  lemma {:induction false} UnseenTail(e: real -> real, l: Lane, x: seq<real>, m: RunMax, p: nat, n: nat)
    requires Ok(l, n) && n <= |x| && p <= n && forall t :: p <= t < n ==> !l.seen[t]
    ensures Mass(e, l, m, n) == Mass(e, l, m, p) && Blend(e, l, x, m, n) == Blend(e, l, x, m, p)
    decreases n
  {
    if n > p {
      UnseenTail(e, l, x, m, p, n - 1);
    }
  }

  lemma ExpShift(e: real -> real, x: real, c: real, d: real)
    requires IsExp(e)
    ensures e(x - d) == e(c - d) * e(x - c)
  {
    assert e(c - d) * e(x - c) == e((c - d) + (x - c));
    assert (c - d) + (x - c) == x - d;
  }

  lemma ExpPositive(e: real -> real, x: real)
    requires IsExp(e)
    ensures e(x) > 0.0
  {
  }

  lemma Distribute(f: real, x: real, y: real)
    ensures f * (x + y) == f * x + f * y
  {
  }

  lemma Associate(f: real, x: real, y: real)
    ensures f * x * y == f * (x * y)
  {
  }

  lemma WeightShift(e: real -> real, l: Lane, c: real, d: real, t: nat)
    requires IsExp(e) && Ok(l, t + 1)
    ensures Weight(e, l, At(d), t) == e(c - d) * Weight(e, l, At(c), t)
  {
    hide IsExp;
    if l.seen[t] {
      ExpShift(e, l.score[t], c, d);
    }
  }

  /** Moving the reference from c to d multiplies the normaliser by exp(c - d). */
  lemma {:induction false} MassShift(e: real -> real, l: Lane, c: real, d: real, n: nat)
    requires IsExp(e) && Ok(l, n)
    ensures Mass(e, l, At(d), n) == e(c - d) * Mass(e, l, At(c), n)
  {
    hide IsExp, Weight;
    if n > 0 {
      MassShift(e, l, c, d, n - 1);
      WeightShift(e, l, c, d, n - 1);
      Distribute(e(c - d), Mass(e, l, At(c), n - 1), Weight(e, l, At(c), n - 1));
    }
  }

  /** ... and the accumulated values by the same factor. */
  lemma {:induction false} BlendShift(e: real -> real, l: Lane, x: seq<real>, c: real, d: real, n: nat)
    requires IsExp(e) && Ok(l, n) && n <= |x|
    ensures Blend(e, l, x, At(d), n) == e(c - d) * Blend(e, l, x, At(c), n)
  {
    hide IsExp, Weight;
    if n > 0 {
      BlendShift(e, l, x, c, d, n - 1);
      WeightShift(e, l, c, d, n - 1);
      var f, w := e(c - d), Weight(e, l, At(c), n - 1);
      Associate(f, w, x[n - 1]);
      Distribute(f, Blend(e, l, x, At(c), n - 1), w * x[n - 1]);
    }
  }

  lemma RatioShift(f: real, x: real, y: real)
    requires f > 0.0 && y > 0.0
    ensures f * y > 0.0 && (f * x) / (f * y) == x / y
  {
    var q := x / y;
    assert x == q * y;
    assert f * x == q * (f * y);
  }

  /** Any reference maximum gives the exact answer. */
  lemma AnyReferenceWorks(e: real -> real, l: Lane, x: seq<real>, c: real, n: nat)
    requires IsExp(e) && Ok(l, n) && n <= |x| && !NoneSeen(l, n)
    ensures Mass(e, l, At(c), n) > 0.0
    ensures Blend(e, l, x, At(c), n) / Mass(e, l, At(c), n) == Average(e, l, x, n)
  {
    hide IsExp, Weight, Mass, Blend, NoneSeen;
    MassPositive(e, l, At(0.0), n);
    MassShift(e, l, 0.0, c, n);
    BlendShift(e, l, x, 0.0, c, n);
    ExpPositive(e, 0.0 - c);
    RatioShift(e(0.0 - c), Blend(e, l, x, At(0.0), n), Mass(e, l, At(0.0), n));
  }
}
