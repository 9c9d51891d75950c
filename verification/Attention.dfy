/** Inputs of the attention kernels and the exact result they owe to every (row, head). */
module Attention {
  import opened Arithmetic
  import opened Softmax

  type Vec = seq<real>

  /** One attention call. Row b has position `positions[b]` and one query vector per local
      head; query head h reads key/value head h / kvMul. A zero `blockSize` turns the block
      mask off. `root` stands for sqrt(headDim). */
  datatype Inputs = Inputs(query: seq<seq<Vec>>, keys: seq<seq<Vec>>, values: seq<seq<Vec>>,
                           positions: seq<nat>, nHeads0: nat, kvMul: nat, nKvHeads0: nat, headDim: nat,
                           root: real, blockSize: nat, anchorLen: nat)

  predicate Table(x: seq<seq<Vec>>, n: nat, heads: nat, dim: nat) {
    && |x| == n
    && (forall t :: 0 <= t < n ==> |x[t]| == heads)
    && (forall t, g :: 0 <= t < n && 0 <= g < heads ==> |x[t][g]| == dim)
  }

  predicate Valid(a: Inputs) {
    && a.kvMul > 0 && a.root > 0.0 && a.nHeads0 <= a.nKvHeads0 * a.kvMul
    && Table(a.query, |a.positions|, a.nHeads0, a.headDim)
    && Table(a.keys, |a.keys|, a.nKvHeads0, a.headDim)
    && Table(a.values, |a.keys|, a.nKvHeads0, a.headDim)
    && (forall b :: 0 <= b < |a.positions| ==> a.positions[b] < |a.keys|)
  }

  function KvHead(a: Inputs, h: nat): (g: nat)
    requires Valid(a) && h < a.nHeads0
    ensures g < a.nKvHeads0
  {
    KvHeadBound(h, a.kvMul, a.nKvHeads0);
    h / a.kvMul
  }

  lemma KvHeadBound(h: nat, kvMul: nat, n: nat)
    requires kvMul > 0 && h < n * kvMul
    ensures h / kvMul < n
  {
    if h / kvMul >= n {
      ProductMonotone(n, h / kvMul, kvMul);
    }
  }

  /** All heads of one group share the key/value head of the group's first head. */
  lemma GroupSharesKvHead(base: nat, kvMul: nat, j: nat)
    requires kvMul > 0 && base % kvMul == 0 && j < kvMul
    ensures (base + j) / kvMul == base / kvMul
  {
    var g := base / kvMul;
    assert base == g * kvMul;
    QuotientUnique(base + j, kvMul, g, j);
  }

  /** Which keys a query may look at besides being causal: everything, the anchor prefix, or
      its own block. */
  predicate MaskAllows(blockSize: nat, anchorLen: nat, q: nat, t: nat) {
    if blockSize == 0 then true
    else if t < anchorLen then true
    else t / blockSize == q / blockSize
  }

  predicate Sees(a: Inputs, b: nat, t: nat)
    requires b < |a.positions|
  {
    t <= a.positions[b] && MaskAllows(a.blockSize, a.anchorLen, a.positions[b], t)
  }

  ghost function Dot(x: Vec, y: Vec, n: nat): real
    requires n <= |x| && n <= |y|
  {
    if n == 0 then 0.0 else Dot(x, y, n - 1) + x[n - 1] * y[n - 1]
  }

  method DotProduct(x: Vec, y: Vec) returns (s: real)
    requires |x| == |y|
    ensures s == Dot(x, y, |x|)
  {
    s := 0.0;
    for i := 0 to |x|
      invariant s == Dot(x, y, i)
    {
      s := s + x[i] * y[i];
    }
  }

  // A row and a local head of the call.
  predicate InCall(a: Inputs, b: nat, h: nat) {
    b < |a.positions| && h < a.nHeads0
  }

  ghost function ScoreAt(a: Inputs, b: nat, h: nat, t: nat): real
    requires Valid(a) && InCall(a, b, h) && t < |a.keys|
  {
    Dot(a.query[b][h], a.keys[t][KvHead(a, h)], a.headDim) / a.root
  }

  ghost function LaneOf(a: Inputs, b: nat, h: nat): (l: Lane)
    requires Valid(a) && InCall(a, b, h)
    ensures |l.score| == |l.seen| == |a.keys|
    ensures forall t :: 0 <= t < |a.keys| ==> l.score[t] == ScoreAt(a, b, h, t)
    ensures forall t :: 0 <= t < |a.keys| ==> l.seen[t] == Sees(a, b, t)
  {
    Lane(seq(|a.keys|, t requires 0 <= t < |a.keys| => ScoreAt(a, b, h, t)),
         seq(|a.keys|, t requires 0 <= t < |a.keys| => Sees(a, b, t)))
  }

  // Component i of the values seen by head h.
  ghost function Column(a: Inputs, h: nat, i: nat): (x: seq<real>)
    requires Valid(a) && h < a.nHeads0 && i < a.headDim
    ensures |x| == |a.keys|
    ensures forall t :: 0 <= t < |a.keys| ==> x[t] == a.values[t][KvHead(a, h)][i]
  {
    seq(|a.keys|, t requires 0 <= t < |a.keys| => a.values[t][KvHead(a, h)][i])
  }

  /** Every query sees at least its own position, whatever the mask. */
  lemma SeesItself(a: Inputs, b: nat, h: nat)
    requires Valid(a) && InCall(a, b, h)
    ensures a.positions[b] < |a.keys| && !NoneSeen(LaneOf(a, b, h), a.positions[b] + 1)
  {
    assert LaneOf(a, b, h).seen[a.positions[b]];
  }

  /** `out` is the exact masked softmax average for (b, h). */
  ghost predicate AnswerIs(a: Inputs, e: real -> real, b: nat, h: nat, out: Vec)
    requires Valid(a) && IsExp(e) && InCall(a, b, h)
  {
    SeesItself(a, b, h);
    && |out| == a.headDim
    && (forall i :: 0 <= i < a.headDim ==>
          out[i] == Average(e, LaneOf(a, b, h), Column(a, h, i), a.positions[b] + 1))
  }

  // ---------------------------------------------------------------------------
  // The answer spelled out
  // ---------------------------------------------------------------------------

  ghost function Total(w: seq<real>, n: nat): real
    requires n <= |w|
  {
    if n == 0 then 0.0 else Total(w, n - 1) + w[n - 1]
  }

  // Weights and values given as sequences are those the average is made of.
  lemma {:induction false} SumsAre(a: Inputs, e: real -> real, b: nat, h: nat, g: nat, i: nat, w: seq<real>, x: seq<real>, n: nat)
    requires Valid(a) && InCall(a, b, h) && g == KvHead(a, h) && i < a.headDim && n <= |a.keys| == |w| == |x|
    requires forall t :: 0 <= t < n ==> w[t] == Weight(e, LaneOf(a, b, h), At(0.0), t)
    requires forall t :: 0 <= t < n ==> x[t] == Column(a, h, i)[t]
    ensures Total(w, n) == Mass(e, LaneOf(a, b, h), At(0.0), n)
    ensures Dot(w, x, n) == Blend(e, LaneOf(a, b, h), Column(a, h, i), At(0.0), n)
  {
    hide Valid, KvHead, LaneOf, Column, Weight;
    if n > 0 {
      SumsAre(a, e, b, h, g, i, w, x, n - 1);
    }
  }

  lemma HeadIndex(a: Inputs, h: nat, g: nat)
    requires Valid(a) && h < a.nHeads0 && g * a.kvMul <= h < (g + 1) * a.kvMul
    ensures g == KvHead(a, h) < a.nKvHeads0
  {
    NextMultiple(g, a.kvMul);
    QuotientUnique(h, a.kvMul, g, h - g * a.kvMul);
  }

  // The weight of one key, with no maximum subtracted.
  lemma PlainWeight(a: Inputs, e: real -> real, b: nat, h: nat, g: nat, t: nat)
    requires Valid(a) && InCall(a, b, h) && g == KvHead(a, h) && t < |a.keys|
    ensures |a.query[b][h]| == |a.keys[t][g]| == a.headDim
    ensures var q := a.positions[b];
            Weight(e, LaneOf(a, b, h), At(0.0), t) ==
            if t <= q && (a.blockSize == 0 || t < a.anchorLen || t / a.blockSize == q / a.blockSize)
            then e(Dot(a.query[b][h], a.keys[t][g], a.headDim) / a.root) else 0.0
  {
    var l := LaneOf(a, b, h);
    assert l.seen[t] == Sees(a, b, t) && l.score[t] == ScoreAt(a, b, h, t);
    assert l.score[t] - 0.0 == l.score[t];
  }

  /** What the answer is, index by index. Query head h of group g reads key/value head g; a key
      weighs the exponential of its scaled inner product with the query if it is no later and in
      the anchor or in the query's block, and nothing otherwise; every component of the answer is
      the weighted mean of that component of the values. */
  lemma AnswerSpelledOut(a: Inputs, e: real -> real, b: nat, h: nat, g: nat, out: Vec, i: nat, w: seq<real>, x: seq<real>)
    requires Valid(a) && IsExp(e) && InCall(a, b, h) && AnswerIs(a, e, b, h, out)
    requires g * a.kvMul <= h < (g + 1) * a.kvMul && i < a.headDim
    requires g < a.nKvHeads0 && |w| == |x| == |a.keys|
    requires forall t :: 0 <= t < |a.keys| ==>
               var q := a.positions[b];
               w[t] == if t <= q && (a.blockSize == 0 || t < a.anchorLen || t / a.blockSize == q / a.blockSize)
                       then e(Dot(a.query[b][h], a.keys[t][g], a.headDim) / a.root) else 0.0
    requires forall t :: 0 <= t < |a.keys| ==> x[t] == a.values[t][g][i]
    ensures |out| == a.headDim && Total(w, |w|) > 0.0
    ensures out[i] * Total(w, |w|) == Dot(w, x, |w|)
  {
    hide Table, KvHead, LaneOf, Column, Weight, ScoreAt, Sees, IsExp, Dot, Total, AnswerIs;
    HeadIndex(a, h, g);
    var l, column := LaneOf(a, b, h), Column(a, h, i);
    forall t | 0 <= t < |a.keys|
      ensures w[t] == Weight(e, l, At(0.0), t) && x[t] == column[t]
    {
      PlainWeight(a, e, b, h, g, t);
    }
    hide Valid;
    AnswerFromSums(a, e, b, h, g, out, i, w, x);
  }

  lemma AnswerFromSums(a: Inputs, e: real -> real, b: nat, h: nat, g: nat, out: Vec, i: nat, w: seq<real>, x: seq<real>)
    requires Valid(a) && IsExp(e) && InCall(a, b, h) && AnswerIs(a, e, b, h, out)
    requires g == KvHead(a, h) && i < a.headDim && |w| == |x| == |a.keys|
    requires forall t :: 0 <= t < |a.keys| ==> w[t] == Weight(e, LaneOf(a, b, h), At(0.0), t)
    requires forall t :: 0 <= t < |a.keys| ==> x[t] == Column(a, h, i)[t]
    ensures |out| == a.headDim && Total(w, |w|) > 0.0
    ensures out[i] * Total(w, |w|) == Dot(w, x, |w|)
  {
    hide Table, KvHead, LaneOf, Column, Weight, IsExp, Mass, Blend, NoneSeen, Dot, Total, Sees;
    var l, n, p := LaneOf(a, b, h), |a.keys|, a.positions[b] + 1;
    SumsAre(a, e, b, h, g, i, w, x, n);
    SeesItself(a, b, h);
    forall t | p <= t < n
      ensures !l.seen[t]
    {
      assert l.seen[t] == Sees(a, b, t);
      NotYetSeen(a, b, t);
    }
    UnseenTail(e, l, Column(a, h, i), At(0.0), p, n);
    MassPositive(e, l, At(0.0), p);
    MeanTimesMass(Blend(e, l, Column(a, h, i), At(0.0), p), Mass(e, l, At(0.0), p));
  }

  lemma NotYetSeen(a: Inputs, b: nat, t: nat)
    requires b < |a.positions| && t > a.positions[b]
    ensures !Sees(a, b, t)
  {
  }

  lemma MeanTimesMass(x: real, y: real)
    requires y > 0.0
    ensures x / y * y == x
  {
  }
}
