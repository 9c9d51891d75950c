/** Cost of running a range of sub-blocks on one pipeline stage. Sub-block s is the
    attention part of layer s/2 when s is even and its feed-forward part when s is odd. */
module StageCosts {
  import opened Makespan

  /** Number of attention sub-blocks in [a, b), in closed form. */
  function AttIn(a: nat, b: nat): nat
    requires a <= b
  {
    ((b - a) + if a % 2 == 0 then 1 else 0) / 2
  }

  // Attention and feed-forward sub-blocks in [a, b).
  function Mix(a: nat, b: nat): (nat, nat)
    requires a <= b
  {
    (AttIn(a, b), b - a - AttIn(a, b))
  }

  ghost function CountEven(a: nat, b: nat): nat
    requires a <= b
  {
    if a == b then 0 else CountEven(a, b - 1) + if (b - 1) % 2 == 0 then 1 else 0
  }

  lemma {:induction false} AttInCountsEven(a: nat, b: nat)
    requires a <= b
    ensures AttIn(a, b) == CountEven(a, b)
  {
    if a < b {
      AttInCountsEven(a, b - 1);
    }
  }

  /** Cost of `na` attention and `nf` feed-forward sub-blocks on one chunk: the first
      attention of a stage pays `start`, the others `att`. */
  function MixCost(start: real, att: real, ff: real, na: nat, nf: nat): real {
    if na > 0 then start + (na - 1) as real * att + nf as real * ff else na as real * att + nf as real * ff
  }

  ghost function BlockSum(start: real, att: real, ff: real, a: nat, b: nat): real
    requires a <= b
  {
    if a == b then 0.0
    else BlockSum(start, att, ff, a, b - 1) +
         if (b - 1) % 2 == 1 then ff else if CountEven(a, b - 1) == 0 then start else att
  }

  lemma OneMore(n: nat, c: real)
    ensures (n + 1) as real * c == n as real * c + c
  {
  }

  lemma MixStep(start: real, att: real, ff: real, na: nat, nf: nat)
    ensures MixCost(start, att, ff, na, nf + 1) == MixCost(start, att, ff, na, nf) + ff
    ensures MixCost(start, att, ff, na + 1, nf) == MixCost(start, att, ff, na, nf) + if na == 0 then start else att
  {
    OneMore(nf, ff);
    if na > 0 {
      OneMore(na - 1, att);
    }
  }

  lemma MixGrows(a: nat, b: nat)
    requires a < b
    ensures Mix(a, b) == if b % 2 == 0 then (Mix(a, b - 1).0, Mix(a, b - 1).1 + 1)
                         else (Mix(a, b - 1).0 + 1, Mix(a, b - 1).1)
  {
  }

  lemma NoBlocksCostNothing(start: real, att: real, ff: real)
    ensures MixCost(start, att, ff, 0, 0) == 0.0
  {
  }

  /** The closed form charges every sub-block of the stage exactly once. */
  lemma {:induction false} MixCostIsBlockSum(start: real, att: real, ff: real, a: nat, b: nat)
    requires a <= b
    ensures MixCost(start, att, ff, Mix(a, b).0, Mix(a, b).1) == BlockSum(start, att, ff, a, b)
  {
    hide MixCost;
    if a == b {
      NoBlocksCostNothing(start, att, ff);
      assert Mix(a, b) == (0, 0);
    } else {
      MixCostIsBlockSum(start, att, ff, a, b - 1);
      AttInCountsEven(a, b - 1);
      MixStep(start, att, ff, Mix(a, b - 1).0, Mix(a, b - 1).1);
      MixGrows(a, b);
    }
  }

  lemma MixCostNonNegative(start: real, att: real, ff: real, na: nat, nf: nat)
    requires start >= 0.0 && att >= 0.0 && ff >= 0.0
    ensures MixCost(start, att, ff, na, nf) >= 0.0
  {
    ProductNonNegative(nf, ff);
    ProductNonNegative(if na > 0 then na - 1 else na, att);
  }

  lemma ProductNonNegative(n: nat, c: real)
    requires c >= 0.0
    ensures n as real * c >= 0.0
  {
  }

  /** Measured costs: one row per stage, one column per chunk; `head` is the
      layer-independent work of the last stage. */
  datatype Tables = Tables(start: seq<Row>, att: seq<Row>, ff: seq<Row>, head: Row)

  predicate Rows(rs: seq<Row>, n: nat, m: nat) {
    |rs| == n && forall k :: 0 <= k < n ==> |rs[k]| == m && NonNegative(rs[k])
  }

  predicate ValidTables(t: Tables, n: nat, m: nat) {
    Rows(t.start, n, m) && Rows(t.att, n, m) && Rows(t.ff, n, m) && |t.head| == m && NonNegative(t.head)
  }

  /** `stage_cost_vec`: the cost of stage k on each chunk when it runs `mix` sub-blocks. */
  function StageCost(t: Tables, n: nat, m: nat, k: nat, mix: (nat, nat)): (r: Row)
    requires ValidTables(t, n, m) && k < n
    ensures |r| == m && NonNegative(r)
  {
    var f := j requires 0 <= j < m =>
      MixCost(t.start[k][j], t.att[k][j], t.ff[k][j], mix.0, mix.1) + if k == n - 1 then t.head[j] else 0.0;
    assert forall j :: 0 <= j < m ==> f(j) >= 0.0 by {
      forall j | 0 <= j < m
        ensures f(j) >= 0.0
      {
        MixCostNonNegative(t.start[k][j], t.att[k][j], t.ff[k][j], mix.0, mix.1);
      }
    }
    seq(m, f)
  }

  /** What a stage costs on a chunk: its sub-blocks one by one and, on the last stage, the head. */
  lemma StageCostIsBlockSum(t: Tables, n: nat, m: nat, k: nat, a: nat, b: nat, j: nat)
    requires ValidTables(t, n, m) && k < n && a <= b && j < m
    ensures |t.start[k]| == |t.att[k]| == |t.ff[k]| == |t.head| == m
    ensures StageCost(t, n, m, k, Mix(a, b))[j] ==
            BlockSum(t.start[k][j], t.att[k][j], t.ff[k][j], a, b) + if k == n - 1 then t.head[j] else 0.0
  {
    MixCostIsBlockSum(t.start[k][j], t.att[k][j], t.ff[k][j], a, b);
  }
}
