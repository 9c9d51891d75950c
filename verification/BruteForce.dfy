/** Exhaustive search over stage boundaries, and the planner's self-test against it. */
module BruteForce {
  import opened Common
  import opened Makespan
  import opened StageCosts
  import opened Planner

  // ---------------------------------------------------------------------------
  // itertools.combinations
  // ---------------------------------------------------------------------------

  function Prepend(x: nat, cs: seq<seq<nat>>): (r: seq<seq<nat>>)
    ensures |r| == |cs| && forall t :: 0 <= t < |cs| ==> r[t] == [x] + cs[t]
  {
    if |cs| == 0 then [] else [[x] + cs[0]] + Prepend(x, cs[1..])
  }

  /** All r-element subsets of [lo, hi) as increasing sequences, in lexicographic order. */
  function Combinations(lo: nat, hi: nat, r: nat): seq<seq<nat>>
    decreases hi - lo, r
  {
    if r == 0 then [[]]
    else if lo >= hi then []
    else Prepend(lo, Combinations(lo + 1, hi, r - 1)) + Combinations(lo + 1, hi, r)
  }

  predicate Choice(c: seq<nat>, lo: nat, hi: nat, r: nat) {
    && |c| == r
    && (forall i :: 0 <= i < r ==> lo <= c[i] < hi)
    && (forall i :: 0 < i < r ==> c[i - 1] < c[i])
  }

  lemma ChoiceSplit(c: seq<nat>, lo: nat, hi: nat, r: nat)
    requires r > 0 && lo < hi
    ensures Choice(c, lo, hi, r) <==>
            (|c| == r && c[0] == lo && Choice(c[1..], lo + 1, hi, r - 1)) || Choice(c, lo + 1, hi, r)
  {
    if Choice(c, lo, hi, r) {
      Increasing(c, lo, hi, r);
    }
    if |c| == r && c[0] == lo && Choice(c[1..], lo + 1, hi, r - 1) {
      forall i | 0 < i < r
        ensures c[i - 1] < c[i]
      {
        assert c[i] == c[1..][i - 1];
        assert i > 1 ==> c[i - 1] == c[1..][i - 2];
      }
      forall i | 0 <= i < r
        ensures lo <= c[i] < hi
      {
        assert i > 0 ==> c[i] == c[1..][i - 1];
      }
    }
  }

  lemma {:induction false} Increasing(c: seq<nat>, lo: nat, hi: nat, r: nat)
    requires Choice(c, lo, hi, r)
    ensures forall i :: 0 < i < r ==> c[0] < c[i]
  {
    if r > 1 {
      var d := c[..r - 1];
      assert Choice(d, lo, hi, r - 1);
      Increasing(d, lo, hi, r - 1);
      assert c[r - 2] < c[r - 1];
      forall i | 0 < i < r
        ensures c[0] < c[i]
      {
        assert i < r - 1 ==> d[0] < d[i];
        assert r - 2 > 0 ==> d[0] < d[r - 2];
      }
    }
  }

  lemma {:induction false} CombinationsExact(lo: nat, hi: nat, r: nat, c: seq<nat>)
    ensures c in Combinations(lo, hi, r) <==> Choice(c, lo, hi, r)
    decreases hi - lo, r
  {
    if r == 0 {
    } else if lo >= hi {
      assert |c| == r ==> !(lo <= c[0] < hi);
    } else {
      var with, without := Combinations(lo + 1, hi, r - 1), Combinations(lo + 1, hi, r);
      ChoiceSplit(c, lo, hi, r);
      CombinationsExact(lo + 1, hi, r, c);
      PrependMember(lo, with, c);
      if |c| > 0 {
        CombinationsExact(lo + 1, hi, r - 1, c[1..]);
      }
    }
  }

  lemma PrependMember(x: nat, cs: seq<seq<nat>>, c: seq<nat>)
    ensures c in Prepend(x, cs) <==> |c| > 0 && c[0] == x && c[1..] in cs
  {
    var r := Prepend(x, cs);
    if c in r {
      var t :| 0 <= t < |r| && r[t] == c;
      assert c[1..] == cs[t];
    }
    if |c| > 0 && c[0] == x && c[1..] in cs {
      var t :| 0 <= t < |cs| && cs[t] == c[1..];
      assert r[t] == [x] + c[1..] == c;
    }
  }

  // ---------------------------------------------------------------------------
  // Boundaries as plans
  // ---------------------------------------------------------------------------

  /** The chosen inner boundaries, closed by the last sub-block, are exactly the plans. */
  lemma ChoiceIsPlan(p: Problem, c: seq<nat>)
    requires p.blocks >= 1 && p.stages >= 1 && Choice(c, 1, p.blocks, p.stages - 1)
    ensures IsPlan(p, c + [p.blocks])
  {
    var cuts := c + [p.blocks];
    forall i | 0 <= i < p.stages
      ensures Cut(cuts, i) < cuts[i]
    {
      assert i < p.stages - 1 ==> cuts[i] == c[i];
      assert i > 0 ==> cuts[i - 1] == c[i - 1];
    }
  }

  lemma PlanIsChoice(p: Problem, cuts: seq<nat>)
    requires p.stages >= 1 && IsPlan(p, cuts)
    ensures |cuts| == p.stages
    ensures Choice(cuts[..p.stages - 1], 1, p.blocks, p.stages - 1)
    ensures cuts[..p.stages - 1] + [p.blocks] == cuts
  {
    hide IsPlan;
    PlanEnds(p, cuts);
    var c := cuts[..p.stages - 1];
    forall i | 0 <= i < |c|
      ensures 1 <= c[i] < p.blocks && (i > 0 ==> c[i - 1] < c[i])
    {
      InnerBoundary(p, cuts, i);
    }
  }

  lemma PlanEnds(p: Problem, cuts: seq<nat>)
    requires p.stages >= 1 && IsPlan(p, cuts)
    ensures |cuts| == p.stages && cuts[p.stages - 1] == p.blocks
  {
  }

  lemma InnerBoundary(p: Problem, cuts: seq<nat>, i: nat)
    requires IsPlan(p, cuts) && i < p.stages - 1
    ensures |cuts| == p.stages && 1 <= cuts[i] < p.blocks && (i > 0 ==> cuts[i - 1] < cuts[i])
  {
    assert Cut(cuts, i) < cuts[i];
    hide Feasible;
    BelowLast(p, cuts, i);
  }

  lemma {:induction false} BelowLast(p: Problem, cuts: seq<nat>, i: nat)
    requires p.stages >= 1 && IsPlan(p, cuts) && i < p.stages
    ensures cuts[i] + (p.stages - 1 - i) <= p.blocks
    decreases p.stages - i
  {
    if i < p.stages - 1 {
      BelowLast(p, cuts, i + 1);
      assert Cut(cuts, i + 1) < cuts[i + 1];
    }
  }

  lemma PlanNeedsBlocks(p: Problem, cuts: seq<nat>)
    requires p.stages >= 1 && IsPlan(p, cuts)
    ensures p.stages <= p.blocks
  {
    assert Cut(cuts, 0) < cuts[0];
    BelowLast(p, cuts, 0);
  }

  // ---------------------------------------------------------------------------
  // The recurrence on explicit rows is the planner's completion vector
  // ---------------------------------------------------------------------------

  function CostRows(p: Problem, cuts: seq<nat>): (rows: seq<Row>)
    requires |cuts| == p.stages
    ensures |rows| == p.stages
    ensures forall k :: 0 <= k < p.stages ==> rows[k] == p.cost(k, Cut(cuts, k), cuts[k])
  {
    seq(p.stages, k requires 0 <= k < p.stages => p.cost(k, Cut(cuts, k), cuts[k]))
  }

  lemma PlanBasics(p: Problem, cuts: seq<nat>)
    requires Valid(p) && IsPlan(p, cuts)
    ensures |cuts| == p.stages == |p.links| && p.stages >= 1 && p.chunks >= 1
    ensures forall k :: 0 <= k < p.stages ==> |p.links[k]| == p.chunks
  {
  }

  lemma CostRowsShape(p: Problem, cuts: seq<nat>)
    requires Valid(p) && IsPlan(p, cuts)
    ensures Shape(CostRows(p, cuts), p.links, p.chunks)
  {
    forall k | 0 <= k < p.stages
      ensures |CostRows(p, cuts)[k]| == p.chunks
    {
      assert Cut(cuts, k) < cuts[k];
      BelowLast(p, cuts, k);
    }
  }

  lemma PrefixFeasible(p: Problem, cuts: seq<nat>, k: nat)
    requires p.stages >= 1 && IsPlan(p, cuts) && k <= p.stages
    ensures Feasible(p, cuts[..k], k)
  {
    hide IsPlan;
    PlanEnds(p, cuts);
    var short := cuts[..k];
    forall i | 0 <= i < k
      ensures Cut(short, i) < short[i]
    {
      NonemptyStage(p, cuts, i);
    }
    if k > 0 {
      BelowLast(p, cuts, k - 1);
    } else {
      PlanNeedsBlocks(p, cuts);
    }
  }

  lemma NonemptyStage(p: Problem, cuts: seq<nat>, i: nat)
    requires IsPlan(p, cuts) && i < p.stages
    ensures |cuts| == p.stages && Cut(cuts, i) < cuts[i]
  {
  }

  lemma LastStageRow(p: Problem, cuts: seq<nat>, k: nat)
    requires Valid(p) && IsPlan(p, cuts) && k < p.stages
    requires Shape(CostRows(p, cuts), p.links, p.chunks)
    ensures Feasible(p, cuts[..k], k) && Feasible(p, cuts[..k + 1], k + 1)
    ensures PlanRow(p, cuts[..k + 1]) == StageRow(PlanRow(p, cuts[..k]), p.links[k], CostRows(p, cuts)[k])
  {
    hide NonNegative, IsPlan, CostRows, StageRow, PlanRow, Feasible, Valid;
    PlanBasics(p, cuts);
    PrefixFeasible(p, cuts, k);
    PrefixFeasible(p, cuts, k + 1);
    var longer := cuts[..k + 1];
    assert longer[..k] == cuts[..k];
    assert Cut(longer, k) == Cut(cuts, k);
    PlanRowStep(p, longer, k);
  }

  lemma {:induction false} PlanRowIsCompletion(p: Problem, cuts: seq<nat>, costs: seq<Row>, k: nat)
    requires Valid(p) && IsPlan(p, cuts) && k <= p.stages
    requires Shape(costs, p.links, p.chunks) && costs == CostRows(p, cuts)
    ensures |costs| == p.stages && Feasible(p, cuts[..k], k)
    ensures IsCompletionRow(costs, p.links, p.chunks, PlanRow(p, cuts[..k]), k - 1)
  {
    hide NonNegative, IsPlan, IsCompletionRow, CostRows, PlanRow, StageRow, Feasible, Valid, Completion;
    if k == 0 {
      FirstRow(p, cuts, costs);
    } else {
      PlanRowIsCompletion(p, cuts, costs, k - 1);
      LastStageRow(p, cuts, k - 1);
      NoEntryLink(p);
      PlanBasics(p, cuts);
      StageRowIsCompletion(costs, p.links, p.chunks, PlanRow(p, cuts[..k - 1]), k - 1);
    }
  }

  lemma NoEntryLink(p: Problem)
    requires Valid(p)
    ensures |p.links| == p.stages >= 1 && |p.links[0]| == p.chunks >= 1
    ensures forall j :: 0 <= j < p.chunks ==> p.links[0][j] == 0.0
  {
  }

  lemma FirstRow(p: Problem, cuts: seq<nat>, costs: seq<Row>)
    requires Valid(p) && IsPlan(p, cuts) && Shape(costs, p.links, p.chunks)
    ensures |costs| == p.stages && Feasible(p, cuts[..0], 0)
    ensures IsCompletionRow(costs, p.links, p.chunks, PlanRow(p, cuts[..0]), -1)
  {
    hide NonNegative, IsPlan;
    PrefixFeasible(p, cuts, 0);
  }

  // ---------------------------------------------------------------------------
  // Search
  // ---------------------------------------------------------------------------

  method CostOf(p: Problem, cuts: seq<nat>) returns (t: real)
    requires Valid(p) && IsPlan(p, cuts)
    ensures t == PlanCost(p, cuts)
  {
    hide NonNegative, Completion, PlanRow, Valid, Feasible, Shape, CostRows, IsPlan;
    PlanBasics(p, cuts);
    CostRowsShape(p, cuts);
    t := ComputeMakespan(CostRows(p, cuts), p.links, p.chunks);
    assert cuts[..p.stages] == cuts;
    PlanRowIsCompletion(p, cuts, CostRows(p, cuts), p.stages);
  }

  /** Tries every combination of inner boundaries; None when there is none. */
  method Search(p: Problem) returns (r: Option<Plan>)
    requires Valid(p)
    ensures r.None? <==> p.stages > p.blocks
    ensures r.Some? ==> IsPlan(p, r.value.cuts) && r.value.t == PlanCost(p, r.value.cuts) && IsOptimum(p, r.value.t)
  {
    hide NonNegative, PlanRow, Choice, IsPlan, Combinations;
    var all := Combinations(1, p.blocks, p.stages - 1);
    r := None;
    for i := 0 to |all|
      invariant i > 0 ==> r.Some?
      invariant r.Some? ==> IsPlan(p, r.value.cuts) && r.value.t == PlanCost(p, r.value.cuts)
      invariant forall h :: 0 <= h < i ==> IsPlan(p, all[h] + [p.blocks]) && r.value.t <= PlanCost(p, all[h] + [p.blocks])
    {
      assert all[i] in all;
      CombinationsExact(1, p.blocks, p.stages - 1, all[i]);
      ChoiceIsPlan(p, all[i]);
      var cuts := all[i] + [p.blocks];
      var t := CostOf(p, cuts);
      if r.None? || t < r.value.t {
        r := Some(Plan(t, cuts));
      }
    }
    forall cuts | IsPlan(p, cuts)
      ensures r.Some? && r.value.t <= PlanCost(p, cuts)
    {
      PlanIsChoice(p, cuts);
      CombinationsExact(1, p.blocks, p.stages - 1, cuts[..p.stages - 1]);
      var h :| 0 <= h < |all| && all[h] == cuts[..p.stages - 1];
    }
    if r.Some? {
      PlanNeedsBlocks(p, r.value.cuts);
    } else if p.stages <= p.blocks {
      TrivialPlan(p);
    }
  }

  lemma TrivialPlan(p: Problem)
    requires 1 <= p.stages <= p.blocks
    ensures exists cuts :: IsPlan(p, cuts)
  {
    var c := seq(p.stages - 1, i requires 0 <= i < p.stages - 1 => i + 1);
    ChoiceIsPlan(p, c);
  }

  /** The planner's `--selftest`: the dynamic program and the exhaustive search give the
      same predicted time on every problem. */
  method SelfTest(p: Problem) returns (same: bool)
    requires Valid(p) && CostByMix(p)
    ensures same
  {
    hide Valid, IsPlan, IsOptimum, CostByMix;
    var dp := PlanFor(p, 0);
    var bf := Search(p);
    if dp.Some? {
      OptimumUnique(p, dp.value.t, bf.value.t);
      same := dp.value.t == bf.value.t;
    } else {
      same := bf.None?;
    }
  }

  /** The problem posed by measured cost tables: stage costs depend on the mix of sub-blocks
      only, and the tables being nonnegative makes the problem well formed. */
  lemma TablesPoseAProblem(t: Tables, blocks: nat, links: seq<Row>, p: Problem)
    requires |links| >= 1 && blocks >= 1 && p.chunks >= 1 && ValidTables(t, |links|, p.chunks)
    requires Rows(links, |links|, p.chunks) && forall j :: 0 <= j < p.chunks ==> links[0][j] == 0.0
    requires p.blocks == blocks && p.stages == |links| && p.links == links
    requires forall k: nat, a: nat, b: nat :: k < p.stages && a < b <= blocks ==>
               p.cost(k, a, b) == StageCost(t, p.stages, p.chunks, k, Mix(a, b))
    ensures Valid(p) && CostByMix(p)
  {
    hide StageCost, ValidTables;
    forall k: nat, a: nat, b: nat | k < p.stages && a < b <= p.blocks
      ensures |p.cost(k, a, b)| == p.chunks && NonNegative(p.cost(k, a, b))
    {
      assert p.cost(k, a, b) == StageCost(t, p.stages, p.chunks, k, Mix(a, b));
    }
    forall k: nat, a: nat, b: nat, c: nat, d: nat
      | k < p.stages && a < b <= p.blocks && c < d <= p.blocks && Mix(a, b) == Mix(c, d)
      ensures p.cost(k, a, b) == p.cost(k, c, d)
    {
      assert p.cost(k, a, b) == StageCost(t, p.stages, p.chunks, k, Mix(a, b));
      assert p.cost(k, c, d) == StageCost(t, p.stages, p.chunks, k, Mix(c, d));
    }
  }
}
