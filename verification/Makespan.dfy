/** Completion times of a pipeline of stages fed with microbatches.

    The recurrence (prefill_bench/derivepp.py) is computed row by row by a loop;
    here it is tied to a two-dimensional recursive definition, to the longest
    monotone path through the stage/chunk grid, and to the prefix-maximum closed
    form that the planner evaluates on whole vectors. */
module Makespan {

  // One value per microbatch.
  type Row = seq<real>

  predicate NonNegative(r: Row) {
    forall j :: 0 <= j < |r| ==> r[j] >= 0.0
  }

  // Every stage has one cost and one incoming-link time per microbatch.
  predicate Shape(costs: seq<Row>, links: seq<Row>, m: nat) {
    && |links| == |costs|
    && (forall k :: 0 <= k < |costs| ==> |costs[k]| == m && |links[k]| == m)
  }

  predicate AllNonNegative(costs: seq<Row>, links: seq<Row>) {
    && (forall k :: 0 <= k < |costs| ==> NonNegative(costs[k]))
    && (forall k :: 0 <= k < |links| ==> NonNegative(links[k]))
  }

  function Max(a: real, b: real): real {
    if a > b then a else b
  }

  // The link into stage 0 is never paid.
  function LinkIn(links: seq<Row>, k: nat, j: nat): real
    requires k < |links| && j < |links[k]|
  {
    if k > 0 then links[k][j] else 0.0
  }

  /** Completion time of chunk j at stage k; row -1 and column -1 are time zero. */
  ghost function Completion(costs: seq<Row>, links: seq<Row>, m: nat, k: int, j: int): real
    requires Shape(costs, links, m)
    requires -1 <= k < |costs| && -1 <= j < m
    decreases k + 1, j + 1
  {
    if k < 0 || j < 0 then 0.0
    else
      Max(Completion(costs, links, m, k - 1, j) + LinkIn(links, k, j),
          Completion(costs, links, m, k, j - 1)) + costs[k][j]
  }

  /** The source's nested loop: one row per stage, carrying the last finish time. */
  method ComputeMakespan(costs: seq<Row>, links: seq<Row>, m: nat) returns (t: real)
    requires Shape(costs, links, m) && m > 0
    ensures t == Completion(costs, links, m, |costs| - 1, m - 1)
  {
    var prev := seq(m, _ => 0.0);
    for k := 0 to |costs|
      invariant |prev| == m
      invariant forall j :: 0 <= j < m ==> prev[j] == Completion(costs, links, m, k - 1, j)
    {
      var cur := [];
      var last := 0.0;
      for j := 0 to m
        invariant |cur| == j
        invariant last == Completion(costs, links, m, k, j - 1)
        invariant forall i :: 0 <= i < j ==> cur[i] == Completion(costs, links, m, k, i)
      {
        var ready := prev[j] + if k > 0 then links[k][j] else 0.0;
        var start := if ready > last then ready else last;
        last := start + costs[k][j];
        cur := cur + [last];
      }
      prev := cur;
    }
    t := prev[m - 1];
  }

  lemma {:induction false} CompletionNonNegative(costs: seq<Row>, links: seq<Row>, m: nat, k: int, j: int)
    requires Shape(costs, links, m) && AllNonNegative(costs, links)
    requires -1 <= k < |costs| && -1 <= j < m
    ensures Completion(costs, links, m, k, j) >= 0.0
    decreases k + 1, j + 1
  {
    if k >= 0 && j >= 0 {
      CompletionNonNegative(costs, links, m, k, j - 1);
    }
  }

  // ---------------------------------------------------------------------------
  // Longest path
  // ---------------------------------------------------------------------------

  /** A walk through the grid from stage 0, chunk 0: `Right` moves to the next chunk
      of the same stage, `Down` hands the same chunk to the next stage. */
  datatype Path = Origin | Right(prev: Path) | Down(prev: Path) {
    function Stage(): nat {
      match this
      case Origin => 0
      case Right(p) => p.Stage()
      case Down(p) => p.Stage() + 1
    }
    function Chunk(): nat {
      match this
      case Origin => 0
      case Right(p) => p.Chunk() + 1
      case Down(p) => p.Chunk()
    }
  }

  /** Work done at every visited cell plus the link paid by every `Down` move. */
  ghost function PathCost(costs: seq<Row>, links: seq<Row>, m: nat, p: Path): real
    requires Shape(costs, links, m)
    requires p.Stage() < |costs| && p.Chunk() < m
  {
    var here := costs[p.Stage()][p.Chunk()];
    match p
    case Origin => here
    case Right(q) => PathCost(costs, links, m, q) + here
    case Down(q) => PathCost(costs, links, m, q) + links[p.Stage()][p.Chunk()] + here
  }

  lemma {:induction false} PathIsLowerBound(costs: seq<Row>, links: seq<Row>, m: nat, p: Path)
    requires Shape(costs, links, m) && AllNonNegative(costs, links)
    requires p.Stage() < |costs| && p.Chunk() < m
    ensures PathCost(costs, links, m, p) <= Completion(costs, links, m, p.Stage(), p.Chunk())
  {
    match p
    case Origin =>
    case Right(q) => PathIsLowerBound(costs, links, m, q);
    case Down(q) => PathIsLowerBound(costs, links, m, q);
  }

  lemma CompletionUnfolds(costs: seq<Row>, links: seq<Row>, m: nat, k: nat, j: nat)
    requires Shape(costs, links, m) && AllNonNegative(costs, links) && k < |costs| && j < m
    ensures var up, left := Completion(costs, links, m, k - 1, j), Completion(costs, links, m, k, j - 1);
            && up >= 0.0 && left >= 0.0 && (k == 0 ==> up == 0.0) && (j == 0 ==> left == 0.0)
            && Completion(costs, links, m, k, j) == Max(up + LinkIn(links, k, j), left) + costs[k][j]
            && LinkIn(links, k, j) >= 0.0
  {
    CompletionNonNegative(costs, links, m, k - 1, j);
    CompletionNonNegative(costs, links, m, k, j - 1);
  }

  lemma {:induction false} CriticalPath(costs: seq<Row>, links: seq<Row>, m: nat, k: nat, j: nat) returns (p: Path)
    requires Shape(costs, links, m) && AllNonNegative(costs, links)
    requires k < |costs| && j < m
    ensures p.Stage() == k && p.Chunk() == j
    ensures PathCost(costs, links, m, p) == Completion(costs, links, m, k, j)
  {
    hide Completion, AllNonNegative, NonNegative;
    CompletionUnfolds(costs, links, m, k, j);
    if k == 0 && j == 0 {
      p := Origin;
    } else if k > 0 && (j == 0 ||
                        Completion(costs, links, m, k - 1, j) + links[k][j] > Completion(costs, links, m, k, j - 1)) {
      var q := CriticalPath(costs, links, m, k - 1, j);
      p := Down(q);
    } else {
      var q := CriticalPath(costs, links, m, k, j - 1);
      p := Right(q);
    }
  }

  /** The makespan is exactly the cost of the most expensive monotone path. */
  lemma MakespanIsLongestPath(costs: seq<Row>, links: seq<Row>, m: nat)
    requires Shape(costs, links, m) && AllNonNegative(costs, links)
    requires |costs| > 0 && m > 0
    ensures exists p: Path :: p.Stage() == |costs| - 1 && p.Chunk() == m - 1
              && PathCost(costs, links, m, p) == Completion(costs, links, m, |costs| - 1, m - 1)
    ensures forall p: Path :: p.Stage() == |costs| - 1 && p.Chunk() == m - 1
              ==> PathCost(costs, links, m, p) <= Completion(costs, links, m, |costs| - 1, m - 1)
  {
    var critical := CriticalPath(costs, links, m, |costs| - 1, m - 1);
    forall p: Path | p.Stage() == |costs| - 1 && p.Chunk() == m - 1
      ensures PathCost(costs, links, m, p) <= Completion(costs, links, m, |costs| - 1, m - 1)
    {
      PathIsLowerBound(costs, links, m, p);
    }
  }

  // ---------------------------------------------------------------------------
  // Vector form
  // ---------------------------------------------------------------------------

  /** Finish time of chunk j at one stage whose input arrives at `v[j] + link[j]`. */
  ghost function Finish(v: Row, link: Row, c: Row, j: int): real
    requires |v| == |link| == |c| && -1 <= j < |v|
    decreases j + 1
  {
    if j < 0 then 0.0 else Max(v[j] + link[j], Finish(v, link, c, j - 1)) + c[j]
  }

  ghost function StageRow(v: Row, link: Row, c: Row): (r: Row)
    requires |v| == |link| == |c|
    ensures |r| == |v|
  {
    seq(|v|, j requires 0 <= j < |v| => Finish(v, link, c, j))
  }

  /** `v` holds the completion times of stage k. */
  ghost predicate IsCompletionRow(costs: seq<Row>, links: seq<Row>, m: nat, v: Row, k: int)
    requires Shape(costs, links, m) && -1 <= k < |costs|
  {
    |v| == m && forall j :: 0 <= j < m ==> v[j] == Completion(costs, links, m, k, j)
  }

  lemma {:induction false} FinishIsCompletion(costs: seq<Row>, links: seq<Row>, m: nat, v: Row, k: nat, j: int)
    requires Shape(costs, links, m) && k < |costs| && -1 <= j < m
    requires IsCompletionRow(costs, links, m, v, k - 1)
    requires forall i :: 0 <= i < m ==> links[0][i] == 0.0
    ensures Finish(v, links[k], costs[k], j) == Completion(costs, links, m, k, j)
    decreases j + 1
  {
    if j >= 0 {
      FinishIsCompletion(costs, links, m, v, k, j - 1);
    }
  }

  /** One more stage of the vector form is one more row of the recurrence. */
  lemma StageRowIsCompletion(costs: seq<Row>, links: seq<Row>, m: nat, v: Row, k: nat)
    requires Shape(costs, links, m) && k < |costs|
    requires IsCompletionRow(costs, links, m, v, k - 1)
    requires forall i :: 0 <= i < m ==> links[0][i] == 0.0
    ensures IsCompletionRow(costs, links, m, StageRow(v, links[k], costs[k]), k)
  {
    forall j | 0 <= j < m
      ensures StageRow(v, links[k], costs[k])[j] == Completion(costs, links, m, k, j)
    {
      FinishIsCompletion(costs, links, m, v, k, j);
    }
  }

  // np.cumsum
  ghost function PrefixSum(c: Row, j: nat): real
    requires j < |c|
  {
    if j == 0 then c[0] else PrefixSum(c, j - 1) + c[j]
  }

  // np.maximum.accumulate
  ghost function PrefixMax(x: Row, j: nat): real
    requires j < |x|
  {
    if j == 0 then x[0] else Max(PrefixMax(x, j - 1), x[j])
  }

  // V + lk + c - C
  ghost function Slack(v: Row, link: Row, c: Row): (x: Row)
    requires |v| == |link| == |c|
    ensures |x| == |v|
    ensures forall j :: 0 <= j < |v| ==> x[j] == v[j] + link[j] + c[j] - PrefixSum(c, j)
  {
    seq(|v|, j requires 0 <= j < |v| => v[j] + link[j] + c[j] - PrefixSum(c, j))
  }

  /** `C + np.maximum.accumulate(V + lk + c - C)` on one row, with `C = np.cumsum(c)`. */
  method PrefixMaxRow(v: Row, link: Row, c: Row) returns (cur: Row)
    requires |v| == |link| == |c|
    requires |v| > 0 ==> v[0] + link[0] >= 0.0
    ensures cur == StageRow(v, link, c)
  {
    cur := [];
    var sum, acc := 0.0, 0.0;
    ghost var slack := Slack(v, link, c);
    for j := 0 to |v|
      invariant |cur| == j
      invariant j > 0 ==> sum == PrefixSum(c, j - 1) && acc == PrefixMax(slack, j - 1)
      invariant forall i :: 0 <= i < j ==> cur[i] == Finish(v, link, c, i)
    {
      sum := if j == 0 then c[0] else sum + c[j];
      assert sum == PrefixSum(c, j);
      var x := v[j] + link[j] + c[j] - sum;
      assert x == slack[j];
      acc := if j == 0 then x else Max(acc, x);
      assert acc == PrefixMax(slack, j);
      ClosedForm(v, link, c, j);
      cur := cur + [sum + acc];
    }
  }

  lemma {:induction false} ClosedForm(v: Row, link: Row, c: Row, j: nat)
    requires |v| == |link| == |c| && j < |v|
    requires v[0] + link[0] >= 0.0
    ensures Finish(v, link, c, j) == PrefixSum(c, j) + PrefixMax(Slack(v, link, c), j)
  {
    if j > 0 {
      ClosedForm(v, link, c, j - 1);
    }
  }

  /** The closed form agrees with the loop exactly when the first chunk does not arrive
      before time zero, where the loop starts its clock; no other sign matters. */
  lemma ClosedFormExactly(v: Row, link: Row, c: Row)
    requires |v| == |link| == |c| > 0
    ensures v[0] + link[0] >= 0.0 <==>
            forall j :: 0 <= j < |v| ==>
              Finish(v, link, c, j) == PrefixSum(c, j) + PrefixMax(Slack(v, link, c), j)
  {
    if v[0] + link[0] >= 0.0 {
      forall j | 0 <= j < |v|
        ensures Finish(v, link, c, j) == PrefixSum(c, j) + PrefixMax(Slack(v, link, c), j)
      {
        ClosedForm(v, link, c, j);
      }
    } else {
      assert Finish(v, link, c, -1) == 0.0;
      assert Finish(v, link, c, 0) != PrefixSum(c, 0) + PrefixMax(Slack(v, link, c), 0);
    }
  }

  /** Component-wise order on completion vectors. */
  predicate Dominates(a: Row, b: Row) {
    |a| == |b| && forall j :: 0 <= j < |a| ==> a[j] <= b[j]
  }

  lemma {:induction false} FinishMonotone(a: Row, b: Row, link: Row, c: Row, j: int)
    requires |a| == |link| == |c| && Dominates(a, b) && -1 <= j < |a|
    ensures Finish(a, link, c, j) <= Finish(b, link, c, j)
    decreases j + 1
  {
    if j >= 0 {
      FinishMonotone(a, b, link, c, j - 1);
    }
  }

  lemma StageRowMonotone(a: Row, b: Row, link: Row, c: Row)
    requires |a| == |link| == |c| && Dominates(a, b)
    ensures Dominates(StageRow(a, link, c), StageRow(b, link, c))
  {
    forall j | 0 <= j < |a|
      ensures StageRow(a, link, c)[j] <= StageRow(b, link, c)[j]
    {
      FinishMonotone(a, b, link, c, j);
    }
  }

  lemma {:induction false} FinishNonNegative(v: Row, link: Row, c: Row, j: int)
    requires |v| == |link| == |c| && -1 <= j < |v| && NonNegative(c)
    ensures Finish(v, link, c, j) >= 0.0
    decreases j + 1
  {
    if j >= 0 {
      FinishNonNegative(v, link, c, j - 1);
    }
  }

  lemma StageRowNonNegative(v: Row, link: Row, c: Row)
    requires |v| == |link| == |c| && NonNegative(c)
    ensures NonNegative(StageRow(v, link, c))
  {
    forall j | 0 <= j < |v|
      ensures StageRow(v, link, c)[j] >= 0.0
    {
      FinishNonNegative(v, link, c, j);
    }
  }

  // ---------------------------------------------------------------------------
  // One slow chunk
  // ---------------------------------------------------------------------------

  /** Zero links, every stage costs c per chunk, except that chunk `slow` costs c + e. */
  ghost predicate UniformExcept(costs: seq<Row>, links: seq<Row>, m: nat, c: real, e: real, slow: nat) {
    && Shape(costs, links, m)
    && (forall k, j :: 0 <= k < |costs| && 0 <= j < m ==> links[k][j] == 0.0)
    && (forall k, j :: 0 <= k < |costs| && 0 <= j < m ==> costs[k][j] == if j == slow then c + e else c)
  }

  // n * c by repeated addition.
  ghost function Times(n: nat, c: real): real {
    if n == 0 then 0.0 else Times(n - 1, c) + c
  }

  lemma {:induction false} TimesIsProduct(n: nat, c: real)
    ensures Times(n, c) == n as real * c
  {
    if n > 0 {
      TimesIsProduct(n - 1, c);
      assert n as real * c == ((n - 1) as real + 1.0) * c == (n - 1) as real * c + c;
    }
  }

  lemma {:induction false} TimesNonNegative(n: nat, c: real)
    requires c >= 0.0
    ensures Times(n, c) >= 0.0
  {
    if n > 0 {
      TimesNonNegative(n - 1, c);
    }
  }

  lemma {:induction false} UniformCompletion(costs: seq<Row>, links: seq<Row>, m: nat, c: real, e: real, slow: nat, k: nat, j: nat)
    requires c >= 0.0 && e >= 0.0 && UniformExcept(costs, links, m, c, e, slow)
    requires k < |costs| && j < m
    ensures Completion(costs, links, m, k, j) == Times(k + j + 1, c) + if j < slow then 0.0 else Times(k + 1, e)
    decreases k, j
  {
    TimesNonNegative(k + j, c);
    TimesNonNegative(k, e);
    if k > 0 {
      UniformCompletion(costs, links, m, c, e, slow, k - 1, j);
    }
    if j > 0 {
      UniformCompletion(costs, links, m, c, e, slow, k, j - 1);
    }
  }

  /** N stages and M chunks of cost c take (M + N - 1)c; one chunk that is e slower at
      every stage adds N*e wherever in the schedule it sits. */
  lemma SlowChunkCostsOncePerStage(costs: seq<Row>, links: seq<Row>, m: nat, c: real, e: real, slow: nat)
    requires c >= 0.0 && e >= 0.0 && UniformExcept(costs, links, m, c, e, slow)
    requires |costs| > 0 && slow < m
    ensures Completion(costs, links, m, |costs| - 1, m - 1) ==
            (m + |costs| - 1) as real * c + |costs| as real * e
  {
    var n := |costs|;
    var total := Completion(costs, links, m, n - 1, m - 1);
    assert total == Times(m + n - 1, c) + Times(n, e) by {
      UniformCompletion(costs, links, m, c, e, slow, n - 1, m - 1);
      assert n - 1 + (m - 1) + 1 == m + n - 1;
    }
    TimesIsProduct(m + n - 1, c);
    TimesIsProduct(n, e);
  }
}
