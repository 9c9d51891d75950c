/** The DerivePP stage planner: a dynamic program whose states are vectors of completion
    times, pruned by component-wise dominance, against exhaustive search. */
module Planner {
  import opened Common
  import opened Makespan
  import opened StageCosts

  /** `blocks` sub-blocks to be cut into `stages` nonempty stages. `cost(k, a, b)` is the
      per-chunk cost vector of stage k running sub-blocks [a, b); `links[k]` is the time each
      chunk needs to reach stage k. */
  datatype Problem = Problem(blocks: nat, stages: nat, chunks: nat,
                             cost: (nat, nat, nat) -> Row, links: seq<Row>)

  ghost predicate Valid(p: Problem) {
    && p.blocks >= 1 && p.stages >= 1 && p.chunks >= 1
    && |p.links| == p.stages
    && (forall k :: 0 <= k < p.stages ==> |p.links[k]| == p.chunks && NonNegative(p.links[k]))
    && (forall j :: 0 <= j < p.chunks ==> p.links[0][j] == 0.0)
    && (forall k: nat, a: nat, b: nat :: k < p.stages && a < b <= p.blocks ==>
          |p.cost(k, a, b)| == p.chunks && NonNegative(p.cost(k, a, b)))
  }

  /** Stages with equally many attention and feed-forward sub-blocks cost the same. */
  ghost predicate CostByMix(p: Problem) {
    forall k: nat, a: nat, b: nat, c: nat, d: nat :: k < p.stages && a < b <= p.blocks && c < d <= p.blocks && Mix(a, b) == Mix(c, d)
      ==> p.cost(k, a, b) == p.cost(k, c, d)
  }

  // ---------------------------------------------------------------------------
  // Partitions and their completion vectors
  // ---------------------------------------------------------------------------

  // Where stage i starts; cuts[i] is where it ends.
  function Cut(cuts: seq<nat>, i: nat): nat
    requires i <= |cuts|
  {
    if i == 0 then 0 else cuts[i - 1]
  }

  /** The first k stages of some plan: nonempty, and leaving at least one sub-block for
      each of the remaining stages. */
  predicate Feasible(p: Problem, cuts: seq<nat>, k: nat) {
    && |cuts| == k <= p.stages
    && (forall i :: 0 <= i < k ==> Cut(cuts, i) < cuts[i])
    && Cut(cuts, k) + (p.stages - k) <= p.blocks
  }

  /** A partition of all sub-blocks into nonempty consecutive stages. */
  predicate IsPlan(p: Problem, cuts: seq<nat>) {
    Feasible(p, cuts, p.stages) && Cut(cuts, p.stages) == p.blocks
  }

  lemma FeasiblePrefix(p: Problem, cuts: seq<nat>, k: nat)
    requires Feasible(p, cuts, k + 1)
    ensures Feasible(p, cuts[..k], k) && Cut(cuts[..k], k) == Cut(cuts, k) < cuts[k]
  {
    forall i | 0 <= i < k
      ensures Cut(cuts[..k], i) < cuts[..k][i]
    {
      assert Cut(cuts, i) < cuts[i];
    }
    assert Cut(cuts, k) < cuts[k];
  }

  function Zeros(m: nat): Row {
    seq(m, _ => 0.0)
  }

  /** Completion times after the stages described by `cuts`. */
  ghost function PlanRow(p: Problem, cuts: seq<nat>): (r: Row)
    requires Valid(p) && Feasible(p, cuts, |cuts|)
    ensures |r| == p.chunks
  {
    if |cuts| == 0 then Zeros(p.chunks)
    else
      var k := |cuts| - 1;
      FeasiblePrefix(p, cuts, k);
      StageRow(PlanRow(p, cuts[..k]), p.links[k], p.cost(k, Cut(cuts, k), cuts[k]))
  }

  ghost function PlanCost(p: Problem, cuts: seq<nat>): real
    requires Valid(p) && IsPlan(p, cuts)
  {
    PlanRow(p, cuts)[p.chunks - 1]
  }

  lemma PlanRowNonNegative(p: Problem, cuts: seq<nat>)
    requires Valid(p) && Feasible(p, cuts, |cuts|)
    ensures NonNegative(PlanRow(p, cuts))
  {
    if |cuts| > 0 {
      var k := |cuts| - 1;
      FeasiblePrefix(p, cuts, k);
      StageRowNonNegative(PlanRow(p, cuts[..k]), p.links[k], p.cost(k, Cut(cuts, k), cuts[k]));
    }
  }

  /** `t` is the least cost of any plan. */
  ghost predicate IsOptimum(p: Problem, t: real)
    requires Valid(p)
  {
    && (exists cuts :: IsPlan(p, cuts) && PlanCost(p, cuts) == t)
    && (forall cuts :: IsPlan(p, cuts) ==> t <= PlanCost(p, cuts))
  }

  // ---------------------------------------------------------------------------
  // Frontiers
  // ---------------------------------------------------------------------------

  datatype Entry = Entry(v: Row, cuts: seq<nat>)

  // Partial plans, grouped by the number of sub-blocks they cover.
  type Frontier = map<nat, seq<Entry>>

  ghost predicate EntryOk(p: Problem, k: nat, e: nat, x: Entry)
    requires Valid(p)
  {
    Feasible(p, x.cuts, k) && Cut(x.cuts, k) == e && x.v == PlanRow(p, x.cuts)
  }

  /** Every stored vector is the true completion vector of the cuts stored beside it. */
  ghost predicate Sound(p: Problem, k: nat, f: Frontier)
    requires Valid(p)
  {
    forall e :: e in f ==> |f[e]| > 0 && forall t :: 0 <= t < |f[e]| ==> EntryOk(p, k, e, f[e][t])
  }

  ghost predicate Covered(p: Problem, f: Frontier, e: nat, v: Row) {
    e in f && exists t :: 0 <= t < |f[e]| && Dominates(f[e][t].v, v)
  }

  /** Every feasible k-stage prefix is matched or beaten in every component. */
  ghost predicate Complete(p: Problem, k: nat, f: Frontier)
    requires Valid(p)
  {
    forall cuts :: Feasible(p, cuts, k) ==> Covered(p, f, Cut(cuts, k), PlanRow(p, cuts))
  }

  // Every stage count leaves something to work on.
  ghost predicate Reaches(p: Problem, k: nat, f: Frontier) {
    k <= p.stages <= p.blocks && if k == 0 then 0 in f else p.blocks - (p.stages - k) in f
  }

  // ---------------------------------------------------------------------------
  // Expanding one stage
  // ---------------------------------------------------------------------------

  method ExtendAll(xs: seq<Entry>, link: Row, c: Row, e: nat) returns (ys: seq<Entry>)
    requires |link| == |c|
    requires forall t :: 0 <= t < |xs| ==> |xs[t].v| == |c| && (|c| > 0 ==> xs[t].v[0] + link[0] >= 0.0)
    ensures |ys| == |xs|
    ensures forall t :: 0 <= t < |xs| ==> ys[t] == Entry(StageRow(xs[t].v, link, c), xs[t].cuts + [e])
  {
    ys := [];
    for t := 0 to |xs|
      invariant |ys| == t
      invariant forall u :: 0 <= u < t ==> ys[u] == Entry(StageRow(xs[u].v, link, c), xs[u].cuts + [e])
    {
      var cur := PrefixMaxRow(xs[t].v, link, c);
      ys := ys + [Entry(cur, xs[t].cuts + [e])];
    }
  }

  lemma ExtendFeasible(p: Problem, k: nat, i: nat, e: nat, cuts: seq<nat>)
    requires k < p.stages && Feasible(p, cuts, k) && Cut(cuts, k) == i
    requires i < e && e + (p.stages - k - 1) <= p.blocks
    ensures Feasible(p, cuts + [e], k + 1) && Cut(cuts + [e], k + 1) == e && Cut(cuts + [e], k) == i
  {
    var longer := cuts + [e];
    forall q | 0 <= q < k + 1
      ensures Cut(longer, q) < longer[q]
    {
      assert q < k ==> Cut(cuts, q) < cuts[q];
      assert Cut(longer, q) == Cut(cuts, q);
    }
  }

  lemma PlanRowStep(p: Problem, cuts: seq<nat>, k: nat)
    requires Valid(p) && Feasible(p, cuts, k + 1)
    ensures Feasible(p, cuts[..k], k)
    ensures |p.cost(k, Cut(cuts, k), cuts[k])| == p.chunks == |p.links[k]|
    ensures PlanRow(p, cuts) == StageRow(PlanRow(p, cuts[..k]), p.links[k], p.cost(k, Cut(cuts, k), cuts[k]))
  {
    hide StageRow, NonNegative;
    FeasiblePrefix(p, cuts, k);
  }

  lemma ExtendOk(p: Problem, k: nat, i: nat, e: nat, x: Entry)
    requires Valid(p) && k < p.stages && EntryOk(p, k, i, x)
    requires i < e && e + (p.stages - k - 1) <= p.blocks
    ensures |x.v| == p.chunks == |p.cost(k, i, e)| == |p.links[k]|
    ensures EntryOk(p, k + 1, e, Entry(StageRow(x.v, p.links[k], p.cost(k, i, e)), x.cuts + [e]))
  {
    hide StageRow, NonNegative, PlanRow, Feasible;
    ExtendFeasible(p, k, i, e, x.cuts);
    var cuts := x.cuts + [e];
    assert |x.cuts| == k by { FeasibleLength(p, x.cuts, k); }
    assert cuts[..k] == x.cuts;
    PlanRowStep(p, cuts, k);
  }

  lemma FeasibleLength(p: Problem, cuts: seq<nat>, k: nat)
    requires Feasible(p, cuts, k)
    ensures |cuts| == k <= p.stages && Cut(cuts, k) <= p.blocks
  {
  }

  // The extension of some stored entry by a stage ending at e is in `acc`.
  ghost predicate Extended(acc: Frontier, x: Entry, e: nat) {
    e in acc && exists t :: 0 <= t < |acc[e]| && acc[e][t].cuts == x.cuts + [e]
  }

  lemma ExtendedStays(acc: Frontier, more: Frontier, x: Entry, e: nat)
    requires Extended(acc, x, e) && e in more && acc[e] <= more[e]
    ensures Extended(more, x, e)
  {
    var t :| 0 <= t < |acc[e]| && acc[e][t].cuts == x.cuts + [e];
    assert more[e][t].cuts == x.cuts + [e];
  }

  // One (i, e) pair of the source's double loop.
  method ExpandPair(p: Problem, k: nat, i: nat, e: nat, xs: seq<Entry>, c: Row, acc0: Frontier) returns (acc: Frontier)
    requires Valid(p) && k < p.stages && Sound(p, k + 1, acc0)
    requires |xs| > 0 && forall t :: 0 <= t < |xs| ==> EntryOk(p, k, i, xs[t])
    requires i < e && e + (p.stages - k - 1) <= p.blocks && c == p.cost(k, i, e)
    ensures Sound(p, k + 1, acc)
    ensures Grows(acc0, acc)
    ensures forall t :: 0 <= t < |xs| ==> Extended(acc, xs[t], e)
  {
    forall t | 0 <= t < |xs|
      ensures |xs[t].v| == p.chunks && xs[t].v[0] + p.links[k][0] >= 0.0
    {
      PlanRowNonNegative(p, xs[t].cuts);
    }
    var ys := ExtendAll(xs, p.links[k], c, e);
    forall t | 0 <= t < |xs|
      ensures EntryOk(p, k + 1, e, ys[t])
    {
      ExtendOk(p, k, i, e, xs[t]);
    }
    var old' := if e in acc0 then acc0[e] else [];
    acc := acc0[e := old' + ys];
    forall t | 0 <= t < |xs|
      ensures Extended(acc, xs[t], e)
    {
      assert acc[e][|old'| + t] == ys[t];
    }
  }

  ghost predicate AllExtended(p: Problem, k: nat, f: Frontier, acc: Frontier, i: nat, limit: nat)
    requires k < p.stages
  {
    i in f ==> forall t, e :: 0 <= t < |f[i]| && i < e <= limit && e + (p.stages - k - 1) <= p.blocks
                 ==> Extended(acc, f[i][t], e)
  }

  lemma AllExtendedStays(p: Problem, k: nat, f: Frontier, acc: Frontier, more: Frontier, i: nat, limit: nat)
    requires k < p.stages && AllExtended(p, k, f, acc, i, limit)
    requires Grows(acc, more)
    ensures AllExtended(p, k, f, more, i, limit)
  {
    if i in f {
      forall t, e | 0 <= t < |f[i]| && i < e <= limit && e + (p.stages - k - 1) <= p.blocks
        ensures Extended(more, f[i][t], e)
      {
        ExtendedStays(acc, more, f[i][t], e);
      }
    }
  }

  ghost predicate Grows(acc: Frontier, more: Frontier) {
    forall d :: d in acc ==> d in more && acc[d] <= more[d]
  }

  // Every cached vector is the cost of any stage with that mix of sub-blocks.
  ghost predicate CacheOk(p: Problem, k: nat, cache: map<(nat, nat), Row>) {
    forall a: nat, b: nat :: a < b <= p.blocks && Mix(a, b) in cache ==> cache[Mix(a, b)] == p.cost(k, a, b)
  }

  lemma CacheHit(p: Problem, k: nat, cache: map<(nat, nat), Row>, a: nat, b: nat)
    requires CacheOk(p, k, cache) && a < b <= p.blocks && Mix(a, b) in cache
    ensures cache[Mix(a, b)] == p.cost(k, a, b)
  {
  }

  lemma CacheInsert(p: Problem, k: nat, cache: map<(nat, nat), Row>, a: nat, b: nat)
    requires CostByMix(p) && k < p.stages && CacheOk(p, k, cache) && a < b <= p.blocks
    ensures CacheOk(p, k, cache[Mix(a, b) := p.cost(k, a, b)])
  {
  }

  // The inner loop: all stages that start at i.
  method ExpandFrom(p: Problem, k: nat, i: nat, f: Frontier, acc0: Frontier, cache0: map<(nat, nat), Row>)
    returns (acc: Frontier, cache: map<(nat, nat), Row>)
    requires Valid(p) && CostByMix(p) && k < p.stages && Sound(p, k, f) && i in f
    requires Sound(p, k + 1, acc0) && CacheOk(p, k, cache0)
    ensures Sound(p, k + 1, acc) && CacheOk(p, k, cache)
    ensures Grows(acc0, acc) && AllExtended(p, k, f, acc, i, p.blocks)
  {
    hide PlanRow, NonNegative, Feasible, Valid, Extended, Mix, CostByMix, EntryOk, CacheOk;
    var remain := p.stages - k - 1;
    acc, cache := acc0, cache0;
    var e := i + 1;
    while e + remain <= p.blocks
      invariant i < e && Sound(p, k + 1, acc) && CacheOk(p, k, cache)
      invariant Grows(acc0, acc) && AllExtended(p, k, f, acc, i, e - 1)
      decreases p.blocks - e
    {
      var key := Mix(i, e);
      if key !in cache {
        CacheInsert(p, k, cache, i, e);
        cache := cache[key := p.cost(k, i, e)];
      }
      CacheHit(p, k, cache, i, e);
      ghost var before := acc;
      acc := ExpandPair(p, k, i, e, f[i], cache[key], acc);
      AllExtendedStays(p, k, f, before, acc, i, e - 1);
      e := e + 1;
    }
  }

  /** All one-stage extensions of the frontier, with the cost vector cached by the number
      of attention and feed-forward sub-blocks it covers. */
  method Expand(p: Problem, k: nat, f: Frontier) returns (acc: Frontier)
    requires Valid(p) && CostByMix(p) && k < p.stages && Sound(p, k, f)
    ensures Sound(p, k + 1, acc)
    ensures forall i :: 0 <= i <= p.blocks ==> AllExtended(p, k, f, acc, i, p.blocks)
  {
    var cache: map<(nat, nat), Row> := map[];
    acc := map[];
    for i := 0 to p.blocks + 1
      invariant Sound(p, k + 1, acc) && CacheOk(p, k, cache)
      invariant forall h :: 0 <= h < i ==> AllExtended(p, k, f, acc, h, p.blocks)
    {
      if i in f {
        ghost var before := acc;
        acc, cache := ExpandFrom(p, k, i, f, acc, cache);
        forall h | 0 <= h < i
          ensures AllExtended(p, k, f, acc, h, p.blocks)
        {
          AllExtendedStays(p, k, f, before, acc, h, p.blocks);
        }
      }
    }
  }

  // ---------------------------------------------------------------------------
  // Pareto pruning
  // ---------------------------------------------------------------------------

  // Stable order on positions: by key, ties by position.
  predicate Before(keys: seq<real>, a: nat, b: nat) {
    a < |keys| && b < |keys| && (keys[a] < keys[b] || (keys[a] == keys[b] && a < b))
  }

  predicate Ordered(keys: seq<real>, order: seq<nat>) {
    forall a, b :: 0 <= a < b < |order| ==> Before(keys, order[a], order[b])
  }

  function Insert(order: seq<nat>, q: nat, i: nat): (r: seq<nat>)
    requires q <= |order|
    ensures |r| == |order| + 1 && r[q] == i
    ensures forall a :: 0 <= a < q ==> r[a] == order[a]
    ensures forall a :: q < a < |r| ==> r[a] == order[a - 1]
  {
    order[..q] + [i] + order[q..]
  }

  lemma InsertOrdered(keys: seq<real>, order: seq<nat>, q: nat, i: nat)
    requires Ordered(keys, order) && q <= |order|
    requires forall a :: 0 <= a < q ==> Before(keys, order[a], i)
    requires forall a :: q <= a < |order| ==> Before(keys, i, order[a])
    ensures Ordered(keys, Insert(order, q, i))
  {
    var r := Insert(order, q, i);
    forall a, b | 0 <= a < b < |r|
      ensures Before(keys, r[a], r[b])
    {
      if a != q && b != q {
        var a', b' := if a < q then a else a - 1, if b < q then b else b - 1;
        assert Before(keys, order[a'], order[b']);
      }
    }
  }

  lemma InsertMembers(order: seq<nat>, q: nat, i: nat, x: nat)
    requires q <= |order|
    ensures x in Insert(order, q, i) <==> x in order || x == i
  {
    assert order == order[..q] + order[q..];
  }

  // Positions are placed behind everything that is not larger.
  lemma PlaceAfter(keys: seq<real>, order: seq<nat>, q: nat, i: nat, a: nat)
    requires Ordered(keys, order) && q <= |order| && i < |keys| && a < q
    requires forall x :: x in order ==> x < i
    requires order[q - 1] < i && keys[order[q - 1]] <= keys[i]
    ensures Before(keys, order[a], i)
  {
    assert order[a] in order && order[q - 1] in order;
    assert a < q - 1 ==> Before(keys, order[a], order[q - 1]);
  }

  /** `np.argsort(keys, kind="stable")`. */
  method StableOrder(keys: seq<real>) returns (order: seq<nat>)
    ensures |order| == |keys| && Ordered(keys, order)
    ensures forall x :: x in order <==> 0 <= x < |keys|
  {
    order := [];
    for i := 0 to |keys|
      invariant |order| == i && Ordered(keys, order)
      invariant forall x :: x in order <==> 0 <= x < i
    {
      var q := |order|;
      while q > 0 && order[q - 1] < |keys| && keys[order[q - 1]] > keys[i]
        invariant 0 <= q <= |order|
        invariant forall a :: q <= a < |order| ==> Before(keys, i, order[a])
      {
        q := q - 1;
      }
      forall a | 0 <= a < q
        ensures Before(keys, order[a], i)
      {
        assert order[q - 1] in order;
        PlaceAfter(keys, order, q, i, a);
      }
      InsertOrdered(keys, order, q, i);
      forall x
        ensures x in Insert(order, q, i) <==> x in order || x == i
      {
        InsertMembers(order, q, i, x);
      }
      order := Insert(order, q, i);
    }
  }

  function Last(x: Entry): real
    requires |x.v| > 0
  {
    x.v[|x.v| - 1]
  }

  method AnyDominates(kept: seq<Entry>, v: Row) returns (yes: bool)
    ensures yes <==> exists t :: 0 <= t < |kept| && Dominates(kept[t].v, v)
  {
    for t := 0 to |kept|
      invariant forall u :: 0 <= u < t ==> !Dominates(kept[u].v, v)
    {
      if Dominates(kept[t].v, v) {
        return true;
      }
    }
    return false;
  }

  // Some entry kept dominates v.
  ghost predicate CoveredBy(kept: seq<Entry>, v: Row) {
    exists t :: 0 <= t < |kept| && Dominates(kept[t].v, v)
  }

  // Every vector of xs is matched or beaten by a kept one.
  ghost predicate CoverAll(xs: seq<Entry>, kept: seq<Entry>) {
    forall u :: 0 <= u < |xs| ==> CoveredBy(kept, xs[u].v)
  }

  lemma StillCovered(kept: seq<Entry>, x: Entry, v: Row)
    requires CoveredBy(kept, v)
    ensures CoveredBy(kept + [x], v)
  {
    hide Dominates;
    var t :| 0 <= t < |kept| && Dominates(kept[t].v, v);
    assert (kept + [x])[t] == kept[t];
  }

  lemma CoversItself(kept: seq<Entry>, x: Entry)
    ensures CoveredBy(kept + [x], x.v)
  {
    DominatesReflexive(x.v);
    assert (kept + [x])[|kept|] == x;
  }

  // The first entry in order finishes first.
  lemma FirstFinishes(xs: seq<Entry>, keys: seq<real>, order: seq<nat>, u: nat)
    requires |keys| == |xs| == |order| && u < |xs| && Ordered(keys, order)
    requires forall x :: x in order <==> 0 <= x < |keys|
    requires forall t :: 0 <= t < |xs| ==> |xs[t].v| > 0 && keys[t] == Last(xs[t])
    ensures order[0] < |xs| && Last(xs[order[0]]) <= Last(xs[u])
    ensures exists h :: 0 <= h < |order| && order[h] == u
  {
    assert u in order && order[0] in order;
    var h :| 0 <= h < |order| && order[h] == u;
    assert h > 0 ==> Before(keys, order[0], order[h]);
  }

  /** Sort by finish time, drop whatever an already kept vector dominates, then cap. */
  method Prune(xs: seq<Entry>, m: nat, cap: nat) returns (kept: seq<Entry>)
    requires m > 0 && |xs| > 0 && forall t :: 0 <= t < |xs| ==> |xs[t].v| == m
    ensures |kept| > 0 && forall t :: 0 <= t < |kept| ==> kept[t] in xs
    ensures cap > 0 ==> |kept| <= cap
    ensures cap == 0 ==> CoverAll(xs, kept)
    ensures forall u :: 0 <= u < |xs| ==> Last(kept[0]) <= Last(xs[u])
  {
    hide Dominates, Ordered, Before;
    var keys := seq(|xs|, t requires 0 <= t < |xs| => Last(xs[t]));
    var order := StableOrder(keys);
    assert forall a :: 0 <= a < |order| ==> order[a] in order;
    kept := [];
    for i := 0 to |order|
      invariant |kept| <= i
      invariant i > 0 ==> |kept| > 0 && kept[0] == xs[order[0]]
      invariant forall t :: 0 <= t < |kept| ==> kept[t] in xs
      invariant forall h :: 0 <= h < i ==> CoveredBy(kept, xs[order[h]].v)
    {
      var x := xs[order[i]];
      var skip := AnyDominates(kept, x.v);
      if !skip {
        forall h | 0 <= h < i
          ensures CoveredBy(kept + [x], xs[order[h]].v)
        {
          StillCovered(kept, x, xs[order[h]].v);
        }
        CoversItself(kept, x);
        kept := kept + [x];
      }
    }
    hide CoveredBy;
    forall u | 0 <= u < |xs|
      ensures Last(kept[0]) <= Last(xs[u]) && CoveredBy(kept, xs[u].v)
    {
      FirstFinishes(xs, keys, order, u);
    }
    if cap > 0 && |kept| > cap {
      kept := kept[..cap];
    }
  }

  lemma DominatesReflexive(v: Row)
    ensures Dominates(v, v)
  {
  }

  lemma PruneKeepsCover(p: Problem, e: nat, acc: Frontier, f: Frontier, v: Row)
    requires Covered(p, acc, e, v) && e in f && CoverAll(acc[e], f[e])
    ensures Covered(p, f, e, v)
  {
    var u :| 0 <= u < |acc[e]| && Dominates(acc[e][u].v, v);
    var t :| 0 <= t < |f[e]| && Dominates(f[e][t].v, acc[e][u].v);
    assert Dominates(f[e][t].v, v);
  }

  lemma EntryLength(p: Problem, k: nat, e: nat, x: Entry)
    requires Valid(p) && EntryOk(p, k, e, x)
    ensures |x.v| == p.chunks > 0
  {
  }

  method PruneAll(p: Problem, k: nat, acc: Frontier, cap: nat) returns (f: Frontier)
    requires Valid(p) && Sound(p, k, acc)
    ensures f.Keys == acc.Keys && Sound(p, k, f)
    ensures cap == 0 ==> forall e, v :: Covered(p, acc, e, v) ==> Covered(p, f, e, v)
  {
    hide Valid, EntryOk, CoverAll, Covered, NonNegative;
    f := map[];
    var todo := acc.Keys;
    while todo != {}
      invariant todo <= acc.Keys && f.Keys == acc.Keys - todo && Sound(p, k, f)
      invariant cap == 0 ==> forall e :: e in f ==> CoverAll(acc[e], f[e])
      decreases todo
    {
      var e :| e in todo;
      forall t | 0 <= t < |acc[e]|
        ensures |acc[e][t].v| == p.chunks > 0
      {
        EntryLength(p, k, e, acc[e][t]);
      }
      assert p.chunks > 0 by {
        EntryLength(p, k, e, acc[e][0]);
      }
      var kept := Prune(acc[e], p.chunks, cap);
      f := f[e := kept];
      todo := todo - {e};
    }
    if cap == 0 {
      forall e, v | Covered(p, acc, e, v)
        ensures Covered(p, f, e, v)
      {
        assert e in acc by { CoveredKey(p, acc, e, v); }
        PruneKeepsCover(p, e, acc, f, v);
      }
    }
  }

  lemma CoveredKey(p: Problem, f: Frontier, e: nat, v: Row)
    requires Covered(p, f, e, v)
    ensures e in f
  {
  }

  // ---------------------------------------------------------------------------
  // The planner
  // ---------------------------------------------------------------------------

  // Dominance survives a stage.
  lemma DominanceStep(p: Problem, k: nat, x: Entry, cuts: seq<nat>)
    requires Valid(p) && Feasible(p, cuts, k + 1) && Feasible(p, cuts[..k], k)
    requires EntryOk(p, k, Cut(cuts, k), x) && Dominates(x.v, PlanRow(p, cuts[..k]))
    ensures Feasible(p, x.cuts + [cuts[k]], k + 1)
    ensures Dominates(PlanRow(p, x.cuts + [cuts[k]]), PlanRow(p, cuts))
  {
    hide NonNegative, StageRow, Dominates, PlanRow;
    var i, e := Cut(cuts, k), cuts[k];
    assert Cut(cuts, k) < cuts[k];
    ExtendFeasible(p, k, i, e, x.cuts);
    assert (x.cuts + [e])[..k] == x.cuts;
    PlanRowStep(p, cuts, k);
    PlanRowStep(p, x.cuts + [e], k);
    assert |x.v| == p.chunks;
    StageRowMonotone(x.v, PlanRow(p, cuts[..k]), p.links[k], p.cost(k, i, e));
  }

  // The stored entry that covers the prefix, extended by the last stage, is in `acc`.
  lemma ExtensionCovers(p: Problem, k: nat, f: Frontier, acc: Frontier, cuts: seq<nat>, x: Entry)
    requires Valid(p) && Feasible(p, cuts, k + 1) && Feasible(p, cuts[..k], k) && Sound(p, k + 1, acc)
    requires EntryOk(p, k, Cut(cuts, k), x) && Dominates(x.v, PlanRow(p, cuts[..k]))
    requires Extended(acc, x, cuts[k])
    ensures Covered(p, acc, Cut(cuts, k + 1), PlanRow(p, cuts))
  {
    hide NonNegative, StageRow, Dominates, PlanRow, Valid;
    var e := cuts[k];
    var u :| 0 <= u < |acc[e]| && acc[e][u].cuts == x.cuts + [e];
    DominanceStep(p, k, x, cuts);
    assert EntryOk(p, k + 1, e, acc[e][u]);
    assert Dominates(acc[e][u].v, PlanRow(p, cuts));
  }

  /** Extending a complete frontier covers every plan that is one stage longer. */
  lemma ExpandKeepsComplete(p: Problem, k: nat, f: Frontier, acc: Frontier, cuts: seq<nat>)
    requires Valid(p) && k < p.stages && Sound(p, k, f) && Complete(p, k, f) && Sound(p, k + 1, acc)
    requires forall i :: 0 <= i <= p.blocks ==> AllExtended(p, k, f, acc, i, p.blocks)
    requires Feasible(p, cuts, k + 1)
    ensures Covered(p, acc, Cut(cuts, k + 1), PlanRow(p, cuts))
  {
    hide NonNegative, StageRow, Dominates, PlanRow, Valid, EntryOk, Extended;
    FeasiblePrefix(p, cuts, k);
    var short, i, e := cuts[..k], Cut(cuts, k), cuts[k];
    assert Covered(p, f, i, PlanRow(p, short));
    var t :| 0 <= t < |f[i]| && Dominates(f[i][t].v, PlanRow(p, short));
    assert AllExtended(p, k, f, acc, i, p.blocks);
    assert EntryOk(p, k, i, f[i][t]) && Extended(acc, f[i][t], e);
    ExtensionCovers(p, k, f, acc, cuts, f[i][t]);
  }

  lemma NextComplete(p: Problem, k: nat, f: Frontier, acc: Frontier, next: Frontier)
    requires Valid(p) && k < p.stages && Sound(p, k, f) && Complete(p, k, f) && Sound(p, k + 1, acc)
    requires forall i :: 0 <= i <= p.blocks ==> AllExtended(p, k, f, acc, i, p.blocks)
    requires forall e, v :: Covered(p, acc, e, v) ==> Covered(p, next, e, v)
    ensures Complete(p, k + 1, next)
  {
    hide NonNegative, StageRow, Dominates, PlanRow, Valid, AllExtended, Sound, Covered;
    forall cuts | Feasible(p, cuts, k + 1)
      ensures Covered(p, next, Cut(cuts, k + 1), PlanRow(p, cuts))
    {
      ExpandKeepsComplete(p, k, f, acc, cuts);
    }
  }

  datatype Plan = Plan(t: real, cuts: seq<nat>)

  method ArgMin(xs: seq<Entry>, m: nat) returns (best: nat)
    requires m > 0 && |xs| > 0 && forall t :: 0 <= t < |xs| ==> |xs[t].v| == m
    ensures best < |xs| && forall t :: 0 <= t < |xs| ==> Last(xs[best]) <= Last(xs[t])
  {
    best := 0;
    for t := 1 to |xs|
      invariant best < |xs| && forall u :: 0 <= u < t ==> Last(xs[best]) <= Last(xs[u])
    {
      if Last(xs[t]) < Last(xs[best]) {
        best := t;
      }
    }
  }

  // A frontier that still reaches the last admissible sub-block.
  lemma ExpandReaches(p: Problem, k: nat, f: Frontier, acc: Frontier)
    requires Valid(p) && k < p.stages <= p.blocks && Sound(p, k, f) && Reaches(p, k, f)
    requires forall i :: 0 <= i <= p.blocks ==> AllExtended(p, k, f, acc, i, p.blocks)
    ensures Reaches(p, k + 1, acc)
  {
    var i := if k == 0 then 0 else p.blocks - (p.stages - k);
    var e := p.blocks - (p.stages - k - 1);
    assert AllExtended(p, k, f, acc, i, p.blocks);
    assert Extended(acc, f[i][0], e);
  }

  /** The planner. Without a frontier cap it finds the optimum over all partitions into
      nonempty stages; with one it still returns a true plan with its true cost. */
  method PlanFor(p: Problem, cap: nat) returns (r: Option<Plan>)
    requires Valid(p) && CostByMix(p)
    ensures r.None? <==> p.stages > p.blocks
    ensures r.Some? ==> IsPlan(p, r.value.cuts) && r.value.t == PlanCost(p, r.value.cuts)
    ensures r.Some? && cap == 0 ==> IsOptimum(p, r.value.t)
  {
    hide AllExtended, NonNegative, Valid, CostByMix, Covered, EntryOk, Feasible;
    if p.stages > p.blocks {
      return None;
    }
    var f: Frontier := map[0 := [Entry(Zeros(p.chunks), [])]];
    StartFrontier(p, f);
    for k := 0 to p.stages
      invariant Sound(p, k, f) && Reaches(p, k, f)
      invariant cap == 0 ==> Complete(p, k, f)
    {
      var acc := Expand(p, k, f);
      ExpandReaches(p, k, f, acc);
      var next := PruneAll(p, k + 1, acc, cap);
      if cap == 0 {
        NextComplete(p, k, f, acc, next);
      }
      f := next;
    }
    r := BestOf(p, f, cap);
  }

  lemma StartFrontier(p: Problem, f: Frontier)
    requires Valid(p) && p.stages <= p.blocks && f == map[0 := [Entry(Zeros(p.chunks), [])]]
    ensures Sound(p, 0, f) && Complete(p, 0, f)
  {
    hide NonNegative, StageRow;
    assert EntryOk(p, 0, 0, f[0][0]);
    forall cuts | Feasible(p, cuts, 0)
      ensures Covered(p, f, Cut(cuts, 0), PlanRow(p, cuts))
    {
      assert Dominates(f[0][0].v, PlanRow(p, cuts));
    }
  }

  // Reads the answer off the last frontier.
  method BestOf(p: Problem, f: Frontier, cap: nat) returns (r: Option<Plan>)
    requires Valid(p) && p.stages <= p.blocks && Sound(p, p.stages, f) && Reaches(p, p.stages, f)
    requires cap == 0 ==> Complete(p, p.stages, f)
    ensures r.Some? && IsPlan(p, r.value.cuts) && r.value.t == PlanCost(p, r.value.cuts)
    ensures cap == 0 ==> IsOptimum(p, r.value.t)
  {
    hide NonNegative, StageRow, PlanRow, IsOptimum, Complete;
    var xs := f[p.blocks];
    forall t | 0 <= t < |xs|
      ensures |xs[t].v| == p.chunks > 0
    {
      EntryLength(p, p.stages, p.blocks, xs[t]);
    }
    var best := ArgMin(xs, p.chunks);
    assert EntryOk(p, p.stages, p.blocks, xs[best]);
    r := Some(Plan(Last(xs[best]), xs[best].cuts));
    if cap == 0 {
      FrontierMinimum(p, f, xs[best]);
    }
  }

  // A covered plan is no better than the best stored entry.
  lemma CoveredBound(p: Problem, f: Frontier, best: Entry, cuts: seq<nat>)
    requires Valid(p) && IsPlan(p, cuts) && Covered(p, f, p.blocks, PlanRow(p, cuts))
    requires |best.v| == p.chunks && Sound(p, p.stages, f)
    requires forall t :: 0 <= t < |f[p.blocks]| ==> |f[p.blocks][t].v| == p.chunks && Last(best) <= Last(f[p.blocks][t])
    ensures Last(best) <= PlanCost(p, cuts)
  {
    hide NonNegative, StageRow, Sound, PlanRow, EntryOk;
    var t :| 0 <= t < |f[p.blocks]| && Dominates(f[p.blocks][t].v, PlanRow(p, cuts));
    assert Last(f[p.blocks][t]) <= PlanRow(p, cuts)[p.chunks - 1];
  }

  lemma FrontierMinimum(p: Problem, f: Frontier, best: Entry)
    requires Valid(p) && Complete(p, p.stages, f) && Sound(p, p.stages, f) && p.blocks in f
    requires EntryOk(p, p.stages, p.blocks, best)
    requires forall t :: 0 <= t < |f[p.blocks]| ==> |f[p.blocks][t].v| == p.chunks
    requires |best.v| == p.chunks > 0
    requires forall t :: 0 <= t < |f[p.blocks]| ==> Last(best) <= Last(f[p.blocks][t])
    ensures IsOptimum(p, Last(best))
  {
    hide NonNegative, StageRow, PlanRow, Covered, Valid, Sound;
    assert IsPlan(p, best.cuts) && PlanCost(p, best.cuts) == Last(best);
    forall cuts | IsPlan(p, cuts)
      ensures Last(best) <= PlanCost(p, cuts)
    {
      assert Feasible(p, cuts, p.stages);
      CoveredBound(p, f, best, cuts);
    }
  }

  lemma OptimumUnique(p: Problem, s: real, t: real)
    requires Valid(p) && IsOptimum(p, s) && IsOptimum(p, t)
    ensures s == t
  {
    hide NonNegative, StageRow, PlanRow, Valid;
    var a :| IsPlan(p, a) && PlanCost(p, a) == s;
    var b :| IsPlan(p, b) && PlanCost(p, b) == t;
  }
}
