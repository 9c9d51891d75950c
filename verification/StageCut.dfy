/** Where a model of nLayers layers is cut into pipeline stages. A layer consists of two
    sub-blocks, attention (2 * layer) and feed-forward (2 * layer + 1). */
module StageCut {
  import opened Partition

  datatype Result<T> = Ok(value: T) | Error(message: string)

  /** Sum of the first i counts. */
  function Prefix(counts: seq<nat>, i: nat): nat
    requires i <= |counts|
  {
    if i == 0 then 0 else Prefix(counts, i - 1) + counts[i - 1]
  }

  lemma PrefixStep(counts: seq<nat>, i: nat)
    requires i <= |counts|
    ensures Prefix(counts, 0) == 0
    ensures i < |counts| ==> Prefix(counts, i + 1) == Prefix(counts, i) + counts[i]
  {
  }

  predicate AllPositive(counts: seq<nat>) {
    forall i :: 0 <= i < |counts| ==> counts[i] > 0
  }

  // Why a user's counts are refused: the first of three tests that fails.
  function Refusal(counts: seq<nat>, total: nat, ppSize: nat): string {
    if |counts| != ppSize then "size mismatch with ppSize"
    else if !AllPositive(counts) then "must be > 0 for all stages"
    else "sum must match"
  }

  predicate Acceptable(counts: seq<nat>, total: nat, ppSize: nat) {
    |counts| == ppSize && AllPositive(counts) && Prefix(counts, |counts|) == total
  }

  // Offsets from the user's counts: running sums.
  method OffsetsFromCounts(counts: seq<nat>, total: nat, ppSize: nat) returns (r: Result<seq<nat>>)
    ensures r.Ok? <==> Acceptable(counts, total, ppSize)
    ensures r.Error? ==> r.message == Refusal(counts, total, ppSize)
    ensures r.Ok? ==> |r.value| == ppSize + 1 && forall i :: 0 <= i <= ppSize ==> r.value[i] == Prefix(counts, i)
  {
    hide Prefix;
    if |counts| != ppSize {
      return Error("size mismatch with ppSize");
    }
    var offsets, sum, i := [], 0, 0;
    PrefixStep(counts, 0);
    while i < ppSize
      invariant 0 <= i <= ppSize && |offsets| == i && sum == Prefix(counts, i)
      invariant forall q :: 0 <= q < i ==> offsets[q] == Prefix(counts, q)
      invariant forall q :: 0 <= q < i ==> counts[q] > 0
    {
      PrefixStep(counts, i);
      if counts[i] == 0 {
        return Error("must be > 0 for all stages");
      }
      offsets := offsets + [sum];
      sum := sum + counts[i];
      i := i + 1;
    }
    if sum != total {
      return Error("sum must match");
    }
    return Ok(offsets + [sum]);
  }

  /** Sub-block offsets: the user's counts, or an even split without any. */
  method BuildSubBlockOffsets(nLayers: nat, ppSize: nat, counts: seq<nat>) returns (r: Result<seq<nat>>)
    requires ppSize >= 1
    ensures counts == [] ==> r.Ok? && |r.value| == ppSize + 1
                             && forall i :: 0 <= i <= ppSize ==> r.value[i] == Start(2 * nLayers, ppSize, i)
    ensures counts != [] ==> (r.Ok? <==> Acceptable(counts, 2 * nLayers, ppSize))
    ensures counts != [] && r.Ok? ==>
              |r.value| == ppSize + 1 && forall i :: 0 <= i <= ppSize ==> r.value[i] == Prefix(counts, i)
    ensures r.Error? ==> r.message == Refusal(counts, 2 * nLayers, ppSize)
  {
    if counts != [] {
      r := OffsetsFromCounts(counts, 2 * nLayers, ppSize);
      return;
    }
    var per, rem := 2 * nLayers / ppSize, 2 * nLayers % ppSize;
    var offsets, acc, i := [], 0, 0;
    while i < ppSize
      invariant 0 <= i <= ppSize && |offsets| == i && acc == Start(2 * nLayers, ppSize, i)
      invariant forall q :: 0 <= q < i ==> offsets[q] == Start(2 * nLayers, ppSize, q)
    {
      NextStart(2 * nLayers, ppSize, i);
      offsets := offsets + [acc];
      acc := acc + per + if i < rem then 1 else 0;
      i := i + 1;
    }
    return Ok(offsets + [acc]);
  }

  // The split of whole layers used when the user gives no counts: the last stage takes the rest.
  function EqualLayers(nLayers: nat, ppSize: nat, i: nat): nat
    requires ppSize >= 1
  {
    if i == ppSize then nLayers else i * (nLayers / ppSize)
  }

  /** Layer offsets: the user's counts, or an equal split without any. */
  method BuildLayerStartOffsets(nLayers: nat, ppSize: nat, counts: seq<nat>) returns (r: Result<seq<nat>>)
    requires ppSize >= 1
    ensures counts == [] ==> r.Ok? && |r.value| == ppSize + 1
                             && forall i :: 0 <= i <= ppSize ==> r.value[i] == EqualLayers(nLayers, ppSize, i)
    ensures counts != [] ==> (r.Ok? <==> Acceptable(counts, nLayers, ppSize))
    ensures counts != [] && r.Ok? ==>
              |r.value| == ppSize + 1 && forall i :: 0 <= i <= ppSize ==> r.value[i] == Prefix(counts, i)
    ensures r.Error? ==> r.message == Refusal(counts, nLayers, ppSize)
  {
    if counts != [] {
      r := OffsetsFromCounts(counts, nLayers, ppSize);
      return;
    }
    var layersPerStage := nLayers / ppSize;
    var offsets, i := [], 0;
    while i < ppSize
      invariant 0 <= i <= ppSize && |offsets| == i
      invariant forall q :: 0 <= q < i ==> offsets[q] == EqualLayers(nLayers, ppSize, q)
    {
      offsets := offsets + [i * layersPerStage];
      i := i + 1;
    }
    return Ok(offsets + [nLayers]);
  }

  /** Stage r runs sub-blocks [cut[r], cut[r + 1]). */
  predicate IsCut(cut: seq<nat>, nSub: nat, ppSize: nat) {
    && |cut| == ppSize + 1 && cut[0] == 0 && cut[ppSize] == nSub
    && forall r :: 0 <= r < ppSize ==> cut[r] <= cut[r + 1]
  }

  predicate NoEmptyStage(cut: seq<nat>) {
    forall r :: 0 <= r < |cut| - 1 ==> cut[r] < cut[r + 1]
  }

  // Counts that add up to twice the number of layers count sub-blocks, otherwise layers.
  predicate SubMode(nLayers: nat, ppSize: nat, counts: seq<nat>) {
    counts != [] && |counts| == ppSize && Prefix(counts, |counts|) == 2 * nLayers
  }

  /** The cut that both the graph builder and the weight loader use, in sub-blocks. It is
      refused exactly when the user's counts fit neither as sub-blocks nor as layers, and it has
      an empty stage exactly when it was made by the equal split with fewer layers than stages. */
  method StageOffsets(nLayers: nat, ppSize: nat, counts: seq<nat>) returns (r: Result<seq<nat>>)
    requires ppSize >= 1
    ensures r.Ok? <==> counts == [] || Acceptable(counts, 2 * nLayers, ppSize) || Acceptable(counts, nLayers, ppSize)
    ensures r.Ok? ==> IsCut(r.value, 2 * nLayers, ppSize)
    ensures r.Ok? ==> (NoEmptyStage(r.value) <==> counts != [] || nLayers >= ppSize)
    ensures r.Ok? && counts != [] ==>
              forall i :: 0 <= i <= ppSize ==>
                r.value[i] == if SubMode(nLayers, ppSize, counts) then Prefix(counts, i) else 2 * Prefix(counts, i)
    ensures r.Ok? && counts == [] ==>
              forall i :: 0 <= i <= ppSize ==> r.value[i] == 2 * EqualLayers(nLayers, ppSize, i)
  {
    if SubMode(nLayers, ppSize, counts) {
      r := BuildSubBlockOffsets(nLayers, ppSize, counts);
      if r.Ok? {
        RunningSums(counts, r.value, 1);
      }
      return;
    }
    var layers := BuildLayerStartOffsets(nLayers, ppSize, counts);
    if layers.Error? {
      return Error(layers.message);
    }
    var cut := seq(ppSize + 1, i requires 0 <= i < |layers.value| => 2 * layers.value[i]);
    if counts != [] {
      RunningSums(counts, cut, 2);
    } else {
      EqualSplit(nLayers, ppSize, cut);
    }
    return Ok(cut);
  }

  lemma RunningSums(counts: seq<nat>, cut: seq<nat>, factor: nat)
    requires AllPositive(counts) && |counts| >= 1 && |cut| == |counts| + 1 && 1 <= factor <= 2
    requires forall i :: 0 <= i <= |counts| ==> cut[i] == factor * Prefix(counts, i)
    ensures IsCut(cut, factor * Prefix(counts, |counts|), |counts|) && NoEmptyStage(cut)
  {
    forall r | 0 <= r < |counts|
      ensures cut[r] < cut[r + 1]
    {
      assert Prefix(counts, r + 1) == Prefix(counts, r) + counts[r];
      assert cut[r + 1] == factor * Prefix(counts, r + 1);
      if factor == 1 { } else { assert factor == 2; }
    }
  }

  lemma EqualSplit(nLayers: nat, ppSize: nat, cut: seq<nat>)
    requires ppSize >= 1 && |cut| == ppSize + 1
    requires forall i :: 0 <= i <= ppSize ==> cut[i] == 2 * EqualLayers(nLayers, ppSize, i)
    ensures IsCut(cut, 2 * nLayers, ppSize)
    ensures NoEmptyStage(cut) <==> nLayers >= ppSize
  {
    var per := nLayers / ppSize;
    QuotientBound(nLayers, ppSize);
    forall r | 0 <= r < ppSize
      ensures cut[r] <= cut[r + 1]
      ensures per >= 1 ==> cut[r] < cut[r + 1]
    {
      assert cut[r + 1] == 2 * EqualLayers(nLayers, ppSize, r + 1);
      assert (r + 1) * per == r * per + per;
      if r + 1 == ppSize { } else { }
    }
    if per == 0 {
      assert cut[0] == 2 * EqualLayers(nLayers, ppSize, 0);
      if ppSize > 1 {
        assert 1 * per == 0;
        assert cut[0 + 1] == 2 * EqualLayers(nLayers, ppSize, 1) == 0;
      } else {
        assert cut[0 + 1] == 2 * nLayers;
      }
    }
  }

  lemma QuotientBound(n: nat, d: nat)
    requires d >= 1
    ensures d * (n / d) <= n < d * (n / d) + d
    ensures n / d >= 1 <==> n >= d
  {
    if n / d == 0 {
      assert n < d * (n / d) + d;
    } else {
      assert d * (n / d) >= d by { assert n / d >= 1; }
    }
  }
}
