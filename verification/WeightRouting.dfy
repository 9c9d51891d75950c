/** The weight loader's search for the stage that owns a weight, against the operations that
    the stages' graphs contain. */
module WeightRouting {
  import opened Arithmetic
  import opened StageCut
  import opened StageGraph

  // ---------------------------------------------------------------------------
  // The loader's search
  // ---------------------------------------------------------------------------

  predicate HasSubstring(s: string, sub: string) {
    exists i :: 0 <= i <= |s| - |sub| && Matches(s, sub, i)
  }

  predicate Matches(s: string, sub: string, i: int) {
    0 <= i <= |s| - |sub| && s[i..i + |sub|] == sub
  }

  // 0 for attention, 1 for feed-forward.
  ghost function SubPartOfOp(name: string): nat {
    if HasSubstring(name, "matmul_w1") || HasSubstring(name, "matmul_w2") || HasSubstring(name, "matmul_w3")
       || HasSubstring(name, "moe") || HasSubstring(name, "norm_1") then 1 else 0
  }

  datatype Owner = Everyone | Stage(rank: nat)

  predicate Inside(cut: seq<nat>, r: nat, sub: nat) {
    r + 1 < |cut| && cut[r] <= sub < cut[r + 1]
  }

  // What the search over a cut has to find: the first stage whose range holds the sub-block,
  // or the last stage if there is none.
  predicate IsOwnerIn(cut: seq<nat>, ppSize: nat, sub: nat, o: Owner) {
    && o.Stage? && o.rank < ppSize
    && (forall q :: 0 <= q < o.rank ==> !Inside(cut, q, sub))
    && (Inside(cut, o.rank, sub) || o.rank == ppSize - 1)
  }

  // Without a cut of the right size layers are taken to be split equally.
  function FallbackOwner(layer: nat, nLayers: nat, ppSize: nat): Owner
    requires ppSize > 1
  {
    var per := nLayers / ppSize;
    if per == 0 then Everyone else if layer / per >= ppSize then Stage(ppSize - 1) else Stage(layer / per)
  }

  method FindOwner(cut: seq<nat>, layer: nat, nLayers: nat, ppSize: nat, part: nat) returns (o: Owner)
    ensures ppSize <= 1 || nLayers == 0 ==> o == Everyone
    ensures ppSize > 1 && nLayers > 0 ==>
              if |cut| == ppSize + 1 then IsOwnerIn(cut, ppSize, 2 * layer + part, o)
              else o == FallbackOwner(layer, nLayers, ppSize)
  {
    if ppSize <= 1 || nLayers == 0 {
      return Everyone;
    }
    if |cut| == ppSize + 1 {
      var sub, r := 2 * layer + part, 0;
      while r < ppSize
        invariant 0 <= r <= ppSize
        invariant forall q :: 0 <= q < r ==> !Inside(cut, q, sub)
      {
        if cut[r] <= sub < cut[r + 1] {
          return Stage(r);
        }
        r := r + 1;
      }
      return Stage(ppSize - 1);
    }
    var layersPerStage := nLayers / ppSize;
    if layersPerStage == 0 {
      return Everyone;
    }
    var rank := layer / layersPerStage;
    if rank >= ppSize {
      rank := ppSize - 1;
    }
    return Stage(rank);
  }

  // The nodes the weight is sent to: those of the owner's stage, or all.
  predicate SentTo(o: Owner, r: nat) {
    o == Everyone || o == Stage(r)
  }

  lemma {:induction false} CutMonotone(cut: seq<nat>, nSub: nat, ppSize: nat, q: nat, r: nat)
    requires IsCut(cut, nSub, ppSize) && q <= r <= ppSize
    ensures cut[q] <= cut[r]
    decreases r - q
  {
    if q < r {
      CutMonotone(cut, nSub, ppSize, q + 1, r);
    }
  }

  lemma {:induction false} SomeStageOwns(cut: seq<nat>, nSub: nat, ppSize: nat, sub: nat, k: nat) returns (r: nat)
    requires IsCut(cut, nSub, ppSize) && k <= ppSize && sub < cut[k]
    ensures r < k && Inside(cut, r, sub)
  {
    if cut[k - 1] <= sub {
      r := k - 1;
    } else {
      r := SomeStageOwns(cut, nSub, ppSize, sub, k - 1);
    }
  }

  /** The search finds the one stage that runs the sub-block, empty stages or not. */
  lemma OwnerIsTheStage(cut: seq<nat>, nSub: nat, ppSize: nat, sub: nat, o: Owner, r: nat)
    requires IsCut(cut, nSub, ppSize) && sub < nSub && IsOwnerIn(cut, ppSize, sub, o) && r < ppSize
    ensures SentTo(o, r) <==> cut[r] <= sub < cut[r + 1]
  {
    var w := SomeStageOwns(cut, nSub, ppSize, sub, ppSize);
    if r < w {
      CutMonotone(cut, nSub, ppSize, r + 1, w);
    } else if w < r {
      CutMonotone(cut, nSub, ppSize, w + 1, r);
    }
    if o.rank < w {
      CutMonotone(cut, nSub, ppSize, o.rank + 1, w);
    }
  }

  /** The fallback agrees with the search over the equal split, if no stage is empty. */
  lemma FallbackAgrees(cut: seq<nat>, nLayers: nat, ppSize: nat, layer: nat, part: nat)
    requires ppSize > 1 && nLayers >= ppSize && layer < nLayers && part < 2
    requires |cut| == ppSize + 1 && forall i :: 0 <= i <= ppSize ==> cut[i] == 2 * EqualLayers(nLayers, ppSize, i)
    ensures IsOwnerIn(cut, ppSize, 2 * layer + part, FallbackOwner(layer, nLayers, ppSize))
  {
    hide IsCut;
    EqualSplit(nLayers, ppSize, cut);
    var o := FallbackOwner(layer, nLayers, ppSize);
    FallbackRange(nLayers, ppSize, layer);
    assert cut[o.rank] == 2 * EqualLayers(nLayers, ppSize, o.rank);
    if o.rank < ppSize - 1 {
      assert cut[o.rank + 1] == 2 * EqualLayers(nLayers, ppSize, o.rank + 1);
    }
    hide EqualLayers, FallbackOwner;
    var sub := 2 * layer + part;
    forall q | 0 <= q < o.rank
      ensures !Inside(cut, q, sub)
    {
      CutMonotone(cut, 2 * nLayers, ppSize, q + 1, o.rank);
    }
  }

  // The layer lies behind the start of the fallback's stage and, but for the last, before its end.
  lemma FallbackRange(nLayers: nat, ppSize: nat, layer: nat)
    requires ppSize > 1 && nLayers >= ppSize && layer < nLayers
    ensures var o := FallbackOwner(layer, nLayers, ppSize);
            && o.Stage? && o.rank < ppSize && EqualLayers(nLayers, ppSize, o.rank) <= layer
            && (o.rank < ppSize - 1 ==> layer < EqualLayers(nLayers, ppSize, o.rank + 1))
  {
    QuotientBound(nLayers, ppSize);
    var per := nLayers / ppSize;
    var d := layer / per;
    assert layer == d * per + layer % per;
    NextMultiple(d, per);
    if d >= ppSize {
      ProductMonotone(ppSize - 1, d, per);
    }
  }

  // ---------------------------------------------------------------------------
  // The operations that take sliced weights
  // ---------------------------------------------------------------------------

  predicate AttWeight(name: string) {
    name == "block_matmul_q" || name == "block_matmul_k" || name == "block_matmul_v" || name == "block_matmul_wo"
  }

  predicate FfWeight(name: string) {
    name == "block_matmul_w1" || name == "block_matmul_w2" || name == "block_matmul_w3"
  }

  lemma SubstringChars(s: string, sub: string, c: char)
    requires c in sub && c !in s
    ensures !HasSubstring(s, sub)
  {
  }

  lemma AttWeightPart(name: string)
    requires AttWeight(name)
    ensures SubPartOfOp(name) == 0
  {
    assert '1' !in name && '2' !in name && '3' !in name && 'e' !in name;
    assert "matmul_w1"[8] == '1' && "matmul_w2"[8] == '2' && "matmul_w3"[8] == '3' && "moe"[2] == 'e' && "norm_1"[5] == '1';
    hide AttWeight, HasSubstring;
    SubstringChars(name, "matmul_w1", '1');
    SubstringChars(name, "matmul_w2", '2');
    SubstringChars(name, "matmul_w3", '3');
    SubstringChars(name, "moe", 'e');
    SubstringChars(name, "norm_1", '1');
  }

  lemma SuffixMatches(a: string, b: string, name: string)
    requires name == a + b
    ensures HasSubstring(name, b)
  {
    assert Matches(name, b, |a|);
  }

  lemma FfWeightPart(name: string)
    requires FfWeight(name)
    ensures SubPartOfOp(name) == 1
  {
    if name == "block_matmul_w1" {
      SuffixMatches("block_", "matmul_w1", name);
    } else if name == "block_matmul_w2" {
      SuffixMatches("block_", "matmul_w2", name);
    } else {
      SuffixMatches("block_", "matmul_w3", name);
    }
  }

  ghost predicate HasOp(ops: seq<Op>, name: string, layer: nat) {
    exists i :: 0 <= i < |ops| && ops[i].name == name && ops[i].layer == layer
  }

  lemma HasOpAppend(a: seq<Op>, b: seq<Op>, name: string, layer: nat)
    ensures HasOp(a + b, name, layer) <==> HasOp(a, name, layer) || HasOp(b, name, layer)
  {
    var ab := a + b;
    if i :| 0 <= i < |a| && a[i].name == name && a[i].layer == layer {
      assert ab[i] == a[i];
    }
    if i :| 0 <= i < |b| && b[i].name == name && b[i].layer == layer {
      assert ab[|a| + i] == b[i];
    }
  }

  // Names with "ma" after their six-letter prefix; all sliced weights have one.
  predicate Matmul(name: string) {
    |name| > 7 && name[6] == 'm' && name[7] == 'a'
  }

  predicate NoMatmul(ops: seq<Op>) {
    forall i :: 0 <= i < |ops| ==> !Matmul(ops[i].name)
  }

  lemma NoWeights(ops: seq<Op>, name: string, layer: nat)
    requires NoMatmul(ops) && Matmul(name)
    ensures !HasOp(ops, name, layer)
  {
  }

  lemma AttGroups(M: Model, l: nat)
    ensures NoMatmul(AttNorm(M, l)) && NoMatmul(AttHeadNorm(M, l)) && NoMatmul(AttStore(M, l))
  {
  }

  lemma AttWeightsThere(M: Model, l: nat, name: string, layer: nat)
    requires AttWeight(name) || FfWeight(name)
    ensures HasOp(AttProject(M, l), name, layer) <==> layer == l && AttWeight(name) && name != "block_matmul_wo"
    ensures HasOp(AttMix(M, l), name, layer) <==> layer == l && name == "block_matmul_wo"
  {
    var a, b := AttProject(M, l), AttMix(M, l);
    assert layer == l && name == a[0].name ==> HasOp(a, name, layer);
    assert layer == l && name == a[1].name ==> HasOp(a, name, layer);
    assert layer == l && name == a[2].name ==> HasOp(a, name, layer);
    assert layer == l && name == b[2].name ==> HasOp(b, name, layer);
  }

  lemma WeightsAreMatmuls(name: string)
    requires AttWeight(name) || FfWeight(name)
    ensures Matmul(name)
  {
  }

  lemma AttOpsWeights(M: Model, l: nat, name: string, layer: nat)
    requires AttWeight(name) || FfWeight(name)
    ensures HasOp(AttOps(M, l), name, layer) <==> layer == l && AttWeight(name)
  {
    var a, b, c, d, e := AttNorm(M, l), AttProject(M, l), AttHeadNorm(M, l), AttStore(M, l), AttMix(M, l);
    AttGroups(M, l);
    AttWeightsThere(M, l, name, layer);
    WeightsAreMatmuls(name);
    NoWeights(a, name, layer);
    NoWeights(c, name, layer);
    NoWeights(d, name, layer);
    hide AttNorm, AttProject, AttHeadNorm, AttStore, AttMix, HasOp, NoMatmul;
    HasOpAppend(d, e, name, layer);
    HasOpAppend(c, d + e, name, layer);
    HasOpAppend(b, c + (d + e), name, layer);
    HasOpAppend(a, b + (c + (d + e)), name, layer);
  }

  lemma FfGroups(M: Model, l: nat)
    ensures NoMatmul(FfNorm(M, l)) && NoMatmul(MoeRoute(M, l)) && NoMatmul(MoeMerge(M, l)) && NoMatmul(FfOut(M, l))
  {
  }

  lemma UpWeights(M: Model, l: nat, name: string, layer: nat)
    requires AttWeight(name) || FfWeight(name)
    ensures HasOp(DenseUp(M, l), name, layer) <==> layer == l && FfWeight(name) && name != "block_matmul_w2"
    ensures HasOp(MoeUp(M, l), name, layer) <==> layer == l && FfWeight(name) && name != "block_matmul_w2"
  {
    var a, b := DenseUp(M, l), MoeUp(M, l);
    var n := |a|;
    assert layer == l && name == a[n - 2].name ==> HasOp(a, name, layer);
    assert layer == l && name == a[n - 1].name ==> HasOp(a, name, layer);
    assert layer == l && name == b[0].name ==> HasOp(b, name, layer);
    assert layer == l && name == b[1].name ==> HasOp(b, name, layer);
  }

  lemma DownWeights(M: Model, l: nat, name: string, layer: nat)
    requires AttWeight(name) || FfWeight(name)
    ensures HasOp(DenseDown(M, l), name, layer) <==> layer == l && name == "block_matmul_w2"
    ensures HasOp(MoeDown(M, l), name, layer) <==> layer == l && name == "block_matmul_w2"
  {
    var a, b := DenseDown(M, l), MoeDown(M, l);
    assert layer == l && name == a[|a| - 1].name ==> HasOp(a, name, layer);
    assert layer == l && name == b[|b| - 1].name ==> HasOp(b, name, layer);
  }

  lemma FfOpsWeights(M: Model, l: nat, name: string, layer: nat)
    requires AttWeight(name) || FfWeight(name)
    ensures HasOp(FfOps(M, l), name, layer) <==> layer == l && FfWeight(name)
  {
    FfGroups(M, l);
    UpWeights(M, l, name, layer);
    DownWeights(M, l, name, layer);
    WeightsAreMatmuls(name);
    NoWeights(FfNorm(M, l), name, layer);
    NoWeights(FfOut(M, l), name, layer);
    NoWeights(MoeRoute(M, l), name, layer);
    NoWeights(MoeMerge(M, l), name, layer);
    hide FfNorm, DenseUp, DenseDown, MoeRoute, MoeUp, MoeDown, MoeMerge, FfOut, HasOp, NoMatmul;
    if M.arch == Qwen3Moe {
      var b, c, d, e, f := MoeRoute(M, l), MoeUp(M, l), MoeDown(M, l), MoeMerge(M, l), FfOut(M, l);
      HasOpAppend(e, f, name, layer);
      HasOpAppend(d, e + f, name, layer);
      HasOpAppend(c, d + (e + f), name, layer);
      HasOpAppend(b, c + (d + (e + f)), name, layer);
      HasOpAppend(FfNorm(M, l), b + (c + (d + (e + f))), name, layer);
    } else {
      var b, c, d := DenseUp(M, l), DenseDown(M, l), FfOut(M, l);
      HasOpAppend(c, d, name, layer);
      HasOpAppend(b, c + d, name, layer);
      HasOpAppend(FfNorm(M, l), b + (c + d), name, layer);
    }
  }

  // Sub-block that uses the weight.
  function SubBlockOf(name: string, layer: nat): nat {
    2 * layer + if FfWeight(name) then 1 else 0
  }

  lemma SegmentWeights(M: Model, s: nat, first: bool, name: string, layer: nat)
    requires AttWeight(name) || FfWeight(name)
    ensures HasOp(Segment(M, s, first), name, layer) <==> s == SubBlockOf(name, layer)
  {
    var e := [Entry(s, first)];
    assert NoMatmul(e);
    WeightsAreMatmuls(name);
    NoWeights(e, name, layer);
    BothKinds(name);
    AttOpsWeights(M, s / 2, name, layer);
    FfOpsWeights(M, s / 2, name, layer);
    hide HasOp, NoMatmul, AttOps, FfOps, Entry, AttWeight, FfWeight;
    HasOpAppend(e, Inner(M, s), name, layer);
  }

  lemma BothKinds(name: string)
    ensures !(AttWeight(name) && FfWeight(name))
  {
  }

  lemma {:induction false} BodyWeights(M: Model, a: nat, n: nat, name: string, layer: nat)
    requires AttWeight(name) || FfWeight(name)
    ensures HasOp(Body(M, a, n), name, layer) <==> a <= SubBlockOf(name, layer) < n
    decreases n
  {
    hide Segment, AttWeight, FfWeight, SubBlockOf;
    if n > a {
      BodyWeights(M, a, n - 1, name, layer);
      SegmentWeights(M, n - 1, n - 1 == a, name, layer);
      HasOpAppend(Body(M, a, n - 1), Segment(M, n - 1, n - 1 == a), name, layer);
    }
  }

  lemma ClosingWeights(M: Model, isLast: bool, name: string, layer: nat)
    requires AttWeight(name) || FfWeight(name)
    ensures !HasOp(Closing(M, isLast), name, layer)
  {
    var ops := Closing(M, isLast);
    assert forall i :: 0 <= i < |ops| ==> |ops[i].name| > 0 && ops[i].name[0] != 'b';
    assert |name| > 0 && name[0] == 'b';
  }

  lemma StageWeights(M: Model, cut: seq<nat>, r: nat, name: string, layer: nat)
    requires r + 1 < |cut| && (AttWeight(name) || FfWeight(name))
    ensures HasOp(StageOps(M, cut, r), name, layer) <==> cut[r] <= SubBlockOf(name, layer) < cut[r + 1]
  {
    assert NoMatmul(Opening(r));
    WeightsAreMatmuls(name);
    NoWeights(Opening(r), name, layer);
    hide HasOp, Opening, Closing, AttWeight, FfWeight, SubBlockOf, NoMatmul;
    var b, c := Body(M, cut[r], cut[r + 1]), Closing(M, r + 2 == |cut|);
    BodyWeights(M, cut[r], cut[r + 1], name, layer);
    ClosingWeights(M, r + 2 == |cut|, name, layer);
    HasOpAppend(b, c, name, layer);
    HasOpAppend(Opening(r), b + c, name, layer);
  }

  /** Whatever stage owner the loader's search may return for a sliced weight of a layer, the
      weight is sent to a stage exactly when that stage's graph contains the operation. */
  lemma WeightsGoWhereTheyAreUsed(M: Model, cut: seq<nat>, nLayers: nat, ppSize: nat, name: string, layer: nat, o: Owner, r: nat)
    requires IsCut(cut, 2 * nLayers, ppSize) && layer < nLayers && r < ppSize
    requires AttWeight(name) || FfWeight(name)
    requires if ppSize <= 1 then o == Everyone else IsOwnerIn(cut, ppSize, 2 * layer + SubPartOfOp(name), o)
    ensures SentTo(o, r) <==> HasOp(StageOps(M, cut, r), name, layer)
  {
    hide StageOps, HasOp, AttWeight, FfWeight, SubPartOfOp, IsOwnerIn;
    BothKinds(name);
    StageWeights(M, cut, r, name, layer);
    var sub := 2 * layer + SubPartOfOp(name);
    if AttWeight(name) {
      AttWeightPart(name);
    } else {
      FfWeightPart(name);
    }
    if ppSize > 1 {
      OwnerIsTheStage(cut, 2 * nLayers, ppSize, sub, o, r);
    }
  }

  // All operations of the sub-blocks are called block_*.
  predicate BlockNames(ops: seq<Op>) {
    forall i :: 0 <= i < |ops| ==> |ops[i].name| > 0 && ops[i].name[0] == 'b'
  }

  lemma AttNames(M: Model, l: nat)
    ensures BlockNames(AttNorm(M, l)) && BlockNames(AttProject(M, l)) && BlockNames(AttHeadNorm(M, l))
    ensures BlockNames(AttStore(M, l)) && BlockNames(AttMix(M, l))
  {
  }

  lemma DenseNames(M: Model, l: nat)
    ensures BlockNames(FfNorm(M, l)) && BlockNames(DenseUp(M, l)) && BlockNames(DenseDown(M, l)) && BlockNames(FfOut(M, l))
  {
  }

  lemma MoeNames(M: Model, l: nat)
    ensures BlockNames(MoeRoute(M, l)) && BlockNames(MoeUp(M, l)) && BlockNames(MoeDown(M, l)) && BlockNames(MoeMerge(M, l))
  {
  }

  lemma InnerNames(M: Model, s: nat)
    ensures BlockNames(Inner(M, s))
  {
    hide AttOps, FfOps;
    AttHalfNames(M, s / 2);
    FfHalfNames(M, s / 2);
  }

  lemma AttHalfNames(M: Model, l: nat)
    ensures BlockNames(AttOps(M, l))
  {
    hide AttNorm, AttProject, AttHeadNorm, AttStore, AttMix;
    AttNames(M, l);
  }

  lemma FfHalfNames(M: Model, l: nat)
    ensures BlockNames(FfOps(M, l))
  {
    hide FfNorm, DenseUp, DenseDown, MoeRoute, MoeUp, MoeDown, MoeMerge, FfOut;
    DenseNames(M, l);
    MoeNames(M, l);
  }

  lemma {:induction false} BodyNames(M: Model, a: nat, n: nat)
    ensures BlockNames(Body(M, a, n))
    decreases n
  {
    hide Inner;
    if n > a {
      BodyNames(M, a, n - 1);
      InnerNames(M, n - 1);
    }
  }

  // The output matrix is used by the last stage and nowhere else.
  lemma OutputMatrixAtLastStage(M: Model, cut: seq<nat>, r: nat)
    requires r + 1 < |cut|
    ensures HasOp(StageOps(M, cut, r), "final_matmul_logits", 0) <==> r == |cut| - 2
  {
    var a, b, c := Opening(r), Body(M, cut[r], cut[r + 1]), Closing(M, r + 2 == |cut|);
    BodyNames(M, cut[r], cut[r + 1]);
    var name := "final_matmul_logits";
    assert !HasOp(b, name, 0) by { assert name[0] == 'f'; }
    assert !HasOp(a, name, 0) by { assert name[0] == 'f'; }
    if r + 2 == |cut| {
      var k := if M.quantised then 4 else 3;
      assert c[k].name == name && c[k].layer == 0;
    } else {
      assert !HasOp(c, name, 0) by { assert name[0] == 'f'; }
    }
    hide HasOp, Opening, Closing, Body;
    HasOpAppend(b, c, name, 0);
    HasOpAppend(a, b + c, name, 0);
  }

  // ---------------------------------------------------------------------------
  // Nodes
  // ---------------------------------------------------------------------------

  /** Pipeline stages of `sp` groups of `tp` nodes each. */
  datatype Topology = Topology(pp: nat, sp: nat, tp: nat)

  predicate ValidTopology(T: Topology) {
    T.pp >= 1 && T.sp >= 1 && T.tp >= 1
  }

  function Nodes(T: Topology): nat {
    T.pp * (T.sp * T.tp)
  }

  // `getPlacement`
  function StageOf(T: Topology, node: nat): nat
    requires ValidTopology(T)
  {
    node / (T.sp * T.tp)
  }

  // The loader's test. It divides by the size of a group only.
  predicate Sent(T: Topology, o: Owner, node: nat)
    requires ValidTopology(T)
  {
    Nodes(T) == 1 || o == Everyone || node / T.tp == o.rank
  }

  /** Every node whose graph contains the operation is sent the weight. */
  ghost predicate Served(T: Topology, M: Model, cut: seq<nat>, name: string, layer: nat, o: Owner)
    requires ValidTopology(T) && |cut| == T.pp + 1
  {
    forall node: nat :: node < Nodes(T) && StageOf(T, node) < T.pp && HasOp(StageOps(M, cut, StageOf(T, node)), name, layer)
      ==> Sent(T, o, node)
  }

  /** No other node is. */
  ghost predicate NotWasted(T: Topology, M: Model, cut: seq<nat>, name: string, layer: nat, o: Owner)
    requires ValidTopology(T) && |cut| == T.pp + 1
  {
    forall node: nat :: node < Nodes(T) && StageOf(T, node) < T.pp && Sent(T, o, node)
      ==> HasOp(StageOps(M, cut, StageOf(T, node)), name, layer)
  }

  // The first node of group j of stage w.
  function NodeAt(T: Topology, w: nat, j: nat): nat {
    w * (T.sp * T.tp) + j * T.tp
  }

  lemma StagesInRange(T: Topology, node: nat)
    requires ValidTopology(T) && node < Nodes(T)
    ensures StageOf(T, node) < T.pp
  {
    var d := T.sp * T.tp;
    if node / d >= T.pp {
      ProductMonotone(T.pp, node / d, d);
    }
  }

  lemma Groups(T: Topology, w: nat, j: nat)
    requires ValidTopology(T) && w < T.pp && j < T.sp
    ensures NodeAt(T, w, j) < Nodes(T) && StageOf(T, NodeAt(T, w, j)) == w
    ensures NodeAt(T, w, j) / T.tp == w * T.sp + j
  {
    InStage(w, T.pp, T.sp * T.tp, j, T.sp, T.tp);
    InGroup(w, j, T.sp, T.tp);
  }

  lemma InStage(w: nat, pp: nat, d: nat, j: nat, sp: nat, tp: nat)
    requires w < pp && j < sp && d == sp * tp && tp >= 1 && d >= 1
    ensures w * d + j * tp < pp * d && (w * d + j * tp) / d == w
  {
    ProductMonotone(j + 1, sp, tp);
    NextMultiple(j, tp);
    ProductMonotone(w + 1, pp, d);
    NextMultiple(w, d);
    QuotientUnique(w * d + j * tp, d, w, j * tp);
  }

  lemma InGroup(w: nat, j: nat, sp: nat, tp: nat)
    requires tp >= 1
    ensures (w * (sp * tp) + j * tp) / tp == w * sp + j
  {
    assert w * (sp * tp) == (w * sp) * tp;
    assert (w * sp + j) * tp == (w * sp) * tp + j * tp;
    QuotientUnique(w * (sp * tp) + j * tp, tp, w * sp + j, 0);
  }

  /** A sliced weight reaches every node that uses it if and only if there is one group per stage
      or one stage: with sequence parallelism in a pipeline the test picks one group, and of
      every weight some user goes without. */
  lemma WeightsReachNodesExactlyWhen(T: Topology, M: Model, cut: seq<nat>, nLayers: nat, name: string, layer: nat, o: Owner)
    requires ValidTopology(T) && IsCut(cut, 2 * nLayers, T.pp) && layer < nLayers
    requires AttWeight(name) || FfWeight(name)
    requires if T.pp <= 1 then o == Everyone else IsOwnerIn(cut, T.pp, 2 * layer + SubPartOfOp(name), o)
    ensures Served(T, M, cut, name, layer, o) <==> T.sp == 1 || T.pp == 1
    ensures T.sp == 1 || T.pp == 1 ==> Nodes(T) == 1 || NotWasted(T, M, cut, name, layer, o)
  {
    hide StageOps, HasOp, AttWeight, FfWeight, SubPartOfOp, IsOwnerIn, NodeAt, IsCut;
    CutLength(cut, 2 * nLayers, T.pp);
    var tp, sp := T.tp, T.sp;
    if sp == 1 || T.pp == 1 {
      forall node: nat | node < Nodes(T)
        ensures StageOf(T, node) < T.pp
        ensures HasOp(StageOps(M, cut, StageOf(T, node)), name, layer) <==> o == Everyone || node / tp == o.rank
      {
        StagesInRange(T, node);
        WeightsGoWhereTheyAreUsed(M, cut, nLayers, T.pp, name, layer, o, StageOf(T, node));
      }
    } else {
      OwnerHasRank(cut, T.pp, 2 * layer + SubPartOfOp(name), o);
      var w := o.rank;
      var j := if w * sp == w then 1 else 0;
      Groups(T, w, j);
      ManyNodes(T);
      WeightsGoWhereTheyAreUsed(M, cut, nLayers, T.pp, name, layer, o, w);
      assert !Sent(T, o, NodeAt(T, w, j));
    }
  }

  lemma CutLength(cut: seq<nat>, nSub: nat, ppSize: nat)
    requires IsCut(cut, nSub, ppSize)
    ensures |cut| == ppSize + 1
  {
  }

  lemma OwnerHasRank(cut: seq<nat>, ppSize: nat, sub: nat, o: Owner)
    requires IsOwnerIn(cut, ppSize, sub, o)
    ensures o.Stage? && o.rank < ppSize
  {
  }

  lemma ManyNodes(T: Topology)
    requires ValidTopology(T) && (T.sp > 1 || T.pp > 1)
    ensures Nodes(T) > 1
  {
    ProductMonotone(1, T.tp, T.sp);
    assert T.sp * T.tp >= T.sp;
    ProductMonotone(1, T.pp, T.sp * T.tp);
    ProductMonotone(1, T.sp * T.tp, T.pp);
  }

  /** Whom the output matrix goes to: the last group of all, or everyone if there is but one. */
  function OutputOwner(T: Topology): Owner
    requires ValidTopology(T)
  {
    var last := if Nodes(T) > 1 then Nodes(T) / T.tp - 1 else 0;
    if last > 0 then Stage(last) else Everyone
  }

  lemma GroupCount(T: Topology)
    requires ValidTopology(T)
    ensures Nodes(T) / T.tp == T.pp * T.sp >= 1
  {
    assert T.pp * (T.sp * T.tp) == (T.pp * T.sp) * T.tp;
    QuotientUnique(Nodes(T), T.tp, T.pp * T.sp, 0);
    ProductMonotone(1, T.pp, T.sp);
  }

  /** The output matrix reaches every node that uses it, and no other, if and only if there is
      no sequence parallelism. */
  lemma OutputMatrixReachesNodesExactlyWhen(T: Topology, M: Model, cut: seq<nat>)
    requires ValidTopology(T) && |cut| == T.pp + 1
    ensures Served(T, M, cut, "final_matmul_logits", 0, OutputOwner(T)) <==> T.sp == 1
    ensures T.sp == 1 ==> NotWasted(T, M, cut, "final_matmul_logits", 0, OutputOwner(T))
  {
    hide StageOps, HasOp, Sent, Served, NotWasted, OutputOwner, NodeAt, StageOf, Nodes;
    var name, o := "final_matmul_logits", OutputOwner(T);
    if T.sp == 1 {
      forall node: nat | node < Nodes(T)
        ensures StageOf(T, node) < T.pp
        ensures HasOp(StageOps(M, cut, StageOf(T, node)), name, 0) <==> Sent(T, o, node)
      {
        OutputToLastStage(T, node);
        OutputMatrixAtLastStage(M, cut, StageOf(T, node));
      }
      ServedAndNotWasted(T, M, cut, name, 0, o);
    } else {
      OutputToLastGroup(T);
      var node := NodeAt(T, T.pp - 1, 0);
      OutputMatrixAtLastStage(M, cut, T.pp - 1);
      NotServed(T, M, cut, name, 0, o, node);
    }
  }

  lemma ServedAndNotWasted(T: Topology, M: Model, cut: seq<nat>, name: string, layer: nat, o: Owner)
    requires ValidTopology(T) && |cut| == T.pp + 1
    requires forall node: nat :: node < Nodes(T) ==>
               StageOf(T, node) < T.pp && (HasOp(StageOps(M, cut, StageOf(T, node)), name, layer) <==> Sent(T, o, node))
    ensures Served(T, M, cut, name, layer, o) && NotWasted(T, M, cut, name, layer, o)
  {
    hide StageOps, HasOp, Sent, StageOf, Nodes;
  }

  lemma NotServed(T: Topology, M: Model, cut: seq<nat>, name: string, layer: nat, o: Owner, node: nat)
    requires ValidTopology(T) && |cut| == T.pp + 1 && node < Nodes(T) && StageOf(T, node) < T.pp
    requires HasOp(StageOps(M, cut, StageOf(T, node)), name, layer) && !Sent(T, o, node)
    ensures !Served(T, M, cut, name, layer, o)
  {
    hide StageOps, HasOp, Sent, StageOf, Nodes;
  }

  lemma OutputToLastStage(T: Topology, node: nat)
    requires ValidTopology(T) && T.sp == 1 && node < Nodes(T)
    ensures StageOf(T, node) < T.pp && (StageOf(T, node) == T.pp - 1 <==> Sent(T, OutputOwner(T), node))
  {
    StagesInRange(T, node);
    GroupCount(T);
    assert T.sp * T.tp == T.tp;
  }

  lemma OutputToLastGroup(T: Topology)
    requires ValidTopology(T) && T.sp > 1
    ensures NodeAt(T, T.pp - 1, 0) < Nodes(T) && StageOf(T, NodeAt(T, T.pp - 1, 0)) == T.pp - 1
    ensures !Sent(T, OutputOwner(T), NodeAt(T, T.pp - 1, 0))
  {
    hide NodeAt, StageOf;
    GroupCount(T);
    ManyNodes(T);
    Groups(T, T.pp - 1, 0);
    ProductMonotone(1, T.pp, T.sp);
    assert (T.pp - 1) * T.sp == T.pp * T.sp - T.sp;
  }
}
