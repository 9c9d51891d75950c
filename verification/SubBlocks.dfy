/** What the sub-blocks and the output head compute, as formulas over the operations' meanings and
    the residual addition, and the uncut network made of them. */
module SubBlocks {
  import opened StageGraph

  datatype Cache = Cache(k: Val, v: Val)

  // ---------------------------------------------------------------------------
  // Formulas
  // ---------------------------------------------------------------------------

  // The normalised input of the attention.
  function AttInput(M: Model, l: nat, x: Val): Val {
    var y := M.sem("block_norm_0", l, Y, [x, M.sem("block_norm_pre_0", l, InvRms, [x])]);
    if M.quantised then M.sem("block_cast_y", l, Yq, [y]) else y
  }

  // The query, normalised per head where the architecture has it, and rotated to its position.
  function Query(M: Model, l: nat, x: Val, pos: Val): Val {
    var q := M.sem("block_matmul_q", l, Q, [AttInput(M, l, x)]);
    var normed := if M.arch == Llama then q
                  else M.sem("block_norm_q", l, Q, [q, M.sem("block_norm_pre_q", l, InvRms, [q])]);
    M.sem("block_rope_q", l, Q, [normed, pos])
  }

  function Key(M: Model, l: nat, x: Val, pos: Val): Val {
    var k := M.sem("block_matmul_k", l, KTemp, [AttInput(M, l, x)]);
    var normed := if M.arch == Llama then k
                  else M.sem("block_norm_k", l, KTemp, [k, M.sem("block_norm_pre_k", l, InvRms, [k])]);
    M.sem("block_rope_k", l, KTemp, [normed, pos])
  }

  function Value(M: Model, l: nat, x: Val): Val {
    M.sem("block_matmul_v", l, VTemp, [AttInput(M, l, x)])
  }

  /** The caches of layer l after its attention: keys go to the key cache, values to the other. */
  function NextCache(M: Model, l: nat, x: Val, pos: Val, c: Cache): Cache {
    Cache(M.sem("block_shift_k", l, K(l), [Key(M, l, x, pos), pos, c.k]),
          M.sem("block_shift_v", l, V(l), [Value(M, l, x), pos, c.v]))
  }

  /** What the attention half adds to the residual. */
  function AttDelta(M: Model, l: nat, x: Val, pos: Val, c: Cache): Val {
    var c' := NextCache(M, l, x, pos, c);
    var z := M.sem("block_multihead_att", l, Z, [Query(M, l, x, pos), c'.k, c'.v, pos]);
    M.sem("block_cast_d", l, ZqPipe, [M.sem("block_matmul_wo", l, Y, [M.sem("block_cast_y2", l, ZqSlice, [z])])])
  }

  function FfInput(M: Model, l: nat, x: Val): Val {
    M.sem("block_norm_1", l, Y, [x, M.sem("block_norm_pre_1", l, InvRms, [x])])
  }

  // The activation acts on the first matrix and is multiplied by the third; the second one follows.
  function DenseDelta(M: Model, l: nat, x: Val): Val {
    var y := if M.quantised then M.sem("block_cast_y3", l, Yq, [FfInput(M, l, x)]) else FfInput(M, l, x);
    var d := M.sem("block_mul", l, D, [M.sem("block_act", l, D, [M.sem("block_matmul_w1", l, D, [y])]),
                                       M.sem("block_matmul_w3", l, L, [y])]);
    var h := if M.quantised then M.sem("block_cast_d2", l, Dq, [d]) else d;
    M.sem("block_cast_d3", l, ZqPipe, [M.sem("block_matmul_w2", l, Y, [h])])
  }

  // The same for the experts the gate chooses, scaled by their shares and added up.
  function MoeDelta(M: Model, l: nat, x: Val): Val {
    var y := FfInput(M, l, x);
    var copies := M.sem("block_moe_y_repeat", l, if M.quantised then MoeYq else MoeY, [y]);
    var gate := M.sem("block_moe_softmax", l, Gate, [M.sem("block_moe_gate", l, Gate, [y])]);
    var shares := M.sem("block_moe_gate2", l, MoeS, [gate]);
    var chosen := M.sem("block_moe_gate2", l, ExpertIndexes, [gate]);
    var d := M.sem("block_mul", l, MoeD,
                   [M.sem("block_act", l, MoeD, [M.sem("block_matmul_w1", l, MoeD, [copies, chosen])]),
                    M.sem("block_matmul_w3", l, MoeL, [copies, chosen])]);
    var h := if M.quantised then M.sem("block_cast_d2", l, MoeDq, [d]) else d;
    var scaled := M.sem("block_moe_scale", l, MoeY, [M.sem("block_matmul_w2", l, MoeY, [h, chosen]), shares]);
    M.sem("block_cast_d3", l, ZqPipe, [M.sem("block_moe_merge_sum", l, Y, [scaled])])
  }

  function FfDelta(M: Model, l: nat, x: Val): Val {
    if M.arch == Qwen3Moe then MoeDelta(M, l, x) else DenseDelta(M, l, x)
  }

  /** What sub-block s adds to the residual. */
  function Delta(M: Model, s: nat, x: Val, pos: Val, c: Cache): Val {
    if s % 2 == 0 then AttDelta(M, s / 2, x, pos, c) else FfDelta(M, s / 2, x)
  }

  function Head(M: Model, x: Val): Val {
    var n := M.sem("final_norm", 0, Y, [x, M.sem("final_norm_pre", 0, InvRms, [x])]);
    var y := if M.quantised then M.sem("final_cast_y", 0, Yq, [n]) else n;
    if M.fusedHead then
      M.sem("final_reduce_argmax", 0, LogitsPipe, [M.sem("final_matmul_logits", 0, ArgmaxPartial, [y])])
    else M.sem("final_matmul_logits", 0, LogitsPipe, [y])
  }

  /** The uncut residual network: x := x + delta over sub-blocks a to n - 1. */
  function Residual(M: Model, caches: seq<Cache>, pos: Val, x: Val, a: nat, n: nat): Val
    requires a <= n <= 2 * |caches|
    decreases n
  {
    if n == a then x
    else
      var y := Residual(M, caches, pos, x, a, n - 1);
      M.add(y, Delta(M, n - 1, y, pos, caches[(n - 1) / 2]))
  }

  lemma {:induction false} ResidualSplits(M: Model, caches: seq<Cache>, pos: Val, x: Val, a: nat, b: nat, n: nat)
    requires a <= b <= n <= 2 * |caches|
    ensures Residual(M, caches, pos, x, a, n) == Residual(M, caches, pos, Residual(M, caches, pos, x, a, b), b, n)
    decreases n
  {
    hide Delta;
    if n > b {
      ResidualSplits(M, caches, pos, x, a, b, n - 1);
    }
  }

  // ---------------------------------------------------------------------------
  // A few operations in a row
  // ---------------------------------------------------------------------------

  lemma Step(M: Model, op: Op, m: Machine)
    requires op.Compute?
    ensures forall loc :: Apply(M, op, m)(loc) ==
              if loc in op.outputs then M.sem(op.name, op.layer, loc, Values(m, op.inputs)) else m(loc)
  {
  }

  lemma Inputs(m: Machine, a: Loc, b: Loc, c: Loc, d: Loc)
    ensures Values(m, [a]) == [m(a)]
    ensures Values(m, [a, b]) == [m(a), m(b)]
    ensures Values(m, [a, b, c]) == [m(a), m(b), m(c)]
    ensures Values(m, [a, b, c, d]) == [m(a), m(b), m(c), m(d)]
  {
  }

  lemma RunTwo(M: Model, a: Op, b: Op, m: Machine)
    ensures Run(M, [a, b], m) == Apply(M, b, Apply(M, a, m))
  {
    assert [a] + [b] == [a, b];
    RunAppend(M, [a], [b], m);
    RunOne(M, a, m);
    RunOne(M, b, Apply(M, a, m));
  }

  lemma RunThree(M: Model, a: Op, b: Op, c: Op, m: Machine)
    ensures Run(M, [a, b, c], m) == Apply(M, c, Apply(M, b, Apply(M, a, m)))
  {
    assert [a, b] + [c] == [a, b, c];
    RunAppend(M, [a, b], [c], m);
    RunTwo(M, a, b, m);
    RunOne(M, c, Apply(M, b, Apply(M, a, m)));
  }

  lemma RunFour(M: Model, a: Op, b: Op, c: Op, d: Op, m: Machine)
    ensures Run(M, [a, b, c, d], m) == Apply(M, d, Apply(M, c, Apply(M, b, Apply(M, a, m))))
  {
    assert [a, b, c] + [d] == [a, b, c, d];
    RunAppend(M, [a, b, c], [d], m);
    RunThree(M, a, b, c, m);
    RunOne(M, d, Apply(M, c, Apply(M, b, Apply(M, a, m))));
  }

  // A cast that is only there with quantised activations.
  lemma CastValue(M: Model, name: string, l: nat, from: Loc, to: Loc, m: Machine)
    ensures var m' := Run(M, MaybeCast(M, name, l, from, to), m);
            && (M.quantised ==> m'(to) == M.sem(name, l, to, [m(from)]))
            && forall loc :: !M.quantised || loc != to ==> m'(loc) == m(loc)
  {
    hide Run, Apply, Values;
    Inputs(m, from, from, from, from);
    RunNothing(M, m);
    RunOne(M, Compute(name, l, [from], [to]), m);
    Step(M, Compute(name, l, [from], [to]), m);
  }

  // A value and its normalised form in another buffer.
  lemma NormValue(M: Model, pre: string, name: string, l: nat, from: Loc, to: Loc, m: Machine)
    requires from != InvRms && to != InvRms
    ensures var m' := Run(M, [Compute(pre, l, [from], [InvRms]), Compute(name, l, [from, InvRms], [to])], m);
            && m'(to) == M.sem(name, l, to, [m(from), M.sem(pre, l, InvRms, [m(from)])])
            && forall loc :: loc != to && loc != InvRms ==> m'(loc) == m(loc)
  {
    hide Run, Apply, Values;
    var a, b := Compute(pre, l, [from], [InvRms]), Compute(name, l, [from, InvRms], [to]);
    RunTwo(M, a, b, m);
    Inputs(m, from, from, from, from);
    Inputs(Apply(M, a, m), from, InvRms, from, from);
    Step(M, a, m);
    Step(M, b, Apply(M, a, m));
  }

  // ---------------------------------------------------------------------------
  // The attention half
  // ---------------------------------------------------------------------------

  // The three projections read the normalised input, cast or not.
  lemma AttNormValue(M: Model, l: nat, m: Machine)
    ensures var m' := Run(M, AttNorm(M, l), m);
            && m'(YIn(M)) == AttInput(M, l, m(X))
            && m'(PositionPipe) == m(PositionPipe) && m'(K(l)) == m(K(l)) && m'(V(l)) == m(V(l))
  {
    hide Run;
    var norm := [Compute("block_norm_pre_0", l, [X], [InvRms]), Compute("block_norm_0", l, [X, InvRms], [Y])];
    RunAppend(M, norm, MaybeCast(M, "block_cast_y", l, Y, Yq), m);
    NormValue(M, "block_norm_pre_0", "block_norm_0", l, X, Y, m);
    CastValue(M, "block_cast_y", l, Y, Yq, Run(M, norm, m));
  }

  lemma AttProjectValue(M: Model, l: nat, m: Machine)
    ensures var m' := Run(M, AttProject(M, l), m);
            && m'(Q) == M.sem("block_matmul_q", l, Q, [m(YIn(M))])
            && m'(KTemp) == M.sem("block_matmul_k", l, KTemp, [m(YIn(M))])
            && m'(VTemp) == M.sem("block_matmul_v", l, VTemp, [m(YIn(M))])
            && m'(PositionPipe) == m(PositionPipe) && m'(K(l)) == m(K(l)) && m'(V(l)) == m(V(l))
  {
    hide Run, Apply, Values;
    var y := YIn(M);
    var a, b, c := Compute("block_matmul_q", l, [y], [Q]), Compute("block_matmul_k", l, [y], [KTemp]),
                   Compute("block_matmul_v", l, [y], [VTemp]);
    RunThree(M, a, b, c, m);
    Inputs(m, y, y, y, y);
    Inputs(Apply(M, a, m), y, y, y, y);
    Inputs(Apply(M, b, Apply(M, a, m)), y, y, y, y);
    Step(M, a, m);
    Step(M, b, Apply(M, a, m));
    Step(M, c, Apply(M, b, Apply(M, a, m)));
  }

  function HeadNormed(M: Model, pre: string, name: string, l: nat, loc: Loc, x: Val): Val {
    if M.arch == Llama then x else M.sem(name, l, loc, [x, M.sem(pre, l, InvRms, [x])])
  }

  lemma AttHeadNormValue(M: Model, l: nat, m: Machine)
    ensures var m' := Run(M, AttHeadNorm(M, l), m);
            && m'(Q) == HeadNormed(M, "block_norm_pre_q", "block_norm_q", l, Q, m(Q))
            && m'(KTemp) == HeadNormed(M, "block_norm_pre_k", "block_norm_k", l, KTemp, m(KTemp))
            && m'(VTemp) == m(VTemp)
            && m'(PositionPipe) == m(PositionPipe) && m'(K(l)) == m(K(l)) && m'(V(l)) == m(V(l))
  {
    hide Run;
    RunNothing(M, m);
    if M.arch != Llama {
      var q := [Compute("block_norm_pre_q", l, [Q], [InvRms]), Compute("block_norm_q", l, [Q, InvRms], [Q])];
      var k := [Compute("block_norm_pre_k", l, [KTemp], [InvRms]), Compute("block_norm_k", l, [KTemp, InvRms], [KTemp])];
      assert AttHeadNorm(M, l) == q + k;
      RunAppend(M, q, k, m);
      NormValue(M, "block_norm_pre_q", "block_norm_q", l, Q, Q, m);
      NormValue(M, "block_norm_pre_k", "block_norm_k", l, KTemp, KTemp, Run(M, q, m));
    }
  }

  lemma AttStoreValue(M: Model, l: nat, m: Machine)
    ensures var m' := Run(M, AttStore(M, l), m);
            var pos := m(PositionPipe);
            && m'(Q) == M.sem("block_rope_q", l, Q, [m(Q), pos])
            && m'(K(l)) == M.sem("block_shift_k", l, K(l), [M.sem("block_rope_k", l, KTemp, [m(KTemp), pos]), pos, m(K(l))])
            && m'(V(l)) == M.sem("block_shift_v", l, V(l), [m(VTemp), pos, m(V(l))])
            && m'(PositionPipe) == pos
  {
    hide Run, Apply, Values;
    var a, b := Compute("block_rope_q", l, [Q, PositionPipe], [Q]), Compute("block_rope_k", l, [KTemp, PositionPipe], [KTemp]);
    var c, d := Compute("block_shift_k", l, [KTemp, PositionPipe, K(l)], [K(l)]),
                Compute("block_shift_v", l, [VTemp, PositionPipe, V(l)], [V(l)]);
    RunFour(M, a, b, c, d, m);
    var m1 := Apply(M, a, m);
    var m2 := Apply(M, b, m1);
    Inputs(m, Q, PositionPipe, Q, Q);
    Inputs(m1, KTemp, PositionPipe, Q, Q);
    Inputs(m2, KTemp, PositionPipe, K(l), Q);
    Inputs(Apply(M, c, m2), VTemp, PositionPipe, V(l), Q);
    Step(M, a, m);
    Step(M, b, m1);
    Step(M, c, m2);
    Step(M, d, Apply(M, c, m2));
  }

  lemma AttMixValue(M: Model, l: nat, m: Machine)
    ensures var m' := Run(M, AttMix(M, l), m);
            var z := M.sem("block_multihead_att", l, Z, [m(Q), m(K(l)), m(V(l)), m(PositionPipe)]);
            && m'(ZqPipe) == M.sem("block_cast_d", l, ZqPipe,
                                   [M.sem("block_matmul_wo", l, Y, [M.sem("block_cast_y2", l, ZqSlice, [z])])])
            && m'(K(l)) == m(K(l)) && m'(V(l)) == m(V(l))
  {
    hide Run, Apply, Values;
    var a, b := Compute("block_multihead_att", l, [Q, K(l), V(l), PositionPipe], [Z]), Compute("block_cast_y2", l, [Z], [ZqSlice]);
    var c, d := Compute("block_matmul_wo", l, [ZqSlice], [Y]), Compute("block_cast_d", l, [Y], [ZqPipe]);
    RunFour(M, a, b, c, d, m);
    var m1 := Apply(M, a, m);
    var m2 := Apply(M, b, m1);
    Inputs(m, Q, K(l), V(l), PositionPipe);
    Inputs(m1, Z, Z, Z, Z);
    Inputs(m2, ZqSlice, Z, Z, Z);
    Inputs(Apply(M, c, m2), Y, Z, Z, Z);
    Step(M, a, m);
    Step(M, b, m1);
    Step(M, c, m2);
    Step(M, d, Apply(M, c, m2));
  }

  // Queries, keys and values in terms of the normalised input.
  lemma Projections(M: Model, l: nat, x: Val, pos: Val, c: Cache)
    ensures var y := AttInput(M, l, x);
            var q, k := M.sem("block_matmul_q", l, Q, [y]), M.sem("block_matmul_k", l, KTemp, [y]);
            var k' := M.sem("block_rope_k", l, KTemp, [HeadNormed(M, "block_norm_pre_k", "block_norm_k", l, KTemp, k), pos]);
            && Query(M, l, x, pos) == M.sem("block_rope_q", l, Q, [HeadNormed(M, "block_norm_pre_q", "block_norm_q", l, Q, q), pos])
            && NextCache(M, l, x, pos, c).k == M.sem("block_shift_k", l, K(l), [k', pos, c.k])
            && NextCache(M, l, x, pos, c).v ==
               M.sem("block_shift_v", l, V(l), [M.sem("block_matmul_v", l, VTemp, [y]), pos, c.v])
  {
  }

  // The attention half up to the cache update.
  function AttFront(M: Model, l: nat): seq<Op> {
    AttNorm(M, l) + (AttProject(M, l) + (AttHeadNorm(M, l) + AttStore(M, l)))
  }

  lemma AttFrontValue(M: Model, l: nat, m: Machine)
    ensures var m' := Run(M, AttFront(M, l), m);
            var c' := NextCache(M, l, m(X), m(PositionPipe), Cache(m(K(l)), m(V(l))));
            && m'(Q) == Query(M, l, m(X), m(PositionPipe)) && m'(K(l)) == c'.k && m'(V(l)) == c'.v
            && m'(PositionPipe) == m(PositionPipe)
  {
    hide AttNorm, AttProject, AttHeadNorm, AttStore, Run, AttInput, Query, NextCache, HeadNormed, YIn;
    var a, b, c, d := AttNorm(M, l), AttProject(M, l), AttHeadNorm(M, l), AttStore(M, l);
    var m1 := Run(M, a, m);
    var m2 := Run(M, b, m1);
    RunAppend(M, a, b + (c + d), m);
    RunAppend(M, b, c + d, m1);
    RunAppend(M, c, d, m2);
    AttNormValue(M, l, m);
    AttProjectValue(M, l, m1);
    AttHeadNormValue(M, l, m2);
    AttStoreValue(M, l, Run(M, c, m2));
    Projections(M, l, m(X), m(PositionPipe), Cache(m(K(l)), m(V(l))));
  }

  lemma FrontThenMix(M: Model, l: nat)
    ensures AttOps(M, l) == AttFront(M, l) + AttMix(M, l)
  {
    hide AttNorm, AttProject, AttHeadNorm, AttStore, AttMix;
  }

  /** The attention half, on any node state: the caches and what is added to the residual. */
  lemma AttMeaning(M: Model, l: nat, m: Machine)
    ensures var m' := Run(M, AttOps(M, l), m);
            var c := Cache(m(K(l)), m(V(l)));
            && m'(ZqPipe) == Delta(M, 2 * l, m(X), m(PositionPipe), c)
            && Cache(m'(K(l)), m'(V(l))) == NextCache(M, l, m(X), m(PositionPipe), c)
  {
    hide AttFront, AttMix, AttOps, Run, Query, NextCache, FfDelta;
    FrontThenMix(M, l);
    RunAppend(M, AttFront(M, l), AttMix(M, l), m);
    AttFrontValue(M, l, m);
    AttMixValue(M, l, Run(M, AttFront(M, l), m));
  }

  lemma AttFrame(M: Model, l: nat, m: Machine, loc: Loc)
    requires Foreign(loc, l)
    ensures Run(M, AttOps(M, l), m)(loc) == m(loc)
  {
    hide AttOps, Run, Written;
    AttOpsKeep(M, l, loc);
    Untouched(M, AttOps(M, l), m, loc);
  }

  // ---------------------------------------------------------------------------
  // The feed-forward half
  // ---------------------------------------------------------------------------

  lemma FfNormValue(M: Model, l: nat, m: Machine)
    ensures Run(M, FfNorm(M, l), m)(Y) == FfInput(M, l, m(X))
  {
    NormValue(M, "block_norm_pre_1", "block_norm_1", l, X, Y, m);
  }

  lemma DenseUpValue(M: Model, l: nat, m: Machine)
    ensures var m' := Run(M, DenseUp(M, l), m);
            var y := if M.quantised then M.sem("block_cast_y3", l, Yq, [m(Y)]) else m(Y);
            && m'(D) == M.sem("block_matmul_w1", l, D, [y]) && m'(L) == M.sem("block_matmul_w3", l, L, [y])
  {
    hide Run, Apply, Values;
    var cast := MaybeCast(M, "block_cast_y3", l, Y, Yq);
    var a, b := Compute("block_matmul_w1", l, [YIn(M)], [D]), Compute("block_matmul_w3", l, [YIn(M)], [L]);
    var m1 := Run(M, cast, m);
    RunAppend(M, cast, [a, b], m);
    CastValue(M, "block_cast_y3", l, Y, Yq, m);
    RunTwo(M, a, b, m1);
    Inputs(m1, YIn(M), Y, Y, Y);
    Inputs(Apply(M, a, m1), YIn(M), Y, Y, Y);
    Step(M, a, m1);
    Step(M, b, Apply(M, a, m1));
  }

  // Activation and product, cast if need be, and the second matrix; `d` and `h` are the buffers.
  lemma ActValue(M: Model, l: nat, d: Loc, gate: Loc, m: Machine)
    requires d != gate
    ensures var m' := Run(M, [Compute("block_act", l, [d], [d]), Compute("block_mul", l, [d, gate], [d])], m);
            && m'(d) == M.sem("block_mul", l, d, [M.sem("block_act", l, d, [m(d)]), m(gate)])
            && forall loc :: loc != d ==> m'(loc) == m(loc)
  {
    hide Run, Apply, Values;
    var a, b := Compute("block_act", l, [d], [d]), Compute("block_mul", l, [d, gate], [d]);
    RunTwo(M, a, b, m);
    Inputs(m, d, d, d, d);
    Inputs(Apply(M, a, m), d, gate, d, d);
    Step(M, a, m);
    Step(M, b, Apply(M, a, m));
  }

  lemma DenseDownValue(M: Model, l: nat, m: Machine)
    ensures var d := M.sem("block_mul", l, D, [M.sem("block_act", l, D, [m(D)]), m(L)]);
            var h := if M.quantised then M.sem("block_cast_d2", l, Dq, [d]) else d;
            Run(M, DenseDown(M, l), m)(Y) == M.sem("block_matmul_w2", l, Y, [h])
  {
    hide Run, Apply, Values;
    var act := [Compute("block_act", l, [D], [D]), Compute("block_mul", l, [D, L], [D])];
    var cast, w2 := MaybeCast(M, "block_cast_d2", l, D, Dq), Compute("block_matmul_w2", l, [DIn(M)], [Y]);
    var m1 := Run(M, act, m);
    var m2 := Run(M, cast, m1);
    RunAppend(M, act + cast, [w2], m);
    RunAppend(M, act, cast, m);
    ActValue(M, l, D, L, m);
    CastValue(M, "block_cast_d2", l, D, Dq, m1);
    RunOne(M, w2, m2);
    Inputs(m2, DIn(M), Y, Y, Y);
    Step(M, w2, m2);
  }

  lemma MoeRouteValue(M: Model, l: nat, m: Machine)
    ensures var m' := Run(M, MoeRoute(M, l), m);
            var gate := M.sem("block_moe_softmax", l, Gate, [M.sem("block_moe_gate", l, Gate, [m(Y)])]);
            && m'(MoeYIn(M)) == M.sem("block_moe_y_repeat", l, if M.quantised then MoeYq else MoeY, [m(Y)])
            && m'(MoeS) == M.sem("block_moe_gate2", l, MoeS, [gate])
            && m'(ExpertIndexes) == M.sem("block_moe_gate2", l, ExpertIndexes, [gate])
  {
    hide Run, Apply, Values;
    var a, b := Compute("block_moe_y_repeat", l, [Y], [MoeYIn(M)]), Compute("block_moe_gate", l, [Y], [Gate]);
    var c, d := Compute("block_moe_softmax", l, [Gate], [Gate]), Compute("block_moe_gate2", l, [Gate], [MoeS, ExpertIndexes]);
    RunFour(M, a, b, c, d, m);
    var m1 := Apply(M, a, m);
    var m2 := Apply(M, b, m1);
    Inputs(m, Y, Y, Y, Y);
    Inputs(m1, Y, Y, Y, Y);
    Inputs(m2, Gate, Y, Y, Y);
    Inputs(Apply(M, c, m2), Gate, Y, Y, Y);
    Step(M, a, m);
    Step(M, b, m1);
    Step(M, c, m2);
    Step(M, d, Apply(M, c, m2));
  }

  lemma MoeUpValue(M: Model, l: nat, m: Machine)
    ensures var m' := Run(M, MoeUp(M, l), m);
            && m'(MoeD) == M.sem("block_matmul_w1", l, MoeD, [m(MoeYIn(M)), m(ExpertIndexes)])
            && m'(MoeL) == M.sem("block_matmul_w3", l, MoeL, [m(MoeYIn(M)), m(ExpertIndexes)])
            && m'(MoeS) == m(MoeS) && m'(ExpertIndexes) == m(ExpertIndexes)
  {
    hide Run, Apply, Values;
    var y := MoeYIn(M);
    var a, b := Compute("block_matmul_w1", l, [y, ExpertIndexes], [MoeD]), Compute("block_matmul_w3", l, [y, ExpertIndexes], [MoeL]);
    RunTwo(M, a, b, m);
    Inputs(m, y, ExpertIndexes, y, y);
    Inputs(Apply(M, a, m), y, ExpertIndexes, y, y);
    Step(M, a, m);
    Step(M, b, Apply(M, a, m));
  }

  lemma MoeDownValue(M: Model, l: nat, m: Machine)
    ensures var m' := Run(M, MoeDown(M, l), m);
            var d := M.sem("block_mul", l, MoeD, [M.sem("block_act", l, MoeD, [m(MoeD)]), m(MoeL)]);
            var h := if M.quantised then M.sem("block_cast_d2", l, MoeDq, [d]) else d;
            && m'(MoeY) == M.sem("block_matmul_w2", l, MoeY, [h, m(ExpertIndexes)])
            && m'(MoeS) == m(MoeS)
  {
    hide Run, Apply, Values;
    var act := [Compute("block_act", l, [MoeD], [MoeD]), Compute("block_mul", l, [MoeD, MoeL], [MoeD])];
    var cast := MaybeCast(M, "block_cast_d2", l, MoeD, MoeDq);
    var w2 := Compute("block_matmul_w2", l, [MoeDIn(M), ExpertIndexes], [MoeY]);
    var m1 := Run(M, act, m);
    var m2 := Run(M, cast, m1);
    RunAppend(M, act + cast, [w2], m);
    RunAppend(M, act, cast, m);
    ActValue(M, l, MoeD, MoeL, m);
    CastValue(M, "block_cast_d2", l, MoeD, MoeDq, m1);
    RunOne(M, w2, m2);
    Inputs(m2, MoeDIn(M), ExpertIndexes, Y, Y);
    Step(M, w2, m2);
  }

  lemma MoeMergeValue(M: Model, l: nat, m: Machine)
    ensures Run(M, MoeMerge(M, l), m)(Y) ==
            M.sem("block_moe_merge_sum", l, Y, [M.sem("block_moe_scale", l, MoeY, [m(MoeY), m(MoeS)])])
  {
    hide Run, Apply, Values;
    var a, b := Compute("block_moe_scale", l, [MoeY, MoeS], [MoeY]), Compute("block_moe_merge_sum", l, [MoeY], [Y]);
    RunTwo(M, a, b, m);
    Inputs(m, MoeY, MoeS, Y, Y);
    Inputs(Apply(M, a, m), MoeY, Y, Y, Y);
    Step(M, a, m);
    Step(M, b, Apply(M, a, m));
  }

  lemma FfOutValue(M: Model, l: nat, m: Machine)
    ensures Run(M, FfOut(M, l), m)(ZqPipe) == M.sem("block_cast_d3", l, ZqPipe, [m(Y)])
  {
    hide Run, Apply, Values;
    RunOne(M, Compute("block_cast_d3", l, [Y], [ZqPipe]), m);
    Inputs(m, Y, Y, Y, Y);
    Step(M, Compute("block_cast_d3", l, [Y], [ZqPipe]), m);
  }

  lemma DenseMeaning(M: Model, l: nat, m: Machine)
    requires M.arch != Qwen3Moe
    ensures Run(M, FfOps(M, l), m)(ZqPipe) == DenseDelta(M, l, m(X))
  {
    hide FfNorm, DenseUp, DenseDown, FfOut, Run, FfInput;
    var a, b, c, d := FfNorm(M, l), DenseUp(M, l), DenseDown(M, l), FfOut(M, l);
    var m1 := Run(M, a, m);
    var m2 := Run(M, b, m1);
    RunAppend(M, a, b + (c + d), m);
    RunAppend(M, b, c + d, m1);
    RunAppend(M, c, d, m2);
    FfNormValue(M, l, m);
    DenseUpValue(M, l, m1);
    DenseDownValue(M, l, m2);
    FfOutValue(M, l, Run(M, c, m2));
  }

  lemma MoeMeaning(M: Model, l: nat, m: Machine)
    requires M.arch == Qwen3Moe
    ensures Run(M, FfOps(M, l), m)(ZqPipe) == MoeDelta(M, l, m(X))
  {
    hide FfNorm, MoeRoute, MoeUp, MoeDown, MoeMerge, FfOut, Run, FfInput, MoeYIn;
    var a, b, c, d, e, f := FfNorm(M, l), MoeRoute(M, l), MoeUp(M, l), MoeDown(M, l), MoeMerge(M, l), FfOut(M, l);
    var m1 := Run(M, a, m);
    var m2 := Run(M, b, m1);
    var m3 := Run(M, c, m2);
    var m4 := Run(M, d, m3);
    RunAppend(M, a, b + (c + (d + (e + f))), m);
    RunAppend(M, b, c + (d + (e + f)), m1);
    RunAppend(M, c, d + (e + f), m2);
    RunAppend(M, d, e + f, m3);
    RunAppend(M, e, f, m4);
    FfNormValue(M, l, m);
    MoeRouteValue(M, l, m1);
    MoeUpValue(M, l, m2);
    MoeDownValue(M, l, m3);
    MoeMergeValue(M, l, m4);
    FfOutValue(M, l, Run(M, e, m4));
  }

  /** The feed-forward half, dense or with experts, on any node state. */
  lemma FfMeaning(M: Model, l: nat, m: Machine, c: Cache)
    ensures var m' := Run(M, FfOps(M, l), m);
            && m'(ZqPipe) == Delta(M, 2 * l + 1, m(X), m(PositionPipe), c)
            && forall loc :: loc in {X, PositionPipe, XPipe, TokenPipe} || loc.K? || loc.V? ==> m'(loc) == m(loc)
  {
    hide FfOps, Run, Written, DenseDelta, MoeDelta;
    if M.arch == Qwen3Moe {
      MoeMeaning(M, l, m);
    } else {
      DenseMeaning(M, l, m);
    }
    forall loc | loc in {X, PositionPipe, XPipe, TokenPipe} || loc.K? || loc.V?
      ensures Run(M, FfOps(M, l), m)(loc) == m(loc)
    {
      FfOpsKeep(M, l, loc);
      Untouched(M, FfOps(M, l), m, loc);
    }
  }

  // ---------------------------------------------------------------------------
  // The head
  // ---------------------------------------------------------------------------

  // The last operations of the head, from the normalised input on.
  function HeadTail(M: Model): seq<Op> {
    if M.fusedHead then
      [Compute("final_matmul_logits", 0, [YIn(M)], [ArgmaxPartial]),
       Compute("final_reduce_argmax", 0, [ArgmaxPartial], [LogitsPipe])]
    else [Compute("final_matmul_logits", 0, [YIn(M)], [LogitsPipe])]
  }

  lemma HeadTailValue(M: Model, m: Machine)
    ensures Run(M, HeadTail(M), m)(LogitsPipe) ==
            if M.fusedHead then
              M.sem("final_reduce_argmax", 0, LogitsPipe, [M.sem("final_matmul_logits", 0, ArgmaxPartial, [m(YIn(M))])])
            else M.sem("final_matmul_logits", 0, LogitsPipe, [m(YIn(M))])
  {
    hide Run, Apply, Values;
    var ops := HeadTail(M);
    Inputs(m, YIn(M), Y, Y, Y);
    if M.fusedHead {
      RunTwo(M, ops[0], ops[1], m);
      Inputs(Apply(M, ops[0], m), ArgmaxPartial, Y, Y, Y);
      Step(M, ops[0], m);
      Step(M, ops[1], Apply(M, ops[0], m));
    } else {
      RunOne(M, ops[0], m);
      Step(M, ops[0], m);
    }
  }

  /** The head, on any node state. */
  lemma HeadMeaning(M: Model, m: Machine)
    ensures Run(M, FinalOps(M), m)(LogitsPipe) == Head(M, m(X))
  {
    hide Run;
    var norm := [Compute("final_norm_pre", 0, [X], [InvRms]), Compute("final_norm", 0, [X, InvRms], [Y])];
    var cast := MaybeCast(M, "final_cast_y", 0, Y, Yq);
    assert FinalOps(M) == (norm + cast) + HeadTail(M);
    hide MaybeCast, HeadTail, FinalOps;
    RunAppend(M, norm + cast, HeadTail(M), m);
    RunAppend(M, norm, cast, m);
    NormValue(M, "final_norm_pre", "final_norm", 0, X, Y, m);
    CastValue(M, "final_cast_y", 0, Y, Yq, Run(M, norm, m));
    HeadTailValue(M, Run(M, norm + cast, m));
  }

  lemma FinalOpsKeep(M: Model, loc: Loc)
    requires loc.K? || loc.V?
    ensures !Written(FinalOps(M), loc)
  {
  }

  lemma HeadFrame(M: Model, m: Machine, loc: Loc)
    requires loc.K? || loc.V?
    ensures Run(M, FinalOps(M), m)(loc) == m(loc)
  {
    hide FinalOps, Run, Written;
    FinalOpsKeep(M, loc);
    Untouched(M, FinalOps(M), m, loc);
  }
}
