/** The operations of one node's graph, their meaning, and the proof that cutting the residual
    network into stages changes nothing. */
module StageGraph {
  import opened StageCut

  // The content of a buffer or pipe.
  type Val = seq<real>

  datatype ArchType = Llama | Qwen3 | Qwen3Moe

  /** Pipes and buffers of a node; K and V are the caches of a layer. */
  datatype Loc =
    | TokenPipe | PositionPipe | XPipe | ZqPipe | LogitsPipe
    | X | Y | Yq | Z | ZqSlice | Q | KTemp | VTemp | InvRms | D | Dq | L | ArgmaxPartial
    | Gate | ExpertIndexes | MoeY | MoeYq | MoeD | MoeDq | MoeL | MoeS
    | K(layer: nat) | V(layer: nat)

  datatype Op =
    | Copy(name: string, layer: nat, from: Loc, to: Loc)
    | MergeAdd(name: string, layer: nat, from: Loc, to: Loc)
    | Compute(name: string, layer: nat, inputs: seq<Loc>, outputs: seq<Loc>)

  /** What is computed where nothing depends on the cut: `sem` gives the value an operation
      stores at a location from the values it reads, `add` the residual addition. */
  datatype Model = Model(arch: ArchType, quantised: bool, fusedHead: bool,
                         sem: (string, nat, Loc, seq<Val>) -> Val, add: (Val, Val) -> Val)

  type Machine = Loc -> Val

  // ---------------------------------------------------------------------------
  // Meaning of operations
  // ---------------------------------------------------------------------------

  function Values(m: Machine, locs: seq<Loc>): seq<Val> {
    seq(|locs|, i requires 0 <= i < |locs| => m(locs[i]))
  }

  predicate WritesLoc(op: Op, loc: Loc) {
    match op
    case Copy(_, _, _, to) => loc == to
    case MergeAdd(_, _, _, to) => loc == to
    case Compute(_, _, _, outputs) => loc in outputs
  }

  predicate ReadsLoc(op: Op, loc: Loc) {
    match op
    case Copy(_, _, from, _) => loc == from
    case MergeAdd(_, _, from, to) => loc == from || loc == to
    case Compute(_, _, inputs, _) => loc in inputs
  }

  function NewValue(M: Model, op: Op, m: Machine, loc: Loc): Val {
    match op
    case Copy(_, _, from, _) => m(from)
    case MergeAdd(_, _, from, to) => M.add(m(to), m(from))
    case Compute(name, layer, inputs, _) => M.sem(name, layer, loc, Values(m, inputs))
  }

  function Apply(M: Model, op: Op, m: Machine): Machine {
    loc => if WritesLoc(op, loc) then NewValue(M, op, m, loc) else m(loc)
  }

  function Run(M: Model, ops: seq<Op>, m: Machine): Machine {
    if ops == [] then m else Apply(M, ops[|ops| - 1], Run(M, ops[..|ops| - 1], m))
  }

  lemma {:induction false} RunAppend(M: Model, a: seq<Op>, b: seq<Op>, m: Machine)
    ensures Run(M, a + b, m) == Run(M, b, Run(M, a, m))
    decreases |b|
  {
    if b == [] {
      assert a + b == a;
    } else {
      var n := |b| - 1;
      assert (a + b)[..|a + b| - 1] == a + b[..n];
      assert (a + b)[|a + b| - 1] == b[n];
      RunAppend(M, a, b[..n], m);
    }
  }

  lemma RunNothing(M: Model, m: Machine)
    ensures Run(M, [], m) == m
  {
  }

  lemma RunOne(M: Model, op: Op, m: Machine)
    ensures Run(M, [op], m) == Apply(M, op, m)
  {
    assert [op][..0] == [];
    assert Run(M, [op][..0], m) == m;
  }

  predicate Written(ops: seq<Op>, loc: Loc) {
    exists j :: 0 <= j < |ops| && WritesLoc(ops[j], loc)
  }

  lemma {:induction false} Untouched(M: Model, ops: seq<Op>, m: Machine, loc: Loc)
    requires !Written(ops, loc)
    ensures Run(M, ops, m)(loc) == m(loc)
    decreases |ops|
  {
    if ops != [] {
      var n := |ops| - 1;
      assert !WritesLoc(ops[n], loc);
      Untouched(M, ops[..n], m, loc);
    }
  }

  // ---------------------------------------------------------------------------
  // Nothing stale is read
  // ---------------------------------------------------------------------------

  /** Every operation reads only what is known beforehand or was written before it. */
  ghost predicate Defined(ops: seq<Op>, known: set<Loc>) {
    forall i, loc :: 0 <= i < |ops| && ReadsLoc(ops[i], loc) ==> loc in known || Written(ops[..i], loc)
  }

  lemma DefinedAppend(a: seq<Op>, known: set<Loc>, b: seq<Op>, known': set<Loc>)
    requires Defined(a, known) && Defined(b, known')
    requires forall loc :: loc in known' ==> loc in known || Written(a, loc)
    ensures Defined(a + b, known)
  {
    var ab := a + b;
    forall i, loc | 0 <= i < |ab| && ReadsLoc(ab[i], loc)
      ensures loc in known || Written(ab[..i], loc)
    {
      if i < |a| {
        assert ab[..i] == a[..i];
      } else {
        assert ab[..i] == a + b[..i - |a|];
        WrittenAppend(a, b[..i - |a|], loc);
        assert loc in known' || Written(b[..i - |a|], loc);
      }
    }
  }

  lemma WrittenAppend(a: seq<Op>, b: seq<Op>, loc: Loc)
    ensures Written(a + b, loc) <==> Written(a, loc) || Written(b, loc)
  {
    var ab := a + b;
    if Written(a, loc) {
      var j :| 0 <= j < |a| && WritesLoc(a[j], loc);
      assert WritesLoc(ab[j], loc);
    }
    if Written(b, loc) {
      var j :| 0 <= j < |b| && WritesLoc(b[j], loc);
      assert WritesLoc(ab[|a| + j], loc);
    }
  }

  // Two machines that agree on what is known agree on all that is computed from it.
  lemma {:induction false} SameResults(M: Model, ops: seq<Op>, known: set<Loc>, m: Machine, m': Machine, loc: Loc)
    requires Defined(ops, known) && forall l :: l in known ==> m(l) == m'(l)
    requires loc in known || Written(ops, loc)
    ensures Run(M, ops, m)(loc) == Run(M, ops, m')(loc)
    decreases |ops|
  {
    if ops != [] {
      var n := |ops| - 1;
      var before := ops[..n];
      assert Defined(before, known) by {
        forall i, l | 0 <= i < |before| && ReadsLoc(before[i], l)
          ensures l in known || Written(before[..i], l)
        {
          assert before[..i] == ops[..i] && before[i] == ops[i];
        }
      }
      forall l | l in known || Written(before, l)
        ensures Run(M, before, m)(l) == Run(M, before, m')(l)
      {
        SameResults(M, before, known, m, m', l);
      }
      var a, b := Run(M, before, m), Run(M, before, m');
      assert forall l :: ReadsLoc(ops[n], l) ==> a(l) == b(l);
      SameNewValue(M, ops[n], a, b, loc);
      if !WritesLoc(ops[n], loc) && loc !in known {
        WrittenAppend(before, [ops[n]], loc);
        assert before + [ops[n]] == ops;
      }
    }
  }

  lemma SameNewValue(M: Model, op: Op, a: Machine, b: Machine, loc: Loc)
    requires forall l :: ReadsLoc(op, l) ==> a(l) == b(l)
    ensures NewValue(M, op, a, loc) == NewValue(M, op, b, loc)
  {
    match op
    case Copy(_, _, from, _) => assert ReadsLoc(op, from);
    case MergeAdd(_, _, from, to) => assert ReadsLoc(op, from) && ReadsLoc(op, to);
    case Compute(_, _, inputs, _) =>
      forall i | 0 <= i < |inputs|
        ensures a(inputs[i]) == b(inputs[i])
      {
        assert ReadsLoc(op, inputs[i]);
      }
      assert Values(a, inputs) == Values(b, inputs);
  }

  // ---------------------------------------------------------------------------
  // The operations of a sub-block, after its residual input has reached X
  // ---------------------------------------------------------------------------

  function MaybeCast(M: Model, name: string, l: nat, from: Loc, to: Loc): seq<Op> {
    if M.quantised then [Compute(name, l, [from], [to])] else []
  }

  // The normalised input as the matrix multiplications read it.
  function YIn(M: Model): Loc {
    if M.quantised then Yq else Y
  }

  function DIn(M: Model): Loc {
    if M.quantised then Dq else D
  }

  function MoeDIn(M: Model): Loc {
    if M.quantised then MoeDq else MoeD
  }

  function MoeYIn(M: Model): Loc {
    if M.quantised then MoeYq else MoeY
  }

  function AttNorm(M: Model, l: nat): seq<Op> {
    [Compute("block_norm_pre_0", l, [X], [InvRms]), Compute("block_norm_0", l, [X, InvRms], [Y])]
    + MaybeCast(M, "block_cast_y", l, Y, Yq)
  }

  function AttProject(M: Model, l: nat): seq<Op> {
    [Compute("block_matmul_q", l, [YIn(M)], [Q]),
     Compute("block_matmul_k", l, [YIn(M)], [KTemp]),
     Compute("block_matmul_v", l, [YIn(M)], [VTemp])]
  }

  function AttHeadNorm(M: Model, l: nat): seq<Op> {
    if M.arch == Llama then [] else
      [Compute("block_norm_pre_q", l, [Q], [InvRms]),
       Compute("block_norm_q", l, [Q, InvRms], [Q]),
       Compute("block_norm_pre_k", l, [KTemp], [InvRms]),
       Compute("block_norm_k", l, [KTemp, InvRms], [KTemp])]
  }

  function AttStore(M: Model, l: nat): seq<Op> {
    [Compute("block_rope_q", l, [Q, PositionPipe], [Q]),
     Compute("block_rope_k", l, [KTemp, PositionPipe], [KTemp]),
     Compute("block_shift_k", l, [KTemp, PositionPipe, K(l)], [K(l)]),
     Compute("block_shift_v", l, [VTemp, PositionPipe, V(l)], [V(l)])]
  }

  function AttMix(M: Model, l: nat): seq<Op> {
    [Compute("block_multihead_att", l, [Q, K(l), V(l), PositionPipe], [Z]),
     Compute("block_cast_y2", l, [Z], [ZqSlice]),
     Compute("block_matmul_wo", l, [ZqSlice], [Y]),
     Compute("block_cast_d", l, [Y], [ZqPipe])]
  }

  function FfNorm(M: Model, l: nat): seq<Op> {
    [Compute("block_norm_pre_1", l, [X], [InvRms]), Compute("block_norm_1", l, [X, InvRms], [Y])]
  }

  function DenseUp(M: Model, l: nat): seq<Op> {
    MaybeCast(M, "block_cast_y3", l, Y, Yq) +
    [Compute("block_matmul_w1", l, [YIn(M)], [D]), Compute("block_matmul_w3", l, [YIn(M)], [L])]
  }

  function DenseDown(M: Model, l: nat): seq<Op> {
    [Compute("block_act", l, [D], [D]), Compute("block_mul", l, [D, L], [D])]
    + MaybeCast(M, "block_cast_d2", l, D, Dq)
    + [Compute("block_matmul_w2", l, [DIn(M)], [Y])]
  }

  function MoeRoute(M: Model, l: nat): seq<Op> {
    [Compute("block_moe_y_repeat", l, [Y], [MoeYIn(M)]),
     Compute("block_moe_gate", l, [Y], [Gate]),
     Compute("block_moe_softmax", l, [Gate], [Gate]),
     Compute("block_moe_gate2", l, [Gate], [MoeS, ExpertIndexes])]
  }

  function MoeUp(M: Model, l: nat): seq<Op> {
    [Compute("block_matmul_w1", l, [MoeYIn(M), ExpertIndexes], [MoeD]),
     Compute("block_matmul_w3", l, [MoeYIn(M), ExpertIndexes], [MoeL])]
  }

  function MoeDown(M: Model, l: nat): seq<Op> {
    [Compute("block_act", l, [MoeD], [MoeD]), Compute("block_mul", l, [MoeD, MoeL], [MoeD])]
    + MaybeCast(M, "block_cast_d2", l, MoeD, MoeDq)
    + [Compute("block_matmul_w2", l, [MoeDIn(M), ExpertIndexes], [MoeY])]
  }

  function MoeMerge(M: Model, l: nat): seq<Op> {
    [Compute("block_moe_scale", l, [MoeY, MoeS], [MoeY]), Compute("block_moe_merge_sum", l, [MoeY], [Y])]
  }

  function FfOut(M: Model, l: nat): seq<Op> {
    [Compute("block_cast_d3", l, [Y], [ZqPipe])]
  }

  function AttOps(M: Model, l: nat): seq<Op> {
    AttNorm(M, l) + (AttProject(M, l) + (AttHeadNorm(M, l) + (AttStore(M, l) + AttMix(M, l))))
  }

  function FfOps(M: Model, l: nat): seq<Op> {
    FfNorm(M, l) +
    (if M.arch == Qwen3Moe then MoeRoute(M, l) + (MoeUp(M, l) + (MoeDown(M, l) + (MoeMerge(M, l) + FfOut(M, l))))
     else DenseUp(M, l) + (DenseDown(M, l) + FfOut(M, l)))
  }

  // Sub-block s turns X (and the caches of its layer) into ZqPipe.
  function Inner(M: Model, s: nat): seq<Op> {
    if s % 2 == 0 then AttOps(M, s / 2) else FfOps(M, s / 2)
  }

  function FinalOps(M: Model): seq<Op> {
    [Compute("final_norm_pre", 0, [X], [InvRms]), Compute("final_norm", 0, [X, InvRms], [Y])]
    + MaybeCast(M, "final_cast_y", 0, Y, Yq)
    + if M.fusedHead then
        [Compute("final_matmul_logits", 0, [YIn(M)], [ArgmaxPartial]),
         Compute("final_reduce_argmax", 0, [ArgmaxPartial], [LogitsPipe])]
      else [Compute("final_matmul_logits", 0, [YIn(M)], [LogitsPipe])]
  }

  // ---------------------------------------------------------------------------
  // What the operations read and write
  // ---------------------------------------------------------------------------

  function AttKnown(l: nat): set<Loc> {
    {X, PositionPipe, K(l), V(l)}
  }

  lemma AttOpsDefined(M: Model, l: nat)
    ensures Defined(AttOps(M, l), AttKnown(l))
    ensures Written(AttOps(M, l), ZqPipe)
  {
    var a, b, c, d, e := AttNorm(M, l), AttProject(M, l), AttHeadNorm(M, l), AttStore(M, l), AttMix(M, l);
    AttNormDefined(M, l);
    AttHeadNormDefined(M, l);
    AttProjectDefined(M, l);
    AttStoreDefined(M, l);
    AttMixDefined(M, l);
    hide AttNorm, AttProject, AttHeadNorm, AttStore, AttMix, Defined, Written;
    DefinedAppend(d, AttKnown(l) + {Q, KTemp, VTemp}, e, AttKnown(l) + {Q});
    DefinedAppend(c, AttKnown(l) + {Q, KTemp, VTemp}, d + e, AttKnown(l) + {Q, KTemp, VTemp});
    DefinedAppend(b, AttKnown(l) + {YIn(M)}, c + (d + e), AttKnown(l) + {Q, KTemp, VTemp});
    DefinedAppend(a, AttKnown(l), b + (c + (d + e)), AttKnown(l) + {YIn(M)});
    WrittenAppend(d, e, ZqPipe);
    WrittenAppend(c, d + e, ZqPipe);
    WrittenAppend(b, c + (d + e), ZqPipe);
    WrittenAppend(a, b + (c + (d + e)), ZqPipe);
  }

  lemma WrittenAt(ops: seq<Op>, j: nat, loc: Loc)
    requires j < |ops| && WritesLoc(ops[j], loc)
    ensures Written(ops, loc)
    ensures forall i :: j < i <= |ops| ==> Written(ops[..i], loc)
  {
    forall i | j < i <= |ops|
      ensures Written(ops[..i], loc)
    {
      assert ops[..i][j] == ops[j];
    }
  }

  lemma AttNormDefined(M: Model, l: nat)
    ensures Defined(AttNorm(M, l), AttKnown(l)) && Written(AttNorm(M, l), YIn(M))
  {
    var ops := AttNorm(M, l);
    WrittenAt(ops, 0, InvRms);
    WrittenAt(ops, 1, Y);
    if M.quantised {
      WrittenAt(ops, 2, Yq);
    }
  }

  lemma AttHeadNormDefined(M: Model, l: nat)
    ensures Defined(AttHeadNorm(M, l), AttKnown(l) + {Q, KTemp, VTemp})
  {
    var ops := AttHeadNorm(M, l);
    if M.arch != Llama {
      WrittenAt(ops, 0, InvRms);
    }
  }

  lemma AttProjectDefined(M: Model, l: nat)
    ensures Defined(AttProject(M, l), AttKnown(l) + {YIn(M)})
    ensures Written(AttProject(M, l), Q) && Written(AttProject(M, l), KTemp) && Written(AttProject(M, l), VTemp)
  {
    var ops := AttProject(M, l);
    WrittenAt(ops, 0, Q);
    WrittenAt(ops, 1, KTemp);
    WrittenAt(ops, 2, VTemp);
  }

  lemma AttStoreDefined(M: Model, l: nat)
    ensures Defined(AttStore(M, l), AttKnown(l) + {Q, KTemp, VTemp})
  {
  }

  lemma AttMixDefined(M: Model, l: nat)
    ensures Defined(AttMix(M, l), AttKnown(l) + {Q}) && Written(AttMix(M, l), ZqPipe)
  {
    hide Written;
    var ops := AttMix(M, l);
    WrittenAt(ops, 0, Z);
    WrittenAt(ops, 1, ZqSlice);
    WrittenAt(ops, 2, Y);
    WrittenAt(ops, 3, ZqPipe);
  }

  lemma FfNormDefined(M: Model, l: nat)
    ensures Defined(FfNorm(M, l), {X}) && Written(FfNorm(M, l), Y)
  {
    var ops := FfNorm(M, l);
    WrittenAt(ops, 0, InvRms);
    WrittenAt(ops, 1, Y);
  }

  lemma DenseUpDefined(M: Model, l: nat)
    ensures Defined(DenseUp(M, l), {Y}) && Written(DenseUp(M, l), D) && Written(DenseUp(M, l), L)
  {
    var ops := DenseUp(M, l);
    var n := |ops|;
    if M.quantised {
      WrittenAt(ops, 0, Yq);
    }
    WrittenAt(ops, n - 2, D);
    WrittenAt(ops, n - 1, L);
  }

  lemma DenseDownDefined(M: Model, l: nat)
    ensures Defined(DenseDown(M, l), {D, L}) && Written(DenseDown(M, l), Y)
  {
    var ops := DenseDown(M, l);
    if M.quantised {
      WrittenAt(ops, 2, Dq);
    }
    WrittenAt(ops, |ops| - 1, Y);
  }

  lemma MoeRouteDefined(M: Model, l: nat)
    ensures Defined(MoeRoute(M, l), {Y})
    ensures Written(MoeRoute(M, l), MoeYIn(M)) && Written(MoeRoute(M, l), ExpertIndexes) && Written(MoeRoute(M, l), MoeS)
  {
    hide Written, MoeYIn;
    var ops := MoeRoute(M, l);
    WrittenAt(ops, 0, MoeYIn(M));
    WrittenAt(ops, 1, Gate);
    WrittenAt(ops, 3, MoeS);
    WrittenAt(ops, 3, ExpertIndexes);
  }

  lemma MoeUpDefined(M: Model, l: nat)
    ensures Defined(MoeUp(M, l), {MoeYIn(M), ExpertIndexes})
    ensures Written(MoeUp(M, l), MoeD) && Written(MoeUp(M, l), MoeL)
  {
    var ops := MoeUp(M, l);
    WrittenAt(ops, 0, MoeD);
    WrittenAt(ops, 1, MoeL);
  }

  lemma MoeDownDefined(M: Model, l: nat)
    ensures Defined(MoeDown(M, l), {MoeD, MoeL, ExpertIndexes}) && Written(MoeDown(M, l), MoeY)
  {
    var ops := MoeDown(M, l);
    if M.quantised {
      WrittenAt(ops, 2, MoeDq);
    }
    WrittenAt(ops, |ops| - 1, MoeY);
  }

  lemma MoeMergeDefined(M: Model, l: nat)
    ensures Defined(MoeMerge(M, l), {MoeY, MoeS}) && Written(MoeMerge(M, l), Y)
  {
    var ops := MoeMerge(M, l);
    WrittenAt(ops, 0, MoeY);
    WrittenAt(ops, 1, Y);
  }

  lemma FfOutDefined(M: Model, l: nat)
    ensures Defined(FfOut(M, l), {Y}) && Written(FfOut(M, l), ZqPipe)
  {
    WrittenAt(FfOut(M, l), 0, ZqPipe);
  }

  lemma DenseDefined(M: Model, l: nat)
    ensures Defined(DenseUp(M, l) + (DenseDown(M, l) + FfOut(M, l)), {Y})
    ensures Written(DenseUp(M, l) + (DenseDown(M, l) + FfOut(M, l)), ZqPipe)
  {
    hide *;
    var a, b, c := DenseUp(M, l), DenseDown(M, l), FfOut(M, l);
    DenseUpDefined(M, l);
    DenseDownDefined(M, l);
    FfOutDefined(M, l);
    DefinedAppend(b, {D, L}, c, {Y});
    DefinedAppend(a, {Y}, b + c, {D, L});
    WrittenAppend(b, c, ZqPipe);
    WrittenAppend(a, b + c, ZqPipe);
  }

  lemma MoeDefined(M: Model, l: nat)
    ensures Defined(MoeRoute(M, l) + (MoeUp(M, l) + (MoeDown(M, l) + (MoeMerge(M, l) + FfOut(M, l)))), {Y})
    ensures Written(MoeRoute(M, l) + (MoeUp(M, l) + (MoeDown(M, l) + (MoeMerge(M, l) + FfOut(M, l)))), ZqPipe)
  {
    hide *;
    var a, b, c, d, e := MoeRoute(M, l), MoeUp(M, l), MoeDown(M, l), MoeMerge(M, l), FfOut(M, l);
    MoeRouteDefined(M, l);
    MoeUpDefined(M, l);
    MoeDownDefined(M, l);
    MoeMergeDefined(M, l);
    FfOutDefined(M, l);
    DefinedAppend(d, {MoeY, MoeS}, e, {Y});
    DefinedAppend(c, {MoeD, MoeL, ExpertIndexes, MoeS}, d + e, {MoeY, MoeS}) by { DefinedMore(c, {MoeD, MoeL, ExpertIndexes}, {MoeD, MoeL, ExpertIndexes, MoeS}); }
    DefinedAppend(b, {MoeYIn(M), ExpertIndexes, MoeS}, c + (d + e), {MoeD, MoeL, ExpertIndexes, MoeS}) by {
      DefinedMore(b, {MoeYIn(M), ExpertIndexes}, {MoeYIn(M), ExpertIndexes, MoeS});
    }
    DefinedAppend(a, {Y}, b + (c + (d + e)), {MoeYIn(M), ExpertIndexes, MoeS});
    WrittenAppend(d, e, ZqPipe);
    WrittenAppend(c, d + e, ZqPipe);
    WrittenAppend(b, c + (d + e), ZqPipe);
    WrittenAppend(a, b + (c + (d + e)), ZqPipe);
  }

  lemma DefinedMore(ops: seq<Op>, known: set<Loc>, known': set<Loc>)
    requires Defined(ops, known) && known <= known'
    ensures Defined(ops, known')
  {
  }

  lemma FfOpsDefined(M: Model, l: nat)
    ensures Defined(FfOps(M, l), {X}) && Written(FfOps(M, l), ZqPipe)
  {
    FfNormDefined(M, l);
    DenseDefined(M, l);
    MoeDefined(M, l);
    hide FfNorm, DenseUp, DenseDown, MoeRoute, MoeUp, MoeDown, MoeMerge, FfOut, Defined, Written;
    var rest := if M.arch == Qwen3Moe then MoeRoute(M, l) + (MoeUp(M, l) + (MoeDown(M, l) + (MoeMerge(M, l) + FfOut(M, l))))
                else DenseUp(M, l) + (DenseDown(M, l) + FfOut(M, l));
    DefinedAppend(FfNorm(M, l), {X}, rest, {Y});
    WrittenAppend(FfNorm(M, l), rest, ZqPipe);
  }

  lemma FinalOpsDefined(M: Model)
    ensures Defined(FinalOps(M), {X}) && Written(FinalOps(M), LogitsPipe)
  {
    var ops := FinalOps(M);
    var n := |ops|;
    WrittenAt(ops, 0, InvRms);
    WrittenAt(ops, 1, Y);
    if M.quantised {
      WrittenAt(ops, 2, Yq);
    }
    WrittenAt(ops, n - 1, LogitsPipe);
    if M.fusedHead {
      WrittenAt(ops, n - 2, ArgmaxPartial);
    }
  }

  // What sub-blocks of layer l leave alone, caches of layer l aside.
  predicate Foreign(loc: Loc, l: nat) {
    loc in {X, PositionPipe, XPipe, TokenPipe} || (loc.K? && loc.layer != l) || (loc.V? && loc.layer != l)
  }

  lemma AttOpsKeep(M: Model, l: nat, loc: Loc)
    requires Foreign(loc, l)
    ensures !Written(AttOps(M, l), loc)
  {
    var a, b, c, d, e := AttNorm(M, l), AttProject(M, l), AttHeadNorm(M, l), AttStore(M, l), AttMix(M, l);
    assert !Written(a, loc) && !Written(b, loc) && !Written(c, loc);
    assert !Written(d, loc) && !Written(e, loc);
    hide AttNorm, AttProject, AttHeadNorm, AttStore, AttMix, Written;
    WrittenAppend(d, e, loc);
    WrittenAppend(c, d + e, loc);
    WrittenAppend(b, c + (d + e), loc);
    WrittenAppend(a, b + (c + (d + e)), loc);
  }

  lemma DenseKeeps(M: Model, l: nat, loc: Loc)
    requires loc in {X, PositionPipe, XPipe, TokenPipe} || loc.K? || loc.V?
    ensures !Written(FfNorm(M, l), loc) && !Written(DenseUp(M, l), loc) && !Written(DenseDown(M, l), loc) && !Written(FfOut(M, l), loc)
  {
  }

  lemma MoeKeeps(M: Model, l: nat, loc: Loc)
    requires loc in {X, PositionPipe, XPipe, TokenPipe} || loc.K? || loc.V?
    ensures !Written(MoeRoute(M, l), loc) && !Written(MoeUp(M, l), loc)
    ensures !Written(MoeDown(M, l), loc) && !Written(MoeMerge(M, l), loc)
  {
  }

  lemma FfOpsKeep(M: Model, l: nat, loc: Loc)
    requires loc in {X, PositionPipe, XPipe, TokenPipe} || loc.K? || loc.V?
    ensures !Written(FfOps(M, l), loc)
  {
    DenseKeeps(M, l, loc);
    MoeKeeps(M, l, loc);
    hide FfNorm, DenseUp, DenseDown, MoeRoute, MoeUp, MoeDown, MoeMerge, FfOut, Written;
    if M.arch == Qwen3Moe {
      var b, c, d, e, f := MoeRoute(M, l), MoeUp(M, l), MoeDown(M, l), MoeMerge(M, l), FfOut(M, l);
      WrittenAppend(e, f, loc);
      WrittenAppend(d, e + f, loc);
      WrittenAppend(c, d + (e + f), loc);
      WrittenAppend(b, c + (d + (e + f)), loc);
      WrittenAppend(FfNorm(M, l), b + (c + (d + (e + f))), loc);
    } else {
      var b, c, d := DenseUp(M, l), DenseDown(M, l), FfOut(M, l);
      WrittenAppend(c, d, loc);
      WrittenAppend(b, c + d, loc);
      WrittenAppend(FfNorm(M, l), b + (c + d), loc);
    }
  }

  // ---------------------------------------------------------------------------
  // The graph of one stage
  // ---------------------------------------------------------------------------

  /** How the residual input of sub-block s reaches X: from the pipe for the first sub-block of
      a stage, otherwise by adding what the previous sub-block left in ZqPipe. */
  function Entry(s: nat, first: bool): Op {
    if s % 2 == 0 then
      if first then Copy("block_cast_x", s / 2, XPipe, X) else MergeAdd("block_merge_add", s / 2, ZqPipe, X)
    else
      if first then Copy("block_cast_x_ff", s / 2, XPipe, X) else MergeAdd("block_merge_add2", s / 2, ZqPipe, X)
  }

  function Segment(M: Model, s: nat, first: bool): seq<Op> {
    [Entry(s, first)] + Inner(M, s)
  }

  function Body(M: Model, a: nat, n: nat): seq<Op>
    decreases n
  {
    if n <= a then [] else Body(M, a, n - 1) + Segment(M, n - 1, n - 1 == a)
  }

  function Opening(r: nat): seq<Op> {
    if r == 0 then [Compute("embedding", 0, [TokenPipe], [XPipe])] else []
  }

  function Bridge(): seq<Op> {
    [MergeAdd("stage_bridge_merge_add", 0, ZqPipe, X), Copy("stage_bridge_cast_x", 0, X, XPipe)]
  }

  function Closing(M: Model, isLast: bool): seq<Op> {
    if isLast then [MergeAdd("final_merge_add", 0, ZqPipe, X)] + FinalOps(M) else Bridge()
  }

  function StageOps(M: Model, cut: seq<nat>, r: nat): seq<Op>
    requires r + 1 < |cut|
  {
    Opening(r) + (Body(M, cut[r], cut[r + 1]) + Closing(M, r + 2 == |cut|))
  }

  function Clamp(x: nat, a: nat, b: nat): nat
    requires a <= b
  {
    if x < a then a else if x > b then b else x
  }

  /** The builder of one node walks over the layers its sub-blocks fall into, makes both halves
      of each and keeps those the node owns. */
  method BuildStage(M: Model, cut: seq<nat>, ppSize: nat, nSub: nat, r: nat) returns (ops: seq<Op>)
    requires IsCut(cut, nSub, ppSize) && r < ppSize
    ensures ops == StageOps(M, cut, r)
  {
    hide Inner, Closing, Opening;
    var subStart, subEnd := cut[r], cut[r + 1];
    var layerStart, layerEnd := subStart / 2, (subEnd + 1) / 2;
    ops := Opening(r);
    var body: seq<Op> := [];
    var l := layerStart;
    assert Clamp(2 * l, subStart, subEnd) == subStart;
    while l < layerEnd
      invariant layerStart <= l && (l <= layerEnd || l == layerStart)
      invariant body == Body(M, subStart, Clamp(2 * l, subStart, subEnd))
    {
      var subAtt, subFf := 2 * l, 2 * l + 1;
      var ownAtt := subStart <= subAtt < subEnd;
      var ownFf := subStart <= subFf < subEnd;
      var att, ff: seq<Op>;
      if subAtt == subStart {
        att := [Copy("block_cast_x", l, XPipe, X)];
      } else {
        att := [MergeAdd("block_merge_add", l, ZqPipe, X)];
      }
      att := att + Inner(M, subAtt);
      ff := [MergeAdd("block_merge_add2", l, ZqPipe, X)];
      if subFf == subStart {
        ff := [Copy("block_cast_x_ff", l, XPipe, X)];
      }
      ff := ff + Inner(M, subFf);
      assert att == Segment(M, subAtt, subAtt == subStart);
      assert ff == Segment(M, subFf, subFf == subStart);
      if ownAtt {
        body := body + att;
      }
      assert body == Body(M, subStart, Clamp(2 * l + 1, subStart, subEnd));
      if ownFf {
        body := body + ff;
      }
      assert body == Body(M, subStart, Clamp(2 * l + 2, subStart, subEnd));
      l := l + 1;
    }
    ops := ops + (body + Closing(M, r == ppSize - 1));
  }
}
