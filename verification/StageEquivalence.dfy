/** Running the stages' graphs one after the other computes what the uncut network computes,
    token after token and for every model, exactly when no stage is empty. */
module StageEquivalence {
  import opened StageCut
  import opened StageGraph
  import opened SubBlocks

  function CacheOf(m: Machine, l: nat): Cache {
    Cache(m(K(l)), m(V(l)))
  }

  // ---------------------------------------------------------------------------
  // One segment, one stage
  // ---------------------------------------------------------------------------

  function EntryValue(M: Model, first: bool, m: Machine): Val {
    if first then m(XPipe) else M.add(m(X), m(ZqPipe))
  }

  lemma EntryMeaning(M: Model, s: nat, first: bool, m: Machine)
    ensures var m' := Run(M, [Entry(s, first)], m);
            m'(X) == EntryValue(M, first, m) && forall loc :: loc != X ==> m'(loc) == m(loc)
  {
    RunOne(M, Entry(s, first), m);
    hide Run;
  }

  lemma SegmentMeaning(M: Model, s: nat, first: bool, m: Machine, c: Cache)
    requires s % 2 == 0 ==> c == CacheOf(m, s / 2)
    ensures var m' := Run(M, Segment(M, s, first), m);
            var x := EntryValue(M, first, m);
            && m'(X) == x && m'(ZqPipe) == Delta(M, s, x, m(PositionPipe), c)
            && m'(XPipe) == m(XPipe) && m'(PositionPipe) == m(PositionPipe)
    ensures forall q: nat :: CacheOf(Run(M, Segment(M, s, first), m), q) ==
              if 2 * q == s then NextCache(M, q, EntryValue(M, first, m), m(PositionPipe), c) else CacheOf(m, q)
  {
    hide Run, Entry, AttOps, FfOps, Delta, NextCache, EntryValue;
    var l := s / 2;
    EntryMeaning(M, s, first, m);
    RunAppend(M, [Entry(s, first)], Inner(M, s), m);
    var m1 := Run(M, [Entry(s, first)], m);
    if s % 2 == 0 {
      AttMeaning(M, l, m1);
      forall loc | Foreign(loc, l)
        ensures Run(M, AttOps(M, l), m1)(loc) == m1(loc)
      {
        AttFrame(M, l, m1, loc);
      }
    } else {
      FfMeaning(M, l, m1, c);
    }
  }

  // The residual, position and caches after sub-blocks a to n - 1 of a stage.
  ghost predicate BodyDone(M: Model, caches: seq<Cache>, a: nat, n: nat, m: Machine, m': Machine)
    requires a < n <= 2 * |caches|
  {
    var x, pos := m(XPipe), m(PositionPipe);
    && m'(X) == Residual(M, caches, pos, x, a, n - 1)
    && m'(ZqPipe) == Delta(M, n - 1, m'(X), pos, caches[(n - 1) / 2])
    && m'(XPipe) == x && m'(PositionPipe) == pos
    && forall q: nat :: CacheOf(m', q) == CacheAfter(M, caches, a, n, pos, x, m, q)
  }

  // Layer q's caches after the stage: updated if its attention is among the sub-blocks.
  ghost function CacheAfter(M: Model, caches: seq<Cache>, a: nat, n: nat, pos: Val, x: Val, m: Machine, q: nat): Cache
    requires a <= n <= 2 * |caches|
  {
    if a <= 2 * q < n then NextCache(M, q, Residual(M, caches, pos, x, a, 2 * q), pos, caches[q]) else CacheOf(m, q)
  }

  lemma {:induction false} BodyMeaning(M: Model, caches: seq<Cache>, a: nat, n: nat, m: Machine)
    requires a < n <= 2 * |caches|
    requires forall l: nat :: a <= 2 * l < n ==> CacheOf(m, l) == caches[l]
    ensures BodyDone(M, caches, a, n, m, Run(M, Body(M, a, n), m))
    decreases n
  {
    hide Run, Segment, Delta, NextCache;
    var s := n - 1;
    var before := Run(M, Body(M, a, s), m);
    RunAppend(M, Body(M, a, s), Segment(M, s, s == a), m);
    if s == a {
      RunNothing(M, m);
    } else {
      BodyMeaning(M, caches, a, s, m);
    }
    assert s % 2 == 0 ==> CacheOf(before, s / 2) == caches[s / 2];
    SegmentMeaning(M, s, s == a, before, caches[s / 2]);
    hide CacheOf;
  }

  // What a stage works on: its own embedding of the token, or what it received.
  function StageInput(M: Model, r: nat, m: Machine): Val {
    if r == 0 then M.sem("embedding", 0, XPipe, [m(TokenPipe)]) else m(XPipe)
  }

  lemma OpeningMeaning(M: Model, r: nat, m: Machine)
    ensures var m' := Run(M, Opening(r), m);
            m'(XPipe) == StageInput(M, r, m) && forall loc :: loc != XPipe ==> m'(loc) == m(loc)
  {
    if r == 0 {
      RunOne(M, Opening(r)[0], m);
      assert Opening(r) == [Opening(r)[0]];
      assert Values(m, [TokenPipe]) == [m(TokenPipe)];
    }
  }

  lemma BridgeMeaning(M: Model, m: Machine)
    ensures var m' := Run(M, Bridge(), m);
            m'(XPipe) == M.add(m(X), m(ZqPipe)) && forall q: nat :: CacheOf(m', q) == CacheOf(m, q)
  {
    hide Run;
    var a, b := MergeAdd("stage_bridge_merge_add", 0, ZqPipe, X), Copy("stage_bridge_cast_x", 0, X, XPipe);
    assert Bridge() == [a] + [b];
    RunAppend(M, [a], [b], m);
    RunOne(M, a, m);
    RunOne(M, b, Apply(M, a, m));
    hide CacheOf;
    forall q: nat
      ensures CacheOf(Run(M, Bridge(), m), q) == CacheOf(m, q)
    {
      BridgeKeepsCache(M, a, b, m, q);
    }
  }

  lemma BridgeKeepsCache(M: Model, a: Op, b: Op, m: Machine, q: nat)
    requires a.MergeAdd? && a.to == X && b.Copy? && b.to == XPipe
    ensures CacheOf(Apply(M, b, Apply(M, a, m)), q) == CacheOf(m, q)
  {
    forall loc | loc == K(q) || loc == V(q)
      ensures Apply(M, b, Apply(M, a, m))(loc) == m(loc)
    {
      assert !WritesLoc(a, loc) && !WritesLoc(b, loc);
      assert Apply(M, a, m)(loc) == m(loc);
    }
  }

  lemma FinalMeaning(M: Model, m: Machine)
    ensures var m' := Run(M, Closing(M, true), m);
            m'(LogitsPipe) == Head(M, M.add(m(X), m(ZqPipe))) && forall q: nat :: CacheOf(m', q) == CacheOf(m, q)
  {
    var a := MergeAdd("final_merge_add", 0, ZqPipe, X);
    RunOne(M, a, m);
    var m1 := Run(M, [a], m);
    assert m1(X) == M.add(m(X), m(ZqPipe)) && forall q: nat :: CacheOf(m1, q) == CacheOf(m, q);
    hide Run, FinalOps, Head, Apply;
    RunAppend(M, [a], FinalOps(M), m);
    HeadMeaning(M, m1);
    forall q: nat
      ensures CacheOf(Run(M, FinalOps(M), m1), q) == CacheOf(m1, q)
    {
      HeadFrame(M, m1, K(q));
      HeadFrame(M, m1, V(q));
    }
  }

  // What a stage hands on: the residual for the next stage, or the logits.
  function Output(M: Model, isLast: bool, m: Machine): Val {
    if isLast then m(LogitsPipe) else m(XPipe)
  }

  function Finish(M: Model, isLast: bool, x: Val): Val {
    if isLast then Head(M, x) else x
  }

  lemma ClosingMeaning(M: Model, isLast: bool, m: Machine)
    ensures var m' := Run(M, Closing(M, isLast), m);
            && Output(M, isLast, m') == Finish(M, isLast, M.add(m(X), m(ZqPipe)))
            && forall q: nat :: CacheOf(m', q) == CacheOf(m, q)
  {
    hide Run, FinalOps, Head;
    if isLast {
      FinalMeaning(M, m);
    } else {
      BridgeMeaning(M, m);
    }
  }

  lemma StageInThree(M: Model, cut: seq<nat>, r: nat, m: Machine)
    requires r + 1 < |cut|
    ensures Run(M, StageOps(M, cut, r), m) ==
            Run(M, Closing(M, r + 2 == |cut|), Run(M, Body(M, cut[r], cut[r + 1]), Run(M, Opening(r), m)))
  {
    hide Run, Opening, Closing, Body;
    var a, b, c := Opening(r), Body(M, cut[r], cut[r + 1]), Closing(M, r + 2 == |cut|);
    RunAppend(M, a, b + c, m);
    RunAppend(M, b, c, Run(M, a, m));
  }

  lemma SameCacheAfter(M: Model, caches: seq<Cache>, a: nat, n: nat, pos: Val, x: Val, m: Machine, m1: Machine)
    requires a <= n <= 2 * |caches| && forall l: nat :: CacheOf(m1, l) == CacheOf(m, l)
    ensures forall q: nat :: CacheAfter(M, caches, a, n, pos, x, m1, q) == CacheAfter(M, caches, a, n, pos, x, m, q)
  {
    hide CacheOf, NextCache, Residual;
  }

  /** A nonempty stage continues the residual over its own sub-blocks, whatever its buffers held
      before, and updates the caches of the attention sub-blocks it owns. */
  lemma StageMeaning(M: Model, cut: seq<nat>, r: nat, m: Machine, caches: seq<Cache>)
    requires r + 1 < |cut| && cut[r] < cut[r + 1] <= 2 * |caches|
    requires forall l: nat :: cut[r] <= 2 * l < cut[r + 1] ==> CacheOf(m, l) == caches[l]
    ensures var m' := Run(M, StageOps(M, cut, r), m);
            var x := StageInput(M, r, m);
            var isLast := r + 2 == |cut|;
            && Output(M, isLast, m') == Finish(M, isLast, Residual(M, caches, m(PositionPipe), x, cut[r], cut[r + 1]))
            && forall q: nat :: CacheOf(m', q) == CacheAfter(M, caches, cut[r], cut[r + 1], m(PositionPipe), x, m, q)
  {
    hide Run, Opening, Closing, Body, Delta, NextCache, Output, Finish, StageInput;
    var a, b := cut[r], cut[r + 1];
    StageInThree(M, cut, r, m);
    OpeningMeaning(M, r, m);
    var m1 := Run(M, Opening(r), m);
    assert forall l: nat :: CacheOf(m1, l) == CacheOf(m, l);
    BodyMeaning(M, caches, a, b, m1);
    SameCacheAfter(M, caches, a, b, m(PositionPipe), StageInput(M, r, m), m, m1);
    hide CacheOf, CacheAfter;
    var m2 := Run(M, Body(M, a, b), m1);
    ClosingMeaning(M, r + 2 == |cut|, m2);
  }

  // ---------------------------------------------------------------------------
  // One token through all stages
  // ---------------------------------------------------------------------------

  /** One forward pass: the token and its position. */
  datatype Token = Token(id: Val, position: Val)

  function LoadToken(m: Machine, id: Val, position: Val): Machine {
    (loc: Loc) => if loc == PositionPipe then position else if loc == TokenPipe then id else m(loc)
  }

  function LoadActivation(m: Machine, received: Val, position: Val): Machine {
    (loc: Loc) => if loc == PositionPipe then position else if loc == XPipe then received else m(loc)
  }

  // Before a stage runs, its position is set and its input delivered.
  function Load(r: nat, m: Machine, t: Token, received: Val): Machine {
    if r == 0 then LoadToken(m, t.id, t.position) else LoadActivation(m, received, t.position)
  }

  // What stage r receives, and the machine of stage r after it has run.
  function Received(M: Model, cut: seq<nat>, machines: seq<Machine>, t: Token, r: nat): Val
    requires r <= |machines| < |cut|
    decreases r, 0
  {
    if r == 0 then [] else After(M, cut, machines, t, r - 1)(XPipe)
  }

  function After(M: Model, cut: seq<nat>, machines: seq<Machine>, t: Token, r: nat): Machine
    requires r < |machines| < |cut|
    decreases r, 1
  {
    Run(M, StageOps(M, cut, r), Load(r, machines[r], t, Received(M, cut, machines, t, r)))
  }

  function AllAfter(M: Model, cut: seq<nat>, machines: seq<Machine>, t: Token): (out: seq<Machine>)
    requires |machines| < |cut|
    ensures |out| == |machines|
  {
    seq(|machines|, r requires 0 <= r < |machines| => After(M, cut, machines, t, r))
  }

  function Logits(M: Model, cut: seq<nat>, machines: seq<Machine>, t: Token): Val
    requires 1 <= |machines| < |cut|
  {
    After(M, cut, machines, t, |machines| - 1)(LogitsPipe)
  }

  // The uncut network.
  function Embedded(M: Model, t: Token): Val {
    M.sem("embedding", 0, XPipe, [t.id])
  }

  function UncutLogits(M: Model, caches: seq<Cache>, t: Token): Val {
    Head(M, Residual(M, caches, t.position, Embedded(M, t), 0, 2 * |caches|))
  }

  function UncutCaches(M: Model, caches: seq<Cache>, t: Token): (out: seq<Cache>)
    ensures |out| == |caches|
  {
    seq(|caches|, l requires 0 <= l < |caches| =>
      NextCache(M, l, Residual(M, caches, t.position, Embedded(M, t), 0, 2 * l), t.position, caches[l]))
  }

  // The stage that owns the attention of a layer holds the layer's caches.
  ghost predicate Holds(cut: seq<nat>, machines: seq<Machine>, caches: seq<Cache>) {
    && IsCut(cut, 2 * |caches|, |machines|)
    && forall r, l: nat :: 0 <= r < |machines| && cut[r] <= 2 * l < cut[r + 1] ==>
         l < |caches| && CacheOf(machines[r], l) == caches[l]
  }

  lemma {:induction false} CutBelow(cut: seq<nat>, nSub: nat, ppSize: nat, r: nat)
    requires IsCut(cut, nSub, ppSize) && r <= ppSize
    ensures cut[r] <= nSub
    decreases ppSize - r
  {
    if r < ppSize {
      CutBelow(cut, nSub, ppSize, r + 1);
    }
  }

  lemma LoadMeaning(M: Model, r: nat, m: Machine, t: Token, received: Val)
    ensures var m' := Load(r, m, t, received);
            && StageInput(M, r, m') == (if r == 0 then Embedded(M, t) else received)
            && m'(PositionPipe) == t.position
            && forall l: nat :: CacheOf(m', l) == CacheOf(m, l)
  {
  }

  lemma {:induction false} StageOnToken(M: Model, cut: seq<nat>, machines: seq<Machine>, caches: seq<Cache>, t: Token, r: nat)
    requires Holds(cut, machines, caches) && NoEmptyStage(cut) && r < |machines|
    ensures cut[r] <= cut[r + 1] <= 2 * |caches|
    ensures Output(M, r + 2 == |cut|, After(M, cut, machines, t, r)) ==
            Finish(M, r + 2 == |cut|, Residual(M, caches, t.position, Embedded(M, t), 0, cut[r + 1]))
    ensures forall l: nat :: cut[r] <= 2 * l < cut[r + 1] ==>
              l < |caches| && CacheOf(After(M, cut, machines, t, r), l) == UncutCaches(M, caches, t)[l]
    decreases r
  {
    hide Run, StageOps, Delta, NextCache, StageInput, CacheOf, Load, Head, Embedded;
    CutBelow(cut, 2 * |caches|, |machines|, r + 1);
    if r > 0 {
      StageOnToken(M, cut, machines, caches, t, r - 1);
    }
    var received := Received(M, cut, machines, t, r);
    var m := Load(r, machines[r], t, received);
    LoadMeaning(M, r, machines[r], t, received);
    StageMeaning(M, cut, r, m, caches);
    var x := Embedded(M, t);
    ResidualSplits(M, caches, t.position, x, 0, cut[r], cut[r + 1]);
    forall l: nat | cut[r] <= 2 * l < cut[r + 1]
      ensures l < |caches| && CacheOf(After(M, cut, machines, t, r), l) == UncutCaches(M, caches, t)[l]
    {
      ResidualSplits(M, caches, t.position, x, 0, cut[r], 2 * l);
    }
  }

  /** One token: the last stage's logits are those of the uncut network, and every stage ends up
      with the caches of the uncut network. */
  lemma OneToken(M: Model, cut: seq<nat>, machines: seq<Machine>, caches: seq<Cache>, t: Token)
    requires Holds(cut, machines, caches) && NoEmptyStage(cut) && |machines| >= 1
    ensures Logits(M, cut, machines, t) == UncutLogits(M, caches, t)
    ensures Holds(cut, AllAfter(M, cut, machines, t), UncutCaches(M, caches, t))
  {
    hide After, Residual, UncutCaches, CacheOf, Head, Embedded;
    StageOnToken(M, cut, machines, caches, t, |machines| - 1);
    var machines', caches' := AllAfter(M, cut, machines, t), UncutCaches(M, caches, t);
    forall r, l: nat | 0 <= r < |machines'| && cut[r] <= 2 * l < cut[r + 1]
      ensures l < |caches'| && CacheOf(machines'[r], l) == caches'[l]
    {
      StageOnToken(M, cut, machines, caches, t, r);
    }
  }

  function RunCut(M: Model, cut: seq<nat>, machines: seq<Machine>, ts: seq<Token>): seq<Val>
    requires 1 <= |machines| < |cut|
    decreases |ts|
  {
    if ts == [] then [] else [Logits(M, cut, machines, ts[0])] + RunCut(M, cut, AllAfter(M, cut, machines, ts[0]), ts[1..])
  }

  function RunUncut(M: Model, caches: seq<Cache>, ts: seq<Token>): seq<Val>
    decreases |ts|
  {
    if ts == [] then [] else [UncutLogits(M, caches, ts[0])] + RunUncut(M, UncutCaches(M, caches, ts[0]), ts[1..])
  }

  /** For every model and every cut without empty stages, over any number of tokens, the stages
      in order give the logits of the uncut network, bit for bit: nothing is assumed of the
      operations, not even that addition commutes. */
  lemma {:induction false} CutChangesNothing(M: Model, cut: seq<nat>, machines: seq<Machine>, caches: seq<Cache>, ts: seq<Token>)
    requires Holds(cut, machines, caches) && NoEmptyStage(cut) && |machines| >= 1
    ensures RunCut(M, cut, machines, ts) == RunUncut(M, caches, ts)
    decreases |ts|
  {
    hide Logits, UncutLogits, AllAfter, UncutCaches;
    if ts != [] {
      OneToken(M, cut, machines, caches, ts[0]);
      CutChangesNothing(M, cut, AllAfter(M, cut, machines, ts[0]), UncutCaches(M, caches, ts[0]), ts[1..]);
    }
  }

  // ---------------------------------------------------------------------------
  // Empty stages
  // ---------------------------------------------------------------------------

  // An empty stage adds up what its buffers held and ignores its input.
  lemma EmptyStageForgets(M: Model, cut: seq<nat>, r: nat, m: Machine)
    requires r + 1 < |cut| && cut[r] == cut[r + 1]
    ensures Output(M, r + 2 == |cut|, Run(M, StageOps(M, cut, r), m)) ==
            Finish(M, r + 2 == |cut|, M.add(m(X), m(ZqPipe)))
  {
    hide Run, Opening, Closing, Output, Finish, StageInput;
    StageInThree(M, cut, r, m);
    OpeningMeaning(M, r, m);
    var m1 := Run(M, Opening(r), m);
    assert Body(M, cut[r], cut[r + 1]) == [];
    RunNothing(M, m1);
    ClosingMeaning(M, r + 2 == |cut|, m1);
  }

  lemma LoadKeepsResidual(r: nat, m: Machine, t: Token, received: Val)
    ensures Load(r, m, t, received)(X) == m(X) && Load(r, m, t, received)(ZqPipe) == m(ZqPipe)
  {
  }

  // Once an empty stage lies behind, nothing depends on the token's identity.
  lemma {:induction false} InputLost(M: Model, cut: seq<nat>, machines: seq<Machine>, t: Token, t': Token, e: nat, r: nat)
    requires e <= r < |machines| && |cut| == |machines| + 1 && cut[e] == cut[e + 1] && t.position == t'.position
    ensures Output(M, r + 2 == |cut|, After(M, cut, machines, t, r)) == Output(M, r + 2 == |cut|, After(M, cut, machines, t', r))
    decreases r
  {
    hide Run, StageOps, Finish, LoadToken, LoadActivation;
    if e == r {
      LoadKeepsResidual(r, machines[r], t, Received(M, cut, machines, t, r));
      LoadKeepsResidual(r, machines[r], t', Received(M, cut, machines, t', r));
      EmptyStageForgets(M, cut, r, Load(r, machines[r], t, Received(M, cut, machines, t, r)));
      EmptyStageForgets(M, cut, r, Load(r, machines[r], t', Received(M, cut, machines, t', r)));
    } else {
      InputLost(M, cut, machines, t, t', e, r - 1);
    }
  }

  /** With an empty stage the logits do not depend on which token was fed: two tokens at the
      same position give the same logits. */
  lemma EmptyStageLosesToken(M: Model, cut: seq<nat>, machines: seq<Machine>, t: Token, t': Token)
    requires |machines| >= 1 && |cut| == |machines| + 1 && !NoEmptyStage(cut) && IsCut(cut, cut[|machines|], |machines|)
    requires t.position == t'.position
    ensures Logits(M, cut, machines, t) == Logits(M, cut, machines, t')
  {
    hide After;
    var e := FindEmptyStage(cut, |machines|);
    InputLost(M, cut, machines, t, t', e, |machines| - 1);
  }

  lemma FindEmptyStage(cut: seq<nat>, ppSize: nat) returns (e: nat)
    requires |cut| == ppSize + 1 && !NoEmptyStage(cut) && IsCut(cut, cut[ppSize], ppSize)
    ensures e < ppSize && cut[e] == cut[e + 1]
  {
    var r :| 0 <= r < |cut| - 1 && !(cut[r] < cut[r + 1]);
    e := r;
    assert cut[e] <= cut[e + 1];
  }

  // ---------------------------------------------------------------------------
  // The cut is invisible exactly when no stage is empty
  // ---------------------------------------------------------------------------

  /** A model whose operations hand on their first input and whose sub-blocks add nothing: its
      logits are the token. */
  function Echo(arch: ArchType, quantised: bool, fusedHead: bool): Model {
    Model(arch, quantised, fusedHead, (_, _, _, vals) => if |vals| > 0 then vals[0] else [], (a, _) => a)
  }

  lemma EchoHead(M: Model, x: Val)
    requires M == Echo(M.arch, M.quantised, M.fusedHead)
    ensures Head(M, x) == x
  {
  }

  lemma {:induction false} EchoResidual(M: Model, caches: seq<Cache>, pos: Val, x: Val, n: nat)
    requires M == Echo(M.arch, M.quantised, M.fusedHead) && n <= 2 * |caches|
    ensures Residual(M, caches, pos, x, 0, n) == x
  {
    hide Delta;
    if n > 0 {
      EchoResidual(M, caches, pos, x, n - 1);
    }
  }

  lemma EchoUncut(M: Model, caches: seq<Cache>, t: Token)
    requires M == Echo(M.arch, M.quantised, M.fusedHead)
    ensures UncutLogits(M, caches, t) == t.id
  {
    hide Head, Residual;
    assert Embedded(M, t) == t.id;
    EchoResidual(M, caches, t.position, t.id, 2 * |caches|);
    EchoHead(M, t.id);
  }

  /** Whatever the stages and caches hold, through a cut with an empty stage some token comes
      out wrong. */
  lemma SomeTokenDiffers(M: Model, cut: seq<nat>, machines: seq<Machine>, caches: seq<Cache>) returns (t: Token)
    requires M == Echo(M.arch, M.quantised, M.fusedHead)
    requires |machines| >= 1 && IsCut(cut, 2 * |caches|, |machines|) && !NoEmptyStage(cut)
    ensures Logits(M, cut, machines, t) != UncutLogits(M, caches, t)
  {
    hide Logits, UncutLogits;
    var a, b := Token([0.0], []), Token([1.0], []);
    EmptyStageLosesToken(M, cut, machines, a, b);
    EchoUncut(M, caches, a);
    EchoUncut(M, caches, b);
    assert a.id[0] != b.id[0];
    t := if Logits(M, cut, machines, a) != UncutLogits(M, caches, a) then a else b;
  }

  /** A cut computes what the uncut network computes, for every model and every run of tokens
      from matching caches, if and only if none of its stages is empty. */
  lemma CutInvisibleExactlyWhen(cut: seq<nat>, nLayers: nat, ppSize: nat)
    requires ppSize >= 1 && IsCut(cut, 2 * nLayers, ppSize)
    ensures NoEmptyStage(cut) <==>
            forall M: Model, machines: seq<Machine>, caches: seq<Cache>, ts: seq<Token> ::
              |machines| == ppSize && |caches| == nLayers && Holds(cut, machines, caches)
              ==> RunCut(M, cut, machines, ts) == RunUncut(M, caches, ts)
  {
    hide Holds, RunCut, RunUncut, NoEmptyStage, IsCut;
    CutSize(cut, 2 * nLayers, ppSize);
    if NoEmptyStage(cut) {
      forall M: Model, machines: seq<Machine>, caches: seq<Cache>, ts: seq<Token>
        | |machines| == ppSize && |caches| == nLayers && Holds(cut, machines, caches)
        ensures RunCut(M, cut, machines, ts) == RunUncut(M, caches, ts)
      {
        CutChangesNothing(M, cut, machines, caches, ts);
      }
    } else {
      var M := Echo(Llama, false, false);
      var machines, caches := FreshStages(cut, nLayers, ppSize);
      var t := SomeTokenDiffers(M, cut, machines, caches);
      OneTokenRun(M, cut, machines, caches, t);
      assert RunCut(M, cut, machines, [t]) != RunUncut(M, caches, [t]);
    }
  }

  lemma CutSize(cut: seq<nat>, nSub: nat, ppSize: nat)
    requires IsCut(cut, nSub, ppSize)
    ensures |cut| == ppSize + 1
  {
  }

  // Stages with empty buffers match empty caches.
  lemma FreshStages(cut: seq<nat>, nLayers: nat, ppSize: nat) returns (machines: seq<Machine>, caches: seq<Cache>)
    requires IsCut(cut, 2 * nLayers, ppSize)
    ensures |machines| == ppSize && |caches| == nLayers && Holds(cut, machines, caches)
  {
    machines, caches := seq(ppSize, _ => (_: Loc) => []), seq(nLayers, _ => Cache([], []));
    forall r, l: nat | 0 <= r < |machines| && cut[r] <= 2 * l < cut[r + 1]
      ensures l < |caches| && CacheOf(machines[r], l) == caches[l]
    {
      CutBelow(cut, 2 * nLayers, ppSize, r + 1);
    }
  }

  lemma OneTokenRun(M: Model, cut: seq<nat>, machines: seq<Machine>, caches: seq<Cache>, t: Token)
    requires 1 <= |machines| < |cut|
    ensures RunCut(M, cut, machines, [t]) == [Logits(M, cut, machines, t)]
    ensures RunUncut(M, caches, [t]) == [UncutLogits(M, caches, t)]
  {
    hide Logits, UncutLogits, AllAfter, UncutCaches;
    assert [t][1..] == [];
  }
}
