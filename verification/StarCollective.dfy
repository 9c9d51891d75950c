/** The messages of the star all-reduce: the first node of the group reads from all workers in
    whatever order they come, adds up, and unless told otherwise writes the sum back; no channel
    buffers anything. */
module StarCollective {
  import opened TensorParallel

  /** `nodes` nodes with buffers of `dim` values. */
  datatype Star = Star(nodes: nat, dim: nat, onlyToRoot: bool)

  datatype RootPc = Gathering | Broadcasting | RootDone

  datatype WorkerPc = Sending | Receiving | WorkerDone

  // Node 0 is the root; inbox[w] is worker w's part of the gather buffer.
  datatype State = State(root: RootPc, pcs: seq<WorkerPc>, bufs: seq<seq<real>>, inbox: seq<seq<real>>)

  datatype Action = Gather(w: nat) | Reduce | Broadcast(w: nat) | Finish

  predicate Shape(g: Star, s: State) {
    |s.pcs| == |s.bufs| == |s.inbox| == g.nodes >= 2
  }

  predicate AllWorkers(g: Star, s: State, pc: WorkerPc)
    requires Shape(g, s)
  {
    forall w :: 1 <= w < g.nodes ==> s.pcs[w] == pc
  }

  predicate NobodySends(g: Star, s: State)
    requires Shape(g, s)
  {
    forall w :: 1 <= w < g.nodes ==> s.pcs[w] != Sending
  }

  predicate Enabled(g: Star, s: State, a: Action) {
    Shape(g, s) &&
    match a
    case Gather(w) => 1 <= w < g.nodes && s.root == Gathering && s.pcs[w] == Sending
    case Reduce => s.root == Gathering && NobodySends(g, s)
    case Broadcast(w) => 1 <= w < g.nodes && s.root == Broadcasting && s.pcs[w] == Receiving
    case Finish => s.root == Broadcasting && AllWorkers(g, s, WorkerDone)
  }

  // The root's value i with the inboxes before k added in order.
  function AddedUp(buf: seq<real>, inbox: seq<seq<real>>, k: nat, i: nat): real {
    if k <= 1 then At(buf, i) else AddedUp(buf, inbox, k - 1, i) + At(if k - 1 < |inbox| then inbox[k - 1] else [], i)
  }

  function At(buf: seq<real>, i: nat): real {
    if i < |buf| then buf[i] else 0.0
  }

  function Apply(g: Star, s: State, a: Action): State
    requires Enabled(g, s, a)
  {
    match a
    case Gather(w) =>
      s.(inbox := s.inbox[w := s.bufs[w]], pcs := s.pcs[w := if g.onlyToRoot then WorkerDone else Receiving])
    case Reduce =>
      s.(bufs := s.bufs[0 := seq(g.dim, i requires 0 <= i < g.dim => AddedUp(s.bufs[0], s.inbox, g.nodes, i))],
         root := if g.onlyToRoot then RootDone else Broadcasting)
    case Broadcast(w) => s.(bufs := s.bufs[w := s.bufs[0]], pcs := s.pcs[w := WorkerDone])
    case Finish => s.(root := RootDone)
  }

  predicate Init(g: Star, before: seq<seq<real>>, s: State) {
    Shape(g, s) && s.bufs == before && Rectangular(before, g.dim) && s.root == Gathering && AllWorkers(g, s, Sending)
  }

  predicate Done(g: Star, s: State) {
    Shape(g, s) && s.root == RootDone && AllWorkers(g, s, WorkerDone)
  }

  // ---------------------------------------------------------------------------
  // Invariant
  // ---------------------------------------------------------------------------

  predicate IsTotal(g: Star, before: seq<seq<real>>, buf: seq<real>) {
    |buf| == g.dim && forall i :: 0 <= i < g.dim ==> buf[i] == Sum(Column(before, i), 0, g.nodes)
  }

  predicate WorkerOk(g: Star, before: seq<seq<real>>, s: State, w: nat)
    requires Shape(g, s) && |before| == g.nodes && 1 <= w < g.nodes
  {
    match s.pcs[w]
    case Sending => s.root == Gathering && s.bufs[w] == before[w]
    case Receiving => !g.onlyToRoot && s.root != RootDone && s.bufs[w] == before[w] && s.inbox[w] == before[w]
    case WorkerDone =>
      if g.onlyToRoot then s.bufs[w] == before[w] && s.inbox[w] == before[w]
      else s.root != Gathering && s.bufs[w] == s.bufs[0]
  }

  predicate RootOk(g: Star, before: seq<seq<real>>, s: State)
    requires Shape(g, s) && |before| == g.nodes
  {
    && (if s.root == Gathering then s.bufs[0] == before[0] else IsTotal(g, before, s.bufs[0]))
    && (s.root == Broadcasting ==> !g.onlyToRoot)
  }

  predicate Inv(g: Star, before: seq<seq<real>>, s: State) {
    && Shape(g, s) && |before| == g.nodes && Rectangular(before, g.dim) && RootOk(g, before, s)
    && forall w :: 1 <= w < g.nodes ==> WorkerOk(g, before, s, w)
  }

  lemma {:induction false} AddedUpIsSum(g: Star, before: seq<seq<real>>, inbox: seq<seq<real>>, k: nat, i: nat)
    requires |before| == |inbox| == g.nodes && Rectangular(before, g.dim) && 1 <= k <= g.nodes && i < g.dim
    requires forall w :: 1 <= w < g.nodes ==> inbox[w] == before[w]
    ensures AddedUp(before[0], inbox, k, i) == Sum(Column(before, i), 0, k)
  {
    if k > 1 {
      AddedUpIsSum(g, before, inbox, k - 1, i);
    } else {
      assert Sum(Column(before, i), 0, 0) == 0.0;
    }
  }

  lemma ReduceKeepsInv(g: Star, before: seq<seq<real>>, s: State)
    requires Inv(g, before, s) && Enabled(g, s, Reduce)
    ensures Inv(g, before, Apply(g, s, Reduce))
  {
    hide AddedUp, Sum;
    forall w | 1 <= w < g.nodes
      ensures s.inbox[w] == before[w] && s.bufs[w] == before[w]
    {
      assert WorkerOk(g, before, s, w);
    }
    forall i | 0 <= i < g.dim
      ensures AddedUp(s.bufs[0], s.inbox, g.nodes, i) == Sum(Column(before, i), 0, g.nodes)
    {
      AddedUpIsSum(g, before, s.inbox, g.nodes, i);
    }
    hide Column;
    forall w | 1 <= w < g.nodes
      ensures WorkerOk(g, before, Apply(g, s, Reduce), w)
    {
      assert WorkerOk(g, before, s, w);
    }
  }

  lemma ActionKeepsInv(g: Star, before: seq<seq<real>>, s: State, a: Action)
    requires Inv(g, before, s) && Enabled(g, s, a)
    ensures Inv(g, before, Apply(g, s, a))
  {
    hide IsTotal, AddedUp;
    if a == Reduce {
      ReduceKeepsInv(g, before, s);
    } else {
      forall w | 1 <= w < g.nodes
        ensures WorkerOk(g, before, Apply(g, s, a), w)
      {
        assert WorkerOk(g, before, s, w);
      }
    }
  }

  /** A run: any order in which sockets become ready. */
  ghost predicate Execution(g: Star, before: seq<seq<real>>, run: seq<State>, acts: seq<Action>) {
    && |run| == |acts| + 1 && |before| == g.nodes && Init(g, before, run[0])
    && forall i :: 0 <= i < |acts| ==> Enabled(g, run[i], acts[i]) && run[i + 1] == Apply(g, run[i], acts[i])
  }

  lemma {:induction false} Reachable(g: Star, before: seq<seq<real>>, run: seq<State>, acts: seq<Action>, i: nat)
    requires Execution(g, before, run, acts) && i < |run|
    ensures Inv(g, before, run[i])
  {
    if i == 0 {
    } else {
      hide Inv, Apply, Enabled, Init;
      Reachable(g, before, run, acts, i - 1);
      assert Enabled(g, run[i - 1], acts[i - 1]) && run[i - 1 + 1] == Apply(g, run[i - 1], acts[i - 1]);
      ActionKeepsInv(g, before, run[i - 1], acts[i - 1]);
    }
  }

  // ---------------------------------------------------------------------------
  // Progress
  // ---------------------------------------------------------------------------

  lemma RootEndsLast(g: Star, before: seq<seq<real>>, s: State)
    requires Inv(g, before, s) && s.root == RootDone
    ensures Done(g, s)
  {
    forall w | 1 <= w < g.nodes
      ensures s.pcs[w] == WorkerDone
    {
      assert WorkerOk(g, before, s, w);
    }
  }

  lemma CanMove(g: Star, before: seq<seq<real>>, s: State) returns (a: Action)
    requires Inv(g, before, s) && !Done(g, s)
    ensures Enabled(g, s, a)
  {
    hide IsTotal;
    if s.root == Gathering {
      if w :| 1 <= w < g.nodes && s.pcs[w] == Sending {
        a := Gather(w);
      } else {
        a := Reduce;
      }
    } else if s.root == Broadcasting {
      if w :| 1 <= w < g.nodes && s.pcs[w] != WorkerDone {
        assert WorkerOk(g, before, s, w);
        a := Broadcast(w);
      } else {
        a := Finish;
      }
    } else {
      RootEndsLast(g, before, s);
      assert false;
    }
  }

  /** Whatever order the sockets become ready in, some node can go on until all are done. */
  lemma NoDeadlock(g: Star, before: seq<seq<real>>, run: seq<State>, acts: seq<Action>, i: nat)
    requires Execution(g, before, run, acts) && i < |run| && !Done(g, run[i])
    ensures exists a: Action :: Enabled(g, run[i], a)
  {
    hide Inv, Enabled, Execution, Done;
    Reachable(g, before, run, acts, i);
    var a := CanMove(g, before, run[i]);
  }

  function WorkerLeft(pc: WorkerPc): nat {
    match pc
    case Sending => 2
    case Receiving => 1
    case WorkerDone => 0
  }

  function WorkersLeft(s: State, k: nat): nat
    requires k <= |s.pcs|
  {
    if k <= 1 then 0 else WorkersLeft(s, k - 1) + WorkerLeft(s.pcs[k - 1])
  }

  // Actions still to come, at most.
  function Budget(g: Star, s: State): nat
    requires Shape(g, s)
  {
    WorkersLeft(s, g.nodes) + match s.root case Gathering => 2 case Broadcasting => 1 case RootDone => 0
  }

  lemma {:induction false} WorkersChange(s: State, s': State, w: nat, k: nat)
    requires k <= |s.pcs| == |s'.pcs| && 1 <= w < |s.pcs| && s'.pcs == s.pcs[w := s'.pcs[w]]
    ensures WorkersLeft(s', k) == WorkersLeft(s, k) + if w < k then WorkerLeft(s'.pcs[w]) - WorkerLeft(s.pcs[w]) else 0
  {
    hide WorkerLeft;
    if k > 1 {
      WorkersChange(s, s', w, k - 1);
    }
  }

  /** Every action uses up a budget of two per node, so every run ends. */
  lemma EveryActionCounts(g: Star, s: State, a: Action)
    requires Enabled(g, s, a)
    ensures Shape(g, Apply(g, s, a)) && Budget(g, Apply(g, s, a)) < Budget(g, s)
  {
    hide WorkersLeft, AddedUp;
    var s' := Apply(g, s, a);
    WorkersChange(s, s', if a.Gather? || a.Broadcast? then a.w else 1, g.nodes);
  }

  // A run can be continued until all nodes are done.
  lemma {:induction false} Completed(g: Star, before: seq<seq<real>>, run: seq<State>, acts: seq<Action>)
      returns (whole: seq<State>, all: seq<Action>)
    requires Execution(g, before, run, acts)
    ensures Execution(g, before, whole, all) && Done(g, whole[|all|])
    decreases if |run| > 0 && Shape(g, run[|run| - 1]) then Budget(g, run[|run| - 1]) else 0
  {
    hide Inv, Enabled, Done, Apply, Budget, Shape, Init;
    var s := run[|acts|];
    Reachable(g, before, run, acts, |acts|);
    if Done(g, s) {
      whole, all := run, acts;
    } else {
      var a := CanMove(g, before, s);
      EveryActionCounts(g, s, a);
      InvShape(g, before, s);
      whole, all := Completed(g, before, run + [Apply(g, s, a)], acts + [a]);
    }
  }

  lemma InvShape(g: Star, before: seq<seq<real>>, s: State)
    requires Inv(g, before, s)
    ensures Shape(g, s)
  {
  }

  // ---------------------------------------------------------------------------
  // Result
  // ---------------------------------------------------------------------------

  /** At the end of every run the root holds the sum and the workers the same or, if only the root
      was to get it, what they had: what the all-reduce as one operation returns. A run to the
      end exists from all buffers. */
  lemma StarResult(g: Star, before: seq<seq<real>>, run: seq<State>, acts: seq<Action>, i: nat, w: nat)
    requires Execution(g, before, run, acts) && i < |run| && Done(g, run[i]) && w < g.nodes
    ensures |run[i].bufs[0]| == g.dim
    ensures forall c :: 0 <= c < g.dim ==> run[i].bufs[0][c] == Sum(Column(before, c), 0, g.nodes)
    ensures w > 0 ==> run[i].bufs[w] == if g.onlyToRoot then before[w] else run[i].bufs[0]
  {
    Reachable(g, before, run, acts, i);
    hide Execution, Sum, Column;
    if w > 0 {
      assert WorkerOk(g, before, run[i], w);
    }
  }

  lemma CompleteRunExists(g: Star, before: seq<seq<real>>) returns (run: seq<State>, acts: seq<Action>)
    requires g.nodes >= 2 && |before| == g.nodes && Rectangular(before, g.dim)
    ensures Execution(g, before, run, acts) && Done(g, run[|acts|])
  {
    var s := State(Gathering, seq(g.nodes, _ => Sending), before, before);
    assert Init(g, before, s);
    hide Init, Done;
    run, acts := Completed(g, before, [s], []);
  }
}
