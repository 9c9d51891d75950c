/** The ring loops over rendezvous channels: each of n nodes sends to its successor and
    receives from its predecessor, even nodes sending first and odd nodes receiving first.
    `reduceSteps` leading steps add what arrives, the remaining steps overwrite with it. One
    real stands for each slice; slices are added element by element. */
module RingCollective {

  /** ringAllGather is Ring(n, 0, n - 1); the reduce-scatter is Ring(n, n - 1, n - 1); both
      phases of the ring all-reduce are Ring(n, n - 1, 2 * n - 2). */
  datatype Ring = Ring(n: nat, reduceSteps: nat, steps: nat)

  predicate Valid(g: Ring) {
    && g.n >= 2
    && (g.reduceSteps == 0 || g.reduceSteps == g.n - 1)
    && (g.steps == g.reduceSteps || g.steps == g.reduceSteps + g.n - 1)
  }

  // First and Second are the two transfers of a step, Finish the local addition after them.
  datatype Phase = First | Second | Finish

  datatype Node = Node(step: nat, phase: Phase, buf: seq<real>, temp: real)

  type State = seq<Node>

  // ---------------------------------------------------------------------------
  // Indices
  // ---------------------------------------------------------------------------

  function NextOf(g: Ring, i: nat): (j: nat)
    requires Valid(g) && i < g.n
    ensures j < g.n && j == if i + 1 < g.n then i + 1 else 0
  {
    ModOnce(i + 1, g.n);
    (i + 1) % g.n
  }

  function PrevOf(g: Ring, i: nat): (j: nat)
    requires Valid(g) && i < g.n
    ensures j < g.n && j == if i > 0 then i - 1 else g.n - 1
  {
    ModOnce(i + g.n - 1, g.n);
    (i + g.n - 1) % g.n
  }

  lemma ModOnce(x: nat, n: nat)
    requires 0 < n && x < 2 * n
    ensures x % n == if x < n then x else x - n
  {
    if x >= n {
      assert x == 1 * n + (x - n);
      assert x / n == 1;
    }
  }

  // Position of a step inside its phase.
  function Offset(g: Ring, step: nat): nat {
    if step < g.reduceSteps then step else step - g.reduceSteps
  }

  function SendChunk(g: Ring, i: nat, step: nat): (c: nat)
    requires Valid(g) && i < g.n && step < g.steps
    ensures c < g.n && Dist(g, i, c) == Offset(g, step)
  {
    ModOnce(i - Offset(g, step) + g.n, g.n);
    (i - Offset(g, step) + g.n) % g.n
  }

  function RecvChunk(g: Ring, i: nat, step: nat): (c: nat)
    requires Valid(g) && i < g.n && step < g.steps
    ensures c < g.n && Dist(g, i, c) == Offset(g, step) + 1
  {
    ModOnce(i - Offset(g, step) - 1 + g.n, g.n);
    (i - Offset(g, step) - 1 + g.n) % g.n
  }

  // How many hops back from node i lies node c.
  function Dist(g: Ring, i: nat, c: nat): nat
    requires i < g.n && c < g.n
  {
    if i >= c then i - c else i - c + g.n
  }

  // ---------------------------------------------------------------------------
  // Transitions
  // ---------------------------------------------------------------------------

  predicate Shape(g: Ring, s: State) {
    |s| == g.n && forall i :: 0 <= i < g.n ==> |s[i].buf| == g.n
  }

  predicate WantsSend(g: Ring, i: nat, nd: Node) {
    nd.step < g.steps && nd.phase == if i % 2 == 0 then First else Second
  }

  predicate WantsRecv(g: Ring, i: nat, nd: Node) {
    nd.step < g.steps && nd.phase == if i % 2 == 0 then Second else First
  }

  function NextPhase(p: Phase): Phase {
    match p
    case First => Second
    case Second => Finish
    case Finish => First
  }

  predicate CanTransfer(g: Ring, s: State, i: nat)
    requires Valid(g) && Shape(g, s) && i < g.n
  {
    WantsSend(g, i, s[i]) && WantsRecv(g, NextOf(g, i), s[NextOf(g, i)])
  }

  // While reducing, what arrives goes to the temporary buffer; while gathering, in place.
  function Receive(g: Ring, j: nat, nd: Node, x: real): Node
    requires Valid(g) && j < g.n && nd.step < g.steps && |nd.buf| == g.n
  {
    if nd.step < g.reduceSteps then nd.(phase := NextPhase(nd.phase), temp := x)
    else nd.(phase := NextPhase(nd.phase), buf := nd.buf[RecvChunk(g, j, nd.step) := x])
  }

  /** The write of node i meets the read of its successor. */
  function Transfer(g: Ring, s: State, i: nat): State
    requires Valid(g) && Shape(g, s) && i < g.n && CanTransfer(g, s, i)
  {
    var j := NextOf(g, i);
    s[i := s[i].(phase := NextPhase(s[i].phase))]
     [j := Receive(g, j, s[j], s[i].buf[SendChunk(g, i, s[i].step)])]
  }

  predicate CanFinish(g: Ring, s: State, i: nat)
    requires Shape(g, s) && i < g.n
  {
    s[i].phase == Finish && s[i].step < g.steps
  }

  /** reduceSum of the temporary buffer, then on to the next step. */
  function FinishStep(g: Ring, s: State, i: nat): State
    requires Valid(g) && Shape(g, s) && i < g.n && CanFinish(g, s, i)
  {
    var nd := s[i];
    var c := RecvChunk(g, i, nd.step);
    s[i := nd.(step := nd.step + 1, phase := First,
               buf := if nd.step < g.reduceSteps then nd.buf[c := nd.buf[c] + nd.temp] else nd.buf)]
  }

  predicate Next(g: Ring, s: State, s': State)
    requires Valid(g) && Shape(g, s)
  {
    || (exists i :: 0 <= i < g.n && CanTransfer(g, s, i) && s' == Transfer(g, s, i))
    || (exists i :: 0 <= i < g.n && CanFinish(g, s, i) && s' == FinishStep(g, s, i))
  }

  predicate Done(g: Ring, s: State) {
    forall i :: 0 <= i < |s| ==> s[i].step == g.steps
  }

  // ---------------------------------------------------------------------------
  // What every buffer holds at every moment
  // ---------------------------------------------------------------------------

  predicate Square(g: Ring, x: seq<seq<real>>) {
    |x| == g.n && forall i :: 0 <= i < g.n ==> |x[i]| == g.n
  }

  /** Sum of chunk c over node i and the d nodes before it. */
  function Partial(g: Ring, x: seq<seq<real>>, i: nat, c: nat, d: nat): real
    requires Valid(g) && Square(g, x) && i < g.n && c < g.n
    decreases d
  {
    if d == 0 then x[i][c] else x[i][c] + Partial(g, x, PrevOf(g, i), c, d - 1)
  }

  // Chunk c of node i after r reducing steps.
  function Reduced(g: Ring, x: seq<seq<real>>, i: nat, c: nat, r: nat): real
    requires Valid(g) && Square(g, x) && i < g.n && c < g.n
  {
    if Dist(g, i, c) <= r then Partial(g, x, i, c, Dist(g, i, c)) else x[i][c]
  }

  /** Chunk c of node i after r steps of the ring in all. */
  function Held(g: Ring, x: seq<seq<real>>, i: nat, c: nat, r: nat): real
    requires Valid(g) && Square(g, x) && i < g.n && c < g.n
  {
    if r <= g.reduceSteps then Reduced(g, x, i, c, r)
    else if Dist(g, i, c) <= r - g.reduceSteps then x[c][c]
    else Reduced(g, x, i, c, g.reduceSteps)
  }

  function Sends(i: nat, nd: Node): nat {
    nd.step + if nd.phase == Finish || (i % 2 == 0 && nd.phase == Second) then 1 else 0
  }

  function Recvs(i: nat, nd: Node): nat {
    nd.step + if nd.phase == Finish || (i % 2 == 1 && nd.phase == Second) then 1 else 0
  }

  // Steps whose data is in the buffer.
  function Applied(g: Ring, i: nat, nd: Node): nat {
    if nd.step < g.reduceSteps then nd.step else Recvs(i, nd)
  }

  predicate NodeOk(g: Ring, x: seq<seq<real>>, s: State, i: nat)
    requires Valid(g) && Square(g, x) && Shape(g, s) && i < g.n
  {
    var nd := s[i];
    && nd.step <= g.steps && (nd.step == g.steps ==> nd.phase == First)
    && Recvs(i, nd) == Sends(PrevOf(g, i), s[PrevOf(g, i)])
    && (forall c :: 0 <= c < g.n ==> nd.buf[c] == Held(g, x, i, c, Applied(g, i, nd)))
    && (nd.step < g.reduceSteps && Recvs(i, nd) == nd.step + 1 ==>
          nd.temp == Partial(g, x, PrevOf(g, i), RecvChunk(g, i, nd.step), nd.step))
  }

  predicate Inv(g: Ring, x: seq<seq<real>>, s: State) {
    Valid(g) && Square(g, x) && Shape(g, s) && forall i :: 0 <= i < g.n ==> NodeOk(g, x, s, i)
  }

  predicate Init(g: Ring, x: seq<seq<real>>, s: State) {
    Valid(g) && Square(g, x) && |s| == g.n &&
    forall i :: 0 <= i < g.n ==> s[i].step == 0 && s[i].phase == First && s[i].buf == x[i]
  }

  lemma InitInv(g: Ring, x: seq<seq<real>>, s: State)
    requires Init(g, x, s)
    ensures Inv(g, x, s)
  {
    forall i, c | 0 <= i < g.n && 0 <= c < g.n
      ensures Held(g, x, i, c, 0) == x[i][c]
    {
      assert Dist(g, i, c) == 0 ==> i == c;
    }
  }

  // The value on the wire is what the sender has accumulated for that chunk.
  lemma SentValue(g: Ring, x: seq<seq<real>>, s: State, i: nat)
    requires Inv(g, x, s) && i < g.n && WantsSend(g, i, s[i])
    ensures var c := SendChunk(g, i, s[i].step);
            s[i].buf[c] == if s[i].step < g.reduceSteps then Partial(g, x, i, c, s[i].step) else x[c][c]
  {
    hide Partial;
    assert NodeOk(g, x, s, i);
    ReducedOwn(g, x, SendChunk(g, i, s[i].step), g.reduceSteps);
  }

  // A node never adds anything to its own chunk.
  lemma ReducedOwn(g: Ring, x: seq<seq<real>>, c: nat, r: nat)
    requires Valid(g) && Square(g, x) && c < g.n
    ensures Reduced(g, x, c, c, r) == x[c][c]
  {
  }

  lemma TransferKeepsReceiver(g: Ring, x: seq<seq<real>>, s: State, i: nat)
    requires Inv(g, x, s) && i < g.n && CanTransfer(g, s, i)
    ensures Shape(g, Transfer(g, s, i)) && NodeOk(g, x, Transfer(g, s, i), NextOf(g, i))
  {
    hide Partial, Reduced, SendChunk, RecvChunk, NextOf, PrevOf;
    var j := NextOf(g, i);
    var s' := Transfer(g, s, i);
    assert PrevOf(g, j) == i;
    assert NodeOk(g, x, s, j) && NodeOk(g, x, s, i);
    assert s[j].step == s[i].step;
    var q := s[i].step;
    SentValue(g, x, s, i);
    SameChunk(g, i, j, q);
    var cr := RecvChunk(g, j, q);
    forall c | 0 <= c < g.n
      ensures s'[j].buf[c] == Held(g, x, j, c, Applied(g, j, s'[j]))
    {
      ReducedOwn(g, x, c, g.reduceSteps);
      if c != cr {
        DistInjective(g, j, c, cr);
      }
    }
  }

  lemma SameChunk(g: Ring, i: nat, j: nat, step: nat)
    requires Valid(g) && i < g.n && j == NextOf(g, i) && step < g.steps
    ensures RecvChunk(g, j, step) == SendChunk(g, i, step)
  {
  }

  lemma DistInjective(g: Ring, i: nat, c: nat, d: nat)
    requires i < g.n && c < g.n && d < g.n && c != d
    ensures Dist(g, i, c) != Dist(g, i, d)
  {
  }

  // Nothing a third node relies on changes, except what it sent or received itself.
  lemma TransferCounts(g: Ring, s: State, i: nat, k: nat)
    requires Valid(g) && Shape(g, s) && i < g.n && k < g.n && CanTransfer(g, s, i)
    ensures Shape(g, Transfer(g, s, i))
    ensures k != i ==> Sends(k, Transfer(g, s, i)[k]) == Sends(k, s[k])
    ensures k != NextOf(g, i) ==> Recvs(k, Transfer(g, s, i)[k]) == Recvs(k, s[k])
    ensures Transfer(g, s, i)[k].step == s[k].step
    ensures k != NextOf(g, i) ==> Transfer(g, s, i)[k].buf == s[k].buf && Transfer(g, s, i)[k].temp == s[k].temp
  {
    hide SendChunk, RecvChunk, NextOf;
  }

  lemma TransferKeepsOthers(g: Ring, x: seq<seq<real>>, s: State, i: nat, k: nat)
    requires Inv(g, x, s) && i < g.n && k < g.n && k != NextOf(g, i) && CanTransfer(g, s, i)
    ensures Shape(g, Transfer(g, s, i)) && NodeOk(g, x, Transfer(g, s, i), k)
  {
    hide Partial, Held, SendChunk, RecvChunk, PrevOf, NextOf, Sends, Recvs, Transfer, CanTransfer;
    assert NodeOk(g, x, s, k);
    TransferCounts(g, s, i, k);
    TransferCounts(g, s, i, PrevOf(g, k));
    assert Transfer(g, s, i)[k].step == g.steps ==> Transfer(g, s, i)[k].phase == First by {
      FinalStaysFirst(g, s, i, k);
    }
  }

  lemma FinalStaysFirst(g: Ring, s: State, i: nat, k: nat)
    requires Valid(g) && Shape(g, s) && i < g.n && k < g.n && CanTransfer(g, s, i)
    requires s[k].step == g.steps ==> s[k].phase == First
    ensures Transfer(g, s, i)[k].step == g.steps ==> Transfer(g, s, i)[k].phase == First
  {
    hide SendChunk, RecvChunk, NextOf;
  }

  lemma TransferKeepsInv(g: Ring, x: seq<seq<real>>, s: State, i: nat)
    requires Inv(g, x, s) && i < g.n && CanTransfer(g, s, i)
    ensures Inv(g, x, Transfer(g, s, i))
  {
    hide NodeOk, Transfer, CanTransfer;
    TransferKeepsReceiver(g, x, s, i);
    forall k | 0 <= k < g.n
      ensures NodeOk(g, x, Transfer(g, s, i), k)
    {
      if k != NextOf(g, i) {
        TransferKeepsOthers(g, x, s, i, k);
      }
    }
  }

  lemma FinishKeepsOwner(g: Ring, x: seq<seq<real>>, s: State, i: nat)
    requires Inv(g, x, s) && i < g.n && CanFinish(g, s, i)
    ensures Shape(g, FinishStep(g, s, i)) && NodeOk(g, x, FinishStep(g, s, i), i)
  {
    hide PrevOf, NextOf, RecvChunk;
    var s' := FinishStep(g, s, i);
    assert NodeOk(g, x, s, i);
    assert PrevOf(g, i) != i;
    var q := s[i].step;
    var cr := RecvChunk(g, i, q);
    forall c | 0 <= c < g.n
      ensures s'[i].buf[c] == Held(g, x, i, c, Applied(g, i, s'[i]))
    {
      if c != cr {
        DistInjective(g, i, c, cr);
      }
    }
  }

  lemma FinishKeepsInv(g: Ring, x: seq<seq<real>>, s: State, i: nat)
    requires Inv(g, x, s) && i < g.n && CanFinish(g, s, i)
    ensures Inv(g, x, FinishStep(g, s, i))
  {
    FinishKeepsOwner(g, x, s, i);
    hide Partial, Held, RecvChunk;
    forall k | 0 <= k < g.n
      ensures NodeOk(g, x, FinishStep(g, s, i), k)
    {
      assert NodeOk(g, x, s, k);
    }
  }

  lemma NextKeepsInv(g: Ring, x: seq<seq<real>>, s: State, s': State)
    requires Inv(g, x, s) && Next(g, s, s')
    ensures Inv(g, x, s')
  {
    hide NodeOk, Transfer, CanTransfer, FinishStep, CanFinish;
    if i :| 0 <= i < g.n && CanTransfer(g, s, i) && s' == Transfer(g, s, i) {
      TransferKeepsInv(g, x, s, i);
    } else {
      var i :| 0 <= i < g.n && CanFinish(g, s, i) && s' == FinishStep(g, s, i);
      FinishKeepsInv(g, x, s, i);
    }
  }

  ghost predicate Execution(g: Ring, x: seq<seq<real>>, run: seq<State>) {
    && |run| > 0 && Init(g, x, run[0])
    && forall k :: 0 <= k < |run| - 1 ==> Shape(g, run[k]) && Next(g, run[k], run[k + 1])
  }

  lemma {:induction false} Reachable(g: Ring, x: seq<seq<real>>, run: seq<State>, k: nat)
    requires Execution(g, x, run) && k < |run|
    ensures Inv(g, x, run[k])
  {
    hide Inv, Next;
    if k == 0 {
      InitInv(g, x, run[0]);
    } else {
      Reachable(g, x, run, k - 1);
      assert Next(g, run[k - 1], run[k - 1 + 1]);
      NextKeepsInv(g, x, run[k - 1], run[k]);
    }
  }

  // ---------------------------------------------------------------------------
  // No deadlock
  // ---------------------------------------------------------------------------

  ghost predicate CanMove(g: Ring, s: State)
    requires Valid(g) && Shape(g, s)
  {
    exists i :: 0 <= i < g.n && (CanTransfer(g, s, i) || CanFinish(g, s, i))
  }

  // Nobody has sent less than m.
  predicate Floor(g: Ring, s: State, m: nat)
    requires Shape(g, s)
  {
    forall i :: 0 <= i < g.n ==> Sends(i, s[i]) >= m
  }

  lemma {:induction false} LeastSender(g: Ring, s: State, k: nat) returns (i: nat)
    requires Shape(g, s) && 0 < k <= g.n
    ensures i < k && forall j :: 0 <= j < k ==> Sends(i, s[i]) <= Sends(j, s[j])
  {
    if k == 1 {
      i := 0;
    } else {
      i := LeastSender(g, s, k - 1);
      if Sends(k - 1, s[k - 1]) < Sends(i, s[i]) {
        i := k - 1;
      }
    }
  }

  // A node between its transfers, with its counters relative to its predecessor.
  lemma Local(g: Ring, x: seq<seq<real>>, s: State, i: nat)
    requires Inv(g, x, s) && i < g.n && s[i].phase != Finish
    ensures Recvs(i, s[i]) == Sends(PrevOf(g, i), s[PrevOf(g, i)])
    ensures i % 2 == 0 ==> if s[i].phase == First then Sends(i, s[i]) == Recvs(i, s[i]) == s[i].step
                           else Sends(i, s[i]) == s[i].step + 1 && Recvs(i, s[i]) == s[i].step
    ensures i % 2 == 1 ==> if s[i].phase == First then Sends(i, s[i]) == Recvs(i, s[i]) == s[i].step
                           else Recvs(i, s[i]) == s[i].step + 1 && Sends(i, s[i]) == s[i].step
  {
    hide Held, Partial;
    assert NodeOk(g, x, s, i);
  }

  // An even node at its first transfer that has sent no more than anybody can be served, or
  // its successor can.
  lemma EvenSender(g: Ring, x: seq<seq<real>>, s: State, i: nat, m: nat)
    requires Inv(g, x, s) && i < g.n && m < g.steps && Floor(g, s, m)
    requires forall k :: 0 <= k < g.n ==> s[k].phase != Finish
    requires i % 2 == 0 && s[i].phase == First && Sends(i, s[i]) == m
    ensures CanMove(g, s)
  {
    hide NodeOk, Sends, Recvs, PrevOf, NextOf;
    var j := NextOf(g, i);
    assert PrevOf(g, j) == i;
    Local(g, x, s, i);
    Local(g, x, s, j);
    if j % 2 == 1 || s[j].phase == Second {
      assert CanTransfer(g, s, i);
    } else {
      assert i == g.n - 1 && j == 0;
      var k := NextOf(g, j);
      assert PrevOf(g, k) == j && k == 1;
      Local(g, x, s, k);
      assert CanTransfer(g, s, j);
    }
  }

  lemma OddNode(g: Ring, x: seq<seq<real>>, s: State, i: nat, m: nat)
    requires Inv(g, x, s) && i < g.n && m < g.steps && Floor(g, s, m)
    requires forall k :: 0 <= k < g.n ==> s[k].phase != Finish
    requires i % 2 == 1 && Sends(i, s[i]) == m
    ensures CanMove(g, s)
  {
    hide NodeOk, Sends, Recvs, PrevOf, NextOf;
    Local(g, x, s, i);
    if s[i].phase == First {
      var p := PrevOf(g, i);
      Local(g, x, s, p);
      assert p % 2 == 0 && Sends(p, s[p]) == m;
      assert Sends(PrevOf(g, p), s[PrevOf(g, p)]) >= m;
      EvenSender(g, x, s, p, m);
    } else {
      var j := NextOf(g, i);
      assert PrevOf(g, j) == i && j % 2 == 0;
      Local(g, x, s, j);
      if s[j].phase == Second {
        assert CanTransfer(g, s, i);
      } else {
        EvenSender(g, x, s, j, m);
      }
    }
  }

  /** In every reachable state that is not final some transfer or local step is possible,
      although no channel buffers anything. */
  lemma NoDeadlock(g: Ring, x: seq<seq<real>>, run: seq<State>, k: nat)
    requires Execution(g, x, run) && k < |run| && !Done(g, run[k])
    ensures Valid(g) && Shape(g, run[k]) && CanMove(g, run[k])
  {
    var s := run[k];
    Reachable(g, x, run, k);
    hide Execution, NodeOk;
    if i :| 0 <= i < g.n && s[i].phase == Finish {
      FinishPossible(g, x, s, i);
    } else {
      var i := LeastSender(g, s, g.n);
      var m := Sends(i, s[i]);
      Unfinished(g, x, s, m);
      if i % 2 == 1 {
        OddNode(g, x, s, i, m);
      } else {
        Local(g, x, s, i);
        assert Sends(PrevOf(g, i), s[PrevOf(g, i)]) >= m;
        EvenSender(g, x, s, i, m);
      }
    }
  }

  lemma FinishPossible(g: Ring, x: seq<seq<real>>, s: State, i: nat)
    requires Inv(g, x, s) && i < g.n && s[i].phase == Finish
    ensures CanMove(g, s)
  {
    hide Held, Partial;
    assert NodeOk(g, x, s, i);
    assert CanFinish(g, s, i);
  }

  lemma Unfinished(g: Ring, x: seq<seq<real>>, s: State, m: nat)
    requires Inv(g, x, s) && !Done(g, s) && Floor(g, s, m)
    requires forall k :: 0 <= k < g.n ==> s[k].phase != Finish
    ensures m < g.steps
  {
    hide Held, Partial, PrevOf;
    var i :| 0 <= i < g.n && s[i].step != g.steps;
    assert NodeOk(g, x, s, i);
    var p := PrevOf(g, i);
    assert Sends(i, s[i]) >= m && Sends(p, s[p]) >= m;
  }

  // Transfers and local steps still to come.
  function Budget(g: Ring, s: State, k: nat): int
    requires Shape(g, s) && k <= g.n
  {
    if k == 0 then 0
    else Budget(g, s, k - 1) + 3 * (g.steps - s[k - 1].step) -
         (match s[k - 1].phase case First => 0 case Second => 1 case Finish => 2)
  }

  // Stays, performs a transfer, or finishes its step.
  predicate Moves(a: Node, b: Node) {
    if a.phase == b.phase then a.step == b.step
    else b.phase == NextPhase(a.phase) && b.step == if a.phase == Finish then a.step + 1 else a.step
  }

  lemma {:induction false} BudgetChange(g: Ring, s: State, s': State, k: nat)
    requires Shape(g, s) && Shape(g, s') && k <= g.n
    requires forall i :: 0 <= i < g.n ==> Moves(s[i], s'[i])
    ensures Budget(g, s', k) <= Budget(g, s, k)
    ensures (exists i :: 0 <= i < k && s'[i].phase != s[i].phase) ==> Budget(g, s', k) < Budget(g, s, k)
  {
    if k > 0 {
      BudgetChange(g, s, s', k - 1);
    }
  }

  /** Every action uses up budget, so every schedule reaches the final state. */
  lemma EveryActionCounts(g: Ring, s: State, s': State)
    requires Valid(g) && Shape(g, s) && Next(g, s, s')
    ensures Shape(g, s') && Budget(g, s', g.n) < Budget(g, s, g.n)
  {
    hide Shape, CanTransfer, CanFinish, Transfer, FinishStep, Budget;
    if i :| 0 <= i < g.n && CanTransfer(g, s, i) && s' == Transfer(g, s, i) {
      TransferMoves(g, s, i);
    } else {
      var i :| 0 <= i < g.n && CanFinish(g, s, i) && s' == FinishStep(g, s, i);
      FinishMoves(g, s, i);
    }
    BudgetChange(g, s, s', g.n);
  }

  lemma TransferMoves(g: Ring, s: State, i: nat)
    requires Valid(g) && Shape(g, s) && i < g.n && CanTransfer(g, s, i)
    ensures var s' := Transfer(g, s, i);
            Shape(g, s') && (forall k :: 0 <= k < g.n ==> Moves(s[k], s'[k])) && s'[i].phase != s[i].phase
  {
    hide RecvChunk, SendChunk, PrevOf;
  }

  lemma FinishMoves(g: Ring, s: State, i: nat)
    requires Valid(g) && Shape(g, s) && i < g.n && CanFinish(g, s, i)
    ensures var s' := FinishStep(g, s, i);
            Shape(g, s') && (forall k :: 0 <= k < g.n ==> Moves(s[k], s'[k])) && s'[i].phase != s[i].phase
  {
    hide RecvChunk, SendChunk, PrevOf, NextOf;
  }

  lemma {:induction false} BudgetNonNegative(g: Ring, x: seq<seq<real>>, s: State, k: nat)
    requires Inv(g, x, s) && k <= g.n
    ensures Budget(g, s, k) >= 0
  {
    hide Held, Partial;
    if k > 0 {
      BudgetNonNegative(g, x, s, k - 1);
      assert NodeOk(g, x, s, k - 1);
    }
  }

  lemma InvShape(g: Ring, x: seq<seq<real>>, s: State)
    requires Inv(g, x, s)
    ensures Valid(g) && Shape(g, s)
  {
  }

  lemma Step(g: Ring, s: State) returns (s': State)
    requires Valid(g) && Shape(g, s) && CanMove(g, s)
    ensures Next(g, s, s')
  {
    hide Transfer, CanTransfer, FinishStep, CanFinish, Shape;
    var i: nat :| i < g.n && (CanTransfer(g, s, i) || CanFinish(g, s, i));
    if CanTransfer(g, s, i) {
      s' := Transfer(g, s, i);
    } else {
      s' := FinishStep(g, s, i);
    }
  }

  lemma Extends(g: Ring, x: seq<seq<real>>, run: seq<State>, s': State)
    requires Execution(g, x, run) && Valid(g) && Shape(g, run[|run| - 1]) && Next(g, run[|run| - 1], s')
    ensures Execution(g, x, run + [s'])
  {
    hide Next, Shape, Init;
  }

  // A run can be continued until all steps are over.
  lemma {:induction false} Completed(g: Ring, x: seq<seq<real>>, run: seq<State>) returns (whole: seq<State>)
    requires Execution(g, x, run)
    ensures Execution(g, x, whole) && Done(g, whole[|whole| - 1])
    decreases if |run| > 0 && Shape(g, run[|run| - 1]) then Budget(g, run[|run| - 1], g.n) else 0
  {
    hide Inv, Budget, CanMove, Done, Next, Shape, Init;
    var n := |run| - 1;
    var s := run[n];
    Reachable(g, x, run, n);
    InvShape(g, x, s);
    if Done(g, s) {
      whole := run;
    } else {
      NoDeadlock(g, x, run, n);
      var s' := Step(g, s);
      EveryActionCounts(g, s, s');
      BudgetNonNegative(g, x, s, g.n);
      Extends(g, x, run, s');
      whole := Completed(g, x, run + [s']);
    }
  }

  /** A complete run exists, whatever the nodes hold. */
  lemma CompleteRunExists(g: Ring, x: seq<seq<real>>) returns (run: seq<State>)
    requires Valid(g) && Square(g, x)
    ensures Execution(g, x, run) && Done(g, run[|run| - 1])
  {
    var s := seq(g.n, i requires 0 <= i < g.n => Node(0, First, x[i], 0.0));
    assert Init(g, x, s);
    hide Init, Done;
    run := Completed(g, x, [s]);
  }

  // ---------------------------------------------------------------------------
  // Results
  // ---------------------------------------------------------------------------

  lemma DoneHolds(g: Ring, x: seq<seq<real>>, run: seq<State>, k: nat, i: nat, c: nat)
    requires Execution(g, x, run) && k < |run| && Done(g, run[k]) && i < g.n && c < g.n
    ensures Valid(g) && Square(g, x) && Shape(g, run[k]) && run[k][i].buf[c] == Held(g, x, i, c, g.steps)
  {
    Reachable(g, x, run, k);
    hide Held;
    assert NodeOk(g, x, run[k], i);
  }

  // Sum of chunk c over nodes [0, k).
  function Total(x: seq<seq<real>>, c: nat, k: nat): real
    requires k <= |x| && forall i :: 0 <= i < |x| ==> c < |x[i]|
  {
    if k == 0 then 0.0 else Total(x, c, k - 1) + x[k - 1][c]
  }

  lemma {:induction false} PartialIsRange(g: Ring, x: seq<seq<real>>, i: nat, c: nat, d: nat)
    requires Valid(g) && Square(g, x) && i < g.n && c < g.n && d < g.n
    ensures d <= i ==> Partial(g, x, i, c, d) == Total(x, c, i + 1) - Total(x, c, i - d)
    ensures d > i ==> Partial(g, x, i, c, d) == Total(x, c, i + 1) + Total(x, c, g.n) - Total(x, c, i + g.n - d)
    decreases d
  {
    hide PrevOf;
    if d > 0 {
      PartialIsRange(g, x, PrevOf(g, i), c, d - 1);
    }
  }

  /** After the reduce-scatter node i holds the sum over all nodes of chunk i + 1. */
  lemma ReduceScatterResult(g: Ring, x: seq<seq<real>>, run: seq<State>, k: nat, i: nat)
    requires Execution(g, x, run) && k < |run| && Done(g, run[k]) && i < g.n
    requires g.reduceSteps == g.n - 1 == g.steps
    ensures Valid(g) && Square(g, x) && Shape(g, run[k])
    ensures run[k][i].buf[NextOf(g, i)] == Total(x, NextOf(g, i), g.n)
  {
    hide Execution, Done, Inv;
    assert Valid(g) by { DoneHolds(g, x, run, k, i, i); }
    var c := NextOf(g, i);
    DoneHolds(g, x, run, k, i, c);
    PartialIsRange(g, x, i, c, g.n - 1);
  }

  /** After the all-gather every node holds, as chunk c, what node c held in it at the start. */
  lemma AllGatherResult(g: Ring, x: seq<seq<real>>, run: seq<State>, k: nat, i: nat, c: nat)
    requires Execution(g, x, run) && k < |run| && Done(g, run[k]) && i < g.n && c < g.n
    requires g.reduceSteps == 0 && g.steps == g.n - 1
    ensures Valid(g) && Square(g, x) && Shape(g, run[k]) && run[k][i].buf[c] == x[c][c]
  {
    hide Execution, Done;
    DoneHolds(g, x, run, k, i, c);
  }

  /** The two phases in a row, as the all-reduce runs them, spread each node's own unreduced
      chunk: the gather starts at chunk i, but the reduce-scatter completed chunk i + 1. */
  lemma AllReduceResult(g: Ring, x: seq<seq<real>>, run: seq<State>, k: nat, i: nat, c: nat)
    requires Execution(g, x, run) && k < |run| && Done(g, run[k]) && i < g.n && c < g.n
    requires g.reduceSteps == g.n - 1 && g.steps == 2 * g.n - 2
    ensures Valid(g) && Square(g, x) && Shape(g, run[k]) && run[k][i].buf[c] == x[c][c]
  {
    hide Execution, Done;
    DoneHolds(g, x, run, k, i, c);
  }

  // Sum of chunk c over all nodes but c.
  function Others(x: seq<seq<real>>, c: nat, k: nat): real
    requires k <= |x| && forall i :: 0 <= i < |x| ==> c < |x[i]|
  {
    if k == 0 then 0.0 else Others(x, c, k - 1) + if k - 1 == c then 0.0 else x[k - 1][c]
  }

  lemma {:induction false} TotalSplits(x: seq<seq<real>>, c: nat, k: nat)
    requires k <= |x| && forall i :: 0 <= i < |x| ==> c < |x[i]|
    ensures Total(x, c, k) == Others(x, c, k) + if c < k then x[c][c] else 0.0
  {
    if k > 0 {
      TotalSplits(x, c, k - 1);
    }
  }

  /** The ring all-reduce as coded yields the sum in chunk c exactly when the contributions
      of all nodes other than c to that chunk cancel. */
  lemma AllReduceIsSumExactlyWhen(g: Ring, x: seq<seq<real>>, run: seq<State>, k: nat, i: nat, c: nat)
    requires Execution(g, x, run) && k < |run| && Done(g, run[k]) && i < g.n && c < g.n
    requires g.reduceSteps == g.n - 1 && g.steps == 2 * g.n - 2
    ensures Valid(g) && Square(g, x) && Shape(g, run[k])
    ensures run[k][i].buf[c] == Total(x, c, g.n) <==> Others(x, c, g.n) == 0.0
  {
    hide Execution, Done;
    AllReduceResult(g, x, run, k, i, c);
    TotalSplits(x, c, g.n);
  }

  /** Two nodes, all inputs one: the star all-reduce leaves 2, the ring runs to its end and
      leaves 1. */
  lemma AllReduceCounterexample() returns (run: seq<State>, k: nat)
    ensures Execution(Ring(2, 1, 2), [[1.0, 1.0], [1.0, 1.0]], run) && k < |run| && Done(Ring(2, 1, 2), run[k])
    ensures Shape(Ring(2, 1, 2), run[k]) && run[k][0].buf[0] == 1.0 != Total([[1.0, 1.0], [1.0, 1.0]], 0, 2)
  {
    var x := [[1.0, 1.0], [1.0, 1.0]];
    assert Total(x, 0, 1) == 1.0;
    hide Execution, Done;
    run := CompleteRunExists(Ring(2, 1, 2), x);
    NonemptyRun(Ring(2, 1, 2), x, run);
    k := |run| - 1;
    AllReduceResult(Ring(2, 1, 2), x, run, k, 0, 0);
  }

  lemma NonemptyRun(g: Ring, x: seq<seq<real>>, run: seq<State>)
    requires Execution(g, x, run)
    ensures |run| > 0
  {
  }
}
