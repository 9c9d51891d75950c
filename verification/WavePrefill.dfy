/** Wave prefill: the root pushes chunk after chunk into a pipeline of stages without waiting
    for results. Control packets and activations travel in first-in first-out channels of
    bounded capacity; the channel from the root to stage 1 carries both. */
module WavePrefill {
  import opened Arithmetic
  import opened Channels
  import opened PrefillSchedule

  // Activations, logits and the key/value state of a stage are rows of numbers.
  type Rows = seq<seq<real>>

  datatype Message =
    | Ctrl(position: nat, batch: nat, last: bool)
    | Act(position: nat, rows: Rows)

  /** Stage k turns its state and the incoming rows of a chunk into its next state and the
      outgoing rows: step(k, state, position, batch, rows). */
  datatype Pipeline = Pipeline(stages: nat, capacity: nat, chunks: seq<Chunk>, embed: seq<int> -> Rows,
                               start: seq<Rows>, step: (nat, Rows, nat, nat, Rows) -> (Rows, Rows))

  // In wave mode exactly the last chunk is flagged.
  ghost predicate Valid(p: Pipeline) {
    p.stages >= 2 && p.capacity >= 1 && |p.start| == p.stages && Flagged(p.chunks, true, true)
  }

  // ---------------------------------------------------------------------------
  // One chunk at a time: the meaning of a prefill
  // ---------------------------------------------------------------------------

  /** State of stage k after the first j chunks. */
  function StateAfter(p: Pipeline, k: nat, j: nat): Rows
    requires k < |p.start| && j <= |p.chunks|
    decreases j, 0, 0
  {
    if j == 0 then p.start[k]
    else Step(p, k, j - 1).0
  }

  function Input(p: Pipeline, k: nat, j: nat): Rows
    requires k < |p.start| && j < |p.chunks|
    decreases j, k + 1, 0
  {
    if k == 0 then p.embed(p.chunks[j].tokens) else Step(p, k - 1, j).1
  }

  // Stage k at chunk j.
  function Step(p: Pipeline, k: nat, j: nat): (Rows, Rows)
    requires k < |p.start| && j < |p.chunks|
    decreases j, k + 1, 1
  {
    p.step(k, StateAfter(p, k, j), p.chunks[j].position, |p.chunks[j].tokens|, Input(p, k, j))
  }

  // Of a chunk of several rows only the last one's logits are sent.
  function Logits(batch: nat, rows: Rows): Rows {
    if batch > 1 && |rows| == batch then [rows[batch - 1]] else rows
  }

  function FinalLogits(p: Pipeline): Rows
    requires |p.start| >= 1 && p.chunks != []
  {
    var m := |p.chunks| - 1;
    Logits(|p.chunks[m].tokens|, Step(p, |p.start| - 1, m).1)
  }

  /** The blocking path: every chunk passes through all stages before the next one starts. */
  method SequentialPrefill(p: Pipeline) returns (states: seq<Rows>, logits: Rows)
    requires Valid(p)
    ensures |states| == p.stages && forall k :: 0 <= k < p.stages ==> states[k] == StateAfter(p, k, |p.chunks|)
    ensures p.chunks != [] ==> logits == FinalLogits(p)
  {
    states, logits := p.start, [];
    var j := 0;
    while j < |p.chunks|
      invariant 0 <= j <= |p.chunks| && |states| == p.stages
      invariant forall k :: 0 <= k < p.stages ==> states[k] == StateAfter(p, k, j)
      invariant j > 0 ==> logits == Logits(|p.chunks[j - 1].tokens|, Step(p, p.stages - 1, j - 1).1)
    {
      var c := p.chunks[j];
      var x := p.embed(c.tokens);
      var k := 0;
      while k < p.stages
        invariant 0 <= k <= p.stages == |states|
        invariant x == if k == 0 then p.embed(c.tokens) else Step(p, k - 1, j).1
        invariant forall q :: 0 <= q < p.stages ==> states[q] == StateAfter(p, q, if q < k then j + 1 else j)
      {
        assert Step(p, k, j) == p.step(k, states[k], c.position, |c.tokens|, x);
        var (state, y) := p.step(k, states[k], c.position, |c.tokens|, x);
        states := states[k := state];
        x := y;
        k := k + 1;
      }
      logits := Logits(|c.tokens|, x);
      j := j + 1;
    }
  }

  // ---------------------------------------------------------------------------
  // Transitions
  // ---------------------------------------------------------------------------

  predicate Full(p: Pipeline, f: Fifo<Message>) {
    |f.log| >= f.taken + p.capacity
  }

  datatype RootPc = Writing(pending: set<nat>) | Computing | Passing | Draining | Idle

  datatype Root = Root(chunk: nat, pc: RootPc, state: Rows, x: Rows, logits: Rows)

  datatype WorkerPc = AwaitCtrl | AwaitAct | Forwarding | Sending | Broken

  datatype Worker = Worker(done: nat, pc: WorkerPc, ctrl: Message, state: Rows, x: Rows)

  /** The vectors are indexed by stage. sock[k] leads from the root to stage k, link[k] from
      stage k - 1 to stage k for k >= 2, back from the last stage to the root. */
  datatype State = State(root: Root, workers: seq<Worker>, sock: seq<Fifo<Message>>, link: seq<Fifo<Message>>, back: Fifo<Message>)

  predicate Shape(p: Pipeline, s: State) {
    |s.workers| == |s.sock| == |s.link| == p.stages >= 2 && |p.start| == p.stages && s.root.chunk <= |p.chunks|
  }

  datatype Action =
    | WriteCtrl(k: nat) | RootCompute | RootPass | Drain
    | TakeCtrl(k: nat) | TakeAct(k: nat) | Forward(k: nat) | Send(k: nat)

  function Workers(p: Pipeline): (r: set<nat>)
    ensures forall k :: k in r <==> 1 <= k < p.stages
    ensures p.stages >= 1 ==> |r| == p.stages - 1
  {
    WorkersBelow(p.stages)
  }

  function WorkersBelow(n: nat): (r: set<nat>)
    ensures forall k :: k in r <==> 1 <= k < n
    ensures |r| == if n == 0 then 0 else n - 1
  {
    if n <= 1 then {} else WorkersBelow(n - 1) + {n - 1}
  }

  // Control packet of chunk j.
  function CtrlOf(p: Pipeline, j: nat): Message
    requires j < |p.chunks|
  {
    Ctrl(p.chunks[j].position, |p.chunks[j].tokens|, p.chunks[j].last)
  }

  // The root's next phase once chunk j - 1 is on its way: another chunk, the drain of the
  // logits, or nothing if there was no chunk at all.
  function NextPhase(p: Pipeline, j: nat): RootPc {
    if j < |p.chunks| then Writing(Workers(p)) else if j > 0 then Draining else Idle
  }

  // Channel that brings stage k its activations.
  function InChannel(s: State, k: nat): Fifo<Message>
    requires 1 <= k < |s.sock| == |s.link|
  {
    if k == 1 then s.sock[k] else s.link[k]
  }

  predicate Enabled(p: Pipeline, s: State, a: Action) {
    Shape(p, s) &&
    match a
    case WriteCtrl(k) => s.root.chunk < |p.chunks| && s.root.pc.Writing? && k in s.root.pc.pending && k < p.stages && !Full(p, s.sock[k])
    case RootCompute => s.root.chunk < |p.chunks| && s.root.pc == Computing
    case RootPass => s.root.chunk < |p.chunks| && s.root.pc == Passing && !Full(p, s.sock[1])
    case Drain => s.root.pc == Draining && !Empty(s.back)
    case TakeCtrl(k) => 1 <= k < p.stages && s.workers[k].pc == AwaitCtrl && !Empty(s.sock[k])
    case TakeAct(k) => 1 <= k < p.stages && s.workers[k].pc == AwaitAct && !Empty(InChannel(s, k))
    case Forward(k) => 1 <= k < p.stages && s.workers[k].pc == Forwarding
    case Send(k) =>
      1 <= k < p.stages && s.workers[k].pc == Sending &&
      if k < p.stages - 1 then !Full(p, s.link[k + 1])
      else s.workers[k].ctrl.Ctrl? && (s.workers[k].ctrl.last ==> !Full(p, s.back))
  }

  function Apply(p: Pipeline, s: State, a: Action): State
    requires Enabled(p, s, a)
  {
    match a
    case WriteCtrl(k) =>
      var pending := s.root.pc.pending - {k};
      s.(sock := s.sock[k := Push(s.sock[k], CtrlOf(p, s.root.chunk))],
         root := s.root.(pc := if pending == {} then Computing else Writing(pending)))
    case RootCompute =>
      var c := p.chunks[s.root.chunk];
      var (state, y) := p.step(0, s.root.state, c.position, |c.tokens|, p.embed(c.tokens));
      s.(root := s.root.(pc := Passing, state := state, x := y))
    case RootPass =>
      s.(sock := s.sock[1 := Push(s.sock[1], Act(p.chunks[s.root.chunk].position, s.root.x))],
         root := s.root.(chunk := s.root.chunk + 1, pc := NextPhase(p, s.root.chunk + 1)))
    case Drain =>
      var m := Head(s.back);
      s.(root := s.root.(pc := Idle, logits := if m.Act? then m.rows else []),
         back := Pop(s.back))
    case TakeCtrl(k) =>
      var m := Head(s.sock[k]);
      s.(workers := s.workers[k := s.workers[k].(pc := if m.Ctrl? then AwaitAct else Broken, ctrl := m)],
         sock := s.sock[k := Pop(s.sock[k])])
    case TakeAct(k) =>
      var f := InChannel(s, k);
      var m := Head(f);
      var w := s.workers[k];
      // A worker refuses an activation whose position is not that of its control packet.
      var ok := m.Act? && w.ctrl.Ctrl? && m.position == w.ctrl.position;
      var w' := if ok then w.(pc := Forwarding, x := m.rows) else w.(pc := Broken);
      var s' := s.(workers := s.workers[k := w']);
      if k == 1 then s'.(sock := s.sock[k := Pop(f)])
      else s'.(link := s.link[k := Pop(f)])
    case Forward(k) =>
      var w := s.workers[k];
      var (state, y) := p.step(k, w.state, w.ctrl.position, if w.ctrl.Ctrl? then w.ctrl.batch else 0, w.x);
      s.(workers := s.workers[k := w.(pc := Sending, state := state, x := y)])
    case Send(k) =>
      var w := s.workers[k];
      var s' := s.(workers := s.workers[k := w.(done := w.done + 1, pc := AwaitCtrl)]);
      if k < p.stages - 1 then s'.(link := s.link[k + 1 := Push(s.link[k + 1], Act(w.ctrl.position, w.x))])
      else if w.ctrl.last then s'.(back := Push(s.back, Act(w.ctrl.position, Logits(w.ctrl.batch, w.x))))
      else s'
  }

  predicate Init(p: Pipeline, s: State) {
    && Shape(p, s)
    && s.root.chunk == 0 && s.root.pc == NextPhase(p, 0) && s.root.state == p.start[0]
    && (forall k :: 1 <= k < p.stages ==>
          s.workers[k].done == 0 && s.workers[k].pc == AwaitCtrl && s.workers[k].state == p.start[k]
          && s.sock[k] == Fifo([], 0) && s.link[k] == Fifo([], 0))
    && s.back == Fifo([], 0)
  }

  predicate Done(p: Pipeline, s: State)
    requires Shape(p, s)
  {
    && s.root.pc == Idle && s.root.chunk == |p.chunks|
    && forall k :: 1 <= k < p.stages ==> s.workers[k].done == |p.chunks| && s.workers[k].pc == AwaitCtrl
  }

  // ---------------------------------------------------------------------------
  // Invariant
  // ---------------------------------------------------------------------------

  // Control packets the root has written to stage k.
  function CtrlSent(s: State, k: nat): nat {
    s.root.chunk + match s.root.pc
                   case Writing(pending) => if k in pending then 0 else 1
                   case Computing => 1
                   case Passing => 1
                   case _ => 0
  }

  function CtrlTaken(w: Worker): nat {
    w.done + if w.pc == AwaitCtrl then 0 else 1
  }

  function ActTaken(w: Worker): nat {
    w.done + if w.pc == Forwarding || w.pc == Sending then 1 else 0
  }

  // Chunks the stage before stage k has passed on.
  function ActSent(s: State, k: nat): nat
    requires 1 <= k < |s.workers|
  {
    if k == 1 then s.root.chunk else s.workers[k - 1].done
  }

  // The n-th message on the root's channel to stage k, and on the link to stage k.
  function SockMessage(p: Pipeline, k: nat, n: nat): Message
    requires Valid(p) && 1 <= k < p.stages && (if k == 1 then n / 2 else n) < |p.chunks|
  {
    if k == 1 then (if n % 2 == 0 then CtrlOf(p, n / 2) else LinkMessage(p, 1, n / 2)) else CtrlOf(p, n)
  }

  function LinkMessage(p: Pipeline, k: nat, n: nat): Message
    requires Valid(p) && 1 <= k < p.stages && n < |p.chunks|
  {
    Act(p.chunks[n].position, Input(p, k, n))
  }

  ghost predicate SockOk(p: Pipeline, s: State, k: nat)
    requires Valid(p) && Shape(p, s) && 1 <= k < p.stages
  {
    && |s.sock[k].log| == CtrlSent(s, k) + (if k == 1 then s.root.chunk else 0)
    && s.sock[k].taken == CtrlTaken(s.workers[k]) + (if k == 1 then ActTaken(s.workers[k]) else 0)
    && s.sock[k].taken <= |s.sock[k].log| <= (if k == 1 then 2 * |p.chunks| else |p.chunks|)
    && forall n :: 0 <= n < |s.sock[k].log| ==> s.sock[k].log[n] == SockMessage(p, k, n)
  }

  ghost predicate LinkOk(p: Pipeline, s: State, k: nat)
    requires Valid(p) && Shape(p, s) && 2 <= k < p.stages
  {
    && |s.link[k].log| == ActSent(s, k)
    && s.link[k].taken == ActTaken(s.workers[k])
    && s.link[k].taken <= |s.link[k].log| <= |p.chunks|
    && forall n :: 0 <= n < |s.link[k].log| ==> s.link[k].log[n] == LinkMessage(p, k, n)
  }

  // Whatever worker k is at concerns the chunk it has not finished yet.
  ghost predicate WorkerOk(p: Pipeline, s: State, k: nat)
    requires Valid(p) && Shape(p, s) && 1 <= k < p.stages
  {
    var w := s.workers[k];
    && w.pc != Broken
    && (if w.pc == AwaitCtrl then w.done <= |p.chunks| else w.done < |p.chunks| && w.ctrl == CtrlOf(p, w.done))
    && (w.pc == Forwarding ==> w.x == Input(p, k, w.done))
    && (if w.pc == Sending then w.state == Step(p, k, w.done).0 && w.x == Step(p, k, w.done).1
        else w.state == StateAfter(p, k, w.done))
  }

  ghost predicate RootOk(p: Pipeline, s: State)
    requires Valid(p) && Shape(p, s)
  {
    var r := s.root;
    && (match r.pc
        case Writing(pending) => r.chunk < |p.chunks| && pending != {} && pending <= Workers(p)
        case Computing => r.chunk < |p.chunks|
        case Passing => r.chunk < |p.chunks| && r.x == Step(p, 0, r.chunk).1
        case Draining => r.chunk == |p.chunks| > 0
        case Idle => r.chunk == |p.chunks| && (r.chunk > 0 ==> r.logits == FinalLogits(p)))
    && r.state == if r.pc == Passing then Step(p, 0, r.chunk).0 else StateAfter(p, 0, r.chunk)
  }

  /** The logits channel carries nothing until the last stage has finished the last chunk, and
      exactly one message ever after. */
  ghost predicate BackOk(p: Pipeline, s: State)
    requires Valid(p) && Shape(p, s)
  {
    var m := |p.chunks|;
    && |s.back.log| == (if m > 0 && s.workers[p.stages - 1].done == m then 1 else 0)
    && s.back.taken == (if m > 0 && s.root.pc == Idle then 1 else 0)
    && s.back.taken <= |s.back.log|
    && (|s.back.log| > 0 ==> s.back.log[0] == Act(p.chunks[m - 1].position, FinalLogits(p)))
  }

  ghost predicate StageOk(p: Pipeline, s: State, k: nat)
    requires Valid(p) && Shape(p, s) && 1 <= k < p.stages
  {
    SockOk(p, s, k) && WorkerOk(p, s, k) && (k >= 2 ==> LinkOk(p, s, k))
  }

  ghost predicate Inv(p: Pipeline, s: State) {
    && Valid(p) && Shape(p, s) && RootOk(p, s) && BackOk(p, s)
    && forall k :: 1 <= k < p.stages ==> StageOk(p, s, k)
  }

  lemma InitInv(p: Pipeline, s: State)
    requires Valid(p) && Init(p, s)
    ensures Inv(p, s)
  {
  }

  // A stage keeps its invariant when nothing around it changes.
  lemma Frame(p: Pipeline, s: State, s': State, q: nat)
    requires Valid(p) && Shape(p, s) && Shape(p, s') && 1 <= q < p.stages && StageOk(p, s, q)
    requires s'.workers[q] == s.workers[q] && s'.sock[q] == s.sock[q] && s'.link[q] == s.link[q]
    requires CtrlSent(s', q) == CtrlSent(s, q) && ActSent(s', q) == ActSent(s, q)
    ensures StageOk(p, s', q)
  {
    hide StateAfter, Input, Step, SockMessage, LinkMessage, CtrlOf;
  }

  lemma WriteCtrlKeepsInv(p: Pipeline, s: State, k: nat)
    requires Inv(p, s) && Enabled(p, s, WriteCtrl(k))
    ensures Inv(p, Apply(p, s, WriteCtrl(k)))
  {
    hide StateAfter, Input, Step, CtrlOf, LinkMessage, FinalLogits, WorkerOk, Valid;
    var s' := Apply(p, s, WriteCtrl(k));
    assert k in Workers(p);
    forall q | 1 <= q < p.stages
      ensures StageOk(p, s', q)
    {
      assert StageOk(p, s, q);
      if q == k {
        assert WorkerOk(p, s', k) by { SameWorker(p, s, s', k); }
      } else {
        Frame(p, s, s', q);
      }
    }
  }

  lemma SameWorker(p: Pipeline, s: State, s': State, q: nat)
    requires Valid(p) && Shape(p, s) && Shape(p, s') && 1 <= q < p.stages && WorkerOk(p, s, q)
    requires s'.workers[q] == s.workers[q]
    ensures WorkerOk(p, s', q)
  {
  }

  lemma RootComputeKeepsInv(p: Pipeline, s: State)
    requires Inv(p, s) && Enabled(p, s, RootCompute)
    ensures Inv(p, Apply(p, s, RootCompute))
  {
    assert Step(p, 0, s.root.chunk) == p.step(0, s.root.state, p.chunks[s.root.chunk].position,
                                              |p.chunks[s.root.chunk].tokens|, p.embed(p.chunks[s.root.chunk].tokens));
    hide StateAfter, Input, Step, StageOk, FinalLogits;
    var s' := Apply(p, s, RootCompute);
    forall q | 1 <= q < p.stages
      ensures StageOk(p, s', q)
    {
      Frame(p, s, s', q);
    }
  }

  lemma RootPassKeepsInv(p: Pipeline, s: State)
    requires Inv(p, s) && Enabled(p, s, RootPass)
    ensures Inv(p, Apply(p, s, RootPass))
  {
    var j := s.root.chunk;
    assert LinkMessage(p, 1, j) == Act(p.chunks[j].position, Step(p, 0, j).1);
    assert StateAfter(p, 0, j + 1) == Step(p, 0, j).0;
    hide StateAfter, Input, Step, CtrlOf, LinkMessage, FinalLogits, WorkerOk, LinkOk, Valid;
    var s' := Apply(p, s, RootPass);
    forall q | 1 <= q < p.stages
      ensures StageOk(p, s', q)
    {
      assert StageOk(p, s, q);
      assert q in Workers(p);
      if q == 1 {
        SameWorker(p, s, s', 1);
      } else {
        Frame(p, s, s', q);
      }
    }
  }

  lemma DrainKeepsInv(p: Pipeline, s: State)
    requires Inv(p, s) && Enabled(p, s, Drain)
    ensures Inv(p, Apply(p, s, Drain))
  {
    hide StateAfter, Input, Step, FinalLogits, StageOk;
    var s' := Apply(p, s, Drain);
    forall q | 1 <= q < p.stages
      ensures StageOk(p, s', q)
    {
      Frame(p, s, s', q);
    }
  }

  // A step that concerns worker k alone leaves the other stages as they are.
  lemma OthersKept(p: Pipeline, s: State, s': State, k: nat)
    requires Inv(p, s) && Shape(p, s') && 1 <= k < p.stages && StageOk(p, s', k)
    requires s'.root == s.root && s'.workers[k].done == s.workers[k].done
    requires s'.workers == s.workers[k := s'.workers[k]]
    requires s'.sock == s.sock[k := s'.sock[k]] && s'.link == s.link[k := s'.link[k]] && s'.back == s.back
    ensures Inv(p, s')
  {
    hide StateAfter, Input, Step, StageOk, FinalLogits;
    forall q | 1 <= q < p.stages
      ensures StageOk(p, s', q)
    {
      if q != k {
        Frame(p, s, s', q);
      }
    }
  }

  lemma TakeCtrlKeepsInv(p: Pipeline, s: State, k: nat)
    requires Inv(p, s) && Enabled(p, s, TakeCtrl(k))
    ensures Inv(p, Apply(p, s, TakeCtrl(k)))
  {
    hide StateAfter, Input, Step, LinkMessage, FinalLogits, RootOk, BackOk, Valid;
    var s' := Apply(p, s, TakeCtrl(k));
    assert StageOk(p, s, k);
    assert s.sock[k].log[s.sock[k].taken] == CtrlOf(p, s.workers[k].done);
    OthersKept(p, s, s', k);
  }

  lemma TakeActKeepsInv(p: Pipeline, s: State, k: nat)
    requires Inv(p, s) && Enabled(p, s, TakeAct(k))
    ensures Inv(p, Apply(p, s, TakeAct(k)))
  {
    hide StateAfter, Input, Step, FinalLogits, RootOk, BackOk, Valid;
    var s' := Apply(p, s, TakeAct(k));
    var f := InChannel(s, k);
    assert StageOk(p, s, k);
    assert f.log[f.taken] == LinkMessage(p, k, s.workers[k].done);
    OthersKept(p, s, s', k);
  }

  lemma ForwardKeepsInv(p: Pipeline, s: State, k: nat)
    requires Inv(p, s) && Enabled(p, s, Forward(k))
    ensures Inv(p, Apply(p, s, Forward(k)))
  {
    assert StageOk(p, s, k);
    var j := s.workers[k].done;
    assert Step(p, k, j) == p.step(k, s.workers[k].state, p.chunks[j].position, |p.chunks[j].tokens|, s.workers[k].x);
    hide StateAfter, Input, Step, LinkMessage, FinalLogits, RootOk, BackOk, Valid;
    var s' := Apply(p, s, Forward(k));
    OthersKept(p, s, s', k);
  }

  lemma SendEffect(p: Pipeline, s: State, k: nat)
    requires Inv(p, s) && Enabled(p, s, Send(k))
    ensures var s' := Apply(p, s, Send(k));
            && Shape(p, s') && s'.root == s.root && s'.sock == s.sock && s'.link[k] == s.link[k]
            && s'.workers == s.workers[k := s.workers[k].(done := s.workers[k].done + 1, pc := AwaitCtrl)]
    ensures s.workers[k].done < |p.chunks|
    ensures StateAfter(p, k, s.workers[k].done + 1) == Step(p, k, s.workers[k].done).0
  {
    assert StageOk(p, s, k);
    hide SockOk, LinkOk, RootOk, BackOk;
  }

  lemma SendKeepsSender(p: Pipeline, s: State, k: nat)
    requires Inv(p, s) && Enabled(p, s, Send(k))
    ensures StageOk(p, Apply(p, s, Send(k)), k)
  {
    hide StateAfter, Input, Step, SockMessage, LinkMessage, FinalLogits, RootOk, BackOk, Valid, Apply;
    SendEffect(p, s, k);
    assert StageOk(p, s, k);
  }

  lemma SendKeepsReceiver(p: Pipeline, s: State, k: nat)
    requires Inv(p, s) && Enabled(p, s, Send(k)) && k < p.stages - 1
    ensures StageOk(p, Apply(p, s, Send(k)), k + 1)
  {
    var q := k + 1;
    var s' := Apply(p, s, Send(k));
    assert StageOk(p, s, k) && StageOk(p, s, q);
    var j := s.workers[k].done;
    assert LinkMessage(p, q, j) == Act(p.chunks[j].position, Step(p, k, j).1);
    assert s'.link[q] == Push(s.link[q], LinkMessage(p, q, j));
    assert s'.workers[q] == s.workers[q] && s'.sock == s.sock && s'.root == s.root && s'.workers[k].done == j + 1;
    hide StateAfter, Input, Step, SockMessage, LinkMessage, FinalLogits, RootOk, BackOk, Valid, Apply, Enabled, CtrlOf;
  }

  lemma SendKeepsBack(p: Pipeline, s: State, k: nat)
    requires Inv(p, s) && Enabled(p, s, Send(k))
    ensures BackOk(p, Apply(p, s, Send(k)))
  {
    assert StageOk(p, s, k);
    var j := s.workers[k].done;
    assert k == p.stages - 1 && j == |p.chunks| - 1 ==> FinalLogits(p) == Logits(|p.chunks[j].tokens|, Step(p, k, j).1);
    assert j == |p.chunks| - 1 <==> p.chunks[j].last;
    hide StateAfter, Input, Step, SockOk, LinkOk, FinalLogits, Logits, Valid;
  }

  lemma SendKeepsInv(p: Pipeline, s: State, k: nat)
    requires Inv(p, s) && Enabled(p, s, Send(k))
    ensures Inv(p, Apply(p, s, Send(k)))
  {
    hide StateAfter, Input, Step, StageOk, FinalLogits, BackOk;
    var s' := Apply(p, s, Send(k));
    SendKeepsBack(p, s, k);
    forall q | 1 <= q < p.stages
      ensures StageOk(p, s', q)
    {
      if q == k {
        SendKeepsSender(p, s, k);
      } else if q == k + 1 {
        SendKeepsReceiver(p, s, k);
      } else {
        Frame(p, s, s', q);
      }
    }
  }

  lemma ActionKeepsInv(p: Pipeline, s: State, a: Action)
    requires Inv(p, s) && Enabled(p, s, a)
    ensures Inv(p, Apply(p, s, a))
  {
    hide Inv, Apply;
    match a
    case WriteCtrl(k) => WriteCtrlKeepsInv(p, s, k);
    case RootCompute => RootComputeKeepsInv(p, s);
    case RootPass => RootPassKeepsInv(p, s);
    case Drain => DrainKeepsInv(p, s);
    case TakeCtrl(k) => TakeCtrlKeepsInv(p, s, k);
    case TakeAct(k) => TakeActKeepsInv(p, s, k);
    case Forward(k) => ForwardKeepsInv(p, s, k);
    case Send(k) => SendKeepsInv(p, s, k);
  }

  /** A run: any interleaving of the root and the workers. */
  ghost predicate Execution(p: Pipeline, run: seq<State>, acts: seq<Action>) {
    && Valid(p) && |run| == |acts| + 1 && Init(p, run[0])
    && forall i :: 0 <= i < |acts| ==> Enabled(p, run[i], acts[i]) && run[i + 1] == Apply(p, run[i], acts[i])
  }

  lemma {:induction false} Reachable(p: Pipeline, run: seq<State>, acts: seq<Action>, i: nat)
    requires Execution(p, run, acts) && i < |run|
    ensures Inv(p, run[i])
  {
    hide Inv, Apply, Enabled, Init;
    if i == 0 {
      InitInv(p, run[0]);
    } else {
      Reachable(p, run, acts, i - 1);
      assert Enabled(p, run[i - 1], acts[i - 1]) && run[i - 1 + 1] == Apply(p, run[i - 1], acts[i - 1]);
      ActionKeepsInv(p, run[i - 1], acts[i - 1]);
    }
  }

  /** In every interleaving a stage at work holds control packet and activation of the same
      chunk, the next one it has to process, so its position check never fails. */
  lemma ChunksNeverMix(p: Pipeline, run: seq<State>, acts: seq<Action>, i: nat, k: nat)
    requires Execution(p, run, acts) && i < |run| && 1 <= k < p.stages
    ensures k < |run[i].workers| && run[i].workers[k].pc != Broken
    ensures var w := run[i].workers[k];
            w.pc == Forwarding ==> w.done < |p.chunks| && w.ctrl == CtrlOf(p, w.done) && w.x == Input(p, k, w.done)
                                   && w.state == StateAfter(p, k, w.done)
  {
    Reachable(p, run, acts, i);
    hide StateAfter, Input, CtrlOf, Step, Execution;
    assert StageOk(p, run[i], k);
  }

  // ---------------------------------------------------------------------------
  // No deadlock
  // ---------------------------------------------------------------------------

  ghost predicate Stuck(p: Pipeline, s: State) {
    forall a: Action :: !Enabled(p, s, a)
  }

  // No stage is blocked handing on its result: the next stage would have to lack a control
  // packet that the root wrote before this stage's.
  lemma {:induction false} NobodyBlockedSending(p: Pipeline, s: State, k: nat)
    requires Inv(p, s) && Stuck(p, s) && 1 <= k < p.stages
    ensures s.workers[k].pc != Sending
    decreases p.stages - k
  {
    hide StateAfter, Input, Step, SockMessage, LinkMessage, FinalLogits, Stuck;
    if k < p.stages - 1 {
      NobodyBlockedSending(p, s, k + 1);
      NextStageTakes(p, s, k);
    } else {
      LastStageSends(p, s);
    }
  }

  lemma LastStageSends(p: Pipeline, s: State)
    requires Inv(p, s) && Stuck(p, s)
    ensures s.workers[p.stages - 1].pc != Sending
  {
    hide StateAfter, Input, Step, SockMessage, LinkMessage, FinalLogits, SockOk, LinkOk, RootOk;
    var k := p.stages - 1;
    assert StageOk(p, s, k) && !Enabled(p, s, Send(k));
  }

  lemma NextStageTakes(p: Pipeline, s: State, k: nat)
    requires Inv(p, s) && Stuck(p, s) && 1 <= k < p.stages - 1 && s.workers[k + 1].pc != Sending
    ensures s.workers[k].pc != Sending
  {
    hide StateAfter, Input, Step, SockMessage, LinkMessage, FinalLogits, BackOk;
    var q := k + 1;
    assert StageOk(p, s, k) && !Enabled(p, s, Send(k)) && StageOk(p, s, q);
    assert !Enabled(p, s, TakeAct(q)) && !Enabled(p, s, TakeCtrl(q)) && !Enabled(p, s, Forward(q));
  }

  // Every worker has caught up with the root.
  lemma {:induction false} NobodyBehindRoot(p: Pipeline, s: State, k: nat)
    requires Inv(p, s) && Stuck(p, s) && 1 <= k < p.stages
    ensures s.workers[k].done >= s.root.chunk
  {
    hide StateAfter, Input, Step, SockMessage, LinkMessage, FinalLogits;
    NobodyBlockedSending(p, s, k);
    assert StageOk(p, s, k) && !Enabled(p, s, TakeAct(k)) && !Enabled(p, s, TakeCtrl(k)) && !Enabled(p, s, Forward(k));
    if k > 1 {
      NobodyBehindRoot(p, s, k - 1);
    }
  }

  lemma RootIsIdle(p: Pipeline, s: State)
    requires Inv(p, s) && Stuck(p, s)
    ensures s.root.pc == Idle
  {
    hide StateAfter, Input, Step, SockMessage, LinkMessage, FinalLogits;
    assert !Enabled(p, s, RootCompute) && !Enabled(p, s, RootPass) && !Enabled(p, s, Drain);
    NobodyBehindRoot(p, s, p.stages - 1);
    if s.root.pc.Writing? {
      var k :| k in s.root.pc.pending;
      assert StageOk(p, s, k) && !Enabled(p, s, WriteCtrl(k));
      NobodyBehindRoot(p, s, k);
    } else if s.root.pc == Draining {
      assert StageOk(p, s, p.stages - 1);
    } else {
      NobodyBlockedSending(p, s, 1);
      assert StageOk(p, s, 1) && !Enabled(p, s, TakeAct(1)) && !Enabled(p, s, TakeCtrl(1)) && !Enabled(p, s, Forward(1));
    }
  }

  /** Some process can always move until everything is done, however small the channels. */
  lemma NoDeadlock(p: Pipeline, run: seq<State>, acts: seq<Action>, i: nat)
    requires Execution(p, run, acts) && i < |run|
    ensures Shape(p, run[i])
    ensures Stuck(p, run[i]) ==> Done(p, run[i])
  {
    Reachable(p, run, acts, i);
    var s := run[i];
    hide StateAfter, Input, Step, SockMessage, LinkMessage, FinalLogits, Execution, Stuck;
    if Stuck(p, s) {
      RootIsIdle(p, s);
      forall k | 1 <= k < p.stages
        ensures s.workers[k].done == |p.chunks| && s.workers[k].pc == AwaitCtrl
      {
        NobodyBehindRoot(p, s, k);
        assert StageOk(p, s, k);
      }
    }
  }

  /** When all is done, every stage holds the state and the root holds the logits that the
      blocking path computes, the only logits message has been drained, and no channel holds
      anything that decoding could mistake for its own. */
  lemma WaveComputesSequentialResult(p: Pipeline, run: seq<State>, acts: seq<Action>, i: nat, k: nat)
    requires Execution(p, run, acts) && i < |run| && Shape(p, run[i]) && Done(p, run[i]) && k < p.stages
    ensures (if k == 0 then run[i].root.state else run[i].workers[k].state) == StateAfter(p, k, |p.chunks|)
    ensures p.chunks != [] ==> run[i].root.logits == FinalLogits(p) && |run[i].back.log| == 1
    ensures p.chunks == [] ==> run[i].back.log == []
    ensures Empty(run[i].back) && (k >= 1 ==> Empty(run[i].sock[k])) && (k >= 2 ==> Empty(run[i].link[k]))
  {
    Reachable(p, run, acts, i);
    var s := run[i];
    hide StateAfter, Input, Step, SockMessage, LinkMessage, FinalLogits, Execution;
    assert StageOk(p, s, p.stages - 1);
    if k >= 1 {
      assert StageOk(p, s, k) && (k >= 2 ==> StageOk(p, s, k - 1));
    }
  }

  // ---------------------------------------------------------------------------
  // Every run ends
  // ---------------------------------------------------------------------------

  function RootSteps(p: Pipeline, s: State): int
  {
    s.root.chunk * (p.stages + 1) +
    match s.root.pc
    case Writing(pending) => p.stages - 1 - |pending|
    case Computing => p.stages - 1
    case Passing => p.stages
    case Draining => 0
    case Idle => if s.root.chunk > 0 then 1 else 0
  }

  function WorkerSteps(w: Worker): nat {
    4 * w.done + match w.pc
                 case AwaitCtrl => 0
                 case AwaitAct => 1
                 case Forwarding => 2
                 case Sending => 3
                 case Broken => 0
  }

  // Steps taken by stages 1 to n - 1.
  function SumSteps(workers: seq<Worker>, n: nat): nat
    requires n <= |workers|
  {
    if n <= 1 then 0 else SumSteps(workers, n - 1) + WorkerSteps(workers[n - 1])
  }

  function Steps(p: Pipeline, s: State): int
    requires Shape(p, s)
  {
    RootSteps(p, s) + SumSteps(s.workers, p.stages)
  }

  lemma {:induction false} SumChanges(before: seq<Worker>, after: seq<Worker>, k: nat, n: nat)
    requires |before| == |after| && 1 <= k < |before| && n <= |before| && after == before[k := after[k]]
    ensures SumSteps(after, n) ==
            SumSteps(before, n) + if k < n then WorkerSteps(after[k]) - WorkerSteps(before[k]) else 0
  {
    hide WorkerSteps;
    if n > 1 {
      SumChanges(before, after, k, n - 1);
    }
  }

  lemma RootStepCounts(p: Pipeline, s: State, a: Action)
    requires Inv(p, s) && Enabled(p, s, a) && (a.WriteCtrl? || a.RootCompute? || a.RootPass? || a.Drain?)
    ensures RootSteps(p, Apply(p, s, a)) == RootSteps(p, s) + 1 && Apply(p, s, a).workers == s.workers
  {
    hide StageOk, BackOk, Input, StateAfter, Step, FinalLogits, CtrlOf;
    NextMultiple(s.root.chunk, p.stages + 1);
  }

  lemma WorkerStepCounts(p: Pipeline, s: State, a: Action, k: nat)
    requires Inv(p, s) && Enabled(p, s, a) && 1 <= k < p.stages
    requires a == TakeCtrl(k) || a == TakeAct(k) || a == Forward(k) || a == Send(k)
    ensures var s' := Apply(p, s, a);
            && s'.root == s.root && |s'.workers| == |s.workers| && s'.workers == s.workers[k := s'.workers[k]]
            && WorkerSteps(s'.workers[k]) == WorkerSteps(s.workers[k]) + 1
  {
    hide SockOk, LinkOk, BackOk, RootOk, Input, StateAfter, Step, FinalLogits, CtrlOf, Valid;
    ActionKeepsInv(p, s, a);
    assert StageOk(p, Apply(p, s, a), k);
  }

  lemma ActionCounts(p: Pipeline, s: State, a: Action)
    requires Inv(p, s) && Enabled(p, s, a)
    ensures Inv(p, Apply(p, s, a)) && Steps(p, Apply(p, s, a)) == Steps(p, s) + 1
  {
    ActionKeepsInv(p, s, a);
    hide StageOk, BackOk, RootOk, Apply, RootSteps, WorkerSteps;
    if a.WriteCtrl? || a.RootCompute? || a.RootPass? || a.Drain? {
      RootStepCounts(p, s, a);
    } else {
      var k := a.k;
      WorkerStepCounts(p, s, a, k);
      SumChanges(s.workers, Apply(p, s, a).workers, k, p.stages);
    }
  }

  // Steps of a complete run over m chunks.
  function Budget(p: Pipeline): int {
    var m := |p.chunks|;
    if m == 0 then 0 else m * (p.stages + 1) + 1 + (p.stages - 1) * (4 * m)
  }

  lemma {:induction false} SumBound(p: Pipeline, s: State, n: nat)
    requires Inv(p, s) && 1 <= n <= p.stages
    ensures SumSteps(s.workers, n) <= (n - 1) * (4 * |p.chunks|)
  {
    hide SockOk, LinkOk, BackOk, RootOk, Input, StateAfter, Step, FinalLogits, CtrlOf;
    if n > 1 {
      SumBound(p, s, n - 1);
      assert StageOk(p, s, n - 1);
      NextMultiple(n - 2, 4 * |p.chunks|);
    } else {
      assert (n - 1) * (4 * |p.chunks|) == 0;
    }
  }

  lemma StepsBound(p: Pipeline, s: State)
    requires Inv(p, s)
    ensures Steps(p, s) <= Budget(p)
  {
    SumBound(p, s, p.stages);
    hide StageOk, BackOk, Input, StateAfter, Step, FinalLogits, CtrlOf;
    if s.root.chunk < |p.chunks| {
      NextMultiple(s.root.chunk, p.stages + 1);
      ProductMonotone(s.root.chunk + 1, |p.chunks|, p.stages + 1);
    }
    if |p.chunks| == 0 {
      assert (p.stages - 1) * (4 * |p.chunks|) == 0;
    }
  }

  /** No run goes on for longer than the budget, which is linear in the number of chunks; with
      NoDeadlock, every maximal run completes the prefill. */
  lemma {:induction false} EveryRunEnds(p: Pipeline, run: seq<State>, acts: seq<Action>, i: nat)
    requires Execution(p, run, acts) && i < |run|
    ensures Inv(p, run[i]) && Steps(p, run[i]) == i <= Budget(p)
  {
    hide Inv, Apply, Enabled, Budget;
    Reachable(p, run, acts, i);
    StepsBound(p, run[i]);
    if i == 0 {
      NothingDone(p, run[0]);
    } else {
      EveryRunEnds(p, run, acts, i - 1);
      assert Enabled(p, run[i - 1], acts[i - 1]) && run[i - 1 + 1] == Apply(p, run[i - 1], acts[i - 1]);
      ActionCounts(p, run[i - 1], acts[i - 1]);
    }
  }

  // A run can be continued until it is stuck.
  lemma {:induction false} Completed(p: Pipeline, run: seq<State>, acts: seq<Action>) returns (whole: seq<State>, all: seq<Action>)
    requires Execution(p, run, acts)
    ensures Execution(p, whole, all) && Stuck(p, whole[|all|])
    decreases Budget(p) - |acts|
  {
    hide Inv, Apply, Enabled, Budget, Init;
    EveryRunEnds(p, run, acts, |acts|);
    var s := run[|acts|];
    if a: Action :| Enabled(p, s, a) {
      var longer, more := run + [Apply(p, s, a)], acts + [a];
      EveryRunEnds(p, longer, more, |more|);
      whole, all := Completed(p, longer, more);
    } else {
      whole, all := run, acts;
    }
  }

  /** A run that completes the prefill exists, however small the channels. */
  lemma CompleteRunExists(p: Pipeline) returns (run: seq<State>, acts: seq<Action>)
    requires Valid(p)
    ensures Execution(p, run, acts) && Shape(p, run[|acts|]) && Done(p, run[|acts|])
  {
    var idle: Fifo<Message> := Fifo([], 0);
    var s := State(Root(0, NextPhase(p, 0), p.start[0], [], []),
                   seq(p.stages, k requires 0 <= k < p.stages => Worker(0, AwaitCtrl, Act(0, []), p.start[k], [])),
                   seq(p.stages, _ => idle), seq(p.stages, _ => idle), idle);
    assert Init(p, s);
    hide Init, Stuck, Done;
    run, acts := Completed(p, [s], []);
    NoDeadlock(p, run, acts, |acts|);
  }

  lemma NothingDone(p: Pipeline, s: State)
    requires Valid(p) && Init(p, s)
    ensures Steps(p, s) == 0
  {
    NoSteps(p, s, p.stages);
  }

  lemma {:induction false} NoSteps(p: Pipeline, s: State, n: nat)
    requires Valid(p) && Init(p, s) && n <= p.stages
    ensures SumSteps(s.workers, n) == 0
  {
    if n > 1 {
      NoSteps(p, s, n - 1);
    }
  }
}
