/** Decoding with stage skipping: the stage before the target may send its activation past the
    target, which then gets a marker instead. The root starts a token when it has the
    logits of the one before; the skipped stage may lag behind. */
module SkipRouting {
  import opened Arithmetic
  import opened Channels

  /** Token t has position first + t; `skip(t)` is the decision taken for it. `path` lists the
      stages an activation has passed through, so it stands for what was computed. */
  datatype Run = Run(stages: nat, target: nat, tokens: nat, first: nat, skip: nat -> bool)

  type Path = seq<nat>

  datatype Message = Ctrl(position: nat) | Act(position: nat, path: Path) | Marker(position: nat)

  // The target lies strictly between the first and the last stage. Only workers decide, so
  // nothing is skipped when the stage before the target is the root.
  ghost predicate Valid(g: Run) {
    g.stages >= 3 && 1 <= g.target <= g.stages - 2 && (g.target == 1 ==> forall t :: !g.skip(t))
  }

  // Stages token t has passed when stage k is done with it.
  function Passed(g: Run, k: nat, t: nat): Path {
    (if k == 0 then [] else Passed(g, k - 1, t)) + (if k == g.target && g.skip(t) then [] else [k])
  }

  /** Skipped tokens among the first n. */
  function Skips(g: Run, n: nat): (s: nat)
    ensures s <= n
  {
    if n == 0 then 0 else Skips(g, n - 1) + if g.skip(n - 1) then 1 else 0
  }

  lemma SkipsNext(g: Run, n: nat)
    ensures Skips(g, n + 1) == Skips(g, n) + if g.skip(n) then 1 else 0
  {
  }

  lemma {:induction false} SkipsMonotone(g: Run, m: nat, n: nat)
    requires m <= n
    ensures Skips(g, m) <= Skips(g, n) && m - Skips(g, m) <= n - Skips(g, n)
    decreases n - m
  {
    if m < n {
      SkipsMonotone(g, m, n - 1);
    }
  }

  // ---------------------------------------------------------------------------
  // Transitions
  // ---------------------------------------------------------------------------

  datatype Pc = AwaitCtrl | AwaitInput | Ready | Skipping | Broken

  datatype Worker = Worker(done: nat, pc: Pc, position: nat, path: Path)

  datatype Root = Root(started: nat, finished: nat, logits: seq<Path>)

  /** sock[k] leads from the root to stage k, link[k] from stage k - 1 to stage k (k >= 2),
      `bypass` from the stage before the target to the one after it. */
  datatype State = State(root: Root, workers: seq<Worker>, sock: seq<Fifo<Message>>, link: seq<Fifo<Message>>,
                         bypass: Fifo<Message>, back: Fifo<Message>)

  predicate Shape(g: Run, s: State) {
    |s.workers| == |s.sock| == |s.link| == g.stages >= 3 && 1 <= g.target <= g.stages - 2
  }

  datatype Action = Start | Collect | TakeCtrl(k: nat) | TakeInput(k: nat) | TakeBypass | Finish(k: nat)

  // Stage 1 gets its activations over the root's channel.
  function InChannel(s: State, k: nat): Fifo<Message>
    requires 1 <= k < |s.sock| == |s.link|
  {
    if k == 1 then s.sock[k] else s.link[k]
  }

  // Where the stage after the target looks for a bypassed activation. If the root is the stage
  // before the target, that is the channel that also carries control packets.
  function BypassChannel(g: Run, s: State): Fifo<Message>
    requires Shape(g, s)
  {
    if g.target == 1 then s.sock[2] else s.bypass
  }

  predicate Enabled(g: Run, s: State, a: Action) {
    Shape(g, s) &&
    match a
    case Start => s.root.started == s.root.finished < g.tokens
    case Collect => !Empty(s.back)
    case TakeCtrl(k) => 1 <= k < g.stages && s.workers[k].pc == AwaitCtrl && !Empty(s.sock[k])
    case TakeInput(k) => 1 <= k < g.stages && s.workers[k].pc == AwaitInput && !Empty(InChannel(s, k))
    case TakeBypass => s.workers[g.target + 1].pc == AwaitInput && !Empty(BypassChannel(g, s))
    case Finish(k) => 1 <= k < g.stages && (s.workers[k].pc == Ready || s.workers[k].pc == Skipping)
  }

  // What a worker makes of a message on an activation channel.
  function Receive(g: Run, k: nat, w: Worker, m: Message): Worker {
    if k == g.target && m.Marker? then w.(pc := Skipping)
    else if m.Act? && m.position == w.position then w.(pc := Ready, path := m.path)
    else w.(pc := Broken)
  }

  function StartToken(g: Run, s: State): State
    requires Shape(g, s)
  {
    var p := g.first + s.root.started;
    var ctrl := seq(g.stages, k requires 0 <= k < g.stages => Push(s.sock[k], Ctrl(p)));
    s.(sock := ctrl[1 := Push(ctrl[1], Act(p, [0]))], root := s.root.(started := s.root.started + 1))
  }

  function SendOn(g: Run, s: State, k: nat): State
    requires Shape(g, s) && 1 <= k < g.stages
  {
    var w := s.workers[k];
    var out := Act(w.position, w.path + [k]);
    if w.pc == Skipping then s
    else if k + 1 == g.target && g.skip(w.done) then
      s.(link := s.link[g.target := Push(s.link[g.target], Marker(w.position))], bypass := Push(s.bypass, out))
    else if k < g.stages - 1 then s.(link := s.link[k + 1 := Push(s.link[k + 1], out)])
    else s.(back := Push(s.back, out))
  }

  function Apply(g: Run, s: State, a: Action): State
    requires Enabled(g, s, a)
  {
    match a
    case Start => StartToken(g, s)
    case Collect =>
      var m := Head(s.back);
      s.(back := Pop(s.back),
         root := s.root.(finished := s.root.finished + 1, logits := s.root.logits + [if m.Act? then m.path else []]))
    case TakeCtrl(k) =>
      var m := Head(s.sock[k]);
      s.(sock := s.sock[k := Pop(s.sock[k])],
         workers := s.workers[k := s.workers[k].(pc := if m.Ctrl? then AwaitInput else Broken, position := m.position)])
    case TakeInput(k) =>
      var s' := s.(workers := s.workers[k := Receive(g, k, s.workers[k], Head(InChannel(s, k)))]);
      if k == 1 then s'.(sock := s.sock[k := Pop(s.sock[k])]) else s'.(link := s.link[k := Pop(s.link[k])])
    case TakeBypass =>
      var k := g.target + 1;
      var s' := s.(workers := s.workers[k := Receive(g, k, s.workers[k], Head(BypassChannel(g, s)))]);
      if g.target == 1 then s'.(sock := s.sock[2 := Pop(s.sock[2])]) else s'.(bypass := Pop(s.bypass))
    case Finish(k) =>
      var s' := SendOn(g, s, k);
      s'.(workers := s.workers[k := s.workers[k].(done := s.workers[k].done + 1, pc := AwaitCtrl)])
  }

  predicate Init(g: Run, s: State) {
    && Shape(g, s) && s.root == Root(0, 0, []) && s.bypass == Fifo([], 0) && s.back == Fifo([], 0)
    && forall k :: 1 <= k < g.stages ==>
         s.workers[k].done == 0 && s.workers[k].pc == AwaitCtrl && s.sock[k] == Fifo([], 0) && s.link[k] == Fifo([], 0)
  }

  // ---------------------------------------------------------------------------
  // Invariant
  // ---------------------------------------------------------------------------

  function CtrlTaken(w: Worker): nat {
    w.done + if w.pc == AwaitCtrl then 0 else 1
  }

  // Tokens whose activation or marker the worker has taken.
  function Got(w: Worker): nat {
    w.done + if w.pc == Ready || w.pc == Skipping then 1 else 0
  }

  // Tokens stage k has passed on.
  function DoneAt(s: State, k: nat): nat
    requires k < |s.workers|
  {
    if k == 0 then s.root.started else s.workers[k].done
  }

  function SockMessage(g: Run, k: nat, n: nat): Message {
    if k == 1 then (if n % 2 == 0 then Ctrl(g.first + n / 2) else Act(g.first + n / 2, [0])) else Ctrl(g.first + n)
  }

  ghost predicate SockOk(g: Run, s: State, k: nat)
    requires Shape(g, s) && 1 <= k < g.stages
  {
    && |s.sock[k].log| == s.root.started * (if k == 1 then 2 else 1)
    && s.sock[k].taken == CtrlTaken(s.workers[k]) + (if k == 1 then Got(s.workers[k]) else 0)
    && s.sock[k].taken <= |s.sock[k].log|
    && forall n :: 0 <= n < |s.sock[k].log| ==> s.sock[k].log[n] == SockMessage(g, k, n)
  }

  // What stage k - 1 sends to stage k for token t.
  function LinkMessage(g: Run, k: nat, t: nat): Message
    requires k >= 1
  {
    if k == g.target && g.skip(t) then Marker(g.first + t) else Act(g.first + t, Passed(g, k - 1, t))
  }

  ghost predicate LinkOk(g: Run, s: State, k: nat)
    requires Shape(g, s) && 2 <= k < g.stages
  {
    if k != g.target + 1 then
      && |s.link[k].log| == s.workers[k - 1].done && s.link[k].taken == Got(s.workers[k]) <= |s.link[k].log|
      && forall t :: 0 <= t < |s.link[k].log| ==> s.link[k].log[t] == LinkMessage(g, k, t)
    else
      && NormalOk(g, s.link[k], s.workers[k - 1].done, Got(s.workers[k]))
      && BypassOk(g, s.bypass, DoneAt(s, k - 2), Got(s.workers[k]))
      && Got(s.workers[k]) <= DoneAt(s, k - 2)
  }

  // The activation of token t for the stage after the target.
  function AfterTarget(g: Run, t: nat): Message {
    Act(g.first + t, Passed(g, g.target, t))
  }

  predicate Holds(f: Fifo<Message>, n: int, m: Message) {
    0 <= n < |f.log| && f.log[n] == m
  }

  /** From the target to the stage after it: the tokens not skipped. */
  ghost predicate NormalOk(g: Run, f: Fifo<Message>, sent: nat, got: nat) {
    && |f.log| == sent - Skips(g, sent) && f.taken == got - Skips(g, got) <= |f.log|
    && forall t: nat {:trigger AfterTarget(g, t)} :: t < sent && !g.skip(t) ==> Holds(f, t - Skips(g, t), AfterTarget(g, t))
  }

  /** Past the target: the tokens skipped. */
  ghost predicate BypassOk(g: Run, f: Fifo<Message>, sent: nat, got: nat) {
    && |f.log| == Skips(g, sent) && f.taken == Skips(g, got) <= |f.log|
    && forall t: nat {:trigger AfterTarget(g, t)} :: t < sent && g.skip(t) ==> Holds(f, Skips(g, t), AfterTarget(g, t))
  }

  ghost predicate WorkerOk(g: Run, s: State, k: nat)
    requires Shape(g, s) && 1 <= k < g.stages
  {
    var w := s.workers[k];
    && w.pc != Broken
    && (w.pc != AwaitCtrl ==> w.position == g.first + w.done)
    && (w.pc == Ready ==> w.path == Passed(g, k - 1, w.done) && !(k == g.target && g.skip(w.done)))
    && (w.pc == Skipping ==> k == g.target && g.skip(w.done))
  }

  ghost predicate RootOk(g: Run, s: State)
    requires Shape(g, s)
  {
    && s.root.finished <= s.root.started <= s.root.finished + 1 && s.root.started <= g.tokens
    && |s.root.logits| == s.root.finished == s.back.taken <= |s.back.log| == s.workers[g.stages - 1].done
    && (forall t :: 0 <= t < |s.back.log| ==> s.back.log[t] == Act(g.first + t, Passed(g, g.stages - 1, t)))
    && forall t :: 0 <= t < |s.root.logits| ==> s.root.logits[t] == Passed(g, g.stages - 1, t)
  }

  ghost predicate StageOk(g: Run, s: State, k: nat)
    requires Shape(g, s) && 1 <= k < g.stages
  {
    SockOk(g, s, k) && WorkerOk(g, s, k) && (k >= 2 ==> LinkOk(g, s, k))
  }

  ghost predicate Inv(g: Run, s: State) {
    Valid(g) && Shape(g, s) && RootOk(g, s) && forall k :: 1 <= k < g.stages ==> StageOk(g, s, k)
  }

  lemma InitInv(g: Run, s: State)
    requires Valid(g) && Init(g, s)
    ensures Inv(g, s)
  {
  }

  // ---------------------------------------------------------------------------
  // Nobody gets ahead of the logits
  // ---------------------------------------------------------------------------

  lemma {:induction false} LastIsBehind(g: Run, s: State, k: nat)
    requires Inv(g, s) && g.target + 1 <= k < g.stages
    ensures s.workers[g.stages - 1].done <= s.workers[k].done
    decreases g.stages - k
  {
    hide SockOk, WorkerOk, Valid, RootOk, BypassOk, NormalOk;
    if k < g.stages - 1 {
      LastIsBehind(g, s, k + 1);
      assert StageOk(g, s, k + 1);
    }
  }

  /** No stage has started a token later than the one the stage after the target is at. */
  lemma NotAhead(g: Run, s: State, k: nat)
    requires Inv(g, s) && k < g.stages
    ensures DoneAt(s, k) <= s.root.started <= s.workers[g.target + 1].done + 1
  {
    LastIsBehind(g, s, g.target + 1);
    hide LinkOk, WorkerOk, Valid;
    if k > 0 {
      assert StageOk(g, s, k);
    }
  }

  // ---------------------------------------------------------------------------
  // Every action keeps the invariant
  // ---------------------------------------------------------------------------

  // A stage keeps its invariant when nothing around it changes.
  lemma Frame(g: Run, s: State, s': State, q: nat)
    requires Shape(g, s) && Shape(g, s') && 1 <= q < g.stages && StageOk(g, s, q)
    requires s'.workers[q] == s.workers[q] && s'.sock[q] == s.sock[q] && s'.link[q] == s.link[q]
    requires s'.root.started == s.root.started && DoneAt(s', q - 1) == DoneAt(s, q - 1)
    requires q == g.target + 1 ==> s'.bypass == s.bypass && DoneAt(s', q - 2) == DoneAt(s, q - 2)
    ensures StageOk(g, s', q)
  {
    hide SockMessage, LinkMessage, NormalOk, BypassOk, Passed;
  }

  // A step that concerns worker k alone leaves the other stages as they are.
  lemma OthersKept(g: Run, s: State, s': State, k: nat)
    requires Inv(g, s) && Shape(g, s') && 1 <= k < g.stages && StageOk(g, s', k)
    requires s'.root == s.root && s'.back == s.back && s'.workers[k].done == s.workers[k].done
    requires s'.workers == s.workers[k := s'.workers[k]]
    requires s'.sock == s.sock[k := s'.sock[k]] && s'.link == s.link[k := s'.link[k]]
    requires k == g.target + 1 || s'.bypass == s.bypass
    ensures Inv(g, s')
  {
    hide StageOk, Passed, Valid;
    forall q | 1 <= q < g.stages
      ensures StageOk(g, s', q)
    {
      if q != k {
        Frame(g, s, s', q);
      }
    }
  }

  lemma CollectKeepsInv(g: Run, s: State)
    requires Inv(g, s) && Enabled(g, s, Collect)
    ensures Inv(g, Apply(g, s, Collect))
  {
    var s' := Apply(g, s, Collect);
    LastIsBehind(g, s, g.target + 1);
    NotAhead(g, s, g.stages - 1);
    hide StageOk, Passed, Valid;
    forall q | 1 <= q < g.stages
      ensures StageOk(g, s', q)
    {
      Frame(g, s, s', q);
    }
  }

  lemma TakeCtrlKeepsInv(g: Run, s: State, k: nat)
    requires Inv(g, s) && Enabled(g, s, TakeCtrl(k))
    ensures Inv(g, Apply(g, s, TakeCtrl(k)))
  {
    hide RootOk, Passed, Valid, NormalOk, BypassOk, LinkMessage;
    var s' := Apply(g, s, TakeCtrl(k));
    assert StageOk(g, s, k);
    assert Head(s.sock[k]) == Ctrl(g.first + s.workers[k].done);
    OthersKept(g, s, s', k);
  }

  // The message a stage other than the one after the target takes is about its current token.
  lemma NextInput(g: Run, s: State, k: nat)
    requires Inv(g, s) && Enabled(g, s, TakeInput(k)) && k != g.target + 1
    ensures Head(InChannel(s, k)) == LinkMessage(g, k, s.workers[k].done)
  {
    hide RootOk, NormalOk, BypassOk;
    assert StageOk(g, s, k);
    assert k == 1 ==> Passed(g, 0, s.workers[1].done) == [0];
    if k == 1 && g.target == 1 {
      assert !g.skip(s.workers[1].done);
    }
  }

  // The next message of the target for the stage after it, if there is one.
  lemma HeadNormal(g: Run, f: Fifo<Message>, sent: nat, t: nat)
    requires NormalOk(g, f, sent, t) && sent <= t + 1 && !Empty(f)
    ensures sent == t + 1 && !g.skip(t) && Head(f) == AfterTarget(g, t)
  {
    hide Skips, AfterTarget;
    SkipsNext(g, t);
    if sent <= t {
      SkipsMonotone(g, sent, t);
    } else {
      assert !g.skip(t) ==> Holds(f, t - Skips(g, t), AfterTarget(g, t));
    }
  }

  lemma HeadBypass(g: Run, f: Fifo<Message>, sent: nat, t: nat)
    requires BypassOk(g, f, sent, t) && sent <= t + 1 && !Empty(f)
    ensures sent == t + 1 && g.skip(t) && Head(f) == AfterTarget(g, t)
  {
    hide Skips, AfterTarget;
    SkipsNext(g, t);
    if sent <= t {
      SkipsMonotone(g, sent, t);
    } else {
      assert g.skip(t) ==> Holds(f, Skips(g, t), AfterTarget(g, t));
    }
  }

  // The stage after the target takes an unskipped token from the target.
  lemma NextNormal(g: Run, s: State)
    requires Inv(g, s) && Enabled(g, s, TakeInput(g.target + 1))
    ensures var t := s.workers[g.target + 1].done;
            && !g.skip(t) && Head(s.link[g.target + 1]) == AfterTarget(g, t)
            && t + 1 <= DoneAt(s, g.target - 1)
  {
    hide RootOk, SockOk, Passed, Valid, NormalOk, BypassOk, Skips, AfterTarget;
    var k := g.target + 1;
    NotAhead(g, s, g.target);
    assert StageOk(g, s, k);
    HeadNormal(g, s.link[k], s.workers[g.target].done, s.workers[k].done);
    TargetBehind(g, s);
  }

  // The target works only on tokens the stage before it has passed on.
  lemma TargetBehind(g: Run, s: State)
    requires Inv(g, s)
    ensures s.workers[g.target].done <= DoneAt(s, g.target - 1)
  {
    hide RootOk, Passed, Valid, SockMessage, LinkMessage, NormalOk, BypassOk;
    assert StageOk(g, s, g.target);
  }

  // Past the target it takes a skipped one; and it never mistakes a control packet.
  lemma NextBypass(g: Run, s: State)
    requires Inv(g, s) && Enabled(g, s, TakeBypass)
    ensures var t := s.workers[g.target + 1].done;
            && g.target != 1 && g.skip(t) && Head(s.bypass) == AfterTarget(g, t)
            && t + 1 <= DoneAt(s, g.target - 1)
  {
    hide RootOk, Passed, Valid, NormalOk, BypassOk, Skips, AfterTarget, SockMessage;
    var k := g.target + 1;
    NotAhead(g, s, g.target - 1);
    assert StageOk(g, s, k);
    if g.target != 1 {
      HeadBypass(g, s.bypass, DoneAt(s, g.target - 1), s.workers[k].done);
    }
  }

  lemma TakeInputKeepsInv(g: Run, s: State, k: nat)
    requires Inv(g, s) && Enabled(g, s, TakeInput(k)) && k != g.target + 1
    ensures Inv(g, Apply(g, s, TakeInput(k)))
  {
    NextInput(g, s, k);
    hide RootOk, Passed, Valid, SockMessage, NormalOk, BypassOk;
    var s' := Apply(g, s, TakeInput(k));
    assert StageOk(g, s, k);
    OthersKept(g, s, s', k);
  }

  lemma NormalTaken(g: Run, f: Fifo<Message>, sent: nat, t: nat)
    requires NormalOk(g, f, sent, t) && !Empty(f) && !g.skip(t)
    ensures NormalOk(g, Pop(f), sent, t + 1)
  {
    hide Skips, AfterTarget;
    SkipsNext(g, t);
  }

  lemma NormalPassedBy(g: Run, f: Fifo<Message>, sent: nat, t: nat)
    requires NormalOk(g, f, sent, t) && g.skip(t)
    ensures NormalOk(g, f, sent, t + 1)
  {
    hide Skips, AfterTarget;
    SkipsNext(g, t);
  }

  lemma BypassTaken(g: Run, f: Fifo<Message>, sent: nat, t: nat)
    requires BypassOk(g, f, sent, t) && !Empty(f) && g.skip(t)
    ensures BypassOk(g, Pop(f), sent, t + 1)
  {
    hide Skips, AfterTarget;
    SkipsNext(g, t);
  }

  lemma BypassPassedBy(g: Run, f: Fifo<Message>, sent: nat, t: nat)
    requires BypassOk(g, f, sent, t) && !g.skip(t)
    ensures BypassOk(g, f, sent, t + 1)
  {
    hide Skips, AfterTarget;
    SkipsNext(g, t);
  }

  lemma TakeNormalKeepsInv(g: Run, s: State)
    requires Inv(g, s) && Enabled(g, s, TakeInput(g.target + 1))
    ensures Inv(g, Apply(g, s, TakeInput(g.target + 1)))
  {
    hide RootOk, Passed, Valid, SockMessage, NormalOk, BypassOk, Skips;
    var k := g.target + 1;
    NextNormal(g, s);
    var s' := Apply(g, s, TakeInput(k));
    assert StageOk(g, s, k);
    var t := s.workers[k].done;
    NormalTaken(g, s.link[k], s.workers[g.target].done, t);
    BypassPassedBy(g, s.bypass, DoneAt(s, g.target - 1), t);
    OthersKept(g, s, s', k);
  }

  lemma TakeBypassKeepsInv(g: Run, s: State)
    requires Inv(g, s) && Enabled(g, s, TakeBypass)
    ensures Inv(g, Apply(g, s, TakeBypass))
  {
    hide RootOk, Passed, Valid, SockMessage, NormalOk, BypassOk, Skips;
    var k := g.target + 1;
    NextBypass(g, s);
    var s' := Apply(g, s, TakeBypass);
    assert StageOk(g, s, k);
    var t := s.workers[k].done;
    BypassTaken(g, s.bypass, DoneAt(s, g.target - 1), t);
    NormalPassedBy(g, s.link[k], s.workers[g.target].done, t);
    OthersKept(g, s, s', k);
  }

  lemma StartKeepsInv(g: Run, s: State)
    requires Inv(g, s) && Enabled(g, s, Start)
    ensures Inv(g, Apply(g, s, Start))
  {
    var s' := Apply(g, s, Start);
    hide Passed, LinkMessage;
    forall q | 1 <= q < g.stages
      ensures StageOk(g, s', q)
    {
      assert StageOk(g, s, q);
      StartKeepsSock(g, s, q);
      StartKeepsLink(g, s, q);
    }
  }

  lemma StartKeepsSock(g: Run, s: State, q: nat)
    requires Inv(g, s) && Enabled(g, s, Start) && 1 <= q < g.stages
    ensures SockOk(g, Apply(g, s, Start), q) && WorkerOk(g, Apply(g, s, Start), q)
  {
    hide Passed, LinkMessage, LinkOk, RootOk, Valid;
    assert StageOk(g, s, q);
  }

  lemma StartKeepsLink(g: Run, s: State, q: nat)
    requires Inv(g, s) && Enabled(g, s, Start) && 1 <= q < g.stages
    ensures q >= 2 ==> LinkOk(g, Apply(g, s, Start), q)
  {
    hide Passed, LinkMessage, SockOk, RootOk, NormalOk;
    assert StageOk(g, s, q);
    var s' := Apply(g, s, Start);
    if q == g.target + 1 && g.target == 1 {
      hide Apply, Enabled;
      assert !g.skip(s.root.started);
    }
  }

  // ---------------------------------------------------------------------------
  // Passing a token on
  // ---------------------------------------------------------------------------

  lemma FinishKeepsSelf(g: Run, s: State, k: nat)
    requires Inv(g, s) && Enabled(g, s, Finish(k))
    ensures Shape(g, Apply(g, s, Finish(k))) && StageOk(g, Apply(g, s, Finish(k)), k)
  {
    hide Passed, LinkMessage, SockMessage, RootOk, Valid, NormalOk, BypassOk;
    assert StageOk(g, s, k);
    assert Apply(g, s, Finish(k)).link[k] == s.link[k] && (k == g.target + 1 ==> Apply(g, s, Finish(k)).bypass == s.bypass);
  }

  // What stage k sends when it finishes token t.
  lemma PassedOn(g: Run, s: State, k: nat)
    requires Inv(g, s) && Enabled(g, s, Finish(k)) && s.workers[k].pc == Ready
    ensures var w := s.workers[k];
            w.position == g.first + w.done && w.path + [k] == Passed(g, k, w.done)
  {
    hide LinkOk, SockOk, RootOk;
    assert StageOk(g, s, k);
  }

  lemma FinishKeepsNext(g: Run, s: State, k: nat)
    requires Inv(g, s) && Enabled(g, s, Finish(k)) && k + 1 < g.stages && k != g.target
    ensures StageOk(g, Apply(g, s, Finish(k)), k + 1)
  {
    hide SockMessage, RootOk, Valid, NormalOk, BypassOk, Skips;
    assert StageOk(g, s, k) && StageOk(g, s, k + 1);
    if s.workers[k].pc == Ready {
      PassedOn(g, s, k);
    }
  }

  lemma NormalGrows(g: Run, f: Fifo<Message>, t: nat, got: nat)
    requires NormalOk(g, f, t, got) && !g.skip(t)
    ensures NormalOk(g, Push(f, AfterTarget(g, t)), t + 1, got)
  {
    hide Skips, AfterTarget;
    SkipsNext(g, t);
    var f' := Push(f, AfterTarget(g, t));
    forall u: nat | u < t + 1 && !g.skip(u)
      ensures Holds(f', u - Skips(g, u), AfterTarget(g, u))
    {
      if u < t {
        assert Holds(f, u - Skips(g, u), AfterTarget(g, u));
      }
    }
  }

  lemma NormalSkipped(g: Run, f: Fifo<Message>, t: nat, got: nat)
    requires NormalOk(g, f, t, got) && g.skip(t)
    ensures NormalOk(g, f, t + 1, got)
  {
    hide Skips, AfterTarget;
    SkipsNext(g, t);
  }

  lemma BypassGrows(g: Run, f: Fifo<Message>, t: nat, got: nat)
    requires BypassOk(g, f, t, got) && g.skip(t)
    ensures BypassOk(g, Push(f, AfterTarget(g, t)), t + 1, got)
  {
    hide Skips, AfterTarget;
    SkipsNext(g, t);
    var f' := Push(f, AfterTarget(g, t));
    forall u: nat | u < t + 1 && g.skip(u)
      ensures Holds(f', Skips(g, u), AfterTarget(g, u))
    {
      if u < t {
        assert Holds(f, Skips(g, u), AfterTarget(g, u));
      }
    }
  }

  lemma BypassNotSkipped(g: Run, f: Fifo<Message>, t: nat, got: nat)
    requires BypassOk(g, f, t, got) && !g.skip(t)
    ensures BypassOk(g, f, t + 1, got)
  {
    hide Skips, AfterTarget;
    SkipsNext(g, t);
  }

  lemma TargetKeepsNext(g: Run, s: State)
    requires Inv(g, s) && Enabled(g, s, Finish(g.target))
    ensures StageOk(g, Apply(g, s, Finish(g.target)), g.target + 1)
  {
    hide SockMessage, RootOk, Valid, Skips, NormalOk, BypassOk, Passed, LinkMessage;
    var k, q := g.target, g.target + 1;
    var w := s.workers[k];
    assert StageOk(g, s, k) && StageOk(g, s, q);
    if w.pc == Skipping {
      NormalSkipped(g, s.link[q], w.done, Got(s.workers[q]));
    } else {
      PassedOn(g, s, k);
      NormalGrows(g, s.link[q], w.done, Got(s.workers[q]));
    }
  }

  // The stage before the target: what it means for the stage after the target.
  lemma DeciderKeepsAfterNext(g: Run, s: State)
    requires Inv(g, s) && g.target >= 2 && Enabled(g, s, Finish(g.target - 1))
    ensures StageOk(g, Apply(g, s, Finish(g.target - 1)), g.target + 1)
  {
    hide SockMessage, RootOk, Valid, Skips, NormalOk, BypassOk;
    var k, q := g.target - 1, g.target + 1;
    var w := s.workers[k];
    assert StageOk(g, s, k) && StageOk(g, s, q);
    PassedOn(g, s, k);
    if g.skip(w.done) {
      SkippedAddsNothing(g, w.done);
      BypassGrows(g, s.bypass, w.done, Got(s.workers[q]));
    } else {
      BypassNotSkipped(g, s.bypass, w.done, Got(s.workers[q]));
    }
  }

  lemma SkippedAddsNothing(g: Run, t: nat)
    requires g.target >= 1 && g.skip(t)
    ensures AfterTarget(g, t) == Act(g.first + t, Passed(g, g.target - 1, t))
  {
  }

  lemma FinishKeepsRoot(g: Run, s: State, k: nat)
    requires Inv(g, s) && Enabled(g, s, Finish(k))
    ensures RootOk(g, Apply(g, s, Finish(k)))
  {
    assert StageOk(g, s, k);
    if s.workers[k].pc == Ready {
      PassedOn(g, s, k);
    }
    hide Passed, SockOk, LinkOk, Valid;
  }

  // Finishing a token touches the stage itself, the next one, and past the target the one after.
  lemma FinishEffect(g: Run, s: State, k: nat, q: nat)
    requires Shape(g, s) && Enabled(g, s, Finish(k)) && 1 <= q < g.stages && q != k && q != k + 1
    ensures var s' := Apply(g, s, Finish(k));
            && Shape(g, s') && s'.root == s.root && s'.workers[q] == s.workers[q] && s'.sock[q] == s.sock[q]
            && s'.link[q] == s.link[q] && DoneAt(s', q - 1) == DoneAt(s, q - 1)
            && (q == g.target + 1 && k + 1 != g.target ==> s'.bypass == s.bypass && DoneAt(s', q - 2) == DoneAt(s, q - 2))
  {
  }

  lemma FinishKeepsInv(g: Run, s: State, k: nat)
    requires Inv(g, s) && Enabled(g, s, Finish(k))
    ensures Inv(g, Apply(g, s, Finish(k)))
  {
    hide StageOk, RootOk, Passed, Valid, Skips, Apply;
    FinishKeepsRoot(g, s, k);
    var s' := Apply(g, s, Finish(k));
    FinishKeepsSelf(g, s, k);
    forall q | 1 <= q < g.stages
      ensures StageOk(g, s', q)
    {
      if q == k {
      } else if q == k + 1 {
        if k == g.target {
          TargetKeepsNext(g, s);
        } else {
          FinishKeepsNext(g, s, k);
        }
      } else if q == k + 2 && k + 1 == g.target {
        DeciderKeepsAfterNext(g, s);
      } else {
        FinishEffect(g, s, k, q);
        Frame(g, s, s', q);
      }
    }
  }

  lemma ActionKeepsInv(g: Run, s: State, a: Action)
    requires Inv(g, s) && Enabled(g, s, a)
    ensures Inv(g, Apply(g, s, a))
  {
    hide Inv, Apply;
    match a
    case Start => StartKeepsInv(g, s);
    case Collect => CollectKeepsInv(g, s);
    case TakeCtrl(k) => TakeCtrlKeepsInv(g, s, k);
    case TakeInput(k) =>
      if k == g.target + 1 {
        TakeNormalKeepsInv(g, s);
      } else {
        TakeInputKeepsInv(g, s, k);
      }
    case TakeBypass => TakeBypassKeepsInv(g, s);
    case Finish(k) => FinishKeepsInv(g, s, k);
  }

  /** A run: any interleaving of the root and the workers. */
  ghost predicate Execution(g: Run, run: seq<State>, acts: seq<Action>) {
    && Valid(g) && |run| == |acts| + 1 && Init(g, run[0])
    && forall i :: 0 <= i < |acts| ==> Enabled(g, run[i], acts[i]) && run[i + 1] == Apply(g, run[i], acts[i])
  }

  lemma {:induction false} Reachable(g: Run, run: seq<State>, acts: seq<Action>, i: nat)
    requires Execution(g, run, acts) && i < |run|
    ensures Inv(g, run[i])
  {
    hide Inv, Apply, Enabled, Init;
    if i == 0 {
      InitInv(g, run[0]);
    } else {
      Reachable(g, run, acts, i - 1);
      assert Enabled(g, run[i - 1], acts[i - 1]) && run[i - 1 + 1] == Apply(g, run[i - 1], acts[i - 1]);
      ActionKeepsInv(g, run[i - 1], acts[i - 1]);
    }
  }

  // ---------------------------------------------------------------------------
  // Results
  // ---------------------------------------------------------------------------

  predicate Sent(f: Fifo<Message>, position: nat, n: nat) {
    n < |f.log| && f.log[n].position == position
  }

  // The only message with m's position is m itself, the n-th.
  ghost predicate SentOnce(f: Fifo<Message>, m: Message, n: nat) {
    Sent(f, m.position, n) && f.log[n] == m && forall k: nat :: Sent(f, m.position, k) ==> k == n
  }

  ghost predicate NeverSent(f: Fifo<Message>, position: nat) {
    forall k: nat :: !Sent(f, position, k)
  }

  // Which token the n-th message on either channel belongs to.
  lemma {:induction false} NthKept(g: Run, sent: nat, n: nat) returns (u: nat)
    requires n < sent - Skips(g, sent)
    ensures u < sent && !g.skip(u) && n == u - Skips(g, u)
  {
    hide Skips;
    SkipsNext(g, sent - 1);
    if !g.skip(sent - 1) && n == sent - 1 - Skips(g, sent - 1) {
      u := sent - 1;
    } else {
      u := NthKept(g, sent - 1, n);
    }
  }

  lemma {:induction false} NthSkipped(g: Run, sent: nat, n: nat) returns (u: nat)
    requires n < Skips(g, sent)
    ensures u < sent && g.skip(u) && n == Skips(g, u)
  {
    hide Skips;
    SkipsNext(g, sent - 1);
    if g.skip(sent - 1) && n == Skips(g, sent - 1) {
      u := sent - 1;
    } else {
      u := NthSkipped(g, sent - 1, n);
    }
  }

  lemma NormalOrigin(g: Run, f: Fifo<Message>, sent: nat, got: nat, n: nat) returns (u: nat)
    requires NormalOk(g, f, sent, got) && n < |f.log|
    ensures u < sent && !g.skip(u) && n == u - Skips(g, u) && f.log[n] == AfterTarget(g, u)
  {
    hide Skips, AfterTarget;
    u := NthKept(g, sent, n);
    assert Holds(f, u - Skips(g, u), AfterTarget(g, u));
  }

  lemma BypassOrigin(g: Run, f: Fifo<Message>, sent: nat, got: nat, n: nat) returns (u: nat)
    requires BypassOk(g, f, sent, got) && n < |f.log|
    ensures u < sent && g.skip(u) && n == Skips(g, u) && f.log[n] == AfterTarget(g, u)
  {
    hide Skips, AfterTarget;
    u := NthSkipped(g, sent, n);
    assert Holds(f, Skips(g, u), AfterTarget(g, u));
  }

  lemma NormalOnce(g: Run, f: Fifo<Message>, sent: nat, got: nat, t: nat)
    requires NormalOk(g, f, sent, got)
    ensures !g.skip(t) && t < sent ==> SentOnce(f, AfterTarget(g, t), t - Skips(g, t))
    ensures g.skip(t) ==> NeverSent(f, g.first + t)
  {
    hide Skips, Passed;
    if !g.skip(t) && t < sent {
      assert Holds(f, t - Skips(g, t), AfterTarget(g, t));
    }
    var p := g.first + t;
    forall k: nat | Sent(f, p, k)
      ensures !g.skip(t) && k == t - Skips(g, t)
    {
      var u := NormalOrigin(g, f, sent, got, k);
    }
  }

  lemma BypassOnce(g: Run, f: Fifo<Message>, sent: nat, got: nat, t: nat)
    requires BypassOk(g, f, sent, got)
    ensures g.skip(t) && t < sent ==> SentOnce(f, AfterTarget(g, t), Skips(g, t))
    ensures !g.skip(t) ==> NeverSent(f, g.first + t)
  {
    hide Skips, Passed;
    if g.skip(t) && t < sent {
      assert Holds(f, Skips(g, t), AfterTarget(g, t));
    }
    var p := g.first + t;
    forall k: nat | Sent(f, p, k)
      ensures g.skip(t) && k == Skips(g, t)
    {
      var u := BypassOrigin(g, f, sent, got, k);
    }
  }

  /** The stage after the target is sent exactly one activation for each token the target and the
      stage before it have passed, and it carries that token's position: past the target if the
      token is skipped, otherwise from the target, and never both. */
  lemma ExactlyOneActivation(g: Run, run: seq<State>, acts: seq<Action>, i: nat, t: nat)
    requires Execution(g, run, acts) && i < |run|
    requires Shape(g, run[i]) && t < DoneAt(run[i], g.target - 1) && t < run[i].workers[g.target].done
    ensures var s := run[i];
            if g.skip(t) then SentOnce(s.bypass, AfterTarget(g, t), Skips(g, t)) && NeverSent(s.link[g.target + 1], g.first + t)
            else SentOnce(s.link[g.target + 1], AfterTarget(g, t), t - Skips(g, t)) && NeverSent(s.bypass, g.first + t)
  {
    Reachable(g, run, acts, i);
    var s := run[i];
    hide Execution, SockOk, WorkerOk, RootOk, Skips, Passed, NormalOk, BypassOk, Valid, AfterTarget;
    var k := g.target + 1;
    assert StageOk(g, s, k);
    NormalOnce(g, s.link[k], s.workers[g.target].done, Got(s.workers[k]), t);
    BypassOnce(g, s.bypass, DoneAt(s, g.target - 1), Got(s.workers[k]), t);
  }

  /** The target is sent one message per token, a marker for a skipped token and otherwise the
      activation; no stage ever meets a message it does not expect; and a stage at work has
      the input of the token its control packet announced. */
  lemma NothingUnexpected(g: Run, run: seq<State>, acts: seq<Action>, i: nat, k: nat)
    requires Execution(g, run, acts) && i < |run| && 1 <= k < g.stages
    ensures Shape(g, run[i])
    ensures var w := run[i].workers[k];
            && w.pc != Broken
            && (w.pc == Ready ==> w.position == g.first + w.done && w.path == Passed(g, k - 1, w.done))
            && (w.pc == Skipping ==> k == g.target && g.skip(w.done))
    ensures k == g.target >= 2 ==>
              forall t :: 0 <= t < |run[i].link[k].log| ==>
                run[i].link[k].log[t] == if g.skip(t) then Marker(g.first + t) else Act(g.first + t, Passed(g, k - 1, t))
  {
    Reachable(g, run, acts, i);
    hide Execution, SockOk, RootOk, Skips, Passed;
    assert StageOk(g, run[i], k);
  }

  /** The root gets, for every token in order, what all stages but a skipped target computed. */
  lemma LogitsAreComplete(g: Run, run: seq<State>, acts: seq<Action>, i: nat, t: nat)
    requires Execution(g, run, acts) && i < |run| && t < |run[i].root.logits|
    ensures run[i].root.logits[t] == Passed(g, g.stages - 1, t)
  {
    Reachable(g, run, acts, i);
    hide Execution, StageOk, Passed;
  }

  // ---------------------------------------------------------------------------
  // No deadlock
  // ---------------------------------------------------------------------------

  ghost predicate Stuck(g: Run, s: State) {
    forall a: Action :: !Enabled(g, s, a)
  }

  // When nothing can move every stage has done all that was started.
  lemma {:induction false} AllCaughtUp(g: Run, s: State, k: nat)
    requires Inv(g, s) && Stuck(g, s) && k < g.stages
    ensures DoneAt(s, k) == s.root.started
  {
    hide RootOk, Skips, NormalOk, BypassOk, Passed, SockMessage, LinkMessage;
    if k >= 1 {
      assert StageOk(g, s, k);
      assert !Enabled(g, s, TakeCtrl(k)) && !Enabled(g, s, TakeInput(k)) && !Enabled(g, s, Finish(k));
      AllCaughtUp(g, s, k - 1);
      if k == g.target + 1 {
        AllCaughtUp(g, s, k - 2);
        assert !Enabled(g, s, TakeBypass);
        BothEmpty(g, s.link[k], s.bypass, s.root.started, s.workers[k].done, g.target == 1);
      }
    }
  }

  lemma BothEmpty(g: Run, normal: Fifo<Message>, bypass: Fifo<Message>, sent: nat, got: nat, noSkips: bool)
    requires got <= sent
    ensures (NormalOk(g, normal, sent, got) && BypassOk(g, bypass, sent, got) && Empty(normal)
             && (Empty(bypass) || (noSkips && forall t :: !g.skip(t)))) ==> got == sent
  {
    if got < sent && forall t :: !g.skip(t) {
      NoSkips(g, sent);
      NoSkips(g, got);
    }
    hide Skips, AfterTarget;
  }

  lemma {:induction false} NoSkips(g: Run, n: nat)
    requires forall t :: !g.skip(t)
    ensures Skips(g, n) == 0
  {
    if n > 0 {
      NoSkips(g, n - 1);
    }
  }

  /** Something can move until the root has the logits of every token and every stage, the
      skipped one included, has dealt with every token. */
  lemma NoDeadlock(g: Run, run: seq<State>, acts: seq<Action>, i: nat, k: nat)
    requires Execution(g, run, acts) && i < |run| && Stuck(g, run[i]) && 1 <= k < g.stages
    ensures |run[i].root.logits| == g.tokens
    ensures Shape(g, run[i]) && run[i].workers[k].done == g.tokens
  {
    Reachable(g, run, acts, i);
    var s := run[i];
    hide Execution, StageOk, Passed;
    AllCaughtUp(g, s, g.stages - 1);
    AllCaughtUp(g, s, k);
    assert !Enabled(g, s, Start) && !Enabled(g, s, Collect);
  }

  // ---------------------------------------------------------------------------
  // Every run ends
  // ---------------------------------------------------------------------------

  function WorkerSteps(w: Worker): nat {
    3 * w.done + match w.pc
                 case AwaitCtrl => 0
                 case AwaitInput => 1
                 case _ => 2
  }

  // Steps taken by stages 1 to n - 1.
  function SumSteps(workers: seq<Worker>, n: nat): nat
    requires n <= |workers|
  {
    if n <= 1 then 0 else SumSteps(workers, n - 1) + WorkerSteps(workers[n - 1])
  }

  function Steps(s: State): nat {
    s.root.started + s.root.finished + SumSteps(s.workers, |s.workers|)
  }

  lemma {:induction false} SumChanges(before: seq<Worker>, after: seq<Worker>, k: nat, n: nat)
    requires |before| == |after| && 1 <= k < |before| && n <= |before| && after == before[k := after[k]]
    ensures SumSteps(after, n) ==
            SumSteps(before, n) + if k < n then WorkerSteps(after[k]) - WorkerSteps(before[k]) else 0
  {
    hide WorkerSteps;
    if n > 1 {
      SumChanges(before, after, k, n - 1);
    }
  }

  // The worker an action belongs to.
  function Actor(g: Run, a: Action): nat {
    match a
    case TakeCtrl(k) => k
    case TakeInput(k) => k
    case Finish(k) => k
    case TakeBypass => g.target + 1
    case _ => 0
  }

  lemma WorkerStepCounts(g: Run, s: State, a: Action)
    requires Inv(g, s) && Enabled(g, s, a) && a != Start && a != Collect
    ensures var s', k := Apply(g, s, a), Actor(g, a);
            && s'.root == s.root && 1 <= k < |s.workers| == |s'.workers| && s'.workers == s.workers[k := s'.workers[k]]
            && WorkerSteps(s'.workers[k]) == WorkerSteps(s.workers[k]) + 1
  {
    hide LinkOk, SockOk, RootOk, Passed, Skips, Valid;
    ActionKeepsInv(g, s, a);
    assert StageOk(g, Apply(g, s, a), Actor(g, a));
  }

  lemma ActionCounts(g: Run, s: State, a: Action)
    requires Inv(g, s) && Enabled(g, s, a)
    ensures Steps(Apply(g, s, a)) == Steps(s) + 1
  {
    if a == Start || a == Collect {
      hide StageOk, RootOk, Passed, SumSteps, WorkerSteps;
    } else {
      hide StageOk, RootOk, Passed, Apply, WorkerSteps;
      WorkerStepCounts(g, s, a);
      SumChanges(s.workers, Apply(g, s, a).workers, Actor(g, a), |s.workers|);
    }
  }

  lemma {:induction false} SumBound(g: Run, s: State, n: nat)
    requires Inv(g, s) && 1 <= n <= g.stages
    ensures SumSteps(s.workers, n) <= (n - 1) * (3 * g.tokens)
  {
    hide LinkOk, Passed, SockMessage;
    if n > 1 {
      SumBound(g, s, n - 1);
      assert StageOk(g, s, n - 1);
      NextMultiple(n - 2, 3 * g.tokens);
    } else {
      assert (n - 1) * (3 * g.tokens) == 0;
    }
  }

  /** A run has at most two steps of the root and three of each worker per token; with NoDeadlock,
      every maximal run decodes all tokens. */
  lemma {:induction false} EveryRunEnds(g: Run, run: seq<State>, acts: seq<Action>, i: nat)
    requires Execution(g, run, acts) && i < |run|
    ensures Steps(run[i]) == i <= 2 * g.tokens + (g.stages - 1) * (3 * g.tokens)
  {
    hide Apply, Enabled, StageOk, Passed;
    Reachable(g, run, acts, i);
    SumBound(g, run[i], g.stages);
    if i == 0 {
      NoSteps(g, run[0], g.stages);
    } else {
      EveryRunEnds(g, run, acts, i - 1);
      Reachable(g, run, acts, i - 1);
      assert Enabled(g, run[i - 1], acts[i - 1]) && run[i - 1 + 1] == Apply(g, run[i - 1], acts[i - 1]);
      ActionCounts(g, run[i - 1], acts[i - 1]);
    }
  }

  // A run can be continued until it is stuck.
  lemma {:induction false} Completed(g: Run, run: seq<State>, acts: seq<Action>) returns (whole: seq<State>, all: seq<Action>)
    requires Execution(g, run, acts)
    ensures Execution(g, whole, all) && Stuck(g, whole[|all|])
    decreases 2 * g.tokens + (g.stages - 1) * (3 * g.tokens) - |acts|
  {
    hide Apply, Enabled, Init;
    EveryRunEnds(g, run, acts, |acts|);
    var s := run[|acts|];
    if a: Action :| Enabled(g, s, a) {
      var longer, more := run + [Apply(g, s, a)], acts + [a];
      EveryRunEnds(g, longer, more, |more|);
      whole, all := Completed(g, longer, more);
    } else {
      whole, all := run, acts;
    }
  }

  /** A run that decodes all tokens exists. */
  lemma CompleteRunExists(g: Run) returns (run: seq<State>, acts: seq<Action>)
    requires Valid(g)
    ensures Execution(g, run, acts) && |run[|acts|].root.logits| == g.tokens
  {
    var idle: Fifo<Message> := Fifo([], 0);
    var s := State(Root(0, 0, []), seq(g.stages, _ => Worker(0, AwaitCtrl, 0, [])),
                   seq(g.stages, _ => idle), seq(g.stages, _ => idle), idle, idle);
    assert Init(g, s);
    hide Init, Stuck;
    run, acts := Completed(g, [s], []);
    NoDeadlock(g, run, acts, |acts|, 1);
  }

  lemma {:induction false} NoSteps(g: Run, s: State, n: nat)
    requires Valid(g) && Init(g, s) && n <= g.stages
    ensures SumSteps(s.workers, n) == 0
  {
    if n > 1 {
      NoSteps(g, s, n - 1);
    }
  }
}
