/** The executor's step barrier as a transition system: one atomic load, store or
    fetch-and-add per action, any number of worker threads, any number of forward() calls. */
module ExecutorBarrier {

  // ---------------------------------------------------------------------------
  // State
  // ---------------------------------------------------------------------------

  /** Where a worker thread stands in its loop. */
  datatype Pc =
    | Wait        // blocked on the condition variable
    | LoadEpoch   // woken; about to read the epoch
    | LoadStep    // about to read currentStepIndex
    | Begin       // about to start its share of step `cur`
    | End         // inside step `cur`
    | Arrive      // about to bump doneThreadCount
    | Reset       // last to arrive: about to clear doneThreadCount
    | Advance     // about to bump currentStepIndex
    | SpinStep    // spinning: about to compare currentStepIndex
    | SpinEpoch   // spinning: about to compare the epoch
    | Leave       // about to bump doneRunThreadCount
    | SignalDone  // last to leave: about to set isRunDone

  datatype Thread = Thread(pc: Pc, localEpoch: nat, cur: nat)

  /** Where forward() stands; the five stores happen under the mutex. */
  datatype Main = Idle | StoreStep | StoreArrived | StoreLeft | StoreNotDone | StoreEpoch | Unlock | Await

  // The share of one thread in step .1 of run .0.
  type Event = (nat, nat)

  /** The shared atomics, the threads, and history that no action reads: `arrived` and `left`
      name the threads counted in doneThreads and doneRuns, `closer` and `signaler` the thread
      that came last (-1 for none), `begun` and `ended` what each thread did. */
  datatype State = State(nThreads: nat, nSteps: nat,
                         epoch: nat, currentStep: nat, doneThreads: nat, doneRuns: nat, isRunDone: bool,
                         main: Main, threads: seq<Thread>,
                         arrived: set<nat>, left: set<nat>, closer: int, signaler: int,
                         begun: seq<seq<Event>>, ended: seq<seq<Event>>)

  predicate Shape(s: State) {
    && s.nThreads > 0
    && |s.threads| == |s.begun| == |s.ended| == s.nThreads
  }

  // forward() holds the mutex.
  predicate Locked(s: State) {
    s.main != Idle && s.main != Await
  }

  predicate Init(s: State) {
    && Shape(s)
    && s.epoch == s.currentStep == s.doneThreads == s.doneRuns == 0 && s.isRunDone
    && s.main == Idle && s.arrived == {} && s.left == {} && s.closer == s.signaler == -1
    && forall t :: 0 <= t < s.nThreads ==> s.threads[t] == Thread(Wait, 0, 0) && s.begun[t] == [] && s.ended[t] == []
  }

  // ---------------------------------------------------------------------------
  // Actions
  // ---------------------------------------------------------------------------

  // The wait predicate is evaluated under the mutex; everything else never blocks.
  predicate Enabled(s: State, t: nat)
    requires Shape(s) && t < s.nThreads
  {
    s.threads[t].pc == Wait ==> !Locked(s) && s.epoch != s.threads[t].localEpoch
  }

  function Goto(s: State, t: nat, pc: Pc): State
    requires Shape(s) && t < s.nThreads
  {
    s.(threads := s.threads[t := s.threads[t].(pc := pc)])
  }

  /** The one action of thread t. */
  function Act(s: State, t: nat): State
    requires Shape(s) && t < s.nThreads && Enabled(s, t)
  {
    var th := s.threads[t];
    match th.pc
    case Wait => Goto(s, t, LoadEpoch)
    case LoadEpoch => s.(threads := s.threads[t := th.(pc := LoadStep, localEpoch := s.epoch)])
    case LoadStep =>
      if s.currentStep == s.nSteps then Goto(s, t, Leave)
      else s.(threads := s.threads[t := th.(pc := Begin, cur := s.currentStep)])
    case Begin => Goto(s, t, End).(begun := s.begun[t := s.begun[t] + [(th.localEpoch, th.cur)]])
    case End => Goto(s, t, Arrive).(ended := s.ended[t := s.ended[t] + [(th.localEpoch, th.cur)]])
    case Arrive =>
      Goto(s, t, if s.doneThreads == s.nThreads - 1 then Reset else SpinStep)
        .(doneThreads := s.doneThreads + 1, arrived := s.arrived + {t},
          closer := if s.doneThreads == s.nThreads - 1 then t else s.closer)
    case Reset => Goto(s, t, Advance).(doneThreads := 0)
    case Advance => Goto(s, t, LoadStep).(currentStep := s.currentStep + 1, arrived := {}, closer := -1)
    case SpinStep => Goto(s, t, if s.currentStep == th.cur then SpinEpoch else LoadStep)
    case SpinEpoch => Goto(s, t, if s.epoch == th.localEpoch then SpinStep else LoadStep)
    case Leave =>
      Goto(s, t, if s.doneRuns == s.nThreads - 1 then SignalDone else Wait)
        .(doneRuns := s.doneRuns + 1, left := s.left + {t},
          signaler := if s.doneRuns == s.nThreads - 1 then t else s.signaler)
    case SignalDone => Goto(s, t, Wait).(isRunDone := true, signaler := -1)
  }

  // The caller blocks only while a run is in progress.
  predicate MainEnabled(s: State) {
    s.main == Await ==> s.isRunDone
  }

  function MainAct(s: State): State
    requires MainEnabled(s)
  {
    match s.main
    case Idle => s.(main := StoreStep)
    case StoreStep => s.(main := StoreArrived, currentStep := 0)
    case StoreArrived => s.(main := StoreLeft, doneThreads := 0, arrived := {})
    case StoreLeft => s.(main := StoreNotDone, doneRuns := 0, left := {})
    case StoreNotDone => s.(main := StoreEpoch, isRunDone := false)
    case StoreEpoch => s.(main := Unlock, epoch := s.epoch + 1)
    case Unlock => s.(main := Await)
    case Await => s.(main := Idle)
  }

  ghost predicate Next(s: State, s': State)
    requires Shape(s)
  {
    || (MainEnabled(s) && s' == MainAct(s))
    || (exists t :: 0 <= t < s.nThreads && Enabled(s, t) && s' == Act(s, t))
  }

  // ---------------------------------------------------------------------------
  // History
  // ---------------------------------------------------------------------------

  function Steps(run: nat, k: nat): seq<Event> {
    if k == 0 then [] else Steps(run, k - 1) + [(run, k - 1)]
  }

  // Every step of runs 1..r, in order.
  function AllRuns(nSteps: nat, r: nat): seq<Event> {
    if r == 0 then [] else AllRuns(nSteps, r - 1) + Steps(r, nSteps)
  }

  // ... and the first k steps of run r.
  function UpTo(nSteps: nat, r: nat, k: nat): seq<Event> {
    if r == 0 then [] else AllRuns(nSteps, r - 1) + Steps(r, k)
  }

  // ---------------------------------------------------------------------------
  // Invariant
  // ---------------------------------------------------------------------------

  // A run has been announced and not yet collected.
  predicate Running(s: State) {
    s.main == Unlock || s.main == Await
  }

  function BegunSteps(s: State, th: Thread): nat {
    match th.pc
    case Wait => if th.localEpoch == s.epoch then s.nSteps else 0
    case LoadEpoch => 0
    case LoadStep => s.currentStep
    case Begin => th.cur
    case End => th.cur + 1
    case Arrive => th.cur + 1
    case Reset => th.cur + 1
    case Advance => th.cur + 1
    case SpinStep => th.cur + 1
    case SpinEpoch => th.cur + 1
    case Leave => s.nSteps
    case SignalDone => s.nSteps
  }

  function EndedSteps(s: State, th: Thread): nat {
    if th.pc == End then th.cur else BegunSteps(s, th)
  }

  /** What holds of thread t while a run is in progress. */
  predicate ThreadOk(s: State, t: nat)
    requires Shape(s) && t < s.nThreads
  {
    var th := s.threads[t];
    && s.epoch > 0
    && (s.closer == t <==> th.pc == Reset || th.pc == Advance)
    && (s.signaler == t <==> th.pc == SignalDone)
    && s.begun[t] == UpTo(s.nSteps, s.epoch, BegunSteps(s, th))
    && s.ended[t] == UpTo(s.nSteps, s.epoch, EndedSteps(s, th))
    && match th.pc
       case Wait =>
         && t !in s.arrived
         && (th.localEpoch == s.epoch - 1 || th.localEpoch == s.epoch)
         && (th.localEpoch == s.epoch - 1 ==> s.currentStep == 0 && t !in s.left)
         && (th.localEpoch == s.epoch ==> s.currentStep == s.nSteps && t in s.left)
       case LoadEpoch => th.localEpoch == s.epoch - 1 && s.currentStep == 0 && t !in s.arrived && t !in s.left
       case LoadStep => th.localEpoch == s.epoch && t !in s.arrived && t !in s.left
       case Begin => th.localEpoch == s.epoch && th.cur == s.currentStep < s.nSteps && t !in s.arrived && t !in s.left
       case End => th.localEpoch == s.epoch && th.cur == s.currentStep < s.nSteps && t !in s.arrived && t !in s.left
       case Arrive => th.localEpoch == s.epoch && th.cur == s.currentStep < s.nSteps && t !in s.arrived && t !in s.left
       case Reset => th.localEpoch == s.epoch && th.cur == s.currentStep < s.nSteps && t in s.arrived && t !in s.left
       case Advance => th.localEpoch == s.epoch && th.cur == s.currentStep < s.nSteps && t in s.arrived && t !in s.left
       case SpinStep => th.localEpoch == s.epoch && Spinning(s, t) && t !in s.left
       case SpinEpoch => th.localEpoch == s.epoch && Spinning(s, t) && t !in s.left
       case Leave => th.localEpoch == s.epoch && s.currentStep == s.nSteps && t !in s.arrived && t !in s.left
       case SignalDone => th.localEpoch == s.epoch && s.currentStep == s.nSteps && t !in s.arrived && t in s.left
  }

  // Waiting for the others at the current step, or not yet aware that it is over.
  predicate Spinning(s: State, t: nat)
    requires Shape(s) && t < s.nThreads
  {
    var cur := s.threads[t].cur;
    (cur == s.currentStep < s.nSteps && t in s.arrived) || (cur + 1 == s.currentStep && t !in s.arrived)
  }

  function Ids(n: nat): (r: set<nat>)
    ensures forall t :: t in r <==> 0 <= t < n
    ensures |r| == n
  {
    if n == 0 then {} else Ids(n - 1) + {n - 1}
  }

  predicate Counters(s: State)
    requires Shape(s)
  {
    && s.currentStep <= s.nSteps
    && s.arrived <= Ids(s.nThreads) && s.left <= Ids(s.nThreads)
    && -1 <= s.closer < s.nThreads && -1 <= s.signaler < s.nThreads
    && (s.closer >= 0 <==> s.arrived == Ids(s.nThreads))
    && s.doneThreads == (if s.closer >= 0 && s.threads[s.closer].pc == Advance then 0 else |s.arrived|)
    && s.doneRuns == |s.left|
    && (s.isRunDone || s.signaler >= 0 <==> s.left == Ids(s.nThreads))
    && !(s.isRunDone && s.signaler >= 0)
  }

  // Between runs every thread is parked, whatever forward() has reset so far.
  predicate Parked(s: State, t: nat)
    requires Shape(s) && t < s.nThreads
  {
    && s.threads[t].pc == Wait && s.threads[t].localEpoch == s.epoch
    && s.begun[t] == AllRuns(s.nSteps, s.epoch) && s.ended[t] == AllRuns(s.nSteps, s.epoch)
  }

  predicate ResetSoFar(s: State) {
    && s.closer == s.signaler == -1
    && (s.main in {StoreArrived, StoreLeft, StoreNotDone, StoreEpoch} ==> s.currentStep == 0)
    && (s.main in {StoreLeft, StoreNotDone, StoreEpoch} ==> s.doneThreads == 0 && s.arrived == {})
    && (s.main in {StoreNotDone, StoreEpoch} ==> s.doneRuns == 0 && s.left == {})
    && (s.main == StoreEpoch ==> !s.isRunDone)
  }

  ghost predicate Inv(s: State) {
    && Shape(s)
    && if Running(s) then Counters(s) && forall t :: 0 <= t < s.nThreads ==> ThreadOk(s, t)
       else ResetSoFar(s) && forall t :: 0 <= t < s.nThreads ==> Parked(s, t)
  }

  lemma InitInv(s: State)
    requires Init(s)
    ensures Inv(s)
  {
  }

  lemma FullSet(a: set<nat>, n: nat)
    requires a <= Ids(n)
    ensures |a| <= n && (|a| == n <==> a == Ids(n))
  {
    SubsetSize(a, Ids(n));
  }

  lemma {:induction false} SubsetSize(a: set<nat>, b: set<nat>)
    requires a <= b
    ensures |a| <= |b| && (|a| == |b| ==> a == b)
  {
    if a != {} {
      var x :| x in a;
      SubsetSize(a - {x}, b - {x});
      assert a == (a - {x}) + {x} && b == (b - {x}) + {x};
    } else if |b| == 0 {
    }
  }

  // ---------------------------------------------------------------------------
  // Preservation by the caller
  // ---------------------------------------------------------------------------

  // The stores of forward() touch nothing a parked thread owns.
  lemma ResettingKeepsInv(s: State)
    requires Inv(s) && !Running(s) && s.main != StoreEpoch
    ensures Inv(MainAct(s))
  {
    hide AllRuns, Ids;
    forall t | 0 <= t < s.nThreads
      ensures Parked(MainAct(s), t)
    {
      assert Parked(s, t);
    }
  }

  lemma UnlockKeepsInv(s: State)
    requires Inv(s) && s.main == Unlock
    ensures Inv(MainAct(s))
  {
    hide UpTo, Ids;
    forall t | 0 <= t < s.nThreads
      ensures ThreadOk(MainAct(s), t)
    {
      assert ThreadOk(s, t);
    }
  }

  lemma MainKeepsInv(s: State)
    requires Inv(s) && MainEnabled(s)
    ensures Inv(MainAct(s))
  {
    hide ThreadOk, Parked, Counters, ResetSoFar;
    match s.main
    case StoreEpoch => StartRun(s);
    case Await => CollectRun(s);
    case Unlock => UnlockKeepsInv(s);
    case _ => ResettingKeepsInv(s);
  }

  // Everybody has left, so everybody is parked with the full history of the run.
  lemma CollectRun(s: State)
    requires Inv(s) && s.main == Await && s.isRunDone
    ensures Inv(MainAct(s))
  {
    hide Steps;
    forall t | 0 <= t < s.nThreads
      ensures Parked(MainAct(s), t)
    {
      assert ThreadOk(s, t) && t in s.left;
    }
    assert s.closer >= 0 ==> ThreadOk(s, s.closer) && s.closer in s.left;
  }

  lemma StartRun(s: State)
    requires Inv(s) && s.main == StoreEpoch
    ensures Inv(MainAct(s))
  {
    var s' := MainAct(s);
    forall t | 0 <= t < s.nThreads
      ensures ThreadOk(s', t) && s'.threads[t].pc == Wait
    {
      assert Parked(s, t);
      assert UpTo(s.nSteps, s.epoch + 1, 0) == AllRuns(s.nSteps, s.epoch) + [];
    }
    hide ThreadOk, Parked;
    assert s'.arrived != Ids(s.nThreads) by { assert 0 in Ids(s.nThreads); }
    assert s'.left != Ids(s.nThreads) by { assert 0 in Ids(s.nThreads); }
    assert Counters(s');
  }

  // ---------------------------------------------------------------------------
  // Preservation by the threads
  // ---------------------------------------------------------------------------

  // Everything but the state of thread t is as before.
  predicate OnlyThread(s: State, s': State, t: nat)
    requires Shape(s) && t < s.nThreads
  {
    && s'.nThreads == s.nThreads && s'.nSteps == s.nSteps && s'.epoch == s.epoch && s'.main == s.main
    && |s'.threads| == |s'.begun| == |s'.ended| == s.nThreads
    && forall u :: 0 <= u < s.nThreads && u != t ==>
         s'.threads[u] == s.threads[u] && s'.begun[u] == s.begun[u] && s'.ended[u] == s.ended[u]
  }

  predicate SameShared(s: State, s': State) {
    && s'.currentStep == s.currentStep && s'.doneThreads == s.doneThreads && s'.doneRuns == s.doneRuns
    && s'.isRunDone == s.isRunDone && s'.arrived == s.arrived && s'.left == s.left
    && s'.closer == s.closer && s'.signaler == s.signaler
  }

  lemma UpToStep(nSteps: nat, r: nat, k: nat)
    requires r > 0
    ensures UpTo(nSteps, r, k + 1) == UpTo(nSteps, r, k) + [(r, k)]
  {
    hide AllRuns;
  }

  // A thread that moves by itself between places the counters do not look at.
  lemma LocalMove(s: State, s': State, t: nat)
    requires Inv(s) && Running(s) && t < s.nThreads && OnlyThread(s, s', t) && SameShared(s, s')
    requires ThreadOk(s', t) && s.closer != t && s.signaler != t
    ensures Inv(s')
  {
    hide UpTo, Steps, AllRuns, Ids;
    forall u | 0 <= u < s.nThreads
      ensures ThreadOk(s', u)
    {
      if u != t {
        assert ThreadOk(s, u);
      }
    }
  }

  lemma QuietActKeepsInv(s: State, t: nat)
    requires Inv(s) && Running(s) && t < s.nThreads && Enabled(s, t)
    requires s.threads[t].pc in {Wait, LoadEpoch, LoadStep, Begin, End, SpinStep, SpinEpoch}
    ensures Inv(Act(s, t))
  {
    hide ThreadOk, Counters, Act;
    QuietFrame(s, t);
    QuietThread(s, t);
    LocalMove(s, Act(s, t), t);
  }

  lemma QuietFrame(s: State, t: nat)
    requires Inv(s) && Running(s) && t < s.nThreads && Enabled(s, t)
    requires s.threads[t].pc in {Wait, LoadEpoch, LoadStep, Begin, End, SpinStep, SpinEpoch}
    ensures OnlyThread(s, Act(s, t), t) && SameShared(s, Act(s, t)) && Shape(Act(s, t))
    ensures s.closer != t && s.signaler != t
  {
    hide UpTo, Ids, Counters;
    assert ThreadOk(s, t);
  }

  lemma QuietThread(s: State, t: nat)
    requires Inv(s) && Running(s) && t < s.nThreads && Enabled(s, t)
    requires s.threads[t].pc in {Wait, LoadEpoch, LoadStep, Begin, End, SpinStep, SpinEpoch}
    ensures Shape(Act(s, t)) && ThreadOk(Act(s, t), t)
  {
    hide UpTo, Ids, Act;
    assert ThreadOk(s, t) && s.currentStep <= s.nSteps;
    QuietMove(s, t);
  }

  lemma QuietMove(s: State, t: nat)
    requires Shape(s) && Running(s) && t < s.nThreads && Enabled(s, t) && ThreadOk(s, t) && s.currentStep <= s.nSteps
    requires s.threads[t].pc in {Wait, LoadEpoch, LoadStep, Begin, End, SpinStep, SpinEpoch}
    ensures Shape(Act(s, t)) && ThreadOk(Act(s, t), t)
  {
    hide UpTo, Ids, Act, ThreadOk, Enabled;
    if s.threads[t].pc == Begin || s.threads[t].pc == End {
      WorkMove(s, t);
    } else {
      WaitMove(s, t);
    }
  }

  lemma WorkMove(s: State, t: nat)
    requires Shape(s) && Running(s) && t < s.nThreads && Enabled(s, t) && ThreadOk(s, t)
    requires s.threads[t].pc == Begin || s.threads[t].pc == End
    ensures Shape(Act(s, t)) && ThreadOk(Act(s, t), t)
  {
    hide UpTo, Ids;
    UpToStep(s.nSteps, s.epoch, s.threads[t].cur);
  }

  lemma WaitMove(s: State, t: nat)
    requires Shape(s) && Running(s) && t < s.nThreads && Enabled(s, t) && ThreadOk(s, t) && s.currentStep <= s.nSteps
    requires s.threads[t].pc in {Wait, LoadEpoch, LoadStep, SpinStep, SpinEpoch}
    ensures Shape(Act(s, t)) && ThreadOk(Act(s, t), t)
  {
    hide UpTo, Ids;
  }

  lemma ArriveKeepsInv(s: State, t: nat)
    requires Inv(s) && Running(s) && t < s.nThreads && s.threads[t].pc == Arrive
    ensures Inv(Act(s, t))
  {
    hide ThreadOk, Counters, Ids, Act;
    ArriveKeepsCounters(s, t);
    forall u | 0 <= u < s.nThreads
      ensures ThreadOk(Act(s, t), u)
    {
      ArriveKeepsThread(s, t, u);
    }
  }

  lemma ArriveKeepsCounters(s: State, t: nat)
    requires Inv(s) && Running(s) && t < s.nThreads && s.threads[t].pc == Arrive
    ensures Shape(Act(s, t)) && Running(Act(s, t)) && Act(s, t).nThreads == s.nThreads && Counters(Act(s, t))
  {
    hide UpTo, Steps, AllRuns, Ids;
    var s' := Act(s, t);
    assert ThreadOk(s, t);
    assert t in Ids(s.nThreads) && t !in s.arrived;
    FullSet(s.arrived, s.nThreads);
    FullSet(s'.arrived, s.nThreads);
  }

  lemma ArriveKeepsThread(s: State, t: nat, u: nat)
    requires Inv(s) && Running(s) && t < s.nThreads && s.threads[t].pc == Arrive && u < s.nThreads
    ensures Shape(Act(s, t)) && ThreadOk(Act(s, t), u)
  {
    NobodyClosesYet(s, t);
    if u == t {
      ArriverOk(s, t);
    } else {
      OthersOk(s, t, u);
    }
    hide ThreadOk, Act;
  }

  lemma ArriverOk(s: State, t: nat)
    requires Shape(s) && Running(s) && t < s.nThreads && s.threads[t].pc == Arrive && ThreadOk(s, t)
    ensures Shape(Act(s, t)) && ThreadOk(Act(s, t), t)
  {
    hide UpTo;
  }

  lemma OthersOk(s: State, t: nat, u: nat)
    requires Shape(s) && Running(s) && t < s.nThreads && s.threads[t].pc == Arrive && u < s.nThreads && u != t
    requires ThreadOk(s, u) && s.closer == -1
    ensures Shape(Act(s, t)) && ThreadOk(Act(s, t), u)
  {
    hide UpTo;
  }

  lemma NobodyClosesYet(s: State, t: nat)
    requires Inv(s) && Running(s) && t < s.nThreads && s.threads[t].pc == Arrive
    ensures s.closer == -1
  {
    hide UpTo;
    assert ThreadOk(s, t);
    assert t in Ids(s.nThreads) && t !in s.arrived;
  }

  lemma ResetKeepsInv(s: State, t: nat)
    requires Inv(s) && Running(s) && t < s.nThreads && s.threads[t].pc == Reset
    ensures Inv(Act(s, t))
  {
    hide UpTo, Steps, AllRuns, Ids;
    var s' := Act(s, t);
    assert ThreadOk(s, t);
    forall u | 0 <= u < s.nThreads
      ensures ThreadOk(s', u)
    {
      assert ThreadOk(s, u);
    }
  }

  // Everybody else is spinning at the finished step.
  lemma AdvanceKeepsInv(s: State, t: nat)
    requires Inv(s) && Running(s) && t < s.nThreads && s.threads[t].pc == Advance
    ensures Inv(Act(s, t))
  {
    hide UpTo, Steps, AllRuns;
    var s' := Act(s, t);
    assert ThreadOk(s, t);
    forall u | 0 <= u < s.nThreads
      ensures ThreadOk(s', u)
    {
      assert ThreadOk(s, u) && u in s.arrived;
    }
    assert 0 in Ids(s.nThreads);
  }

  lemma LeaveKeepsInv(s: State, t: nat)
    requires Inv(s) && Running(s) && t < s.nThreads && s.threads[t].pc == Leave
    ensures Inv(Act(s, t))
  {
    hide UpTo, Steps, AllRuns, Ids;
    var s' := Act(s, t);
    assert ThreadOk(s, t);
    assert t in Ids(s.nThreads) && t !in s.left;
    FullSet(s.left, s.nThreads);
    FullSet(s'.left, s.nThreads);
    forall u | 0 <= u < s.nThreads
      ensures ThreadOk(s', u)
    {
      assert ThreadOk(s, u);
    }
  }

  lemma SignalKeepsInv(s: State, t: nat)
    requires Inv(s) && Running(s) && t < s.nThreads && s.threads[t].pc == SignalDone
    ensures Inv(Act(s, t))
  {
    hide UpTo, Steps, AllRuns, Ids;
    var s' := Act(s, t);
    assert ThreadOk(s, t);
    forall u | 0 <= u < s.nThreads
      ensures ThreadOk(s', u)
    {
      assert ThreadOk(s, u);
    }
  }

  /** No thread can act while forward() is resetting the counters, so no thread of an old run
      sees them half reset. */
  lemma NobodyActsBetweenRuns(s: State, t: nat)
    requires Inv(s) && !Running(s) && t < s.nThreads
    ensures !Enabled(s, t)
  {
    assert Parked(s, t);
  }

  lemma ThreadKeepsInv(s: State, t: nat)
    requires Inv(s) && t < s.nThreads && Enabled(s, t)
    ensures Inv(Act(s, t))
  {
    hide Act, Counters, ThreadOk, Parked, ResetSoFar;
    if !Running(s) {
      NobodyActsBetweenRuns(s, t);
    } else {
      match s.threads[t].pc
      case Arrive => ArriveKeepsInv(s, t);
      case Reset => ResetKeepsInv(s, t);
      case Advance => AdvanceKeepsInv(s, t);
      case Leave => LeaveKeepsInv(s, t);
      case SignalDone => SignalKeepsInv(s, t);
      case _ => QuietActKeepsInv(s, t);
    }
  }

  lemma NextKeepsInv(s: State, s': State)
    requires Inv(s) && Next(s, s')
    ensures Inv(s')
  {
    hide Act, MainAct;
    if MainEnabled(s) && s' == MainAct(s) {
      MainKeepsInv(s);
    } else {
      var t :| 0 <= t < s.nThreads && Enabled(s, t) && s' == Act(s, t);
      ThreadKeepsInv(s, t);
    }
  }

  // ---------------------------------------------------------------------------
  // Safety over whole executions
  // ---------------------------------------------------------------------------

  ghost predicate Execution(run: seq<State>) {
    && |run| > 0 && Init(run[0])
    && forall i :: 0 <= i < |run| - 1 ==> Shape(run[i]) && Next(run[i], run[i + 1])
  }

  lemma {:induction false} Reachable(run: seq<State>, i: nat)
    requires Execution(run) && i < |run|
    ensures Inv(run[i])
  {
    hide Inv, Next;
    if i == 0 {
      InitInv(run[0]);
    } else {
      Reachable(run, i - 1);
      assert Next(run[i - 1], run[i - 1 + 1]);
      NextKeepsInv(run[i - 1], run[i]);
    }
  }

  lemma {:induction false} StepsPrefix(run: nat, j: nat, k: nat)
    requires j <= k
    ensures Steps(run, j) <= Steps(run, k)
  {
    if j < k {
      StepsPrefix(run, j, k - 1);
    }
  }

  lemma UpToPrefix(nSteps: nat, r: nat, j: nat, k: nat)
    requires j <= k
    ensures UpTo(nSteps, r, j) <= UpTo(nSteps, r, k)
  {
    hide AllRuns;
    StepsPrefix(r, j, k);
  }

  /** While some thread is inside step k of run r, every thread has finished all earlier
      steps of that run and of every earlier run. */
  lemma BarrierHolds(run: seq<State>, i: nat, t: nat, u: nat)
    requires Execution(run) && i < |run| && t < run[i].nThreads && u < run[i].nThreads
    requires Shape(run[i]) && run[i].threads[t].pc == End
    ensures UpTo(run[i].nSteps, run[i].threads[t].localEpoch, run[i].threads[t].cur) <= run[i].ended[u]
  {
    var s := run[i];
    Reachable(run, i);
    assert !Running(s) ==> Parked(s, t);
    hide UpTo;
    assert ThreadOk(s, t) && ThreadOk(s, u);
    UpToPrefix(s.nSteps, s.epoch, s.currentStep, EndedSteps(s, s.threads[u]));
  }

  /** When forward() has returned, every thread has begun and ended every step of every run
      exactly once and in order. */
  lemma EveryStepExactlyOnce(run: seq<State>, i: nat, t: nat)
    requires Execution(run) && i < |run| && run[i].main == Idle && t < run[i].nThreads && Shape(run[i])
    ensures run[i].begun[t] == run[i].ended[t] == AllRuns(run[i].nSteps, run[i].epoch)
  {
    Reachable(run, i);
    assert Parked(run[i], t);
  }

  /** In every reachable state either forward() can go on or some thread has a productive
      action, one that is not a spin check in vain. */
  lemma NeverStuck(run: seq<State>, i: nat)
    requires Execution(run) && i < |run|
    ensures Shape(run[i])
    ensures MainEnabled(run[i]) || exists t :: 0 <= t < run[i].nThreads && Enabled(run[i], t) && Productive(run[i], t)
  {
    var s := run[i];
    Reachable(run, i);
    if !MainEnabled(s) {
      SomebodyProgresses(s);
    }
  }

  // Any action but re-checking the spin condition in vain.
  predicate Productive(s: State, t: nat)
    requires Shape(s) && t < s.nThreads
  {
    var th := s.threads[t];
    !((th.pc == SpinStep || th.pc == SpinEpoch) && s.currentStep == th.cur)
  }

  lemma SomebodyProgresses(s: State)
    requires Inv(s) && s.main == Await && !s.isRunDone
    ensures exists t :: 0 <= t < s.nThreads && Enabled(s, t) && Productive(s, t)
  {
    hide UpTo, AllRuns, Steps;
    if s.closer >= 0 {
      assert ThreadOk(s, s.closer) && Enabled(s, s.closer) && Productive(s, s.closer);
    } else if s.signaler >= 0 {
      assert ThreadOk(s, s.signaler) && Enabled(s, s.signaler) && Productive(s, s.signaler);
    } else {
      if s.currentStep < s.nSteps {
        var t := Missing(s.arrived, s.nThreads);
        assert ThreadOk(s, t);
        assert Enabled(s, t) && Productive(s, t);
      } else {
        var t := Missing(s.left, s.nThreads);
        assert ThreadOk(s, t);
        assert Enabled(s, t) && Productive(s, t);
      }
    }
  }

  lemma Missing(a: set<nat>, n: nat) returns (t: nat)
    requires a <= Ids(n) && a != Ids(n)
    ensures t < n && t !in a
  {
    t :| t in Ids(n) && t !in a;
  }

  // ---------------------------------------------------------------------------
  // A run takes boundedly many actions
  // ---------------------------------------------------------------------------

  function PcRank(s: State, th: Thread): nat {
    match th.pc
    case Wait => if th.localEpoch == s.epoch then 0 else 9
    case LoadEpoch => 8
    case LoadStep => 7
    case Begin => 6
    case End => 5
    case Arrive => 12
    case Reset => 11
    case Advance => 10
    case SpinStep => if th.cur == s.currentStep then 9 else 8
    case SpinEpoch => 9
    case Leave => 3
    case SignalDone => 2
  }

  // Productive actions thread t can still take in this run.
  function Rank(s: State, t: nat): int
    requires Shape(s) && t < s.nThreads
  {
    (s.nSteps * s.epoch - |s.ended[t]|) * 8 + PcRank(s, s.threads[t])
  }

  function TotalRank(s: State, k: nat): int
    requires Shape(s) && k <= s.nThreads
  {
    if k == 0 then 0 else TotalRank(s, k - 1) + Rank(s, k - 1)
  }

  lemma {:induction false} StepsLength(run: nat, k: nat)
    ensures |Steps(run, k)| == k
  {
    if k > 0 {
      StepsLength(run, k - 1);
    }
  }

  lemma {:induction false} AllRunsLength(nSteps: nat, r: nat)
    ensures |AllRuns(nSteps, r)| == nSteps * r
  {
    if r > 0 {
      AllRunsLength(nSteps, r - 1);
      StepsLength(r, nSteps);
      assert nSteps * r == nSteps * (r - 1) + nSteps;
    }
  }

  lemma EndedAtMostAll(s: State, t: nat)
    requires Inv(s) && Running(s) && t < s.nThreads
    ensures EndedSteps(s, s.threads[t]) <= s.nSteps
  {
    hide UpTo;
    assert ThreadOk(s, t);
  }

  lemma RankNonNegative(s: State, t: nat)
    requires Inv(s) && Running(s) && t < s.nThreads
    ensures Rank(s, t) >= 0
  {
    hide Counters, AllRuns, Steps;
    assert ThreadOk(s, t);
    var k := EndedSteps(s, s.threads[t]);
    assert k <= s.nSteps && s.ended[t] == AllRuns(s.nSteps, s.epoch - 1) + Steps(s.epoch, k) && s.epoch > 0 by {
      EndedAtMostAll(s, t);
    }
    hide ThreadOk, Inv;
    AllRunsLength(s.nSteps, s.epoch - 1);
    StepsLength(s.epoch, k);
    assert s.nSteps * s.epoch == s.nSteps * (s.epoch - 1) + s.nSteps;
  }

  lemma {:induction false} TotalNonNegative(s: State, k: nat)
    requires Inv(s) && Running(s) && k <= s.nThreads
    ensures TotalRank(s, k) >= 0
  {
    if k > 0 {
      TotalNonNegative(s, k - 1);
      RankNonNegative(s, k - 1);
    }
  }

  lemma {:induction false} TotalRankDrops(s: State, t: nat, k: nat)
    requires Inv(s) && Running(s) && t < s.nThreads && k <= s.nThreads && Enabled(s, t) && Shape(Act(s, t))
    requires Act(s, t).nThreads == s.nThreads
    ensures TotalRank(Act(s, t), k) <= TotalRank(s, k) + if t < k then Rank(Act(s, t), t) - Rank(s, t) else 0
  {
    hide Rank, Act, Inv;
    if k > 0 {
      TotalRankDrops(s, t, k - 1);
      OthersRank(s, t, k - 1);
    }
  }

  // Bumping currentStepIndex releases spinning threads; nothing else touches another's rank.
  lemma OthersRank(s: State, t: nat, u: nat)
    requires Inv(s) && Running(s) && t < s.nThreads && u < s.nThreads && Enabled(s, t)
    ensures Shape(Act(s, t)) && Act(s, t).nThreads == s.nThreads
    ensures u != t ==> Rank(Act(s, t), u) <= Rank(s, u)
  {
    hide Inv, Act;
    KnownEpochs(s, u);
    ActIsLocal(s, t);
    StepCounter(s, t);
  }

  lemma StepCounter(s: State, t: nat)
    requires Shape(s) && t < s.nThreads && Enabled(s, t)
    ensures s.currentStep <= Act(s, t).currentStep <= s.currentStep + 1
  {
  }

  lemma KnownEpochs(s: State, t: nat)
    requires Inv(s) && Running(s) && t < s.nThreads
    ensures Shape(s)
    ensures s.threads[t].pc in {SpinStep, SpinEpoch} ==> s.threads[t].cur <= s.currentStep
    ensures s.threads[t].pc in {Leave, SignalDone} ==> s.threads[t].localEpoch == s.epoch
  {
    hide UpTo, Counters, AllRuns;
    assert ThreadOk(s, t);
  }

  lemma ActIsLocal(s: State, t: nat)
    requires Shape(s) && t < s.nThreads && Enabled(s, t)
    ensures OnlyThread(s, Act(s, t), t) && Shape(Act(s, t))
  {
  }

  lemma OwnRankDrops(s: State, t: nat)
    requires Inv(s) && Running(s) && t < s.nThreads && Enabled(s, t)
    ensures Shape(Act(s, t)) && Act(s, t).nThreads == s.nThreads
    ensures Rank(Act(s, t), t) <= Rank(s, t) - if Productive(s, t) then 1 else 0
  {
    hide Inv;
    KnownEpochs(s, t);
  }

  /** Every productive action uses up a bounded budget, which nothing refills before
      forward() returns. */
  lemma RunIsFinite(s: State, t: nat)
    requires Inv(s) && Running(s) && t < s.nThreads && Enabled(s, t)
    ensures Inv(Act(s, t)) && Act(s, t).main == s.main && Act(s, t).nThreads == s.nThreads
    ensures 0 <= TotalRank(Act(s, t), s.nThreads)
            <= TotalRank(s, s.nThreads) - if Productive(s, t) then 1 else 0
  {
    hide Act, Rank, OnlyThread, Enabled, ThreadOk, Parked, Counters, ResetSoFar, Productive;
    assert Shape(s);
    hide Inv;
    ActIsLocal(s, t);
    TotalRankDrops(s, t, s.nThreads);
    OwnRankDrops(s, t);
    ThreadKeepsInv(s, t);
    TotalNonNegative(Act(s, t), s.nThreads);
  }

  // ---------------------------------------------------------------------------
  // Schedules
  // ---------------------------------------------------------------------------

  /** Thread actions from run[0] on: action i is taken by thread who[i]. */
  ghost predicate Schedule(run: seq<State>, who: seq<nat>) {
    && |run| == |who| + 1
    && forall i :: 0 <= i < |who| ==>
         Shape(run[i]) && who[i] < run[i].nThreads && Enabled(run[i], who[i]) && run[i + 1] == Act(run[i], who[i])
  }

  // How many of the actions do more than spin.
  ghost function Work(run: seq<State>, who: seq<nat>): nat
    requires Schedule(run, who)
  {
    if who == [] then 0
    else Work(run[1..], who[1..]) + if Productive(run[0], who[0]) then 1 else 0
  }

  /** While forward() waits, no schedule, however unfair, holds more productive actions than
      the budget it starts with. */
  lemma {:induction false} WorkIsBounded(run: seq<State>, who: seq<nat>)
    requires Schedule(run, who) && Inv(run[0]) && run[0].main == Await
    ensures Inv(run[|who|]) && run[|who|].main == Await && run[|who|].nThreads == run[0].nThreads
    ensures 0 <= TotalRank(run[|who|], run[0].nThreads)
    ensures Work(run, who) + TotalRank(run[|who|], run[0].nThreads) <= TotalRank(run[0], run[0].nThreads)
    decreases |who|
  {
    hide Inv, TotalRank, Productive, Act, Enabled;
    if who == [] {
      BudgetNonNegative(run[0]);
    } else {
      ActionsOfRun(run[0], who[0]);
      WorkIsBounded(run[1..], who[1..]);
    }
  }

  lemma BudgetNonNegative(s: State)
    requires Inv(s) && s.main == Await
    ensures Shape(s) && TotalRank(s, s.nThreads) >= 0
  {
    hide Counters, ThreadOk, TotalRank, Parked;
    TotalNonNegative(s, s.nThreads);
  }

  lemma ActionsOfRun(s: State, t: nat)
    requires Inv(s) && s.main == Await && Shape(s) && t < s.nThreads && Enabled(s, t)
    ensures Inv(Act(s, t)) && Act(s, t).main == Await && Act(s, t).nThreads == s.nThreads && Shape(Act(s, t))
    ensures 0 <= TotalRank(Act(s, t), s.nThreads)
            <= TotalRank(s, s.nThreads) - if Productive(s, t) then 1 else 0
  {
    hide ThreadOk, Parked, Counters, TotalRank, Productive, Act, Enabled;
    RunIsFinite(s, t);
  }

  /** A schedule of productive actions is no longer than the budget, and as long as forward()
      cannot return it can be continued by another productive action. */
  lemma {:induction false} ProductiveSchedulesFinish(run: seq<State>, who: seq<nat>)
    requires Schedule(run, who) && Inv(run[0]) && run[0].main == Await
    requires forall i :: 0 <= i < |who| ==> Productive(run[i], who[i])
    ensures |who| <= TotalRank(run[0], run[0].nThreads)
    ensures Shape(run[|who|])
    ensures run[|who|].isRunDone
            || exists t :: 0 <= t < run[|who|].nThreads && Enabled(run[|who|], t) && Productive(run[|who|], t)
  {
    hide TotalRank, Productive, Act, Enabled, Counters, ThreadOk, Parked;
    WorkIsBounded(run, who);
    AllWork(run, who);
    if !run[|who|].isRunDone {
      SomebodyProgresses(run[|who|]);
    }
  }

  /** So from every state of a run such a schedule leads to its end. */
  lemma {:induction false} RunCompletes(s: State) returns (run: seq<State>, who: seq<nat>)
    requires Inv(s) && s.main == Await
    ensures Schedule(run, who) && run[0] == s && run[|who|].main == Await && run[|who|].isRunDone
    ensures forall i :: 0 <= i < |who| ==> Productive(run[i], who[i])
    decreases if Inv(s) then TotalRank(s, s.nThreads) else 0
  {
    hide TotalRank, Productive, Act, Enabled, Counters, ThreadOk, Parked;
    if s.isRunDone {
      run, who := [s], [];
    } else {
      SomebodyProgresses(s);
      var t: nat :| t < s.nThreads && Enabled(s, t) && Productive(s, t);
      ActionsOfRun(s, t);
      var rest, others := RunCompletes(Act(s, t));
      run, who := [s] + rest, [t] + others;
    }
  }

  // forward() takes seven steps before it waits, whatever it finds in the counters.
  lemma ForwardStarts(s: State) returns (waiting: State)
    requires Inv(s) && s.main == Idle
    ensures Inv(waiting) && waiting == s.(main := Await, epoch := s.epoch + 1, isRunDone := false, currentStep := 0,
                                          doneThreads := 0, doneRuns := 0, arrived := {}, left := {})
    ensures Calls(s, waiting, 7)
  {
    hide Inv;
    waiting := s;
    var k := 0;
    while waiting.main != Await
      invariant Inv(waiting) && k <= 7 && Calls(s, waiting, k) && waiting == Stored(s, k)
      decreases 7 - k
    {
      MainKeepsInv(waiting);
      MoreCalls(s, waiting, k);
      waiting := MainAct(waiting);
      k := k + 1;
    }
  }

  // The state after k stores of forward().
  function Stored(s: State, k: nat): State {
    s.(main := if k == 0 then Idle else if k == 1 then StoreStep else if k == 2 then StoreArrived else if k == 3 then StoreLeft
               else if k == 4 then StoreNotDone else if k == 5 then StoreEpoch else if k == 6 then Unlock else Await,
       currentStep := if k >= 2 then 0 else s.currentStep,
       doneThreads := if k >= 3 then 0 else s.doneThreads, arrived := if k >= 3 then {} else s.arrived,
       doneRuns := if k >= 4 then 0 else s.doneRuns, left := if k >= 4 then {} else s.left,
       isRunDone := if k >= 5 then false else s.isRunDone,
       epoch := if k >= 6 then s.epoch + 1 else s.epoch)
  }

  // k actions of the caller lead from s to s'.
  predicate Calls(s: State, s': State, k: nat)
    decreases k
  {
    if k == 0 then s' == s else MainEnabled(s) && Calls(MainAct(s), s', k - 1)
  }

  lemma {:induction false} MoreCalls(s: State, s': State, k: nat)
    requires Calls(s, s', k) && MainEnabled(s')
    ensures Calls(s, MainAct(s'), k + 1)
    decreases k
  {
    hide MainAct, MainEnabled;
    if k > 0 {
      MoreCalls(MainAct(s), s', k - 1);
    }
  }

  /** A whole forward(): the caller's seven steps, a schedule of the threads, and its return, after
      which every thread has executed every step of one run more. */
  lemma ForwardCompletes(s: State) returns (waiting: State, run: seq<State>, who: seq<nat>, end: State)
    requires Inv(s) && s.main == Idle
    ensures Calls(s, waiting, 7) && Schedule(run, who) && run[0] == waiting && Calls(run[|who|], end, 1)
    ensures end.main == Idle && end.epoch == s.epoch + 1 && end.nSteps == s.nSteps && end.nThreads == s.nThreads
    ensures Shape(end)
    ensures forall t :: 0 <= t < end.nThreads ==> end.begun[t] == end.ended[t] == AllRuns(s.nSteps, s.epoch + 1)
  {
    hide TotalRank, Productive, Counters, ThreadOk, Act, Enabled, AllRuns;
    waiting := ForwardStarts(s);
    run, who := RunCompletes(waiting);
    ScheduleKeeps(run, who);
    WorkIsBounded(run, who);
    var last := run[|who|];
    end := MainAct(last);
    MainKeepsInv(last);
    assert Calls(end, end, 0) && MainEnabled(last);
    forall t | 0 <= t < end.nThreads
      ensures end.begun[t] == end.ended[t] == AllRuns(s.nSteps, s.epoch + 1)
    {
      assert Parked(end, t);
    }
  }

  /** From a newly built executor any number of calls of forward() can be completed. */
  lemma {:induction false} ForwardsComplete(nThreads: nat, nSteps: nat, calls: nat) returns (run: seq<State>)
    requires nThreads > 0
    ensures Execution(run) && run[0].nThreads == nThreads && run[0].nSteps == nSteps
    ensures var end := run[|run| - 1];
            && Shape(end) && end.main == Idle && end.epoch == calls && end.nThreads == nThreads && end.nSteps == nSteps
            && forall t :: 0 <= t < nThreads ==> end.begun[t] == end.ended[t] == AllRuns(nSteps, calls)
    decreases calls
  {
    hide Next, MainAct, Act, Inv, Calls, Schedule;
    if calls == 0 {
      var none := seq(nThreads, t => []);
      var built := State(nThreads, nSteps, 0, 0, 0, 0, true, Idle, seq(nThreads, t => Thread(Wait, 0, 0)), {}, {}, -1, -1, none, none);
      run := [built];
    } else {
      run := ForwardsComplete(nThreads, nSteps, calls - 1);
      Reachable(run, |run| - 1);
      var waiting, part, who, end := ForwardCompletes(run[|run| - 1]);
      run := CallsExecuted(run, waiting, 7);
      run := ScheduleExecuted(run, part, who);
      run := CallsExecuted(run, end, 1);
    }
  }

  lemma {:induction false} CallsExecuted(run: seq<State>, s': State, k: nat) returns (longer: seq<State>)
    requires Execution(run) && Calls(run[|run| - 1], s', k)
    ensures Execution(longer) && longer[0] == run[0] && longer[|longer| - 1] == s'
    decreases k
  {
    hide MainAct, Act, Inv;
    longer := run;
    if k > 0 {
      Reachable(run, |run| - 1);
      InvShape(run[|run| - 1]);
      longer := CallsExecuted(run + [MainAct(run[|run| - 1])], s', k - 1);
    }
  }

  lemma {:induction false} ScheduleExecuted(run: seq<State>, part: seq<State>, who: seq<nat>) returns (longer: seq<State>)
    requires Execution(run) && Schedule(part, who) && part[0] == run[|run| - 1]
    ensures Execution(longer) && longer[0] == run[0] && longer[|longer| - 1] == part[|who|]
    decreases |who|
  {
    hide MainAct, Act, Inv, Enabled;
    longer := run;
    if who != [] {
      longer := ScheduleExecuted(run + [part[1]], part[1..], who[1..]);
    }
  }

  lemma InvShape(s: State)
    requires Inv(s)
    ensures Shape(s)
  {
  }

  lemma {:induction false} ScheduleKeeps(run: seq<State>, who: seq<nat>)
    requires Schedule(run, who)
    ensures run[|who|].nSteps == run[0].nSteps && run[|who|].nThreads == run[0].nThreads
    ensures run[|who|].epoch == run[0].epoch && run[|who|].main == run[0].main
    decreases |who|
  {
    hide Act, Enabled;
    if who != [] {
      ActIsLocal(run[0], who[0]);
      ScheduleKeeps(run[1..], who[1..]);
    }
  }

  lemma {:induction false} AllWork(run: seq<State>, who: seq<nat>)
    requires Schedule(run, who)
    requires forall i :: 0 <= i < |who| ==> Productive(run[i], who[i])
    ensures Work(run, who) == |who|
  {
    hide Productive, Act, Enabled;
    if who != [] {
      AllWork(run[1..], who[1..]);
    }
  }
}
