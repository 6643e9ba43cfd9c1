/**
  The hand-off of tasks to an event loop thread, as interleaved atomic steps.

  Other threads push a functor under the mutex and write the wakeup eventfd afterwards, as two
  steps. The loop thread waits in `epoll_wait`, handles events, swaps the pending list and runs
  the batch; between its steps it may queue functors itself. `loop()` may be entered again after
  it returned. `queued`, `executed` and `swapMark` record the run.
 */
module EventLoops {

  type Thread = nat

  /** A queued functor; `early` marks what the loop thread queues while not inside `loop()`. */
  datatype Functor = Functor(id: nat, early: bool)

  /** An eventfd holds at most this value; a write that would exceed it fails. */
  const EVENTFD_MAX: nat := 0xFFFF_FFFF_FFFF_FFFE

  /** Where the loop thread stands; `Running` holds the part of the swapped batch not yet started. */
  datatype Phase = Outside | AtWait | Handling | Calling | Running(rest: seq<Functor>) | Called

  datatype Loop = Loop(
    phase: Phase,
    quit: bool,
    calling: bool,             // callingPendingFunctors_
    pending: seq<Functor>,     // pendingFunctors_
    counter: nat,              // value of the wakeup eventfd
    pushed: set<Thread>,       // other threads between their push and their wakeup
    quitting: set<Thread>,     // other threads between setting quit_ and their wakeup
    selfPushed: bool,          // the loop thread has pushed and not yet looked at the calling flag
    queued: seq<Functor>,
    executed: seq<Functor>,
    swapMark: nat)             // how many functors had been queued at the last swap

  const Start: Loop := Loop(Outside, false, false, [], 0, {}, {}, false, [], [], 0)

  datatype Step =
    | Push(t: Thread, id: nat)          // queueInLoop by another thread, under the mutex
    | Wake(t: Thread)                   // its wakeup
    | SetQuit(t: Thread)                // quit by another thread
    | WakeQuit(t: Thread)               // its wakeup
    | SelfPush(id: nat)                 // queueInLoop by the loop thread, under the mutex
    | SelfCheck                         // its look at callingPendingFunctors_, with the wakeup
    | SelfQuit                          // quit by the loop thread
    | EnterLoop
    | EpollReturns
    | HandleWakeup                      // EventLoop::handleRead
    | StartCalling                      // end of event handling; callingPendingFunctors_ = true
    | Swap
    | RunFunctor
    | StopCalling
    | CheckQuit                         // while (!quit_)

  function WriteEventfd(counter: nat): nat {
    if counter < EVENTFD_MAX then counter + 1 else counter
  }

  /** Loop-thread user code runs outside the loop, in event callbacks, and inside functors. */
  predicate UserCode(s: Loop) {
    s.phase.Outside? || s.phase.Handling? || s.phase.Running?
  }

  predicate Allowed(s: Loop, step: Step) {
    match step
    case Push(t, _) => t !in s.pushed && t !in s.quitting
    case Wake(t) => t in s.pushed
    case SetQuit(t) => t !in s.pushed && t !in s.quitting
    case WakeQuit(t) => t in s.quitting
    case SelfCheck => s.selfPushed
    case SelfPush(_) => !s.selfPushed && UserCode(s)
    case SelfQuit => !s.selfPushed && UserCode(s)
    case EnterLoop => !s.selfPushed && s.phase.Outside?
    case EpollReturns => s.phase.AtWait?
    case HandleWakeup => !s.selfPushed && s.phase.Handling?
    case StartCalling => !s.selfPushed && s.phase.Handling?
    case Swap => s.phase.Calling?
    case RunFunctor => !s.selfPushed && s.phase.Running? && s.phase.rest != []
    case StopCalling => !s.selfPushed && s.phase.Running? && s.phase.rest == []
    case CheckQuit => s.phase.Called?
  }

  function PushFunctor(s: Loop, f: Functor): Loop {
    s.(pending := s.pending + [f], queued := s.queued + [f])
  }

  function Next(s: Loop, step: Step): Loop
    requires Allowed(s, step)
  {
    match step
    case Push(t, id) => PushFunctor(s, Functor(id, false)).(pushed := s.pushed + {t})
    case Wake(t) => s.(counter := WriteEventfd(s.counter), pushed := s.pushed - {t})
    case SetQuit(t) => s.(quit := true, quitting := s.quitting + {t})
    case WakeQuit(t) => s.(counter := WriteEventfd(s.counter), quitting := s.quitting - {t})
    case SelfPush(id) => PushFunctor(s, Functor(id, s.phase.Outside?)).(selfPushed := true)
    case SelfCheck => s.(counter := if s.calling then WriteEventfd(s.counter) else s.counter, selfPushed := false)
    case SelfQuit => s.(quit := true)
    case EnterLoop => s.(quit := false, phase := Called)
    case EpollReturns => s.(phase := Handling)
    case HandleWakeup => s.(counter := 0)
    case StartCalling => s.(calling := true, phase := Calling)
    case Swap => s.(phase := Running(s.pending), pending := [], swapMark := |s.queued|)
    case RunFunctor => s.(phase := Running(s.phase.rest[1..]), executed := s.executed + [s.phase.rest[0]])
    case StopCalling => s.(calling := false, phase := Called)
    case CheckQuit => s.(phase := if s.quit then Outside else AtWait)
  }

  predicate IsRun(s: Loop, steps: seq<Step>)
    decreases |steps|
  {
    steps == [] || (Allowed(s, steps[0]) && IsRun(Next(s, steps[0]), steps[1..]))
  }

  function Exec(s: Loop, steps: seq<Step>): Loop
    requires IsRun(s, steps)
    decreases |steps|
  {
    if steps == [] then s else Exec(Next(s, steps[0]), steps[1..])
  }

  // ---------------------------------------------------------------- lost wakeups and order

  /** Someone has woken the loop or is about to. */
  predicate WakeupOnItsWay(s: Loop) {
    s.counter > 0 || s.pushed != {}
  }

  predicate OnlyEarly(fs: seq<Functor>) {
    forall f :: f in fs ==> f.early
  }

  /** The part of the swapped batch still to be started. */
  function Rest(s: Loop): seq<Functor> {
    if s.phase.Running? then s.phase.rest else []
  }

  /** Between event handling and the swap, pending functors need no wakeup. */
  predicate SwapIsComing(s: Loop) {
    s.phase.Handling? || s.phase.Calling?
  }

  ghost predicate Inv(s: Loop) {
    && (s.calling <==> s.phase.Calling? || s.phase.Running?)
    && (s.selfPushed ==> UserCode(s))
    && (OnlyEarly(s.pending) || WakeupOnItsWay(s) || SwapIsComing(s) || (s.selfPushed && s.calling))
    && (s.phase.AtWait? && s.quit ==> s.counter > 0 || s.quitting != {})
    && s.executed + Rest(s) + s.pending == s.queued
    && |s.executed| + |Rest(s)| == s.swapMark
  }

  /** The steps of other threads. */
  predicate IsOther(step: Step) {
    step.Push? || step.Wake? || step.SetQuit? || step.WakeQuit?
  }

  /** The steps of user code on the loop thread. */
  predicate IsOwn(step: Step) {
    step.SelfPush? || step.SelfCheck? || step.SelfQuit?
  }

  lemma PushOrder(s: Loop, f: Functor)
    requires s.executed + Rest(s) + s.pending == s.queued
    ensures s.executed + Rest(s) + (s.pending + [f]) == s.queued + [f]
  {
  }

  lemma OtherKeeps(s: Loop, step: Step)
    requires Inv(s) && Allowed(s, step) && IsOther(step)
    ensures Inv(Next(s, step))
  {
    if step.Push? { PushOrder(s, Functor(step.id, false)); }
  }

  lemma OwnKeeps(s: Loop, step: Step)
    requires Inv(s) && Allowed(s, step) && IsOwn(step)
    ensures Inv(Next(s, step))
  {
    if step.SelfPush? { PushOrder(s, Functor(step.id, s.phase.Outside?)); }
  }

  lemma BatchKeeps(s: Loop, step: Step)
    requires Inv(s) && Allowed(s, step) && (step.Swap? || step.RunFunctor? || step.StopCalling?)
    ensures Inv(Next(s, step))
  {
    var s' := Next(s, step);
    if step.Swap? {
      assert s.executed + [] + s.pending == s.executed + s.pending + [];
    } else if step.RunFunctor? {
      assert s'.executed + Rest(s') == s.executed + Rest(s);
    }
  }

  lemma StepKeeps(s: Loop, step: Step)
    requires Inv(s) && Allowed(s, step)
    ensures Inv(Next(s, step))
  {
    if IsOther(step) {
      OtherKeeps(s, step);
    } else if IsOwn(step) {
      OwnKeeps(s, step);
    } else if step.Swap? || step.RunFunctor? || step.StopCalling? {
      BatchKeeps(s, step);
    }
  }

  lemma {:induction false} RunKeeps(s: Loop, steps: seq<Step>)
    requires Inv(s) && IsRun(s, steps)
    ensures Inv(Exec(s, steps))
    decreases |steps|
  {
    if steps != [] {
      StepKeeps(s, steps[0]);
      RunKeeps(Next(s, steps[0]), steps[1..]);
    }
  }

  /**
    In every run, when the loop thread stands at the wait with a functor pending that was not
    queued by itself outside the loop, the wakeup has been written or is about to be.
   */
  lemma NoLostWakeup(steps: seq<Step>)
    requires IsRun(Start, steps)
    ensures var s := Exec(Start, steps);
            s.phase.AtWait? && !OnlyEarly(s.pending) ==> WakeupOnItsWay(s)
  {
    RunKeeps(Start, steps);
  }

  /** In every run, a thread that quits the loop it waits in has woken it or is about to. */
  lemma NoLostQuit(steps: seq<Step>)
    requires IsRun(Start, steps)
    ensures var s := Exec(Start, steps);
            s.phase.AtWait? && s.quit ==> s.counter > 0 || s.quitting != {}
  {
    RunKeeps(Start, steps);
  }

  /** Some `quit`, by whatever thread, comes after the last entry into `loop()`. */
  ghost predicate QuitStands(steps: seq<Step>) {
    exists i :: StandsAt(steps, i)
  }

  predicate IsQuit(step: Step) {
    step.SetQuit? || step.SelfQuit?
  }

  predicate NoEntry(steps: seq<Step>) {
    forall step :: step in steps ==> !step.EnterLoop?
  }

  predicate StandsAt(steps: seq<Step>, i: nat) {
    i < |steps| && IsQuit(steps[i]) && NoEntry(steps[i + 1..])
  }

  lemma StandsLater(h: Step, tail: seq<Step>, i: nat)
    ensures StandsAt(tail, i) <==> StandsAt([h] + tail, i + 1)
  {
    if i < |tail| { assert ([h] + tail)[i + 2..] == tail[i + 1..]; }
  }

  lemma QuitCons(h: Step, tail: seq<Step>)
    ensures QuitStands([h] + tail) <==> QuitStands(tail) || (IsQuit(h) && NoEntry(tail))
  {
    assert ([h] + tail)[1..] == tail;
    assert StandsAt([h] + tail, 0) <==> IsQuit(h) && NoEntry(tail);
    if i :| StandsAt(tail, i) {
      StandsLater(h, tail, i);
    }
    if i: nat :| StandsAt([h] + tail, i) && i > 0 {
      StandsLater(h, tail, i - 1);
    }
  }

  lemma {:induction false} QuitFollowsSteps(s: Loop, steps: seq<Step>)
    requires IsRun(s, steps)
    ensures Exec(s, steps).quit <==> QuitStands(steps) || (s.quit && NoEntry(steps))
    decreases |steps|
  {
    if steps != [] {
      QuitFollowsSteps(Next(s, steps[0]), steps[1..]);
      assert steps == [steps[0]] + steps[1..];
      QuitCons(steps[0], steps[1..]);
    }
  }

  /**
    A `quit` takes effect at a later test of `quit_` if and only if `loop()` was not entered since,
    or another `quit` came after the last entry: entering discards what came before.
   */
  lemma QuitSurvivesIff(s: Loop, quit: Step, steps: seq<Step>)
    requires Allowed(s, quit) && IsQuit(quit) && IsRun(Next(s, quit), steps)
    requires Exec(Next(s, quit), steps).phase.Called?
    ensures Next(Exec(Next(s, quit), steps), CheckQuit).phase.Outside? <==> NoEntry(steps) || QuitStands(steps)
  {
    QuitFollowsSteps(Next(s, quit), steps);
  }

  /** In every run, functors are executed once each, in the order in which they were queued. */
  lemma FunctorsRunOnceInOrder(steps: seq<Step>)
    requires IsRun(Start, steps)
    ensures var s := Exec(Start, steps);
            s.executed + Rest(s) + s.pending == s.queued
  {
    RunKeeps(Start, steps);
  }

  lemma {:induction false} QueueGrows(s: Loop, steps: seq<Step>)
    requires IsRun(s, steps) && forall i :: 0 <= i < |steps| ==> !steps[i].Swap?
    ensures s.queued <= Exec(s, steps).queued && Exec(s, steps).swapMark == s.swapMark
    decreases |steps|
  {
    if steps != [] {
      QueueGrows(Next(s, steps[0]), steps[1..]);
    }
  }

  /**
    A batch holds exactly the functors queued before its swap: until the next swap, whatever is
    queued meanwhile, by functors or by other threads, stays pending.
   */
  lemma BatchEndsAtItsSwap(s: Loop, steps: seq<Step>)
    requires Inv(s) && Allowed(s, Swap) && IsRun(Next(s, Swap), steps)
    requires forall i :: 0 <= i < |steps| ==> !steps[i].Swap?
    ensures var t := Exec(Next(s, Swap), steps);
            && |s.queued| <= |t.queued|
            && t.executed + Rest(t) == s.queued && t.pending == t.queued[|s.queued|..]
  {
    StepKeeps(s, Swap);
    QueueGrows(Next(s, Swap), steps);
    RunKeeps(Next(s, Swap), steps);
    var t := Exec(Next(s, Swap), steps);
    assert |t.executed + Rest(t)| == |s.queued|;
    assert t.executed + Rest(t) == t.queued[..|s.queued|];
  }

  // ---------------------------------------------------------------- the logs against the steps alone

  function Ids(fs: seq<Functor>): (r: seq<nat>)
    ensures |r| == |fs|
  {
    seq(|fs|, i requires 0 <= i < |fs| => fs[i].id)
  }

  /** What a step hands to the loop. */
  function Hands(step: Step): seq<nat> {
    match step
    case Push(_, id) => [id]
    case SelfPush(id) => [id]
    case _ => []
  }

  /** All that `queueInLoop` was called with, by whatever thread, in the order of the pushes. */
  function HandedOver(steps: seq<Step>): seq<nat> {
    if steps == [] then [] else Hands(steps[0]) + HandedOver(steps[1..])
  }

  lemma StepHandsOver(s: Loop, step: Step)
    requires Allowed(s, step)
    ensures Ids(Next(s, step).queued) == Ids(s.queued) + Hands(step)
  {
  }

  lemma {:induction false} QueuedFollowsSteps(s: Loop, steps: seq<Step>)
    requires IsRun(s, steps)
    ensures Ids(Exec(s, steps).queued) == Ids(s.queued) + HandedOver(steps)
    decreases |steps|
  {
    if steps != [] {
      StepHandsOver(s, steps[0]);
      QueuedFollowsSteps(Next(s, steps[0]), steps[1..]);
    }
  }

  /**
    In every run, what was executed, then the rest of the batch, then what is pending is all that
    `queueInLoop` was called with, each once, in the order of the calls.
   */
  lemma HandedOverOnceInOrder(steps: seq<Step>)
    requires IsRun(Start, steps)
    ensures var s := Exec(Start, steps);
            Ids(s.executed + Rest(s) + s.pending) == HandedOver(steps)
  {
    FunctorsRunOnceInOrder(steps);
    QueuedFollowsSteps(Start, steps);
    assert Ids(Start.queued) + HandedOver(steps) == HandedOver(steps);
  }

  /** The threads that still owe the wakeup of a push, and those that owe the one of a `quit`. */
  function Owing(owing: set<Thread>, steps: seq<Step>): set<Thread>
    decreases |steps|
  {
    if steps == [] then owing
    else
      Owing(match steps[0]
            case Push(t, _) => owing + {t}
            case Wake(t) => owing - {t}
            case _ => owing, steps[1..])
  }

  function OwingQuit(owing: set<Thread>, steps: seq<Step>): set<Thread>
    decreases |steps|
  {
    if steps == [] then owing
    else
      OwingQuit(match steps[0]
                case SetQuit(t) => owing + {t}
                case WakeQuit(t) => owing - {t}
                case _ => owing, steps[1..])
  }

  /** In every run a thread owes a wakeup exactly from its push, or its `quit`, to its write. */
  lemma {:induction false} OwingFollowsSteps(s: Loop, steps: seq<Step>)
    requires IsRun(s, steps)
    ensures Exec(s, steps).pushed == Owing(s.pushed, steps) && Exec(s, steps).quitting == OwingQuit(s.quitting, steps)
    decreases |steps|
  {
    if steps != [] {
      OwingFollowsSteps(Next(s, steps[0]), steps[1..]);
    }
  }

  /**
    Every wakeup leaves the eventfd readable, one more than before unless it is full; only the
    loop's read takes it back to zero, and nothing else touches it.
   */
  lemma CounterFollowsStep(s: Loop, step: Step)
    requires Allowed(s, step)
    ensures var c := Next(s, step).counter;
            if step.Wake? || step.WakeQuit? || (step.SelfCheck? && s.calling)
            then c == (if s.counter < 0xFFFF_FFFF_FFFF_FFFE then s.counter + 1 else s.counter) && c > 0
            else c == if step.HandleWakeup? then 0 else s.counter
  {
  }

  // ---------------------------------------------------------------- bounded delay

  /** The loop thread's own steps through one iteration, given what it finds pending. */
  function Iteration(pending: nat): seq<Step> {
    [EpollReturns] + ([StartCalling] + ([Swap] + RunAll(pending)))
  }

  lemma OneMore(s: Loop, step: Step, more: seq<Step>)
    requires Allowed(s, step) && IsRun(Next(s, step), more)
    ensures IsRun(s, [step] + more) && Exec(s, [step] + more) == Exec(Next(s, step), more)
  {
    assert ([step] + more)[1..] == more;
  }

  function RunAll(n: nat): seq<Step> {
    if n == 0 then [StopCalling] else [RunFunctor] + RunAll(n - 1)
  }

  lemma {:induction false} RunAllExecutes(s: Loop)
    requires s.phase.Running? && !s.selfPushed
    ensures IsRun(s, RunAll(|s.phase.rest|))
    ensures var t := Exec(s, RunAll(|s.phase.rest|));
            t == s.(executed := s.executed + s.phase.rest, phase := Called, calling := false)
    decreases |s.phase.rest|
  {
    var n := |s.phase.rest|;
    if n == 0 {
      assert RunAll(n) == [StopCalling] && RunAll(n)[1..] == [];
      assert s.executed + s.phase.rest == s.executed;
    } else {
      var s' := Next(s, RunFunctor);
      assert RunAll(n)[1..] == RunAll(n - 1);
      RunAllExecutes(s');
      assert s.executed + s.phase.rest == s'.executed + s'.phase.rest;
    }
  }

  /** Left alone, one iteration from the wait executes every functor queued so far. */
  lemma OneIterationDrains(s: Loop)
    requires Inv(s) && s.phase.AtWait?
    ensures IsRun(s, Iteration(|s.pending|))
    ensures var t := Exec(s, Iteration(|s.pending|));
            t.executed == s.queued && t.pending == [] && t.phase == Called
  {
    var s1 := Next(s, EpollReturns);
    var s2 := Next(s1, StartCalling);
    var s3 := Next(s2, Swap);
    RunAllExecutes(s3);
    var tail := RunAll(|s.pending|);
    OneMore(s2, Swap, tail);
    OneMore(s1, StartCalling, [Swap] + tail);
    OneMore(s, EpollReturns, [StartCalling] + ([Swap] + tail));
    assert s.executed + Rest(s) == s.executed;
  }

  // ---------------------------------------------------------------- what is not promised

  /** The loop thread queues a functor, then enters the loop and comes to its first wait. */
  function EarlyPush(id: nat): seq<Step> {
    [SelfPush(id)] + ([SelfCheck] + ([EnterLoop] + [CheckQuit]))
  }

  lemma EarlyPushRuns(s: Loop, id: nat)
    requires Inv(s) && s.phase.Outside? && !s.selfPushed
    ensures IsRun(s, EarlyPush(id))
    ensures Exec(s, EarlyPush(id)) == PushFunctor(s, Functor(id, true)).(quit := false, phase := AtWait)
  {
    var s1 := Next(s, SelfPush(id));
    var s2 := Next(s1, SelfCheck);
    var s3 := Next(s2, EnterLoop);
    OneMore(s3, CheckQuit, []);
    OneMore(s2, EnterLoop, [CheckQuit]);
    OneMore(s1, SelfCheck, [EnterLoop] + [CheckQuit]);
    OneMore(s, SelfPush(id), [SelfCheck] + ([EnterLoop] + [CheckQuit]));
  }

  /**
    A functor the loop thread queues before it enters `loop()` is pending at the first wait with a
    wakeup on its way if and only if one was on its way before.
   */
  lemma EarlyFunctorIsWokenIff(s: Loop, id: nat)
    requires Inv(s) && s.phase.Outside? && !s.selfPushed
    ensures IsRun(s, EarlyPush(id))
    ensures var t := Exec(s, EarlyPush(id));
            && t.phase.AtWait? && Functor(id, true) in t.pending
            && (WakeupOnItsWay(t) <==> s.counter > 0 || s.pushed != {})
  {
    EarlyPushRuns(s, id);
  }

  /** Nothing on its way at the start: the first wait sits on the functor. */
  lemma EarlyFunctorMayWait()
    ensures IsRun(Start, EarlyPush(1))
    ensures var s := Exec(Start, EarlyPush(1));
            s.phase.AtWait? && s.pending == [Functor(1, true)] && !WakeupOnItsWay(s)
  {
    EarlyPushRuns(Start, 1);
  }

  // ---------------------------------------------------------------- the loop thread's methods

  lemma {:induction false} RunAppend(s: Loop, head: seq<Step>, step: Step)
    requires IsRun(s, head) && Allowed(Exec(s, head), step)
    ensures IsRun(s, head + [step]) && Exec(s, head + [step]) == Next(Exec(s, head), step)
    decreases |head|
  {
    if head == [] {
      assert ([] + [step])[1..] == [];
    } else {
      assert (head + [step])[1..] == head[1..] + [step];
      RunAppend(Next(s, head[0]), head[1..], step);
    }
  }

  /** Names the one start state; see `Reached`. */
  predicate IsStart(s: Loop) {
    s == Start
  }

  /**
    `s` is where the run `steps` of the machine arrives. There is one start state only; quantifying
    over it keeps the solver from unfolding the run in every method, and `Extend` instantiates it.
   */
  ghost predicate Reached(steps: seq<Step>, s: Loop) {
    forall start :: IsStart(start) ==> IsRun(start, steps) && Exec(start, steps) == s
  }

  lemma Extend(steps: seq<Step>, s: Loop, step: Step)
    requires Reached(steps, s) && Allowed(s, step)
    ensures Reached(steps + [step], Next(s, step))
  {
    assert IsStart(Start);
    RunAppend(Start, steps, step);
  }

  datatype Caller = LoopThread | Other(t: Thread)

  predicate CanQueue(s: Loop, caller: Caller) {
    match caller
    case LoopThread => UserCode(s) && !s.selfPushed
    case Other(t) => t !in s.pushed && t !in s.quitting
  }

  /** A whole `queueInLoop`: the push, then the wakeup if one is due. */
  function Queued(s: Loop, caller: Caller, id: nat): Loop
    requires CanQueue(s, caller)
  {
    match caller
    case LoopThread => Next(Next(s, SelfPush(id)), SelfCheck)
    case Other(t) => Next(Next(s, Push(t, id)), Wake(t))
  }

  /** What happens while a functor runs: it queues a functor itself, or another thread does something. */
  datatype Act = Queues(id: nat) | Others(step: Step)

  /** A step of another thread, if it is one and possible. */
  function TryOther(s: Loop, step: Step): Loop {
    if IsOther(step) && Allowed(s, step) then Next(s, step) else s
  }

  function TryFirst(s: Loop, n: nat, steps: seq<Step>): Loop
    requires n <= |steps|
  {
    if n == 0 then s else TryOther(TryFirst(s, n - 1, steps), steps[n - 1])
  }

  function Perform(s: Loop, act: Act): Loop {
    match act
    case Others(step) => TryOther(s, step)
    case Queues(id) => if !s.selfPushed && UserCode(s) then Next(Next(s, SelfPush(id)), SelfCheck) else s
  }

  function PerformFirst(s: Loop, n: nat, acts: seq<Act>): Loop
    requires n <= |acts|
  {
    if n == 0 then s else Perform(PerformFirst(s, n - 1, acts), acts[n - 1])
  }

  function ActsAt(work: seq<seq<Act>>, i: nat): seq<Act> {
    if i < |work| then work[i] else []
  }

  /** One functor call and all that happens meanwhile. */
  function CallOne(s: Loop, acts: seq<Act>): Loop {
    if Allowed(s, RunFunctor) then PerformFirst(Next(s, RunFunctor), |acts|, acts) else s
  }

  function CallFirst(s: Loop, n: nat, work: seq<seq<Act>>): Loop {
    if n == 0 then s else CallOne(CallFirst(s, n - 1, work), ActsAt(work, n - 1))
  }

  /** The loop thread's place, its log and its unfinished push are untouched. */
  predicate SamePlace(s: Loop, s': Loop) {
    s'.phase == s.phase && s'.executed == s.executed && s'.selfPushed == s.selfPushed && s'.calling == s.calling
  }

  lemma OtherPlace(s: Loop, step: Step)
    ensures SamePlace(s, TryOther(s, step)) && s.queued <= TryOther(s, step).queued
  {
  }

  lemma {:induction false} OthersPlace(s: Loop, n: nat, steps: seq<Step>)
    requires n <= |steps|
    ensures SamePlace(s, TryFirst(s, n, steps)) && s.queued <= TryFirst(s, n, steps).queued
  {
    if n > 0 {
      OthersPlace(s, n - 1, steps);
      OtherPlace(TryFirst(s, n - 1, steps), steps[n - 1]);
    }
  }

  lemma PerformMore(s: Loop, i: nat, acts: seq<Act>, s': Loop, s'': Loop)
    requires i < |acts| && PerformFirst(s, i, acts) == s' && Perform(s', acts[i]) == s''
    ensures PerformFirst(s, i + 1, acts) == s''
  {
  }

  lemma CallMore(s: Loop, i: nat, work: seq<seq<Act>>, s': Loop, s'': Loop)
    requires CallFirst(s, i, work) == s' && CallOne(s', ActsAt(work, i)) == s''
    ensures CallFirst(s, i + 1, work) == s''
  {
  }

  /** A functor the loop's own code queues is appended to the pending list, and so is another thread's. */
  lemma PerformQueues(s: Loop, act: Act)
    requires UserCode(s) && !s.selfPushed
    ensures act.Queues? ==> Perform(s, act).pending == s.pending + [Functor(act.id, s.phase.Outside?)]
    ensures act.Others? && act.step.Push? && act.step.t !in s.pushed && act.step.t !in s.quitting ==>
            Perform(s, act).pending == s.pending + [Functor(act.step.id, false)]
    ensures act.Others? && !act.step.Push? ==> Perform(s, act).pending == s.pending
  {
  }

  /** What happens during a functor takes effect in order, from the first act on. */
  lemma ActsInOrder(s: Loop, acts: seq<Act>, n: nat)
    requires n < |acts|
    ensures PerformFirst(s, 0, acts) == s && PerformFirst(s, n + 1, acts) == Perform(PerformFirst(s, n, acts), acts[n])
  {
  }

  /** Other threads' steps ahead of the swap take effect in order, too. */
  lemma OthersInOrder(s: Loop, steps: seq<Step>, n: nat)
    requires n < |steps|
    ensures TryFirst(s, 0, steps) == s && TryFirst(s, n + 1, steps) == TryOther(TryFirst(s, n, steps), steps[n])
  {
  }

  /** One call: the first functor of the batch is executed, then all the acts take effect. */
  lemma CallOneIs(s: Loop, acts: seq<Act>)
    requires Allowed(s, RunFunctor)
    ensures var called := s.(phase := Running(s.phase.rest[1..]), executed := s.executed + [s.phase.rest[0]]);
            CallOne(s, acts) == PerformFirst(called, |acts|, acts)
  {
  }

  lemma CallsInOrder(s: Loop, work: seq<seq<Act>>, n: nat)
    ensures CallFirst(s, 0, work) == s
    ensures CallFirst(s, n + 1, work) == CallOne(CallFirst(s, n, work), if n < |work| then work[n] else [])
  {
  }

  /** `EventLoop`, with the other threads' dealings with it as methods of their own. */
  class EventLoop {
    var quitFlag: bool
    var callingPendingFunctors: bool
    var pendingFunctors: seq<Functor>
    var wakeupCounter: nat
    var phase: Phase                 // the thread's program counter; Outside is !looping_
    var pushed: set<Thread>          // program counters of the other threads
    var quitting: set<Thread>
    ghost var selfPushed: bool
    ghost var queued: seq<Functor>
    ghost var executed: seq<Functor>
    ghost var swapMark: nat
    ghost var trace: seq<Step>

    ghost function View(): Loop
      reads this
    {
      Loop(phase, quitFlag, callingPendingFunctors, pendingFunctors, wakeupCounter, pushed, quitting, selfPushed,
           queued, executed, swapMark)
    }

    /** The object has run `trace` on the machine and stands where the machine stands. */
    ghost predicate Valid()
      reads this
    {
      Reached(trace, View())
    }

    constructor ()
      ensures Valid() && View() == Start
    {
      quitFlag, callingPendingFunctors, pendingFunctors, wakeupCounter := false, false, [], 0;
      phase, pushed, quitting, selfPushed := Outside, {}, {}, false;
      queued, executed, swapMark, trace := [], [], 0, [];
    }

    method Wakeup()
      modifies this`wakeupCounter
      ensures wakeupCounter == WriteEventfd(old(wakeupCounter))
    {
      if wakeupCounter < EVENTFD_MAX {
        wakeupCounter := wakeupCounter + 1;
      }
    }

    // -------------------------------------------------------------- other threads

    /** `queueInLoop` by another thread, up to the unlock. */
    method PushFrom(t: Thread, id: nat)
      requires Valid() && Allowed(View(), Push(t, id))
      modifies this`pendingFunctors, this`pushed, this`queued, this`trace
      ensures Valid() && View() == Next(old(View()), Push(t, id))
      ensures pendingFunctors == old(pendingFunctors) + [Functor(id, false)] && t in pushed
    {
      Extend(trace, View(), Push(t, id));
      trace := trace + [Push(t, id)];
      pendingFunctors, queued := pendingFunctors + [Functor(id, false)], queued + [Functor(id, false)];
      pushed := pushed + {t};
    }

    /** Its wakeup. */
    method WakeFrom(t: Thread)
      requires Valid() && Allowed(View(), Wake(t))
      modifies this`wakeupCounter, this`pushed, this`trace
      ensures Valid() && View() == Next(old(View()), Wake(t))
      ensures wakeupCounter > 0 && t !in pushed && pendingFunctors == old(pendingFunctors)
    {
      Extend(trace, View(), Wake(t));
      trace := trace + [Wake(t)];
      Wakeup();
      pushed := pushed - {t};
    }

    /** `quit` by another thread, up to its wakeup. */
    method QuitFrom(t: Thread)
      requires Valid() && Allowed(View(), SetQuit(t))
      modifies this`quitFlag, this`quitting, this`trace
      ensures Valid() && View() == Next(old(View()), SetQuit(t))
      ensures quitFlag && t in quitting
    {
      Extend(trace, View(), SetQuit(t));
      trace := trace + [SetQuit(t)];
      quitFlag, quitting := true, quitting + {t};
    }

    method WakeQuitFrom(t: Thread)
      requires Valid() && Allowed(View(), WakeQuit(t))
      modifies this`wakeupCounter, this`quitting, this`trace
      ensures Valid() && View() == Next(old(View()), WakeQuit(t))
      ensures wakeupCounter > 0 && t !in quitting && quitFlag == old(quitFlag)
    {
      Extend(trace, View(), WakeQuit(t));
      trace := trace + [WakeQuit(t)];
      Wakeup();
      quitting := quitting - {t};
    }

    /** Another thread takes a step, if it can. */
    method Interfere(step: Step)
      requires Valid()
      modifies this
      ensures Valid() && View() == TryOther(old(View()), step)
    {
      if IsOther(step) {
        match step {
          case Push(t, id) => if t !in pushed && t !in quitting { PushFrom(t, id); }
          case Wake(t) => if t in pushed { WakeFrom(t); }
          case SetQuit(t) => if t !in pushed && t !in quitting { QuitFrom(t); }
          case WakeQuit(t) => if t in quitting { WakeQuitFrom(t); }
        }
      }
    }

    /** Other threads take steps, as far as they can. */
    method InterfereAll(steps: seq<Step>)
      requires Valid()
      modifies this
      ensures Valid() && View() == TryFirst(old(View()), |steps|, steps)
    {
      for i := 0 to |steps|
        invariant Valid() && View() == TryFirst(old(View()), i, steps)
      {
        Interfere(steps[i]);
      }
    }

    /** `queueInLoop` by any thread, not interrupted between its push and its wakeup. */
    method QueueInLoop(caller: Caller, id: nat)
      requires Valid() && CanQueue(View(), caller)
      modifies this
      ensures Valid() && View() == Queued(old(View()), caller, id)
      ensures pendingFunctors == old(pendingFunctors) + [Functor(id, caller.LoopThread? && phase.Outside?)]
      ensures caller.Other? || callingPendingFunctors ==> wakeupCounter > 0
      ensures caller.LoopThread? && !callingPendingFunctors ==> wakeupCounter == old(wakeupCounter)
    {
      match caller
      case LoopThread => QueueOwn(id);
      case Other(t) =>
        PushFrom(t, id);
        WakeFrom(t);
    }

    // -------------------------------------------------------------- the loop thread

    /** `queueInLoop` on the loop thread. */
    method QueueOwn(id: nat)
      requires Valid() && UserCode(View()) && !selfPushed
      modifies this`pendingFunctors, this`queued, this`wakeupCounter, this`trace
      ensures Valid() && View() == Next(Next(old(View()), SelfPush(id)), SelfCheck)
      ensures pendingFunctors == old(pendingFunctors) + [Functor(id, phase.Outside?)]
      ensures callingPendingFunctors ==> wakeupCounter > 0
      ensures !callingPendingFunctors ==> wakeupCounter == old(wakeupCounter)
    {
      Extend(trace, View(), SelfPush(id));
      Extend(trace + [SelfPush(id)], Next(View(), SelfPush(id)), SelfCheck);
      trace := trace + [SelfPush(id)] + [SelfCheck];
      var f := Functor(id, phase.Outside?);
      pendingFunctors, queued := pendingFunctors + [f], queued + [f];
      if callingPendingFunctors {
        Wakeup();
      }
    }

    /** `quit` on the loop thread. */
    method Quit()
      requires Valid() && Allowed(View(), SelfQuit)
      modifies this`quitFlag, this`trace
      ensures Valid() && View() == Next(old(View()), SelfQuit)
    {
      Extend(trace, View(), SelfQuit);
      trace := trace + [SelfQuit];
      quitFlag := true;
    }

    /** `handleRead`: one read empties the eventfd. */
    method HandleRead()
      requires Valid() && Allowed(View(), HandleWakeup)
      modifies this`wakeupCounter, this`trace
      ensures Valid() && View() == Next(old(View()), HandleWakeup)
      ensures wakeupCounter == 0 && pendingFunctors == old(pendingFunctors)
    {
      Extend(trace, View(), HandleWakeup);
      trace := trace + [HandleWakeup];
      wakeupCounter := 0;
    }

    method BeginCalling()
      requires Valid() && Allowed(View(), StartCalling)
      modifies this`callingPendingFunctors, this`phase, this`trace
      ensures Valid() && View() == Next(old(View()), StartCalling)
    {
      Extend(trace, View(), StartCalling);
      trace := trace + [StartCalling];
      callingPendingFunctors, phase := true, Calling;
    }

    /** The swap under the mutex. */
    method TakePending() returns (functors: seq<Functor>)
      requires Valid() && Allowed(View(), Swap)
      modifies this`pendingFunctors, this`phase, this`swapMark, this`trace
      ensures Valid() && View() == Next(old(View()), Swap)
      ensures functors == old(pendingFunctors) && pendingFunctors == [] && phase == Running(functors)
    {
      Extend(trace, View(), Swap);
      trace := trace + [Swap];
      functors := pendingFunctors;
      pendingFunctors, phase, swapMark := [], Running(functors), |queued|;
    }

    /** The call of the next functor, without what happens meanwhile. */
    method StartFunctor()
      requires Valid() && Allowed(View(), RunFunctor)
      modifies this`phase, this`executed, this`trace
      ensures Valid() && View() == Next(old(View()), RunFunctor)
    {
      Extend(trace, View(), RunFunctor);
      trace := trace + [RunFunctor];
      executed := executed + [phase.rest[0]];
      phase := Running(phase.rest[1..]);
    }

    method DoAct(act: Act)
      requires Valid() && UserCode(View()) && !selfPushed
      modifies this
      ensures Valid() && View() == Perform(old(View()), act) && SamePlace(old(View()), View())
    {
      match act
      case Queues(id) => QueueOwn(id);
      case Others(step) =>
        OtherPlace(View(), step);
        Interfere(step);
    }

    /** One functor call; `acts` is what happens meanwhile. */
    method CallFunctor(acts: seq<Act>)
      requires Valid() && Allowed(View(), RunFunctor)
      modifies this
      ensures Valid() && View() == CallOne(old(View()), acts)
      ensures SamePlace(Next(old(View()), RunFunctor), View())
    {
      StartFunctor();
      ghost var start := View();
      for i := 0 to |acts|
        invariant Valid() && View() == PerformFirst(start, i, acts) && SamePlace(start, View())
      {
        ghost var before := View();
        DoAct(acts[i]);
        PerformMore(start, i, acts, before, View());
      }
    }

    /** The loop over the swapped batch. */
    method CallFunctors(functors: seq<Functor>, work: seq<seq<Act>>)
      requires Valid() && phase == Running(functors) && !selfPushed
      modifies this
      ensures Valid() && phase == Running([]) && !selfPushed && executed == old(executed) + functors
      ensures View() == CallFirst(old(View()), |functors|, work)
    {
      var i := 0;
      assert executed + functors[..0] == executed && functors[0..] == functors;
      while i < |functors|
        invariant i <= |functors| && Valid() && phase == Running(functors[i..]) && !selfPushed
        invariant executed == old(executed) + functors[..i] && View() == CallFirst(old(View()), i, work)
      {
        ghost var before := View();
        assert functors[i..][1..] == functors[i + 1..] && functors[..i] + [functors[i]] == functors[..i + 1];
        CallFunctor(ActsAt(work, i));
        CallMore(old(View()), i, work, before, View());
        i := i + 1;
      }
      assert functors[..i] == functors && functors[i..] == [];
    }

    method EndCalling()
      requires Valid() && Allowed(View(), StopCalling)
      modifies this`callingPendingFunctors, this`phase, this`trace
      ensures Valid() && View() == Next(old(View()), StopCalling)
    {
      Extend(trace, View(), StopCalling);
      trace := trace + [StopCalling];
      callingPendingFunctors, phase := false, Called;
    }

    /**
      `doPendingFunctors`, where other threads may take the steps `before` ahead of the swap, and
      `work[i]` happens while the `i`-th functor runs. Everything queued by the time of the swap is
      executed, in order, and exactly what was queued after it is left pending.
     */
    method DoPendingFunctors(before: seq<Step>, work: seq<seq<Act>>)
      requires Valid() && phase.Handling? && !selfPushed
      modifies this
      ensures Valid() && phase.Called?
      ensures old(queued) <= executed && executed + pendingFunctors == queued
      ensures executed == TryFirst(Next(old(View()), StartCalling), |before|, before).queued
      ensures View() == DoPendingResult(old(View()), before, work)
    {
      BeginCalling();
      OthersPlace(View(), |before|, before);
      InterfereAll(before);
      ghost var swapping, steps := View(), trace;
      var functors := TakePending();
      QueuedInOrder(steps, swapping);
      CallFunctors(functors, work);
      EndCalling();
      QueuedInOrder(trace, View());
    }
  }

  function DoPendingResult(s: Loop, before: seq<Step>, work: seq<seq<Act>>): Loop
    requires Allowed(s, StartCalling)
  {
    OthersPlace(Next(s, StartCalling), |before|, before);
    var swapping := TryFirst(Next(s, StartCalling), |before|, before);
    CallFirst(Next(swapping, Swap), |swapping.pending|, work).(calling := false, phase := Called)
  }

  /** `doPendingFunctors` is the calls of all that is pending at the swap, each with its own acts. */
  lemma DoPendingIsCalls(s: Loop, before: seq<Step>, work: seq<seq<Act>>, swapping: Loop, called: Loop)
    requires s.phase.Handling? && !s.selfPushed
    requires swapping == TryFirst(s.(calling := true, phase := Calling), |before|, before)
    requires called == CallFirst(swapping.(phase := Running(swapping.pending), pending := [], swapMark := |swapping.queued|),
                                 |swapping.pending|, work)
    ensures DoPendingResult(s, before, work) == called.(calling := false, phase := Called)
  {
    OthersPlace(s.(calling := true, phase := Calling), |before|, before);
  }

  lemma QueuedInOrder(steps: seq<Step>, s: Loop)
    requires Reached(steps, s)
    ensures !s.phase.Running? ==> s.executed + s.pending == s.queued
  {
    assert IsStart(Start);
    RunKeeps(Start, steps);
    assert s.executed + [] == s.executed;
  }
}
