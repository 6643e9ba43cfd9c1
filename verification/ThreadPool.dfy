/**
  The thread pool as interleaved steps. A step under the mutex is one critical section, up to the
  condition wait that ends it or the unlock; `woken` is the scheduler's choice of which waiters a
  `pthread_cond_signal` releases (at least one if any waits). A task may call `run` itself: its
  worker is then among the producers too, and executing until `run` returns. `accepted`, `taken`
  and `late` record the run.
 */
module ThreadPools {
  import opened Outcomes

  type Thread = nat
  type Task = nat

  /** `Ready` is about to lock the mutex; `Signalled` and `Spurious` have left a condition wait. */
  datatype Pc = AtCheck | Ready | Waiting | Signalled | Spurious | Executing | Exited

  datatype Pool = Pool(
    maxQueueSize: nat,             // 0 means no limit
    running: bool,
    queue: seq<Task>,
    workers: map<Thread, Pc>,
    producers: map<Thread, Pc>,    // threads inside run()
    offers: map<Thread, Task>,     // the task each of them brings
    inline: seq<Task>,             // tasks run by their producer because there are no workers
    accepted: seq<Task>,
    taken: seq<Task>,
    late: map<Thread, nat>)        // tasks taken since stop()

  datatype Step =
    | Arrive(p: Thread, task: Task)
    | TryPush(p: Thread, woken: set<Thread>)
    | WakeProducer(p: Thread)                  // spurious
    | CheckRunning(w: Thread)
    | TryTake(w: Thread, woken: set<Thread>)
    | WakeWorker(w: Thread)                    // spurious
    | Finish(w: Thread)
    | Stop

  /** The pool right after `start`. */
  function Started(maxQueueSize: nat, threads: set<Thread>): Pool {
    Pool(maxQueueSize, true, [], map w | w in threads :: AtCheck, map[], map[], [], [], [], map w | w in threads :: 0)
  }

  predicate IsFull(s: Pool) {
    s.maxQueueSize > 0 && |s.queue| >= s.maxQueueSize
  }

  /** The threads at a given point. */
  function At(pcs: map<Thread, Pc>, pc: Pc): set<Thread> {
    set t | t in pcs && pcs[t] == pc
  }

  predicate TakesLock(pcs: map<Thread, Pc>, t: Thread) {
    t in pcs && (pcs[t] == Ready || pcs[t] == Signalled || pcs[t] == Spurious)
  }

  /** `notify` releases at least one waiter if there is one. */
  predicate Picks(pcs: map<Thread, Pc>, woken: set<Thread>) {
    woken <= At(pcs, Waiting) && (At(pcs, Waiting) != {} ==> woken != {})
  }

  function Signal(pcs: map<Thread, Pc>, woken: set<Thread>): map<Thread, Pc> {
    map t | t in pcs :: if t in woken then Signalled else pcs[t]
  }

  predicate Allowed(s: Pool, step: Step) {
    match step
    case Arrive(p, _) => p !in s.producers && (p in s.workers ==> s.workers[p] == Executing)
    case TryPush(p, woken) => TakesLock(s.producers, p) && p in s.offers && Picks(s.workers, woken)
    case WakeProducer(p) => p in s.producers && s.producers[p] == Waiting
    case CheckRunning(w) => w in s.workers && s.workers[w] == AtCheck
    case TryTake(w, woken) => TakesLock(s.workers, w) && w in s.late && Picks(s.producers, woken)
    case WakeWorker(w) => w in s.workers && s.workers[w] == Waiting
    case Finish(w) => w in s.workers && s.workers[w] == Executing && w !in s.producers
    case Stop => true
  }

  /** `run` from the point where it holds the mutex. */
  function Push(s: Pool, p: Thread, woken: set<Thread>): Pool
    requires Allowed(s, TryPush(p, woken))
  {
    if IsFull(s) && s.running then
      s.(producers := s.producers[p := Waiting])
    else
      var left := s.(producers := s.producers - {p}, offers := s.offers - {p});
      if !s.running then left
      else left.(queue := s.queue + [s.offers[p]], accepted := s.accepted + [s.offers[p]],
                 workers := Signal(s.workers, woken))
  }

  /** `take` from the point where it holds the mutex. */
  function Take(s: Pool, w: Thread, woken: set<Thread>): Pool
    requires Allowed(s, TryTake(w, woken))
  {
    if s.queue == [] && s.running then
      s.(workers := s.workers[w := Waiting])
    else if s.queue == [] then
      s.(workers := s.workers[w := AtCheck])
    else
      s.(workers := s.workers[w := Executing], queue := s.queue[1..], taken := s.taken + [s.queue[0]],
         producers := if s.maxQueueSize > 0 then Signal(s.producers, woken) else s.producers,
         late := if s.running then s.late else s.late[w := s.late[w] + 1])
  }

  function Next(s: Pool, step: Step): Pool
    requires Allowed(s, step)
  {
    match step
    case Arrive(p, task) =>
      if s.workers == map[] then s.(inline := s.inline + [task])
      else s.(producers := s.producers[p := Ready], offers := s.offers[p := task])
    case TryPush(p, woken) => Push(s, p, woken)
    case WakeProducer(p) => s.(producers := s.producers[p := Spurious])
    case CheckRunning(w) => s.(workers := s.workers[w := if s.running then Ready else Exited])
    case TryTake(w, woken) => Take(s, w, woken)
    case WakeWorker(w) => s.(workers := s.workers[w := Spurious])
    case Finish(w) => s.(workers := s.workers[w := AtCheck])
    case Stop => s.(running := false, workers := Signal(s.workers, At(s.workers, Waiting)),
                    producers := Signal(s.producers, At(s.producers, Waiting)))
  }

  predicate IsRun(s: Pool, steps: seq<Step>)
    decreases |steps|
  {
    steps == [] || (Allowed(s, steps[0]) && IsRun(Next(s, steps[0]), steps[1..]))
  }

  function Exec(s: Pool, steps: seq<Step>): Pool
    requires IsRun(s, steps)
    decreases |steps|
  {
    if steps == [] then s else Exec(Next(s, steps[0]), steps[1..])
  }

  // ---------------------------------------------------------------- counting threads

  lemma MoveCount(pcs: map<Thread, Pc>, t: Thread, pc: Pc, q: Pc)
    requires t in pcs
    ensures At(pcs[t := pc], q) == if pc == q then At(pcs, q) + {t} else At(pcs, q) - {t}
    ensures |At(pcs[t := pc], q)| == |At(pcs, q)| - (if pcs[t] == q then 1 else 0) + (if pc == q then 1 else 0)
  {
    assert At(pcs[t := pc], q) == if pc == q then At(pcs, q) + {t} else At(pcs, q) - {t};
  }

  lemma LeaveCount(pcs: map<Thread, Pc>, t: Thread, q: Pc)
    requires t in pcs
    ensures At(pcs - {t}, q) == At(pcs, q) - {t}
    ensures |At(pcs - {t}, q)| == |At(pcs, q)| - (if pcs[t] == q then 1 else 0)
  {
    assert At(pcs - {t}, q) == At(pcs, q) - {t};
  }

  lemma SignalAt(pcs: map<Thread, Pc>, woken: set<Thread>)
    requires woken <= At(pcs, Waiting)
    ensures At(Signal(pcs, woken), Waiting) == At(pcs, Waiting) - woken
    ensures At(Signal(pcs, woken), Signalled) == At(pcs, Signalled) + woken
  {
  }

  lemma SignalCount(pcs: map<Thread, Pc>, woken: set<Thread>)
    requires Picks(pcs, woken)
    ensures At(Signal(pcs, woken), Waiting) == At(pcs, Waiting) - woken
    ensures |At(Signal(pcs, woken), Signalled)| == |At(pcs, Signalled)| + |woken|
    ensures At(pcs, Waiting) != {} ==> |woken| >= 1
  {
    SignalAt(pcs, woken);
    assert At(pcs, Signalled) !! woken;
  }

  // ---------------------------------------------------------------- invariant

  /** A waiting worker implies a signalled one on its way for every queued task. */
  predicate WorkersWoken(s: Pool) {
    s.running && At(s.workers, Waiting) != {} ==> |At(s.workers, Signalled)| >= |s.queue|
  }

  /** A waiting producer implies a signalled one on its way for every free slot. */
  predicate ProducersWoken(s: Pool) {
    s.running && At(s.producers, Waiting) != {} ==>
      s.maxQueueSize > 0 && |At(s.producers, Signalled)| >= s.maxQueueSize - |s.queue|
  }

  /** After `stop` nobody waits, and a worker that can still take has taken nothing since. */
  ghost predicate StopOk(s: Pool) {
    && (!s.running ==> At(s.workers, Waiting) == {} && At(s.producers, Waiting) == {})
    && s.late.Keys == s.workers.Keys
    && forall w :: w in s.workers ==> s.late[w] <= if TakesLock(s.workers, w) || s.running then 0 else 1
  }

  ghost predicate Inv(s: Pool) {
    && WorkersWoken(s) && ProducersWoken(s) && StopOk(s)
    && (s.maxQueueSize > 0 ==> |s.queue| <= s.maxQueueSize)
    && s.taken + s.queue == s.accepted
    && s.offers.Keys == s.producers.Keys
    && WorkersOk(s)
  }

  /** A worker inside `run` is executing a task, and none exits while the pool runs. */
  ghost predicate WorkersOk(s: Pool) {
    && (forall p :: p in s.producers ==> s.producers[p] == Waiting || TakesLock(s.producers, p))
    && (forall w :: w in s.workers && w in s.producers ==> s.workers[w] == Executing)
    && (s.running ==> forall w :: w in s.workers ==> s.workers[w] != Exited)
  }

  lemma PushWaits(s: Pool, p: Thread, woken: set<Thread>)
    requires Inv(s) && Allowed(s, TryPush(p, woken)) && IsFull(s) && s.running
    ensures Inv(Push(s, p, woken))
  {
    MoveCount(s.producers, p, Waiting, Signalled);
  }

  lemma PushRefused(s: Pool, p: Thread, woken: set<Thread>)
    requires Inv(s) && Allowed(s, TryPush(p, woken)) && !s.running
    ensures Inv(Push(s, p, woken))
  {
    LeaveCount(s.producers, p, Waiting);
  }

  lemma SignalStop(s: Pool, s': Pool, woken: set<Thread>)
    requires StopOk(s) && Picks(s.workers, woken) && s'.running == s.running && s'.late == s.late
    requires s'.workers == Signal(s.workers, woken) && At(s'.producers, Waiting) <= At(s.producers, Waiting)
    ensures StopOk(s')
  {
    SignalCount(s.workers, woken);
  }

  lemma PushAdds(s: Pool, p: Thread, woken: set<Thread>)
    requires Inv(s) && Allowed(s, TryPush(p, woken)) && !IsFull(s) && s.running
    ensures Inv(Push(s, p, woken))
  {
    LeaveCount(s.producers, p, Waiting);
    LeaveCount(s.producers, p, Signalled);
    SignalCount(s.workers, woken);
    SignalStop(s, Push(s, p, woken), woken);
  }

  lemma MoveStop(s: Pool, w: Thread, s': Pool)
    requires StopOk(s) && w in s.workers && s'.running == s.running && s'.late.Keys == s.late.Keys
    requires w in s'.workers && s'.workers == s.workers[w := s'.workers[w]]
    requires At(s'.producers, Waiting) <= At(s.producers, Waiting)
    requires (!s.running ==> s'.workers[w] != Waiting)
    requires forall v :: v in s.late && v != w ==> s'.late[v] == s.late[v]
    requires s'.late[w] <= if TakesLock(s'.workers, w) || s.running then 0 else 1
    ensures StopOk(s')
  {
    MoveCount(s.workers, w, s'.workers[w], Waiting);
  }

  lemma TakeWaits(s: Pool, w: Thread, woken: set<Thread>)
    requires Inv(s) && Allowed(s, TryTake(w, woken)) && s.queue == [] && s.running
    ensures Inv(Take(s, w, woken))
  {
    MoveCount(s.workers, w, Waiting, Signalled);
    MoveStop(s, w, Take(s, w, woken));
  }

  lemma TakeNothing(s: Pool, w: Thread, woken: set<Thread>)
    requires Inv(s) && Allowed(s, TryTake(w, woken)) && s.queue == [] && !s.running
    ensures Inv(Take(s, w, woken))
  {
    MoveStop(s, w, Take(s, w, woken));
  }

  lemma TakeTaskWakes(s: Pool, w: Thread, woken: set<Thread>)
    requires Inv(s) && Allowed(s, TryTake(w, woken)) && s.queue != []
    ensures WorkersWoken(Take(s, w, woken)) && ProducersWoken(Take(s, w, woken))
  {
    MoveCount(s.workers, w, Executing, Waiting);
    MoveCount(s.workers, w, Executing, Signalled);
    SignalCount(s.producers, woken);
  }

  lemma TakeTaskStop(s: Pool, w: Thread, woken: set<Thread>)
    requires Inv(s) && Allowed(s, TryTake(w, woken)) && s.queue != []
    ensures StopOk(Take(s, w, woken))
  {
    SignalCount(s.producers, woken);
    MoveStop(s, w, Take(s, w, woken));
  }

  lemma TakeTask(s: Pool, w: Thread, woken: set<Thread>)
    requires Inv(s) && Allowed(s, TryTake(w, woken)) && s.queue != []
    ensures Inv(Take(s, w, woken))
  {
    TakeTaskWakes(s, w, woken);
    TakeTaskStop(s, w, woken);
    var s' := Take(s, w, woken);
    assert s'.taken + s'.queue == s.taken + s.queue;
  }

  lemma StopKeeps(s: Pool)
    requires Inv(s)
    ensures Inv(Next(s, Stop))
  {
    SignalCount(s.workers, At(s.workers, Waiting));
    SignalCount(s.producers, At(s.producers, Waiting));
  }

  lemma StepKeeps(s: Pool, step: Step)
    requires Inv(s) && Allowed(s, step)
    ensures Inv(Next(s, step))
  {
    match step {
      case TryPush(p, woken) =>
        if !s.running { PushRefused(s, p, woken); } else if IsFull(s) { PushWaits(s, p, woken); } else { PushAdds(s, p, woken); }
      case TryTake(w, woken) =>
        if s.queue != [] { TakeTask(s, w, woken); } else if s.running { TakeWaits(s, w, woken); } else { TakeNothing(s, w, woken); }
      case Stop => StopKeeps(s);
      case Arrive(p, _) => ArriveKeeps(s, step);
      case WakeProducer(p) => WakeProducerKeeps(s, p);
      case CheckRunning(w) => WorkerMoves(s, w, Next(s, step));
      case WakeWorker(w) =>
        assert w in At(s.workers, Waiting);
        WorkerMoves(s, w, Next(s, step));
      case Finish(w) => WorkerMoves(s, w, Next(s, step));
    }
  }

  lemma ArriveKeeps(s: Pool, step: Step)
    requires Inv(s) && Allowed(s, step) && step.Arrive?
    ensures Inv(Next(s, step))
  {
    assert At(s.producers[step.p := Ready], Waiting) == At(s.producers, Waiting);
    assert At(s.producers[step.p := Ready], Signalled) == At(s.producers, Signalled);
  }

  lemma WakeProducerKeeps(s: Pool, p: Thread)
    requires Inv(s) && Allowed(s, WakeProducer(p))
    ensures Inv(Next(s, WakeProducer(p)))
  {
    MoveCount(s.producers, p, Spurious, Waiting);
    MoveCount(s.producers, p, Spurious, Signalled);
  }

  /** A worker that neither was signalled nor starts to wait moves without touching the queue. */
  lemma WorkerMoves(s: Pool, w: Thread, s': Pool)
    requires Inv(s) && w in s.workers && s.workers[w] != Signalled && s' == s.(workers := s'.workers)
    requires w in s'.workers && s'.workers == s.workers[w := s'.workers[w]]
    requires s'.workers[w] != Waiting && (TakesLock(s'.workers, w) ==> s.running || TakesLock(s.workers, w))
    requires s.workers[w] == Waiting ==> s'.workers[w] == Spurious
    requires w !in s.producers && (s.running ==> s'.workers[w] != Exited)
    ensures Inv(s')
  {
    MoveCount(s.workers, w, s'.workers[w], Waiting);
    MoveCount(s.workers, w, s'.workers[w], Signalled);
    MoveStop(s, w, s');
  }

  lemma {:induction false} RunKeeps(s: Pool, steps: seq<Step>)
    requires Inv(s) && IsRun(s, steps)
    ensures Inv(Exec(s, steps))
    decreases |steps|
  {
    if steps != [] {
      StepKeeps(s, steps[0]);
      RunKeeps(Next(s, steps[0]), steps[1..]);
    }
  }

  // ---------------------------------------------------------------- what runs promise

  lemma StartedOk(maxQueueSize: nat, threads: set<Thread>)
    ensures Inv(Started(maxQueueSize, threads))
  {
  }

  /**
    While the pool runs, a worker asleep and not signalled means every queued task has its own
    signalled worker on the way, and a producer asleep and not signalled means every free slot has
    its own signalled producer, whatever was stolen and whoever woke spuriously.
   */
  lemma NoLostWakeup(maxQueueSize: nat, threads: set<Thread>, steps: seq<Step>)
    requires IsRun(Started(maxQueueSize, threads), steps)
    ensures var s := Exec(Started(maxQueueSize, threads), steps);
            s.running ==>
              && (At(s.workers, Waiting) != {} ==> |At(s.workers, Signalled)| >= |s.queue|)
              && (At(s.producers, Waiting) != {} ==> |At(s.producers, Signalled)| >= s.maxQueueSize - |s.queue|)
  {
    StartedOk(maxQueueSize, threads);
    RunKeeps(Started(maxQueueSize, threads), steps);
  }

  /** A worker sleeps in `take`, or in the `run` that its own task has called. */
  predicate Asleep(s: Pool, w: Thread) {
    && w in s.workers
    && (s.workers[w] == Waiting || (s.workers[w] == Executing && w in s.producers && s.producers[w] == Waiting))
  }

  predicate InsideRun(s: Pool, w: Thread) {
    w in s.workers && w in s.producers
  }

  lemma AsleepInRun(s: Pool)
    requires Inv(s) && s.running && s.queue != [] && forall w :: w in s.workers ==> Asleep(s, w)
    ensures forall w :: w in s.workers ==> InsideRun(s, w) && s.producers[w] == Waiting
    ensures s.workers != map[] && At(s.producers, Signalled) == {} ==> IsFull(s)
  {
    assert At(s.workers, Signalled) == {};
    assert At(s.workers, Waiting) == {};
    forall w | w in s.workers ensures s.workers[w] == Executing {
      assert Asleep(s, w) && w !in At(s.workers, Waiting);
    }
    if s.workers != map[] {
      var w :| w in s.workers;
      assert w in At(s.producers, Waiting);
    }
  }

  lemma AwakeProducer(s: Pool) returns (p: Thread)
    requires Inv(s) && s.running && s.queue == [] && s.producers != map[]
    ensures p in s.producers && s.producers[p] != Waiting
  {
    p :| p in s.producers;
    if s.producers[p] == Waiting {
      assert p in At(s.producers, Waiting) && |At(s.producers, Signalled)| >= 1;
      p :| p in At(s.producers, Signalled);
    }
  }

  /**
    In every run: while a running pool has a task queued, either some worker is awake, or every
    worker sleeps in a `run` called by its own task, on a full queue unless a signalled producer is
    about to fill it. So if no task calls `run`, some worker is awake. And with an empty queue not
    all who are inside `run` sleep.
   */
  lemma AsleepOnlyInsideRun(maxQueueSize: nat, threads: set<Thread>, steps: seq<Step>)
    requires IsRun(Started(maxQueueSize, threads), steps)
    ensures var s := Exec(Started(maxQueueSize, threads), steps);
            s.running && s.queue != [] ==>
              || (exists w :: w in s.workers && !Asleep(s, w))
              || (forall w :: w in s.workers ==> InsideRun(s, w) && s.producers[w] == Waiting)
    ensures var s := Exec(Started(maxQueueSize, threads), steps);
            s.running && s.queue != [] && s.workers != map[] && (forall w :: w in s.workers ==> Asleep(s, w)) ==>
              IsFull(s) || At(s.producers, Signalled) != {}
    ensures var s := Exec(Started(maxQueueSize, threads), steps);
            s.running && s.queue != [] && s.workers != map[] && (forall w :: w in s.workers ==> !InsideRun(s, w)) ==>
              exists w :: w in s.workers && !Asleep(s, w)
    ensures var s := Exec(Started(maxQueueSize, threads), steps);
            s.running && s.queue == [] && s.producers != map[] ==> exists p :: p in s.producers && s.producers[p] != Waiting
  {
    StartedOk(maxQueueSize, threads);
    RunKeeps(Started(maxQueueSize, threads), steps);
    var s := Exec(Started(maxQueueSize, threads), steps);
    if s.running && s.queue != [] && forall w :: w in s.workers ==> Asleep(s, w) {
      AsleepInRun(s);
    }
    if s.running && s.queue == [] && s.producers != map[] { var _ := AwakeProducer(s); }
  }

  // ---------------------------------------------------------------- when a pool is stuck

  /** The queue is full and every worker is inside a `run` called by its own task. */
  ghost predicate Stuck(s: Pool) {
    s.running && IsFull(s) && forall w :: w in s.workers ==> InsideRun(s, w)
  }

  lemma StuckStep(s: Pool, step: Step)
    requires Inv(s) && Stuck(s) && Allowed(s, step) && !step.Stop?
    ensures Stuck(Next(s, step)) && Next(s, step).taken == s.taken
  {
    var s' := Next(s, step);
    assert forall w :: w in s.workers ==> InsideRun(s, w);
    forall w | w in s'.workers ensures InsideRun(s', w) {
      assert InsideRun(s, w);
    }
  }

  lemma {:induction false} StuckRun(s: Pool, steps: seq<Step>)
    requires Inv(s) && Stuck(s) && IsRun(s, steps) && Stop !in steps
    ensures Exec(s, steps).taken == s.taken
    decreases |steps|
  {
    if steps != [] {
      assert steps[0] in steps && forall x :: x in steps[1..] ==> x in steps;
      StepKeeps(s, steps[0]);
      StuckStep(s, steps[0]);
      StuckRun(Next(s, steps[0]), steps[1..]);
    }
  }

  /** Some continuation without `stop` takes another task. */
  ghost predicate CanTake(s: Pool) {
    exists steps :: IsRun(s, steps) && Stop !in steps && |Exec(s, steps).taken| > |s.taken|
  }

  lemma OneMore(s: Pool, step: Step, more: seq<Step>)
    requires Allowed(s, step) && IsRun(Next(s, step), more)
    ensures IsRun(s, [step] + more) && Exec(s, [step] + more) == Exec(Next(s, step), more)
  {
    assert ([step] + more)[1..] == more;
  }

  lemma TakesLater(s: Pool, step: Step)
    requires Allowed(s, step) && !step.Stop? && Next(s, step).taken == s.taken && CanTake(Next(s, step))
    ensures CanTake(s)
  {
    var s' := Next(s, step);
    var more :| IsRun(s', more) && Stop !in more && |Exec(s', more).taken| > |s.taken|;
    OneMore(s, step, more);
  }

  lemma LockedTakes(s: Pool, w: Thread)
    requires TakesLock(s.workers, w) && w in s.late && s.queue != []
    ensures CanTake(s)
  {
    var step := TryTake(w, At(s.producers, Waiting));
    OneMore(s, step, []);
  }

  lemma CheckedTakes(s: Pool, w: Thread)
    requires s.running && w in s.workers && s.workers[w] == AtCheck && w in s.late && s.queue != []
    ensures CanTake(s)
  {
    LockedTakes(Next(s, CheckRunning(w)), w);
    TakesLater(s, CheckRunning(w));
  }

  /** A worker that is not inside `run` can always get to the next task. */
  lemma FreeWorkerTakes(s: Pool, w: Thread)
    requires Inv(s) && s.running && s.queue != [] && w in s.workers && !InsideRun(s, w)
    ensures CanTake(s)
  {
    match s.workers[w] {
      case Waiting =>
        LockedTakes(Next(s, WakeWorker(w)), w);
        TakesLater(s, WakeWorker(w));
      case AtCheck => CheckedTakes(s, w);
      case Executing =>
        CheckedTakes(Next(s, Finish(w)), w);
        TakesLater(s, Finish(w));
      case _ => LockedTakes(s, w);
    }
  }

  /** With a free slot, a worker inside `run` can leave it. */
  lemma LockedLeaves(s: Pool, w: Thread)
    requires Inv(s) && s.running && s.queue != [] && !IsFull(s) && InsideRun(s, w) && TakesLock(s.producers, w)
    ensures CanTake(s)
  {
    var step := TryPush(w, At(s.workers, Waiting));
    StepKeeps(s, step);
    FreeWorkerTakes(Next(s, step), w);
    TakesLater(s, step);
  }

  lemma InsideRunLeaves(s: Pool, w: Thread)
    requires Inv(s) && s.running && s.queue != [] && !IsFull(s) && InsideRun(s, w)
    requires s.producers[w] == Waiting || TakesLock(s.producers, w)
    ensures CanTake(s)
  {
    if s.producers[w] == Waiting {
      StepKeeps(s, WakeProducer(w));
      LockedLeaves(Next(s, WakeProducer(w)), w);
      TakesLater(s, WakeProducer(w));
    } else {
      LockedLeaves(s, w);
    }
  }

  /**
    A queued task of a running pool can be taken, without a `stop`, if and only if the pool is not
    stuck: the queue is not full, or some worker is not inside a `run` called by its own task.
   */
  lemma CanTakeIff(s: Pool)
    requires Inv(s) && s.running && s.queue != [] && s.workers != map[]
    ensures CanTake(s) <==> !Stuck(s)
  {
    if Stuck(s) {
      forall steps | IsRun(s, steps) && Stop !in steps ensures Exec(s, steps).taken == s.taken {
        StuckRun(s, steps);
      }
    } else if w :| w in s.workers && !InsideRun(s, w) {
      FreeWorkerTakes(s, w);
    } else {
      var w :| w in s.workers;
      InsideRunLeaves(s, w);
    }
  }

  /** A running pool with worker 0 alone. */
  function Alone(limit: nat, queue: seq<Task>, pc: Pc, producers: map<Thread, Pc>, offers: map<Thread, Task>,
                 accepted: seq<Task>, taken: seq<Task>): Pool
  {
    Pool(limit, true, queue, map[0 := pc], producers, offers, [], accepted, taken, map[0 := 0])
  }

  predicate Leads(s: Pool, step: Step, s': Pool) {
    Allowed(s, step) && Next(s, step) == s'
  }

  lemma {:induction false} Follow(states: seq<Pool>, steps: seq<Step>)
    requires |states| == |steps| + 1 && forall i :: 0 <= i < |steps| ==> Leads(states[i], steps[i], states[i + 1])
    ensures IsRun(states[0], steps) && Exec(states[0], steps) == states[|steps|]
    decreases |steps|
  {
    if steps != [] {
      assert Leads(states[0], steps[0], states[1]);
      forall i | 0 <= i < |steps[1..]| ensures Leads(states[1..][i], steps[1..][i], states[1..][i + 1]) {
        assert Leads(states[i + 1], steps[i + 1], states[i + 2]);
      }
      Follow(states[1..], steps[1..]);
    }
  }

  lemma AloneArrives(limit: nat, p: Thread, task: Task, queue: seq<Task>, pc: Pc, accepted: seq<Task>, taken: seq<Task>)
    requires p == 0 ==> pc == Executing
    ensures Leads(Alone(limit, queue, pc, map[], map[], accepted, taken), Arrive(p, task),
                  Alone(limit, queue, pc, map[p := Ready], map[p := task], accepted, taken))
  {
    var s := Alone(limit, queue, pc, map[], map[], accepted, taken);
    assert 0 in s.workers;
    assert s.producers[p := Ready] == map[p := Ready] && s.offers[p := task] == map[p := task];
  }

  /** There is room, and nobody to wake. */
  lemma AlonePushes(limit: nat, p: Thread, task: Task, pc: Pc, accepted: seq<Task>, taken: seq<Task>)
    requires pc != Waiting && limit <= 1
    ensures Leads(Alone(limit, [], pc, map[p := Ready], map[p := task], accepted, taken), TryPush(p, {}),
                  Alone(limit, [task], pc, map[], map[], accepted + [task], taken))
  {
    var s := Alone(limit, [], pc, map[p := Ready], map[p := task], accepted, taken);
    assert At(s.workers, Waiting) == {};
    assert Signal(s.workers, {}) == s.workers;
    assert s.producers - {p} == map[] && s.offers - {p} == map[];
  }

  /** The queue is full. */
  lemma AloneBlocks(p: Thread, task: Task, other: Task, accepted: seq<Task>, taken: seq<Task>)
    ensures Leads(Alone(1, [other], Executing, map[p := Ready], map[p := task], accepted, taken), TryPush(p, {}),
                  Alone(1, [other], Executing, map[p := Waiting], map[p := task], accepted, taken))
  {
    var s := Alone(1, [other], Executing, map[p := Ready], map[p := task], accepted, taken);
    assert At(s.workers, Waiting) == {};
  }

  lemma AloneTakes(task: Task, accepted: seq<Task>, taken: seq<Task>)
    ensures Leads(Alone(1, [task], Ready, map[], map[], accepted, taken), TryTake(0, {}),
                  Alone(1, [], Executing, map[], map[], accepted, taken + [task]))
  {
    var s := Alone(1, [task], Ready, map[], map[], accepted, taken);
    assert At(s.producers, Waiting) == {};
    assert Signal(s.producers, {}) == map[];
    assert [task][1..] == [];
  }

  lemma AloneChecks(limit: nat)
    ensures Leads(Started(limit, {0}), CheckRunning(0), Alone(limit, [], Ready, map[], map[], [], []))
  {
  }

  lemma FourSteps(s: Pool, a: Step, s1: Pool, b: Step, s2: Pool, c: Step, s3: Pool, d: Step, s4: Pool)
    requires Leads(s, a, s1) && Leads(s1, b, s2) && Leads(s2, c, s3) && Leads(s3, d, s4)
    ensures IsRun(s, [a, b, c, d]) && Exec(s, [a, b, c, d]) == s4
  {
    Follow([s, s1, s2, s3, s4], [a, b, c, d]);
  }

  lemma {:induction false} RunAppend(s: Pool, head: seq<Step>, tail: seq<Step>)
    requires IsRun(s, head) && IsRun(Exec(s, head), tail)
    ensures IsRun(s, head + tail) && Exec(s, head + tail) == Exec(Exec(s, head), tail)
    decreases |head|
  {
    if head == [] {
      assert head + tail == tail;
    } else {
      assert (head + tail)[0] == head[0] && (head + tail)[1..] == head[1..] + tail;
      RunAppend(Next(s, head[0]), head[1..], tail);
    }
  }

  const TASK_STARTS: seq<Step> := [CheckRunning(0), Arrive(9, 1), TryPush(9, {}), TryTake(0, {})]
  const RUN_TWICE: seq<Step> := [Arrive(0, 2), TryPush(0, {}), Arrive(0, 3), TryPush(0, {})]

  lemma TaskStarts(one: seq<Task>)
    requires one == [] + [1]
    ensures IsRun(Started(1, {0}), TASK_STARTS)
    ensures Exec(Started(1, {0}), TASK_STARTS) == Alone(1, [], Executing, map[], map[], one, one)
  {
    AloneChecks(1);
    AloneArrives(1, 9, 1, [], Ready, [], []);
    AlonePushes(1, 9, 1, Ready, [], []);
    AloneTakes(1, one, []);
    FourSteps(Started(1, {0}), CheckRunning(0), Alone(1, [], Ready, map[], map[], [], []),
              Arrive(9, 1), Alone(1, [], Ready, map[9 := Ready], map[9 := 1], [], []),
              TryPush(9, {}), Alone(1, [1], Ready, map[], map[], one, []),
              TryTake(0, {}), Alone(1, [], Executing, map[], map[], one, one));
  }

  lemma TaskRunsTwice(one: seq<Task>, two: seq<Task>)
    requires two == one + [2]
    ensures IsRun(Alone(1, [], Executing, map[], map[], one, one), RUN_TWICE)
    ensures Exec(Alone(1, [], Executing, map[], map[], one, one), RUN_TWICE) ==
            Alone(1, [2], Executing, map[0 := Waiting], map[0 := 3], two, one)
  {
    AloneArrives(1, 0, 2, [], Executing, one, one);
    AlonePushes(1, 0, 2, Executing, one, one);
    AloneArrives(1, 0, 3, [2], Executing, two, one);
    AloneBlocks(0, 3, 2, two, one);
    FourSteps(Alone(1, [], Executing, map[], map[], one, one),
              Arrive(0, 2), Alone(1, [], Executing, map[0 := Ready], map[0 := 2], one, one),
              TryPush(0, {}), Alone(1, [2], Executing, map[], map[], two, one),
              Arrive(0, 3), Alone(1, [2], Executing, map[0 := Ready], map[0 := 3], two, one),
              TryPush(0, {}), Alone(1, [2], Executing, map[0 := Waiting], map[0 := 3], two, one));
  }

  /** One worker, room for one task: a task that calls `run` twice puts the pool to sleep for good. */
  lemma TaskMayBlockItsPool()
    ensures IsRun(Started(1, {0}), TASK_STARTS + RUN_TWICE)
    ensures var s := Exec(Started(1, {0}), TASK_STARTS + RUN_TWICE);
            s.queue == [2] && s.workers == map[0 := Executing] && s.producers == map[0 := Waiting] && Stuck(s)
  {
    var one := [] + [1];
    TaskStarts(one);
    TaskRunsTwice(one, one + [2]);
    RunAppend(Started(1, {0}), TASK_STARTS, RUN_TWICE);
  }

  /**
    `run`: without threads the task runs at once and nothing is queued; otherwise its thread brings
    it to the mutex. There it waits exactly if the pool runs and is full, is turned away exactly if
    the pool has stopped, and else its task is the new last one of the queue.
   */
  lemma TaskIsRunOrBrought(s: Pool, p: Thread, task: Task)
    requires Allowed(s, Arrive(p, task))
    ensures var s' := Next(s, Arrive(p, task));
            && s'.queue == s.queue && s'.workers == s.workers
            && (s.workers == map[] ==> s'.inline == s.inline + [task] && s'.producers == s.producers)
            && (s.workers != map[] ==> s'.inline == s.inline && p in s'.producers && p in s'.offers && s'.offers[p] == task)
  {
  }

  lemma TaskIsQueuedOrRefused(s: Pool, p: Thread, woken: set<Thread>)
    requires Allowed(s, TryPush(p, woken))
    ensures var s', full := Next(s, TryPush(p, woken)), s.maxQueueSize > 0 && |s.queue| >= s.maxQueueSize;
            && (p in s'.producers <==> s.running && full)
            && s'.queue == s.queue + (if s.running && !full then [s.offers[p]] else [])
            && s'.accepted == s.accepted + (if s.running && !full then [s.offers[p]] else [])
  {
  }

  /** `take`: the first task, if there is one, goes to the worker; without one it waits while the pool runs. */
  lemma TaskIsTaken(s: Pool, w: Thread, woken: set<Thread>)
    requires Allowed(s, TryTake(w, woken))
    ensures var s' := Next(s, TryTake(w, woken));
            && w in s'.workers
            && (s.queue != [] ==> s'.taken == s.taken + [s.queue[0]] && s'.queue == s.queue[1..] && s'.workers[w] == Executing)
            && (s.queue == [] ==> s'.taken == s.taken && s'.queue == []
                                  && s'.workers[w] == if s.running then Waiting else AtCheck)
  {
  }

  /** The queue respects its limit, and tasks are taken once each in the order of acceptance. */
  lemma TasksTakenInOrder(maxQueueSize: nat, threads: set<Thread>, steps: seq<Step>)
    requires IsRun(Started(maxQueueSize, threads), steps)
    ensures var s := Exec(Started(maxQueueSize, threads), steps);
            && s.taken + s.queue == s.accepted
            && s.maxQueueSize == maxQueueSize
            && (maxQueueSize > 0 ==> |s.queue| <= maxQueueSize)
  {
    StartedOk(maxQueueSize, threads);
    RunKeeps(Started(maxQueueSize, threads), steps);
    LimitIsFixed(Started(maxQueueSize, threads), steps);
  }

  lemma {:induction false} LimitIsFixed(s: Pool, steps: seq<Step>)
    requires IsRun(s, steps)
    ensures Exec(s, steps).maxQueueSize == s.maxQueueSize
    decreases |steps|
  {
    if steps != [] {
      LimitIsFixed(Next(s, steps[0]), steps[1..]);
    }
  }

  lemma {:induction false} StoppedForGood(s: Pool, steps: seq<Step>)
    requires !s.running && IsRun(s, steps)
    ensures !Exec(s, steps).running && Exec(s, steps).accepted == s.accepted
    decreases |steps|
  {
    if steps != [] {
      StoppedForGood(Next(s, steps[0]), steps[1..]);
    }
  }

  /** How many tasks worker `w` takes in a run. */
  function TakenBy(s: Pool, steps: seq<Step>, w: Thread): nat
    requires IsRun(s, steps)
    decreases |steps|
  {
    if steps == [] then 0
    else
      (if steps[0].TryTake? && steps[0].w == w && s.queue != [] then 1 else 0) + TakenBy(Next(s, steps[0]), steps[1..], w)
  }

  lemma {:induction false} LateCountsTaken(s: Pool, steps: seq<Step>, w: Thread)
    requires Inv(s) && !s.running && IsRun(s, steps) && w in s.workers
    ensures w in s.late && w in Exec(s, steps).late && Exec(s, steps).late[w] == s.late[w] + TakenBy(s, steps, w)
    decreases |steps|
  {
    if steps != [] {
      StepKeeps(s, steps[0]);
      LateCountsTaken(Next(s, steps[0]), steps[1..], w);
    }
  }

  /**
    From any reached state on, after `stop`: no thread waits again, no task is accepted, and each
    worker takes at most one more task.
   */
  lemma StopReleasesEveryone(s: Pool, steps: seq<Step>)
    requires Inv(s) && IsRun(Next(s, Stop), steps)
    ensures var t := Exec(Next(s, Stop), steps);
            && At(t.workers, Waiting) == {} && At(t.producers, Waiting) == {}
            && t.accepted == s.accepted
            && (forall w :: w in t.workers ==> w in t.late && t.late[w] <= 1)
            && forall w :: w in s.workers ==> TakenBy(Next(s, Stop), steps, w) <= 1
  {
    StepKeeps(s, Stop);
    RunKeeps(Next(s, Stop), steps);
    StoppedForGood(Next(s, Stop), steps);
    SameWorkers(Next(s, Stop), steps);
    forall w | w in s.workers ensures TakenBy(Next(s, Stop), steps, w) <= 1 {
      LateCountsTaken(Next(s, Stop), steps, w);
    }
  }

  lemma {:induction false} SameWorkers(s: Pool, steps: seq<Step>)
    requires IsRun(s, steps)
    ensures Exec(s, steps).workers.Keys == s.workers.Keys
    decreases |steps|
  {
    if steps != [] {
      SameWorkers(Next(s, steps[0]), steps[1..]);
    }
  }

  // ---------------------------------------------------------------- what is not promised

  /** The workers inside `take`, asleep or awake. */
  function Inside(s: Pool): set<Thread> {
    set w | w in s.workers && (s.workers[w] == Waiting || TakesLock(s.workers, w))
  }

  /** The queued tasks beyond one for each worker inside `take`. */
  function Unserved(s: Pool): nat {
    if |s.queue| > |Inside(s)| then |s.queue| - |Inside(s)| else 0
  }

  lemma TakeServes(s: Pool, w: Thread, woken: set<Thread>)
    requires !s.running && Allowed(s, TryTake(w, woken))
    ensures Unserved(Take(s, w, woken)) == Unserved(s)
  {
    assert Inside(Take(s, w, woken)) == Inside(s) - {w} && w in Inside(s);
  }

  lemma UnservedStays(s: Pool, step: Step)
    requires Inv(s) && !s.running && Allowed(s, step)
    ensures Unserved(Next(s, step)) == Unserved(s)
  {
    if step.TryTake? {
      TakeServes(s, step.w, step.woken);
    } else {
      assert Inside(Next(s, step)) == Inside(s);
    }
  }

  lemma {:induction false} UnservedStaysInRuns(s: Pool, steps: seq<Step>)
    requires Inv(s) && !s.running && IsRun(s, steps)
    ensures Unserved(Exec(s, steps)) == Unserved(s)
    decreases |steps|
  {
    if steps != [] {
      StepKeeps(s, steps[0]);
      UnservedStays(s, steps[0]);
      UnservedStaysInRuns(Next(s, steps[0]), steps[1..]);
    }
  }

  predicate AllExited(pcs: map<Thread, Pc>) {
    forall t :: t in pcs ==> pcs[t] == Exited
  }

  /**
    `stop` runs every accepted task if and only if, when it is called, the queue holds no more
    tasks than there are workers inside `take`; otherwise exactly the excess is left behind when
    the last worker exits, whatever the schedule.
   */
  lemma StopServesAllIff(s: Pool, steps: seq<Step>)
    requires Inv(s) && IsRun(Next(s, Stop), steps) && AllExited(Exec(Next(s, Stop), steps).workers)
    ensures var t := Exec(Next(s, Stop), steps);
            && |t.queue| == Unserved(s) && t.taken + t.queue == s.accepted
            && (t.taken == s.accepted <==> |s.queue| <= |Inside(s)|)
  {
    StopReleasesEveryone(s, steps);
    StepKeeps(s, Stop);
    RunKeeps(Next(s, Stop), steps);
    assert Inside(Next(s, Stop)) == Inside(s);
    UnservedStaysInRuns(Next(s, Stop), steps);
    var t := Exec(Next(s, Stop), steps);
    assert Inside(t) == {};
    assert t.queue == [] <==> |t.taken| == |s.accepted|;
  }

  const STOP_TOO_SOON: seq<Step> := [Arrive(7, 1), TryPush(7, {}), Stop, CheckRunning(0)]

  lemma AloneStops(s: Pool)
    requires s == Alone(0, [1], AtCheck, map[], map[], [] + [1], [])
    ensures Leads(s, Stop, s.(running := false))
    ensures Leads(s.(running := false), CheckRunning(0), s.(running := false, workers := map[0 := Exited]))
  {
    assert Signal(s.workers, At(s.workers, Waiting)) == s.workers;
    assert Signal(s.producers, At(s.producers, Waiting)) == map[];
  }

  /** `stop` may leave accepted tasks behind that no thread will ever take. */
  lemma StopMayLeaveTasks()
    ensures IsRun(Started(0, {0}), STOP_TOO_SOON)
    ensures var s := Exec(Started(0, {0}), STOP_TOO_SOON);
            s.accepted == [1] && s.taken == [] && s.queue == [1] && s.workers == map[0 := Exited]
  {
    assert Started(0, {0}) == Alone(0, [], AtCheck, map[], map[], [], []);
    var s2 := Alone(0, [1], AtCheck, map[], map[], [] + [1], []);
    AloneArrives(0, 7, 1, [], AtCheck, [], []);
    AlonePushes(0, 7, 1, AtCheck, [], []);
    AloneStops(s2);
    FourSteps(Started(0, {0}), Arrive(7, 1), Alone(0, [], AtCheck, map[7 := Ready], map[7 := 1], [], []),
              TryPush(7, {}), s2, Stop, s2.(running := false),
              CheckRunning(0), s2.(running := false, workers := map[0 := Exited]));
  }

  // ---------------------------------------------------------------- the critical sections

  /**
    The pool's own fields, with the threads inside it as the scheduler sees them. A method is what
    one thread does while it holds the mutex; `waits` means it ends in a condition wait, and the
    thread runs the same section again once it is woken.
   */
  class ThreadPool {
    const maxQueueSize: nat
    const threads: set<Thread>
    var running: bool
    var queue: seq<Task>
    ghost var workers: map<Thread, Pc>
    ghost var producers: map<Thread, Pc>
    ghost var offers: map<Thread, Task>
    ghost var inline: seq<Task>
    ghost var accepted: seq<Task>
    ghost var taken: seq<Task>
    ghost var late: map<Thread, nat>

    ghost function View(): Pool
      reads this
    {
      Pool(maxQueueSize, running, queue, workers, producers, offers, inline, accepted, taken, late)
    }

    ghost predicate Valid()
      reads this
    {
      Inv(View()) && workers.Keys == threads
    }

    /** `setMaxQueueSize` and `start`. */
    constructor (maxQueueSize: nat, threads: set<Thread>)
      ensures Valid() && View() == Started(maxQueueSize, threads)
    {
      this.maxQueueSize, this.threads := maxQueueSize, threads;
      running, queue, inline, accepted, taken := true, [], [], [], [];
      workers, producers, offers := map w | w in threads :: AtCheck, map[], map[];
      late := map w | w in threads :: 0;
    }

    predicate IsFull()
      reads this
    {
      maxQueueSize > 0 && |queue| >= maxQueueSize
    }

    /** `run` up to the lock: without threads the caller runs the task itself. */
    method Run(p: Thread, task: Task) returns (runsInline: bool)
      requires Valid() && Allowed(View(), Arrive(p, task))
      modifies this`producers, this`offers, this`inline
      ensures Valid() && View() == Next(old(View()), Arrive(p, task))
      ensures runsInline <==> threads == {}
      ensures inline == old(inline) + if runsInline then [task] else []
      ensures !runsInline ==> p in producers && producers[p] == Ready && p in offers && offers[p] == task
    {
      StepKeeps(View(), Arrive(p, task));
      runsInline := threads == {};
      if runsInline {
        assert workers == map[];
        inline := inline + [task];
      } else {
        assert workers.Keys != {};
        producers, offers := producers[p := Ready], offers[p := task];
      }
    }

    method PushLocked(p: Thread, task: Task, ghost woken: set<Thread>) returns (waits: bool)
      requires Valid() && Allowed(View(), TryPush(p, woken)) && offers[p] == task
      modifies this`queue, this`workers, this`producers, this`offers, this`accepted
      ensures Valid() && View() == Next(old(View()), TryPush(p, woken))
      ensures waits <==> old(IsFull()) && running
      ensures queue == old(queue) + if running && !waits then [task] else []
    {
      StepKeeps(View(), TryPush(p, woken));
      waits := IsFull() && running;
      if waits {
        producers := producers[p := Waiting];
        return;
      }
      producers, offers := producers - {p}, offers - {p};
      if !running {
        return;
      }
      assert !IsFull();
      queue, accepted := queue + [task], accepted + [task];
      workers := Signal(workers, woken);
    }

    method TakeLocked(w: Thread, ghost woken: set<Thread>) returns (waits: bool, task: Option<Task>)
      requires Valid() && Allowed(View(), TryTake(w, woken))
      modifies this`queue, this`workers, this`producers, this`taken, this`late
      ensures Valid() && View() == Next(old(View()), TryTake(w, woken))
      ensures waits <==> old(queue) == [] && running
      ensures old(queue) == (if task.Some? then [task.value] else []) + queue
      ensures task.None? ==> old(queue) == []
    {
      StepKeeps(View(), TryTake(w, woken));
      waits, task := queue == [] && running, None;
      if waits {
        workers := workers[w := Waiting];
      } else if queue == [] {
        workers := workers[w := AtCheck];
      } else {
        var first := PopFront(w, woken);
        task := Some(first);
      }
    }

    method PopFront(w: Thread, ghost woken: set<Thread>) returns (task: Task)
      requires Allowed(View(), TryTake(w, woken)) && queue != []
      modifies this`queue, this`workers, this`producers, this`taken, this`late
      ensures View() == Take(old(View()), w, woken) && [task] + queue == old(queue)
    {
      task := queue[0];
      queue, taken := queue[1..], taken + [task];
      if maxQueueSize > 0 {
        producers := Signal(producers, woken);
      }
      workers, late := workers[w := Executing], if running then late else late[w := late[w] + 1];
    }

    /** `stop` up to the joins. */
    method Stop()
      requires Valid()
      modifies this`running, this`workers, this`producers
      ensures Valid() && View() == Next(old(View()), Step.Stop) && !running
    {
      StepKeeps(View(), Step.Stop);
      running := false;
      workers := Signal(workers, At(workers, Waiting));
      producers := Signal(producers, At(producers, Waiting));
    }
  }
}
