/**
  Whether pending timers have a kernel timer set for them.

  `reset` re-arms inside its loop over the expired timers, so a firing that finds nothing due
  leaves the kernel timer off. The lemmas below say exactly when that happens.
 */
module TimerArming {
  import opened Outcomes
  import opened TimerSets
  import opened TimerMachine
  import opened TimerSafety

  /** The earliest timer, if any, will be looked at: a firing waits, or one is set in time. */
  predicate Covered(s: Queue) {
    s.timers == [] || s.fd.ready || (s.fd.armed.Some? && s.fd.armed.value <= s.timers[0].when)
  }

  /** Reading the kernel timer at `now` uses up the only firing although nothing is due yet. */
  predicate LosesQueue(s: Queue, now: Time) {
    s.timers != [] && DueCount(s, now) == 0 && s.fd.ready
  }

  ghost predicate AfterEpoch(s: Queue) {
    forall a :: a in s.heap ==> s.heap[a].expiration > EPOCH
  }

  ghost predicate ArmOk(s: Queue) {
    && AfterEpoch(s)
    && !(s.fd.ready && s.fd.armed.Some?)
    && match s.phase
       case Idle => Covered(s)
       case Calling(now, expired, _) => now > EPOCH && (expired != [] || Covered(s))
       case Resetting(now, rest, _) => now > EPOCH && (rest != [] || Covered(s))
  }

  /** All times lie after the epoch, and no firing loses the queue. */
  predicate Benign(s: Queue, step: Step) {
    match step
    case Create(_, when, _) => when > EPOCH
    case Fire(now) => now > EPOCH && !LosesQueue(s, now)
    case _ => true
  }

  lemma AddArms(s: Queue, a: nat)
    requires Inv(s) && ArmOk(s) && Allowed(s, Add(a))
    ensures AddTimerInLoop(s, a).Ok? && ArmOk(AddTimerInLoop(s, a).value)
  {
    InsertOk(s, a);
    InsertCorrect(s.timers, Entry(s.heap[a].expiration, a));
  }

  lemma CancelArms(s: Queue, id: Id)
    requires Inv(s) && ArmOk(s) && Allowed(s, Cancel(id))
    ensures CancelInLoop(s, id).Ok? && ArmOk(CancelInLoop(s, id).value)
  {
    if id in s.active {
      CancelIndex(s, id);
      EraseCorrect(s.timers, Entry(s.heap[id.timer].expiration, id.timer));
    }
  }

  lemma FireArms(s: Queue, now: Time)
    requires Inv(s) && ArmOk(s) && Allowed(s, Fire(now)) && Benign(s, Fire(now))
    ensures FireTimers(s, now).Ok? && ArmOk(FireTimers(s, now).value)
  {
    FireShape(s, now);
    if DueCount(s, now) == 0 { assert s.timers[DueCount(s, now)..] == s.timers; }
  }

  lemma RearmCovers(s: Queue)
    requires IndexOk(s) && s.phase.Resetting? && AfterEpoch(s) && !(s.fd.ready && s.fd.armed.Some?)
    ensures Rearm(s).Ok? && Covered(Rearm(s).value)
    ensures !(Rearm(s).value.fd.ready && Rearm(s).value.fd.armed.Some?)
  {
    RearmOk(s);
    if s.timers != [] { assert s.timers[0] in s.timers; }
  }

  lemma RestartedIndex(s: Queue)
    requires Inv(s) && Allowed(s, ResetNext)
    ensures RestartOrDelete(s).Ok? && IndexOk(RestartOrDelete(s).value) && RestartOrDelete(s).value.fd == s.fd
  {
    if Restarts(s) { RestartShape(s); } else { DropKeeps(s); }
  }

  lemma ResetArms(s: Queue)
    requires Inv(s) && ArmOk(s) && Allowed(s, ResetNext)
    ensures ResetOne(s).Ok? && ArmOk(ResetOne(s).value)
  {
    RestartedIndex(s);
    ResetTimers(s);
    ResetShape(s);
    if Restarts(s) { RestartAfterEpoch(s.heap[s.phase.rest[0].timer], s.phase.now); }
    var m := RestartOrDelete(s).value;
    RearmOk(m);
    assert m.heap == ResetOne(s).value.heap;
    RearmCovers(m);
  }

  lemma RestartAfterEpoch(t: Timer, now: Time)
    requires t.Repeat() && now > EPOCH
    ensures t.Restart(now).expiration > EPOCH
  {
  }

  lemma StepArms(s: Queue, step: Step)
    requires Inv(s) && ArmOk(s) && Allowed(s, step) && Benign(s, step)
    ensures Next(s, step).Ok? && ArmOk(Next(s, step).value)
  {
    match step
    case Add(a) => AddArms(s, a);
    case Cancel(id) => CancelArms(s, id);
    case Fire(now) => FireArms(s, now);
    case RunNext => RunKeeps(s);
    case ResetNext => ResetArms(s);
    case _ =>
  }

  predicate BenignRun(s: Queue, steps: seq<Step>)
    requires IsRun(s, steps)
    decreases |steps|
  {
    steps == [] ||
    (Benign(s, steps[0]) && (Next(s, steps[0]).Ok? ==> BenignRun(Next(s, steps[0]).value, steps[1..])))
  }

  lemma {:induction false} RunArms(s: Queue, steps: seq<Step>)
    requires Inv(s) && ArmOk(s) && IsRun(s, steps) && BenignRun(s, steps)
    ensures Exec(s, steps).Ok? && ArmOk(Exec(s, steps).value)
    decreases |steps|
  {
    if steps != [] {
      StepKeeps(s, steps[0]);
      StepArms(s, steps[0]);
      RunArms(Next(s, steps[0]).value, steps[1..]);
    }
  }

  /** In a benign run, whenever the queue is at rest its earliest timer is covered. */
  lemma PendingTimersAreCovered(steps: seq<Step>)
    requires IsRun(Empty, steps) && BenignRun(Empty, steps)
    ensures Exec(Empty, steps).Ok?
    ensures Exec(Empty, steps).value.phase.Idle? ==> Covered(Exec(Empty, steps).value)
  {
    RunArms(Empty, steps);
  }

  // ---------------------------------------------------------------- what the kernel timer is set for

  lemma FrontIsEarliest(timers: seq<Entry>, when: Time)
    requires Sorted(timers) && timers != []
    ensures when < timers[0].when <==> forall e :: e in timers ==> when < e.when
  {
    assert timers[0] in timers;
    forall e | e in timers ensures timers[0].when <= e.when {
      var i :| 0 <= i < |timers| && timers[i] == e;
      assert i > 0 ==> Less(timers[0], timers[i]);
    }
  }

  /** A timer earlier than all others sets the kernel timer for its own time; any other leaves it alone. */
  lemma AddSetsKernelTimer(s: Queue, a: nat)
    requires Inv(s) && Allowed(s, Add(a))
    ensures AddTimerInLoop(s, a).Ok? && a in s.heap
    ensures var when, s' := s.heap[a].expiration, AddTimerInLoop(s, a).value;
            s'.fd == if forall e :: e in s.timers ==> when < e.when then TimerFd(Some(when), false) else s.fd
  {
    InsertOk(s, a);
    if s.timers != [] { FrontIsEarliest(s.timers, s.heap[a].expiration); }
  }

  /** An id that is not active: nothing but `cancelingTimers_` changes, and that only during callbacks. */
  lemma CancelOtherChanges(s: Queue, id: Id)
    requires Inv(s) && Allowed(s, Cancel(id)) && id !in s.active
    ensures CancelInLoop(s, id) == Ok(s.(canceling := if s.phase.Calling? then s.canceling + {id} else s.canceling))
  {
  }

  /** While `reset` has found no timer pending, it has no time to set. */
  predicate NoTimeYet(s: Queue) {
    s.phase.Resetting? && s.timers == [] ==> s.phase.nextExpire == EPOCH
  }

  lemma UserPhase(s: Queue, step: Step)
    requires Allowed(s, step) && (step.Add? || step.Cancel?) && Next(s, step).Ok?
    ensures Next(s, step).value.phase == s.phase && !s.phase.Resetting?
  {
  }

  lemma FiredPhase(s: Queue, now: Time)
    requires FireTimers(s, now).Ok?
    ensures FireTimers(s, now).value.phase.Calling?
  {
  }

  lemma NoTimeYetStep(s: Queue, step: Step)
    requires Inv(s) && NoTimeYet(s) && Allowed(s, step) && Next(s, step).Ok?
    ensures NoTimeYet(Next(s, step).value)
  {
    match step
    case ResetNext => ResetSetsKernelTimer(s);
    case Fire(now) => FiredPhase(s, now);
    case Add(_) => UserPhase(s, step);
    case Cancel(_) => UserPhase(s, step);
    case _ =>
  }

  lemma {:induction false} NoTimeYetRun(s: Queue, steps: seq<Step>)
    requires Inv(s) && NoTimeYet(s) && IsRun(s, steps)
    ensures Exec(s, steps).Ok? && NoTimeYet(Exec(s, steps).value)
    decreases |steps|
  {
    if steps != [] {
      StepKeeps(s, steps[0]);
      NoTimeYetStep(s, steps[0]);
      NoTimeYetRun(Next(s, steps[0]).value, steps[1..]);
    }
  }

  /**
    After an iteration of `reset` the kernel timer is set for exactly the earliest pending timer, or
    left alone if none is pending.
   */
  lemma ResetSetsKernelTimer(s: Queue)
    requires Inv(s) && NoTimeYet(s) && Allowed(s, ResetNext)
    ensures ResetOne(s).Ok? && NoTimeYet(ResetOne(s).value)
    ensures var s' := ResetOne(s).value;
            && (s'.timers == [] ==> s'.fd == s.fd)
            && (s'.timers != [] && s'.timers[0].when > EPOCH ==> s'.fd == TimerFd(Some(s'.timers[0].when), false))
  {
    RestartedIndex(s);
    var m := RestartOrDelete(s).value;
    RearmOk(m);
    if Restarts(s) {
      RestartShape(s);
      assert Id(s.phase.rest[0].timer, s.heap[s.phase.rest[0].timer].sequence) in m.active;
      assert |m.timers| == |m.active|;
    } else {
      DropKeeps(s);
    }
  }

  /** So it is in every run. */
  lemma ResetsSetKernelTimer(steps: seq<Step>)
    requires IsRun(Empty, steps) && Exec(Empty, steps).Ok? && Allowed(Exec(Empty, steps).value, ResetNext)
    ensures var s := Exec(Empty, steps).value;
            && ResetOne(s).Ok?
            && var s' := ResetOne(s).value;
               && (s'.timers == [] ==> s'.fd == s.fd)
               && (s'.timers != [] && s'.timers[0].when > EPOCH ==> s'.fd == TimerFd(Some(s'.timers[0].when), false))
  {
    RunSafe(Empty, steps);
    NoTimeYetRun(Empty, steps);
    ResetSetsKernelTimer(Exec(Empty, steps).value);
  }

  // ---------------------------------------------------------------- exactly when cover is lost

  /** One whole `handleRead` at reading `now`, with other threads free to create timers. */
  predicate OneReading(now: Time, steps: seq<Step>) {
    && |steps| >= 2 && steps[0] == Fire(now)
    && OneReset(steps[1..])
  }

  /** The rest of a `handleRead`: ends with its `EndReset`, and is not interrupted by another. */
  predicate OneReset(steps: seq<Step>) {
    && |steps| >= 1 && steps[|steps| - 1] == EndReset
    && forall i :: 0 <= i < |steps| - 1 ==> !steps[i].Fire? && !steps[i].EndReset?
  }

  predicate TimesAfterEpoch(steps: seq<Step>) {
    forall step :: step in steps && step.Create? ==> step.when > EPOCH
  }

  /** Inside a `handleRead` that found nothing due, with the kernel timer off. */
  predicate Stranded(s: Queue) {
    && s.timers != [] && s.fd == TimerFd(None, false) && !s.phase.Idle? && Expired(s) == []
    && (s.phase.Calling? ==> s.phase.next == 0)
  }

  lemma StrandedStep(s: Queue, step: Step)
    requires Stranded(s) && Allowed(s, step) && !step.Fire?
    ensures Next(s, step).Ok?
    ensures step.EndReset? ==> Next(s, step).value.phase.Idle? && !Covered(Next(s, step).value)
    ensures !step.EndReset? ==> Stranded(Next(s, step).value)
  {
  }

  lemma {:induction false} StrandedEndsUncovered(s: Queue, steps: seq<Step>)
    requires Stranded(s) && IsRun(s, steps) && OneReset(steps)
    ensures Exec(s, steps).Ok? && Exec(s, steps).value.phase.Idle? && !Covered(Exec(s, steps).value)
    decreases |steps|
  {
    StrandedStep(s, steps[0]);
    var s' := Next(s, steps[0]).value;
    if |steps| == 1 {
      assert Exec(s', steps[1..]) == Ok(s');
    } else {
      StrandedEndsUncovered(s', steps[1..]);
    }
  }

  lemma {:induction false} QuietAfterFire(s: Queue, steps: seq<Step>)
    requires IsRun(s, steps) && OneReset(steps) && TimesAfterEpoch(steps)
    ensures BenignRun(s, steps)
    ensures Exec(s, steps).Ok? ==> Exec(s, steps).value.phase.Idle?
    decreases |steps|
  {
    assert steps[0] in steps;
    if |steps| > 1 {
      assert forall step :: step in steps[1..] ==> step in steps;
      if Next(s, steps[0]).Ok? { QuietAfterFire(Next(s, steps[0]).value, steps[1..]); }
    } else if Next(s, steps[0]).Ok? {
      assert Exec(Next(s, steps[0]).value, steps[1..]) == Next(s, steps[0]);
    }
  }

  /**
    From any covered state at rest, a complete `handleRead` ends covered if and only if it did
    not lose the queue: nothing pending, something due, or no firing consumed.
   */
  lemma HandleReadKeepsCoverIff(s: Queue, now: Time, steps: seq<Step>)
    requires Inv(s) && ArmOk(s) && s.phase.Idle? && now > EPOCH
    requires IsRun(s, steps) && OneReading(now, steps) && TimesAfterEpoch(steps)
    ensures Exec(s, steps).Ok? && Exec(s, steps).value.phase.Idle?
    ensures Covered(Exec(s, steps).value) <==> !LosesQueue(s, now)
  {
    StepKeeps(s, steps[0]);
    var s' := Next(s, steps[0]).value;
    assert forall step :: step in steps[1..] ==> step in steps;
    QuietAfterFire(s', steps[1..]);
    RunSafe(s', steps[1..]);
    if LosesQueue(s, now) {
      assert s.timers[..0] == [] && s.timers[0..] == s.timers;
      StrandedEndsUncovered(s', steps[1..]);
    } else {
      FireArms(s, now);
      RunArms(s', steps[1..]);
    }
  }

  const TWO_TIMERS: seq<Step> := [Create(1, 10, 0.0), Add(1), Create(2, 20, 0.0)]
  const CANCEL_EARLIEST: seq<Step> := [Add(2), Cancel(Id(1, 1)), Expire]
  const FIRE_AT_TEN: seq<Step> := [Fire(10), EndCalls, EndReset]

  /**
    Cancelling the earliest timer and letting the kernel fire at its time strands the others:
    timer 2, due at 20, stays pending with the kernel timer off.
   */
  lemma CancelledEarliestStrandsTheRest()
    ensures var steps := TWO_TIMERS + CANCEL_EARLIEST + FIRE_AT_TEN;
            && IsRun(Empty, steps) && Exec(Empty, steps).Ok?
            && var s := Exec(Empty, steps).value;
               s.phase.Idle? && s.timers == [Entry(20, 2)] && s.fd == TimerFd(None, false) && !Covered(s)
  {
    var s3 := StrandAdds();
    var s4 := StrandSecondAdd(s3);
    var s6 := StrandCancels(s4);
    assert CANCEL_EARLIEST[1..] == [Cancel(Id(1, 1)), Expire];
    var s9 := StrandFires(s6);
    RunAppend(Empty, TWO_TIMERS, CANCEL_EARLIEST);
    RunAppend(Empty, TWO_TIMERS + CANCEL_EARLIEST, FIRE_AT_TEN);
  }

  lemma StrandAdds() returns (s3: Queue)
    ensures s3 == Queue(map[1 := Timer(10, 0.0, 1), 2 := Timer(20, 0.0, 2)], 2, [Entry(10, 1)], {Id(1, 1)}, false, {},
                        TimerFd(Some(10), false), Idle, map[1 := 1, 2 := 2], {2}, {1}, [], [], [])
    ensures IsRun(Empty, TWO_TIMERS)
    ensures Exec(Empty, TWO_TIMERS) == Ok(s3)
  {
    var s1 := CreateTimer(Empty, 1, 10, 0.0);
    assert Insert([], Entry(10, 1)) == [Entry(10, 1)];
    var s2 := s1.(timers := [Entry(10, 1)], active := {Id(1, 1)}, detached := {}, accepted := {1},
                  fd := TimerFd(Some(10), false));
    assert Next(s1, Add(1)) == Ok(s2);
    s3 := CreateTimer(s2, 2, 20, 0.0);
  }

  lemma StrandSecondAdd(s3: Queue) returns (s4: Queue)
    requires s3.heap == map[1 := Timer(10, 0.0, 1), 2 := Timer(20, 0.0, 2)] && s3.timers == [Entry(10, 1)]
    requires s3.active == {Id(1, 1)} && s3.detached == {2} && s3.phase.Idle?
    ensures Allowed(s3, Add(2)) && Next(s3, Add(2)) == Ok(s4)
    ensures s4 == s3.(timers := [Entry(10, 1), Entry(20, 2)], active := s4.active, detached := s4.detached,
                      accepted := s4.accepted)
    ensures |s4.active| == 2 && Id(1, 1) in s4.active
  {
    assert LowerBound([Entry(10, 1)], Entry(20, 2)) == 1;
    assert Insert([Entry(10, 1)], Entry(20, 2)) == [Entry(10, 1), Entry(20, 2)];
    s4 := AddTimerInLoop(s3, 2).value;
  }

  lemma StrandCancels(s4: Queue) returns (s6: Queue)
    requires s4.heap == map[1 := Timer(10, 0.0, 1), 2 := Timer(20, 0.0, 2)]
    requires s4.timers == [Entry(10, 1), Entry(20, 2)] && |s4.active| == 2 && Id(1, 1) in s4.active
    requires s4.fd == TimerFd(Some(10), false) && s4.phase.Idle?
    ensures s6.phase.Idle? && s6.timers == [Entry(20, 2)] && |s6.active| == 1 && s6.fd == TimerFd(None, true)
    ensures IsRun(s4, [Cancel(Id(1, 1)), Expire]) && Exec(s4, [Cancel(Id(1, 1)), Expire]) == Ok(s6)
  {
    assert Erase([Entry(10, 1), Entry(20, 2)], Entry(10, 1)) == [Entry(20, 2)];
    var s5 := CancelInLoop(s4, Id(1, 1)).value;
    s6 := s5.(fd := TimerFd(None, true));
  }

  lemma StrandFires(s6: Queue) returns (s9: Queue)
    requires s6.phase.Idle? && s6.timers == [Entry(20, 2)] && |s6.active| == 1 && s6.fd == TimerFd(None, true)
    ensures s9.phase.Idle? && s9.timers == [Entry(20, 2)] && s9.fd == TimerFd(None, false)
    ensures IsRun(s6, FIRE_AT_TEN) && Exec(s6, FIRE_AT_TEN) == Ok(s9)
  {
    assert DueCount(s6, 10) == 0;
    var s7 := FireTimers(s6, 10).value;
    s9 := s7.(calling := false, phase := Idle);
  }
}
