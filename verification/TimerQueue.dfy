/** `TimerQueue` as the object it is; every method is one or more steps of the timer machine. */
module TimerQueues {
  import opened Outcomes
  import opened TimerSets
  import opened TimerMachine
  import opened TimerSafety
  import opened TimerArming

  /** What a callback may do to the queue, with the address the allocator hands it. */
  datatype Command = NewTimer(at: nat, when: Time, interval: real) | CancelTimer(id: Id)

  /** Names the one start state; see `Reached`. */
  predicate IsStart(s: Queue) {
    s == Empty
  }

  /**
    `s` is where the run `steps` of the machine, started empty, arrives without a crash. There is one
    start state only; quantifying over it keeps the solver from unfolding the run in every method
    whose object carries it, and `Extend` and `ReachedBetween` instantiate it.
   */
  ghost predicate Reached(steps: seq<Step>, s: Queue) {
    forall start :: IsStart(start) ==> IsRun(start, steps) && Exec(start, steps) == Ok(s)
  }

  /** From a reached state every permitted step goes through, to a reached state. */
  lemma Extend(steps: seq<Step>, s: Queue, step: Step)
    requires Reached(steps, s) && Allowed(s, step)
    ensures Next(s, step).Ok? && Reached(steps + [step], Next(s, step).value)
  {
    assert IsStart(Empty);
    RunSafe(Empty, steps);
    StepKeeps(s, step);
    assert [step][1..] == [];
    assert IsRun(s, [step]) && Exec(s, [step]) == Next(s, step);
    RunAppend(Empty, steps, [step]);
  }

  /** The effect of one command; an address that is taken cannot be what `new` returned. */
  function Perform(s: Queue, command: Command): Outcome<Queue> {
    match command
    case NewTimer(a, when, interval) =>
      if 0 < a < UINTPTR_MAX && a !in s.heap then AddTimerInLoop(CreateTimer(s, a, when, interval), a) else Ok(s)
    case CancelTimer(id) => CancelInLoop(s, id)
  }

  /** The effect of the first `n` commands. */
  function PerformFirst(s: Queue, n: nat, commands: seq<Command>): Outcome<Queue>
    requires n <= |commands|
  {
    if n == 0 then Ok(s)
    else
      var s' :- PerformFirst(s, n - 1, commands);
      Perform(s', commands[n - 1])
  }

  function CallbackAt(callbacks: seq<seq<Command>>, i: nat): seq<Command> {
    if i < |callbacks| then callbacks[i] else []
  }

  /** The next expired timer's callback: its call, then all it does to the queue. */
  function CallOne(s: Queue, commands: seq<Command>): Outcome<Queue> {
    var _ :- Check(Allowed(s, RunNext));
    var s' :- RunCallback(s);
    PerformFirst(s', |commands|, commands)
  }

  /** The callbacks of the first `n` expired timers. */
  function CallFirst(s: Queue, n: nat, callbacks: seq<seq<Command>>): Outcome<Queue> {
    if n == 0 then Ok(s)
    else
      var s' :- CallFirst(s, n - 1, callbacks);
      CallOne(s', CallbackAt(callbacks, n - 1))
  }

  function Resets(n: nat): seq<Step> {
    seq(n, _ => ResetNext)
  }

  /** The rest of `handleRead` after the callbacks of `n` expired timers. */
  function FinishSteps(n: nat): seq<Step> {
    [EndCalls] + Resets(n) + [EndReset]
  }

  function FinishResult(s: Queue, n: nat): Outcome<Queue> {
    var _ :- Check(IsRun(s, FinishSteps(n)));
    Exec(s, FinishSteps(n))
  }

  /** `handleRead` as a whole, from idle to idle. */
  function HandleReadResult(s: Queue, now: Time, callbacks: seq<seq<Command>>): Outcome<Queue> {
    var fired :- FireTimers(s, now);
    var called :- CallFirst(fired, |Expired(fired)|, callbacks);
    FinishResult(called, |Expired(fired)|)
  }

  /** The entries before and after the sentry of `getExpired`. */
  function DueAt(timers: seq<Entry>, now: Time): seq<Entry> {
    timers[..LowerBound(timers, Entry(now, UINTPTR_MAX))]
  }

  function LaterThan(timers: seq<Entry>, now: Time): seq<Entry> {
    timers[LowerBound(timers, Entry(now, UINTPTR_MAX))..]
  }

  /** `getExpired` passes its asserts and leaves the ids `left` active. */
  predicate Collects(heap: map<nat, Timer>, timers: seq<Entry>, active: set<Id>, now: Time, left: set<Id>) {
    && |timers| == |active|
    && (LaterThan(timers, now) == [] || now < LaterThan(timers, now)[0].when)
    && EraseActive(heap, active, DueAt(timers, now)) == Ok(left)
    && |LaterThan(timers, now)| == |left|
  }

  function FiredView(s: Queue, now: Time, left: set<Id>, batch: seq<nat>): Queue {
    s.(timers := LaterThan(s.timers, now), active := left, calling := true, canceling := {},
       fd := s.fd.(ready := false), phase := Calling(now, DueAt(s.timers, now), 0), batch := batch)
  }

  lemma FireCollects(s: Queue, now: Time, after: Queue)
    requires FireTimers(s, now) == Ok(after)
    ensures Collects(s.heap, s.timers, s.active, now, after.active)
  {
  }

  lemma FireViews(s: Queue, now: Time, after: Queue)
    requires FireTimers(s, now) == Ok(after)
    ensures after == FiredView(s, now, after.active, after.batch)
  {
  }

  /** Steps strictly inside one `handleRead`. */
  predicate MidRead(steps: seq<Step>) {
    forall k :: 0 <= k < |steps| ==> !steps[k].Fire? && !steps[k].EndReset?
  }

  /** Steps of user code: what callbacks and the loop's other tasks do to the queue. */
  predicate IsUserStep(step: Step) {
    step.Create? || step.Add? || step.Cancel?
  }

  class TimerQueue {
    var heap: map<nat, Timer>
    var numCreated: nat
    var timers: seq<Entry>
    var activeTimers: set<Id>
    var callingExpiredTimers: bool
    var cancelingTimers: set<Id>
    var timerfd: TimerFd
    ghost var phase: Phase
    ghost var ids: map<nat, nat>
    ghost var detached: set<nat>
    ghost var accepted: set<nat>
    ghost var batch: seq<nat>
    ghost var freed: seq<nat>
    ghost var runs: seq<Invocation>
    ghost var trace: seq<Step>

    ghost function View(): Queue
      reads this
    {
      Queue(heap, numCreated, timers, activeTimers, callingExpiredTimers, cancelingTimers, timerfd, phase,
            ids, detached, accepted, batch, freed, runs)
    }

    /** The object has run `trace` on the machine and stands where the machine stands. */
    ghost predicate Valid()
      reads this
    {
      Reached(trace, View())
    }

    constructor ()
      ensures Valid() && trace == [] && View() == Empty
    {
      heap, numCreated, timers, activeTimers := map[], 0, [], {};
      callingExpiredTimers, cancelingTimers, timerfd := false, {}, TimerFd(None, false);
      phase, ids, detached, accepted := Idle, map[], {}, {};
      batch, freed, runs, trace := [], [], [], [];
    }

    /** The `new Timer` of `addTimer`, on any thread. */
    method NewDetached(a: nat, when: Time, interval: real)
      requires Valid() && Allowed(View(), Create(a, when, interval))
      modifies this
      ensures Valid() && trace == old(trace) + [Create(a, when, interval)]
      ensures View() == CreateTimer(old(View()), a, when, interval)
    {
      Extend(trace, View(), Create(a, when, interval));
      trace := trace + [Create(a, when, interval)];
      NewTimer(a, when, interval);
    }

    method NewTimer(a: nat, when: Time, interval: real)
      modifies this`numCreated, this`heap, this`ids, this`detached
      ensures View() == CreateTimer(old(View()), a, when, interval)
    {
      numCreated := numCreated + 1;
      heap := heap[a := Timer(when, interval, numCreated)];
      ids, detached := ids[numCreated := a], detached + {a};
    }

    /** The last line of `addTimer`: the id, read through the pointer after the hand-over. */
    method ReadId(a: nat) returns (id: Outcome<Id>)
      ensures id.Ok? <==> a in heap
      ensures id.Ok? ==> id.value.timer == a && heap[a].sequence == id.value.sequence
    {
      if a in heap {
        return Ok(Id(a, heap[a].sequence));
      }
      return Crash(Dangling);
    }

    method Insert(a: nat) returns (earliestChanged: bool)
      requires a in heap && InsertTimer(View(), a).Ok?
      modifies this`timers, this`activeTimers
      ensures InsertTimer(old(View()), a) == Ok(View())
      ensures earliestChanged == EarliestChanged(old(View()), heap[a])
    {
      assert |timers| == |activeTimers|;
      var when := heap[a].expiration;
      earliestChanged := timers == [] || when < timers[0].when;
      assert Entry(when, a) !in timers;
      timers := TimerSets.Insert(timers, Entry(when, a));
      assert Id(a, heap[a].sequence) !in activeTimers;
      activeTimers := activeTimers + {Id(a, heap[a].sequence)};
      assert |timers| == |activeTimers|;
    }

    method AddTimerInLoop(a: nat)
      requires Valid() && Allowed(View(), Add(a))
      modifies this
      ensures Valid() && trace == old(trace) + [Add(a)] && phase == old(phase)
      ensures Next(old(View()), Add(a)) == Ok(View()) && heap == old(heap)
    {
      Extend(trace, View(), Add(a));
      trace := trace + [Add(a)];
      InsertAndArm(a);
    }

    /** The body of `addTimerInLoop`. */
    method InsertAndArm(a: nat)
      requires TimerMachine.AddTimerInLoop(View(), a).Ok?
      modifies this`timers, this`activeTimers, this`timerfd, this`detached, this`accepted
      ensures TimerMachine.AddTimerInLoop(old(View()), a) == Ok(View())
    {
      var earliestChanged := Insert(a);
      detached, accepted := detached - {a}, accepted + {heap[a].sequence};
      if earliestChanged {
        timerfd := TimerFd(Some(heap[a].expiration), false);
      }
    }

    method CancelInLoop(id: Id)
      requires Valid() && Allowed(View(), Cancel(id))
      modifies this
      ensures Valid() && trace == old(trace) + [Cancel(id)] && phase == old(phase)
      ensures Next(old(View()), Cancel(id)) == Ok(View())
    {
      Extend(trace, View(), Cancel(id));
      trace := trace + [Cancel(id)];
      EraseOrRemember(id);
    }

    /** The body of `cancelInLoop`. */
    method EraseOrRemember(id: Id)
      requires TimerMachine.CancelInLoop(View(), id).Ok?
      modifies this`timers, this`activeTimers, this`heap, this`freed, this`cancelingTimers
      ensures TimerMachine.CancelInLoop(old(View()), id) == Ok(View())
    {
      assert |timers| == |activeTimers|;
      if id in activeTimers {
        var entry := Entry(heap[id.timer].expiration, id.timer);
        assert entry in timers;
        timers := Erase(timers, entry);
        freed := freed + [heap[id.timer].sequence];
        heap := heap - {id.timer};
        activeTimers := activeTimers - {id};
      } else if callingExpiredTimers {
        cancelingTimers := cancelingTimers + {id};
      }
      assert |timers| == |activeTimers|;
    }

    method GetExpired(now: Time, ghost left: set<Id>) returns (expired: seq<Entry>)
      requires Collects(heap, timers, activeTimers, now, left)
      modifies this`timers, this`activeTimers
      ensures expired == DueAt(old(timers), now) && timers == LaterThan(old(timers), now) && activeTimers == left
    {
      assert |timers| == |activeTimers|;
      var end := LowerBound(timers, Entry(now, UINTPTR_MAX));
      assert end == |timers| || now < timers[end].when;
      expired, timers := timers[..end], timers[end..];
      var i := 0;
      assert expired[0..] == expired;
      while i < |expired|
        invariant i <= |expired| && timers == LaterThan(old(timers), now)
        invariant EraseActive(heap, activeTimers, expired[i..]) == Ok(left)
      {
        assert expired[i..][1..] == expired[i + 1..];
        assert expired[i].timer in heap;
        var id := Id(expired[i].timer, heap[expired[i].timer].sequence);
        assert id in activeTimers;
        activeTimers := activeTimers - {id};
        i := i + 1;
      }
      assert expired[i..] == [];
      assert |timers| == |activeTimers|;
    }

    /** `addTimer` on the loop thread. */
    method AddTimer(a: nat, when: Time, interval: real) returns (id: Outcome<Id>)
      requires Valid() && UserCode(View()) && Allowed(View(), Create(a, when, interval))
      modifies this
      ensures Valid() && trace == old(trace) + [Create(a, when, interval)] + [Add(a)] && phase == old(phase)
      ensures TimerMachine.AddTimerInLoop(CreateTimer(old(View()), a, when, interval), a) == Ok(View())
      ensures id == Ok(Id(a, old(numCreated) + 1))
    {
      NewDetached(a, when, interval);
      AddTimerInLoop(a);
      id := ReadId(a);
    }

    /** One call of `addTimer` or `cancel` on the loop thread. */
    method RunCommand(command: Command) returns (ghost steps: seq<Step>)
      requires Valid() && UserCode(View())
      modifies this
      ensures Valid() && trace == old(trace) + steps && phase == old(phase)
      ensures forall i :: 0 <= i < |steps| ==> IsUserStep(steps[i])
      ensures Perform(old(View()), command) == Ok(View())
    {
      match command {
        case NewTimer(a, when, interval) =>
          steps := [];
          if 0 < a < UINTPTR_MAX && a !in heap {
            var _ := AddTimer(a, when, interval);
            steps := [Create(a, when, interval)] + [Add(a)];
          }
        case CancelTimer(id) =>
          CancelInLoop(id);
          steps := [Cancel(id)];
      }
    }

    /** One callback's work. */
    method RunCommands(commands: seq<Command>) returns (ghost steps: seq<Step>)
      requires Valid() && UserCode(View())
      modifies this
      ensures Valid() && trace == old(trace) + steps && phase == old(phase)
      ensures forall i :: 0 <= i < |steps| ==> IsUserStep(steps[i])
      ensures PerformFirst(old(View()), |commands|, commands) == Ok(View())
    {
      steps := [];
      var i := 0;
      while i < |commands|
        invariant i <= |commands|
        invariant Valid() && trace == old(trace) + steps && phase == old(phase)
        invariant forall i :: 0 <= i < |steps| ==> IsUserStep(steps[i])
        invariant PerformFirst(old(View()), i, commands) == Ok(View())
      {
        ghost var before := View();
        ghost var more := RunCommand(commands[i]);
        PerformMore(old(View()), i, commands, before, View());
        steps := steps + more;
        i := i + 1;
      }
    }

    /** Schedules a repeating timer again unless it was cancelled; deletes any other. */
    method RestartOrDeleteTimer(a: nat, now: Time)
      requires Allowed(View(), ResetNext) && phase.now == now && phase.rest[0].timer == a
      requires RestartOrDelete(View()).Ok?
      modifies this`heap, this`timers, this`activeTimers, this`phase, this`batch, this`freed
      ensures RestartOrDelete(old(View())) == Ok(View())
    {
      phase, batch := phase.(rest := phase.rest[1..]), if batch == [] then [] else batch[1..];
      if heap[a].Repeat() && Id(a, heap[a].sequence) !in cancelingTimers {
        heap := heap[a := heap[a].Restart(now)];
        var _ := Insert(a);
      } else {
        freed := freed + [heap[a].sequence];
        heap := heap - {a};
      }
    }

    method RearmTimerfd(nextExpire: Time) returns (next: Time)
      requires phase.Resetting? && phase.nextExpire == nextExpire && Rearm(View()).Ok?
      modifies this`timerfd, this`phase
      ensures Rearm(old(View())) == Ok(View()) && phase == old(phase).(nextExpire := next)
    {
      next := nextExpire;
      if timers != [] {
        next := heap[timers[0].timer].expiration;
      }
      phase := phase.(nextExpire := next);
      if next > EPOCH {
        timerfd := TimerFd(Some(next), false);
      }
    }

    /** The body of `reset`'s loop for the timer at `a`. */
    method ResetIteration(a: nat, now: Time, nextExpire: Time) returns (next: Time)
      requires Valid() && Allowed(View(), ResetNext)
      requires phase.now == now && phase.rest[0].timer == a && phase.nextExpire == nextExpire
      modifies this
      ensures Valid() && trace == old(trace) + [ResetNext]
      ensures ResetOne(old(View())) == Ok(View())
      ensures phase == Resetting(now, old(phase).rest[1..], next)
    {
      Extend(trace, View(), ResetNext);
      RestartKeepsPhase(View());
      RestartOrDeleteTimer(a, now);
      next := RearmTimerfd(nextExpire);
      trace := trace + [ResetNext];
    }

    method Reset(expired: seq<Entry>, now: Time)
      requires Valid() && phase == Resetting(now, expired, EPOCH)
      modifies this
      ensures Valid() && trace == old(trace) + Resets(|expired|) && phase.Resetting? && phase.rest == []
    {
      var nextExpire := EPOCH;
      var i := 0;
      while i < |expired|
        invariant i <= |expired|
        invariant Valid() && trace == old(trace) + Resets(i) && phase == Resetting(now, expired[i..], nextExpire)
      {
        assert expired[i..][1..] == expired[i + 1..] && Resets(i) + [ResetNext] == Resets(i + 1);
        nextExpire := ResetIteration(expired[i].timer, now, nextExpire);
        i := i + 1;
      }
    }

    /** `handleRead` up to the first callback. */
    method BeginHandleRead(now: Time) returns (expired: seq<Entry>)
      requires Valid() && phase.Idle?
      modifies this
      ensures Valid() && trace == old(trace) + [Fire(now)]
      ensures Next(old(View()), Fire(now)) == Ok(View()) && phase == Calling(now, expired, 0)
    {
      Extend(trace, View(), Fire(now));
      trace := trace + [Fire(now)];
      ghost var after := FireTimers(View(), now).value;
      FireCollects(View(), now, after);
      FireViews(View(), now, after);
      expired := ReadAndCollect(now, after);
    }

    method ReadAndCollect(now: Time, ghost after: Queue) returns (expired: seq<Entry>)
      requires Collects(heap, timers, activeTimers, now, after.active)
      requires after == FiredView(View(), now, after.active, after.batch)
      modifies this`timers, this`activeTimers, this`timerfd, this`callingExpiredTimers, this`cancelingTimers,
               this`phase, this`batch
      ensures View() == after && expired == DueAt(old(timers), now)
    {
      expired := GetExpired(now, after.active);
      timerfd := timerfd.(ready := false);
      callingExpiredTimers, cancelingTimers := true, {};
      phase, batch := after.phase, after.batch;
    }

    /** The call of the next expired timer's callback, without what the callback does. */
    method Run(a: nat)
      requires Valid() && Allowed(View(), RunNext) && phase.expired[phase.next].timer == a
      modifies this
      ensures Valid() && trace == old(trace) + [RunNext]
      ensures RunCallback(old(View())) == Ok(View())
    {
      Extend(trace, View(), RunNext);
      trace := trace + [RunNext];
      assert a in heap;
      runs := runs + [Invocation(phase.now, heap[a])];
      phase := phase.(next := phase.next + 1);
    }

    /** One expired timer's callback and what it does. */
    method CallBack(a: nat, commands: seq<Command>) returns (ghost steps: seq<Step>)
      requires Valid() && Allowed(View(), RunNext) && phase.expired[phase.next].timer == a
      modifies this
      ensures Valid() && phase == old(phase.(next := phase.next + 1))
      ensures trace == old(trace) + steps && MidRead(steps)
      ensures CallOne(old(View()), commands) == Ok(View())
    {
      Run(a);
      ghost var more := RunCommands(commands);
      steps := [RunNext] + more;
    }

    /** The body of the callback loop; `start` is where the loop began. */
    method CallNext(expired: seq<Entry>, now: Time, i: nat, callbacks: seq<seq<Command>>, ghost start: Queue)
        returns (ghost steps: seq<Step>)
      requires Valid() && i < |expired| && phase == Calling(now, expired, i)
      requires Called(start, i, callbacks, View())
      modifies this
      ensures Valid() && trace == old(trace) + steps && phase == Calling(now, expired, i + 1) && MidRead(steps)
      ensures Called(start, i + 1, callbacks, View())
    {
      ghost var before := View();
      steps := CallBack(expired[i].timer, CallbackAt(callbacks, i));
      CallMore(start, i, callbacks, before, View());
    }

    /** The callback loop of `handleRead`. */
    method CallAll(expired: seq<Entry>, now: Time, callbacks: seq<seq<Command>>) returns (ghost steps: seq<Step>)
      requires Valid() && phase == Calling(now, expired, 0)
      modifies this
      ensures Valid() && trace == old(trace) + steps && phase == Calling(now, expired, |expired|)
      ensures MidRead(steps)
      ensures CallFirst(old(View()), |expired|, callbacks) == Ok(View())
    {
      steps := [];
      var i := 0;
      while i < |expired|
        invariant i <= |expired| && Valid() && phase == Calling(now, expired, i)
        invariant trace == old(trace) + steps && MidRead(steps)
        invariant Called(old(View()), i, callbacks, View())
      {
        ghost var more := CallNext(expired, now, i, callbacks, old(View()));
        MidReadAppend(steps, more);
        steps := steps + more;
        i := i + 1;
      }
      CalledFirst(old(View()), |expired|, callbacks, View());
    }

    method StopCalling(expired: seq<Entry>, now: Time)
      requires Valid() && phase == Calling(now, expired, |expired|)
      modifies this`callingExpiredTimers, this`phase, this`trace
      ensures Valid() && trace == old(trace) + [EndCalls] && phase == Resetting(now, expired, EPOCH)
      ensures !callingExpiredTimers
    {
      Extend(trace, View(), EndCalls);
      trace := trace + [EndCalls];
      callingExpiredTimers := false;
      phase := Resetting(now, expired, EPOCH);
    }

    ghost method ReturnFromReset()
      requires Valid() && phase.Resetting? && phase.rest == []
      modifies this`phase, this`trace
      ensures Valid() && trace == old(trace) + [EndReset] && phase.Idle?
    {
      Extend(trace, View(), EndReset);
      trace := trace + [EndReset];
      phase := Idle;
    }

    /** `handleRead` from its last callback on. */
    method FinishRead(expired: seq<Entry>, now: Time)
      requires Valid() && phase == Calling(now, expired, |expired|)
      modifies this
      ensures Valid() && trace == old(trace) + FinishSteps(|expired|) && phase.Idle?
      ensures FinishResult(old(View()), |expired|) == Ok(View())
    {
      ghost var before, called := trace, View();
      StopCalling(expired, now);
      Reset(expired, now);
      ReturnFromReset();
      assert trace == before + FinishSteps(|expired|);
      ReachedBetween(before, called, FinishSteps(|expired|), View());
    }

    /** `handleRead`: `callbacks[i]` is what the callback of the `i`-th expired timer does. */
    method HandleRead(now: Time, callbacks: seq<seq<Command>>) returns (ghost steps: seq<Step>)
      requires Valid() && phase.Idle?
      modifies this
      ensures Valid() && trace == old(trace) + steps && phase.Idle?
      ensures OneReading(now, steps)
      ensures HandleReadResult(old(View()), now, callbacks) == Ok(View())
    {
      var expired := BeginHandleRead(now);
      ghost var fired := View();
      ghost var calls := CallAll(expired, now, callbacks);
      ghost var called := View();
      FinishRead(expired, now);
      ghost var rest := FinishSteps(|expired|);
      steps := [Fire(now)] + (calls + rest);
      assert steps[1..] == calls + rest;
      Composed(old(View()), now, callbacks, fired, called, View());
    }
  }

  /** The parts of `handleRead` make the whole. */
  lemma Composed(s: Queue, now: Time, callbacks: seq<seq<Command>>, fired: Queue, called: Queue, done: Queue)
    requires FireTimers(s, now) == Ok(fired)
    requires CallFirst(fired, |Expired(fired)|, callbacks) == Ok(called)
    requires FinishResult(called, |Expired(fired)|) == Ok(done)
    ensures HandleReadResult(s, now, callbacks) == Ok(done)
  {
  }

  /** One more command. */
  lemma PerformMore(s: Queue, i: nat, commands: seq<Command>, s': Queue, s'': Queue)
    requires i < |commands| && PerformFirst(s, i, commands) == Ok(s') && Perform(s', commands[i]) == Ok(s'')
    ensures PerformFirst(s, i + 1, commands) == Ok(s'')
  {
  }

  lemma MidReadAppend(steps: seq<Step>, more: seq<Step>)
    requires MidRead(steps) && MidRead(more)
    ensures MidRead(steps + more)
  {
  }

  predicate Same(s: Queue, t: Queue) {
    s == t
  }

  /**
    The first `n` callbacks, run from `start`, lead to `s`. The quantifier, over `start` alone, keeps
    the solver from unfolding the callbacks in the loop that carries this; `CalledFirst` opens it.
   */
  ghost predicate Called(start: Queue, n: nat, callbacks: seq<seq<Command>>, s: Queue) {
    forall from :: Same(from, start) ==> CallFirst(from, n, callbacks) == Ok(s)
  }

  lemma CalledFirst(start: Queue, n: nat, callbacks: seq<seq<Command>>, s: Queue)
    requires Called(start, n, callbacks, s)
    ensures CallFirst(start, n, callbacks) == Ok(s)
  {
    assert Same(start, start);
  }

  /** One more callback. */
  lemma CallMore(start: Queue, n: nat, callbacks: seq<seq<Command>>, s: Queue, s': Queue)
    requires Called(start, n, callbacks, s) && CallOne(s, CallbackAt(callbacks, n)) == Ok(s')
    ensures Called(start, n + 1, callbacks, s')
  {
    CalledFirst(start, n, callbacks, s);
  }

  /** What lies between two reached states is a run from one to the other. */
  lemma ReachedBetween(steps: seq<Step>, s: Queue, more: seq<Step>, s': Queue)
    requires Reached(steps, s) && Reached(steps + more, s')
    ensures IsRun(s, more) && Exec(s, more) == Ok(s')
  {
    assert IsStart(Empty);
    RunSplit(Empty, steps, more);
  }

  lemma {:induction false} RunSplit(s: Queue, steps: seq<Step>, more: seq<Step>)
    requires IsRun(s, steps) && Exec(s, steps).Ok? && IsRun(s, steps + more)
    ensures IsRun(Exec(s, steps).value, more) && Exec(s, steps + more) == Exec(Exec(s, steps).value, more)
    decreases |steps|
  {
    if steps == [] {
      assert steps + more == more;
    } else {
      assert (steps + more)[0] == steps[0] && (steps + more)[1..] == steps[1..] + more;
      RunSplit(Next(s, steps[0]).value, steps[1..], more);
    }
  }

  lemma RestartKeepsPhase(s: Queue)
    requires Allowed(s, ResetNext) && RestartOrDelete(s).Ok?
    ensures RestartOrDelete(s).value.phase == s.phase.(rest := s.phase.rest[1..])
  {
  }

  // ---------------------------------------------------------------- what the parts of handleRead mean

  lemma AddShape(s: Queue, a: nat, i: Queue)
    requires a in s.heap && InsertTimer(s, a) == Ok(i) && i == s.(timers := i.timers, active := i.active)
    ensures var r := AddTimerInLoop(s, a);
            && r.Ok? && r.value.phase == s.phase && r.value.freed == s.freed && r.value.heap == s.heap
            && r.value.active == i.active && r.value.timers == i.timers
  {
  }

  lemma InsertsExactly(s: Queue, a: nat) returns (i: Queue)
    requires Inv(s) && Allowed(s, Add(a))
    ensures a in s.heap && InsertTimer(s, a) == Ok(i) && i == s.(timers := i.timers, active := i.active)
    ensures i.active == s.active + {Id(a, s.heap[a].sequence)}
    ensures forall e :: e in i.timers <==> e in s.timers || e == Entry(s.heap[a].expiration, a)
  {
    InsertOk(s, a);
    i := InsertTimer(s, a).value;
    assert Entry(s.heap[a].expiration, a) !in s.timers;
    InsertMembers(s.timers, Entry(s.heap[a].expiration, a));
  }

  /** Insertion puts the timer, and nothing else, into both indexes. */
  lemma AddsExactly(s: Queue, a: nat)
    requires Inv(s) && Allowed(s, Add(a))
    ensures var r := AddTimerInLoop(s, a);
            && a in s.heap
            && r.Ok? && r.value.phase == s.phase && r.value.freed == s.freed && r.value.heap == s.heap
            && r.value.active == s.active + {Id(a, s.heap[a].sequence)}
            && forall e :: e in r.value.timers <==> e in s.timers || e == Entry(s.heap[a].expiration, a)
  {
    var i := InsertsExactly(s, a);
    AddShape(s, a, i);
  }

  lemma PerformMakes(s: Queue, a: nat, when: Time, interval: real)
    requires 0 < a < UINTPTR_MAX && a !in s.heap
    ensures Perform(s, NewTimer(a, when, interval)) == AddTimerInLoop(CreateTimer(s, a, when, interval), a)
  {
  }

  /** `addTimer` at a free address makes the timer and puts it, and nothing else, into both indexes. */
  lemma PerformAdds(s: Queue, a: nat, when: Time, interval: real)
    requires Inv(s) && UserCode(s) && 0 < a < UINTPTR_MAX && a !in s.heap
    ensures var r := Perform(s, NewTimer(a, when, interval));
            && r.Ok? && r.value.phase == s.phase && r.value.freed == s.freed
            && r.value.heap == s.heap[a := Timer(when, interval, s.numCreated + 1)]
            && r.value.active == s.active + {Id(a, s.numCreated + 1)}
            && forall e :: e in r.value.timers <==> e in s.timers || e == Entry(when, a)
  {
    CreateKeeps(s, a, when, interval);
    AddsExactly(CreateTimer(s, a, when, interval), a);
    PerformMakes(s, a, when, interval);
  }

  /** `cancel` takes the id out of the queue, or notes it for the end of the batch. */
  lemma PerformCancels(s: Queue, id: Id)
    requires Inv(s) && UserCode(s)
    ensures var r := Perform(s, CancelTimer(id));
            && r.Ok? && r.value.phase == s.phase && r.value.active == s.active - {id}
            && (id in s.active ==> r.value.heap == s.heap - {id.timer} && r.value.freed == s.freed + [id.sequence])
            && (id !in s.active && s.phase.Calling? ==> r.value.heap == s.heap && r.value.canceling == s.canceling + {id})
            && (id !in s.active && s.phase.Idle? ==> r.value == s)
  {
    if id in s.active { CancelIndex(s, id); }
  }

  /** Commands take effect one after the other, from the first on. */
  lemma CommandsInOrder(s: Queue, commands: seq<Command>, n: nat, s': Queue)
    requires n < |commands| && PerformFirst(s, n, commands) == Ok(s')
    ensures PerformFirst(s, 0, commands) == Ok(s) && PerformFirst(s, n + 1, commands) == Perform(s', commands[n])
  {
  }

  lemma CallGoesIntoLog(s: Queue)
    requires Inv(s) && Allowed(s, RunNext)
    ensures var e := s.phase.expired[s.phase.next];
            && e.timer in s.heap
            && RunCallback(s) == Ok(s.(phase := Calling(s.phase.now, s.phase.expired, s.phase.next + 1),
                                       runs := s.runs + [Invocation(s.phase.now, s.heap[e.timer])]))
  {
    assert BatchEntryOk(s, s.phase.next);
  }

  /** One callback: first its call, then all its commands. */
  lemma CallThenCommands(s: Queue, commands: seq<Command>, called: Queue)
    requires Allowed(s, RunNext) && RunCallback(s) == Ok(called)
    ensures CallOne(s, commands) == PerformFirst(called, |commands|, commands)
  {
  }

  /** Callbacks are called one after the other, each with its own commands. */
  lemma CallbacksInOrder(s: Queue, callbacks: seq<seq<Command>>, n: nat, s': Queue)
    requires CallFirst(s, n, callbacks) == Ok(s')
    ensures CallFirst(s, 0, callbacks) == Ok(s)
    ensures CallFirst(s, n + 1, callbacks) == CallOne(s', if n < |callbacks| then callbacks[n] else [])
  {
  }
}
