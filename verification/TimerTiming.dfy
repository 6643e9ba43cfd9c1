/** When callbacks run: never early, in expiration order, one-shots once, repeats a period apart. */
module TimerTiming {
  import opened TimerSets
  import opened TimerMachine
  import opened TimerSafety

  /** Two callbacks of the same timer: it repeats, and a full interval lies between the readings. */
  predicate Spaced(r: Invocation, l: Invocation) {
    r.timer.sequence == l.timer.sequence ==>
      && r.timer.Repeat() && l.timer.interval == r.timer.interval
      && r.now + Nanoseconds(r.timer.interval) <= l.now
  }

  /** How many entries at the front of `batch` have had their callback. */
  function Called(s: Queue): nat {
    match s.phase
    case Idle => 0
    case Calling(_, _, next) => if next <= |s.batch| then next else |s.batch|
    case Resetting(_, _, _) => |s.batch|
  }

  /** A past callback `r` against the timer now at address `a`. */
  predicate PastOk(s: Queue, r: Invocation, a: nat)
    requires a in s.heap
  {
    s.heap[a].sequence == r.timer.sequence ==>
      && s.heap[a].interval == r.timer.interval
      && if s.heap[a].sequence in s.batch[..Called(s)]
         then !s.phase.Idle? && r.now <= s.phase.now
         else r.timer.Repeat() && r.now + Nanoseconds(r.timer.interval) <= s.heap[a].expiration
  }

  /** The callback of entry `i` of the batch, as the log shows it. */
  predicate CalledOk(s: Queue, i: nat)
    requires s.phase.Calling? && i < s.phase.next <= |s.runs|
    requires s.phase.next <= |s.batch| && s.phase.next <= |s.phase.expired|
  {
    var r := s.runs[|s.runs| - s.phase.next + i];
    r.timer.sequence == s.batch[i] && r.timer.expiration == s.phase.expired[i].when && r.now == s.phase.now
  }

  ghost predicate RunsOk(s: Queue) {
    && Sorted(Expired(s))
    && (forall r :: r in s.runs ==> r.timer.sequence in s.ids && r.timer.expiration <= r.now)
    && (forall i, j :: 0 <= i < j < |s.runs| ==> Spaced(s.runs[i], s.runs[j]))
    && (forall r, a :: r in s.runs && a in s.heap ==> PastOk(s, r, a))
    && (s.phase.Calling? ==> && s.phase.next <= |s.runs| && s.phase.next <= |s.batch| <= |s.phase.expired|
                             && forall i :: 0 <= i < s.phase.next ==> CalledOk(s, i))
  }

  lemma NanosecondsNonNegative(seconds: real)
    requires seconds > 0.0
    ensures Nanoseconds(seconds) >= 0
  {
  }

  /** Steps that run no callback and leave the batch and every surviving timer as it was. */
  lemma SameRuns(s: Queue, s': Queue)
    requires RunsOk(s) && s'.runs == s.runs && s'.batch == s.batch && s'.phase == s.phase
    requires forall q :: q in s.ids ==> q in s'.ids
    requires forall a :: a in s'.heap ==> (a in s.heap && s'.heap[a] == s.heap[a]) || s'.heap[a].sequence !in s.ids
    ensures RunsOk(s')
  {
    forall r, a | r in s'.runs && a in s'.heap ensures PastOk(s', r, a) {
      if a in s.heap { assert PastOk(s, r, a); }
    }
    if s.phase.Calling? {
      forall i | 0 <= i < s.phase.next ensures CalledOk(s', i) { assert CalledOk(s, i); }
    }
  }

  lemma FireRuns(s: Queue, now: Time)
    requires Inv(s) && RunsOk(s) && Allowed(s, Fire(now))
    ensures FireTimers(s, now).Ok? && RunsOk(FireTimers(s, now).value)
  {
    FireKeeps(s, now);
    FireShape(s, now);
    SentrySplits(s.timers, now);
    var s' := FireTimers(s, now).value;
    forall r, a | r in s'.runs && a in s'.heap ensures PastOk(s', r, a) {
      assert PastOk(s, r, a);
    }
  }

  /** The callback about to run is due, and every earlier one of the same timer is spaced from it. */
  lemma RunCallbackDue(s: Queue)
    requires Inv(s) && RunsOk(s) && Allowed(s, RunNext)
    ensures var e := s.phase.expired[s.phase.next];
            && e.timer in s.heap && s.heap[e.timer].sequence == s.batch[s.phase.next]
            && s.heap[e.timer].expiration == e.when <= s.phase.now
            && (forall r :: r in s.runs ==> Spaced(r, Invocation(s.phase.now, s.heap[e.timer])))
            && s.heap[e.timer].sequence in s.ids
  {
    var n := s.phase.next;
    assert BatchEntryOk(s, n);
    var a := s.phase.expired[n].timer;
    assert s.batch[n] !in s.batch[..n];
    forall r | r in s.runs ensures Spaced(r, Invocation(s.phase.now, s.heap[a])) {
      assert PastOk(s, r, a);
    }
  }

  lemma RunCallbackRuns(s: Queue)
    requires Inv(s) && RunsOk(s) && Allowed(s, RunNext)
    ensures RunCallback(s).Ok? && RunsOk(RunCallback(s).value)
  {
    RunCallbackDue(s);
    var s' := RunCallback(s).value;
    var n := s.phase.next;
    var t := s.heap[s.phase.expired[n].timer];
    assert s.batch[..n + 1] == s.batch[..n] + [t.sequence];
    forall r, a | r in s'.runs && a in s'.heap ensures PastOk(s', r, a) {
      if t.Repeat() { NanosecondsNonNegative(t.interval); }
      if r in s.runs { assert PastOk(s, r, a); } else { assert s.heap[a].sequence == t.sequence ==> a == s.ids[t.sequence]; }
    }
    forall i | 0 <= i < n + 1 ensures CalledOk(s', i) {
      if i < n { assert CalledOk(s, i); }
    }
  }

  lemma EndCallsRuns(s: Queue)
    requires Inv(s) && RunsOk(s) && Allowed(s, EndCalls)
    ensures RunsOk(Next(s, EndCalls).value)
  {
    var s' := Next(s, EndCalls).value;
    assert s.batch[..s.phase.next] == s.batch == s'.batch[..|s'.batch|];
    forall r, a | r in s'.runs && a in s'.heap ensures PastOk(s', r, a) {
      assert PastOk(s, r, a);
    }
  }

  /** The fields of an iteration of `reset` that the log depends on. */
  predicate ResetChange(s: Queue, s': Queue) {
    && s.phase.Resetting? && s.phase.rest != [] && s.batch != [] && s.phase.rest[0].timer in s.heap
    && s'.phase.Resetting? && s'.phase.now == s.phase.now && s'.phase.rest == s.phase.rest[1..]
    && s'.batch == s.batch[1..] && s'.runs == s.runs && s'.ids == s.ids
    && var a := s.phase.rest[0].timer;
       || s'.heap == s.heap - {a}
       || (s.heap[a].Repeat() && s'.heap == s.heap[a := s.heap[a].Restart(s.phase.now)])
  }

  lemma ResetShapeOfLog(s: Queue)
    requires Inv(s) && Allowed(s, ResetNext)
    ensures ResetOne(s).Ok? && ResetChange(s, ResetOne(s).value)
    ensures s.batch != [] && s.heap[s.phase.rest[0].timer].sequence == s.batch[0]
  {
    ResetShape(s);
    ResetTimers(s);
  }

  /** The restarted timer is due an interval after its call; the calls of the others stay as they were. */
  lemma ResetPast(s: Queue, s': Queue, r: Invocation, a: nat)
    requires a in s.heap && a in s'.heap && PastOk(s, r, a) && ResetChange(s, s')
    requires s.heap[s.phase.rest[0].timer].sequence == s.batch[0] && s.batch[0] !in s'.batch
    requires s.heap[a].sequence == s.batch[0] ==> a == s.phase.rest[0].timer
    ensures PastOk(s', r, a)
  {
    assert s.batch == [s.batch[0]] + s'.batch;
    assert s.batch[..|s.batch|] == s.batch && s'.batch[..|s'.batch|] == s'.batch;
  }

  lemma ResetRuns(s: Queue)
    requires Inv(s) && RunsOk(s) && Allowed(s, ResetNext)
    ensures ResetOne(s).Ok? && RunsOk(ResetOne(s).value)
  {
    ResetShapeOfLog(s);
    var s' := ResetOne(s).value;
    assert forall i :: 0 <= i < |s'.batch| ==> s'.batch[i] == s.batch[i + 1] && s.batch[0] != s.batch[i + 1];
    forall r, a | r in s'.runs && a in s'.heap ensures PastOk(s', r, a) {
      ResetPast(s, s', r, a);
    }
  }

  lemma EndResetRuns(s: Queue)
    requires Inv(s) && RunsOk(s) && Allowed(s, EndReset)
    ensures RunsOk(Next(s, EndReset).value)
  {
    var s' := Next(s, EndReset).value;
    forall r, a | r in s'.runs && a in s'.heap ensures PastOk(s', r, a) {
      assert PastOk(s, r, a);
    }
  }

  lemma AddRuns(s: Queue, a: nat)
    requires Inv(s) && RunsOk(s) && Allowed(s, Add(a))
    ensures AddTimerInLoop(s, a).Ok? && RunsOk(AddTimerInLoop(s, a).value)
  {
    InsertOk(s, a);
    SameRuns(s, AddTimerInLoop(s, a).value);
  }

  lemma CancelRuns(s: Queue, id: Id)
    requires Inv(s) && RunsOk(s) && Allowed(s, Cancel(id))
    ensures CancelInLoop(s, id).Ok? && RunsOk(CancelInLoop(s, id).value)
  {
    if id in s.active { CancelIndex(s, id); }
    SameRuns(s, CancelInLoop(s, id).value);
  }

  lemma CreateRuns(s: Queue, a: nat, when: Time, interval: real)
    requires Inv(s) && RunsOk(s) && Allowed(s, Create(a, when, interval))
    ensures RunsOk(CreateTimer(s, a, when, interval))
  {
    SameRuns(s, CreateTimer(s, a, when, interval));
  }

  lemma StepRuns(s: Queue, step: Step)
    requires Inv(s) && RunsOk(s) && Allowed(s, step)
    ensures Next(s, step).Ok? && RunsOk(Next(s, step).value)
  {
    match step
    case Fire(now) => FireRuns(s, now);
    case RunNext => RunCallbackRuns(s);
    case EndCalls => EndCallsRuns(s);
    case ResetNext => ResetRuns(s);
    case EndReset => EndResetRuns(s);
    case Create(a, when, interval) => CreateRuns(s, a, when, interval);
    case Add(a) => AddRuns(s, a);
    case Cancel(id) => CancelRuns(s, id);
    case Expire => SameRuns(s, Next(s, step).value);
  }

  lemma {:induction false} RunsSpaced(s: Queue, steps: seq<Step>)
    requires Inv(s) && RunsOk(s) && IsRun(s, steps)
    ensures Exec(s, steps).Ok? && RunsOk(Exec(s, steps).value)
    decreases |steps|
  {
    if steps != [] {
      StepKeeps(s, steps[0]);
      StepRuns(s, steps[0]);
      RunsSpaced(Next(s, steps[0]).value, steps[1..]);
    }
  }

  /**
    In every run from an empty queue: no callback runs at a reading before its expiration, and
    two callbacks of one timer only happen for a repeating timer, at readings at least its
    interval apart. So a one-shot timer runs at most once.
   */
  lemma CallbacksAreTimely(steps: seq<Step>)
    requires IsRun(Empty, steps)
    ensures Exec(Empty, steps).Ok?
    ensures var runs := Exec(Empty, steps).value.runs;
            && (forall r :: r in runs ==> r.timer.expiration <= r.now)
            && forall i, j :: 0 <= i < j < |runs| && runs[i].timer.sequence == runs[j].timer.sequence ==>
                 runs[i].timer.interval > 0.0 && runs[i].now + Nanoseconds(runs[i].timer.interval) <= runs[j].now
  {
    RunsSpaced(Empty, steps);
    var runs := Exec(Empty, steps).value.runs;
    assert forall i, j :: 0 <= i < j < |runs| ==> Spaced(runs[i], runs[j]);
  }

  /** Invocation `i` of the batch in flight. */
  function BatchRun(s: Queue, i: nat): Invocation
    requires s.phase.Calling? && i < s.phase.next <= |s.runs|
  {
    s.runs[|s.runs| - s.phase.next + i]
  }

  lemma CallsAscend(s: Queue, i: nat, j: nat)
    requires RunsOk(s) && s.phase.Calling? && i < j < s.phase.next
    ensures BatchRun(s, i).timer.expiration <= BatchRun(s, j).timer.expiration
  {
    assert CalledOk(s, i) && CalledOk(s, j);
    assert Less(Expired(s)[i], Expired(s)[j]);
  }

  ghost predicate CallsInOrder(s: Queue)
    requires s.phase.Calling?
  {
    && s.phase.next <= |s.batch| == |s.phase.expired| && s.phase.next <= |s.runs|
    && (forall i :: 0 <= i < s.phase.next ==> CalledOk(s, i))
    && forall i, j :: 0 <= i < j < s.phase.next ==>
         BatchRun(s, i).timer.expiration <= BatchRun(s, j).timer.expiration
  }

  lemma InOrder(s: Queue)
    requires RunsOk(s) && BatchOk(s)
    ensures s.phase.Calling? ==> CallsInOrder(s)
  {
    if s.phase.Calling? {
      forall i, j | 0 <= i < j < s.phase.next
        ensures BatchRun(s, i).timer.expiration <= BatchRun(s, j).timer.expiration {
        CallsAscend(s, i, j);
      }
    }
  }

  /**
    At every moment of a batch, the most recent callbacks are those of its timers called so far,
    one each, with non-decreasing expirations, all at the batch's reading.
   */
  lemma BatchRunsInOrder(steps: seq<Step>)
    requires IsRun(Empty, steps)
    ensures Exec(Empty, steps).Ok?
    ensures var s := Exec(Empty, steps).value;
            s.phase.Calling? ==> CallsInOrder(s)
  {
    RunSafe(Empty, steps);
    RunsSpaced(Empty, steps);
    InOrder(Exec(Empty, steps).value);
  }

  /** The cut at the sentry, on the ordered set alone. */
  lemma CutAtSentry(timers: seq<Entry>, now: Time, due: seq<Entry>, later: seq<Entry>)
    requires Sorted(timers) && forall e :: e in timers ==> e.timer < UINTPTR_MAX
    requires due == timers[..LowerBound(timers, Entry(now, UINTPTR_MAX))]
    requires later == timers[LowerBound(timers, Entry(now, UINTPTR_MAX))..]
    ensures Sorted(due) && Sorted(later) && due + later == timers
    ensures forall e :: e in due <==> e in timers && e.when <= now
    ensures forall e :: e in later <==> e in timers && now < e.when
  {
    SentrySplits(timers, now);
    var k := LowerBound(timers, Entry(now, UINTPTR_MAX));
    assert timers[..k] + timers[k..] == timers;
  }

  /** A firing takes exactly the timers due at its reading, in expiration order, and leaves the rest. */
  lemma BatchIsWhatIsDue(s: Queue, now: Time)
    requires Inv(s) && Allowed(s, Fire(now))
    ensures FireTimers(s, now).Ok? && FireTimers(s, now).value.phase.Calling?
    ensures var due, later := FireTimers(s, now).value.phase.expired, FireTimers(s, now).value.timers;
            && Sorted(due) && Sorted(later) && due + later == s.timers
            && (forall e :: e in due <==> e in s.timers && e.when <= now)
            && (forall e :: e in later <==> e in s.timers && now < e.when)
  {
    FireShape(s, now);
    var k := DueCount(s, now);
    CutAtSentry(s.timers, now, s.timers[..k], s.timers[k..]);
  }

  // ---------------------------------------------------------------- what a restart sets

  /** One interval from the reading, to the nanosecond below, and nothing else of the timer changes. */
  lemma RestartIsOneInterval(t: Timer, now: Time)
    requires t.interval > 0.0
    ensures var e := t.Restart(now).expiration;
            e as real <= now as real + t.interval * 1000000000.0 < e as real + 1.0
    ensures t.Restart(now).interval == t.interval && t.Restart(now).sequence == t.sequence
  {
  }

  /** Timer `a` of the batch goes back into the queue, one interval after the reading of its batch. */
  ghost predicate GoesBack(s: Queue, s': Queue, a: nat) {
    && a in s.heap && a in s'.heap
    && s'.heap[a].sequence == s.heap[a].sequence && s'.heap[a].interval == s.heap[a].interval
    && Entry(s'.heap[a].expiration, a) in s'.timers && Id(a, s.heap[a].sequence) in s'.active
    && s.phase.Resetting?
    && var due := s.phase.now as real + s.heap[a].interval * 1000000000.0;
       s'.heap[a].expiration as real <= due < s'.heap[a].expiration as real + 1.0
  }

  lemma RestartedGoesBack(s: Queue, a: nat)
    requires Inv(s) && Allowed(s, ResetNext) && a == s.phase.rest[0].timer && Restarts(s)
    ensures RestartOrDelete(s).Ok? && GoesBack(s, RestartOrDelete(s).value, a)
  {
    RestartShape(s);
    RestartIsOneInterval(s.heap[a], s.phase.now);
    assert Id(a, s.heap[a].sequence) in RestartOrDelete(s).value.active;
  }

  /**
    One iteration of `reset`: a repeating timer that was not cancelled goes back into both indexes,
    due one interval after the reading of the batch; any other is gone.
   */
  lemma ResetReschedules(s: Queue)
    requires Inv(s) && Allowed(s, ResetNext)
    ensures ResetOne(s).Ok? && s.phase.rest[0].timer in s.heap
    ensures var a, s' := s.phase.rest[0].timer, ResetOne(s).value;
            if s.heap[a].interval > 0.0 && Id(a, s.heap[a].sequence) !in s.canceling
            then GoesBack(s, s', a)
            else a !in s'.heap && s'.timers == s.timers && s'.active == s.active
  {
    var a := s.phase.rest[0].timer;
    ResetTimers(s);
    if Restarts(s) { RestartedGoesBack(s, a); RestartShape(s); } else { DropKeeps(s); }
    RearmOk(RestartOrDelete(s).value);
  }
}
