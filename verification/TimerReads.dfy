/** When `addTimer` returns the id of its own timer, over every run with callers on every thread. */
module TimerReads {
  import opened Outcomes
  import opened TimerSets
  import opened TimerMachine
  import opened TimerSafety
  import opened TimerQueues
  import opened TimerIds

  // ---------------------------------------------------------------- all runs

  lemma OneMore(w: World, move: Move, more: seq<Move>)
    requires Can(w, move) && Do(w, move).Ok? && IsPlay(Do(w, move).value, more)
    ensures IsPlay(w, [move] + more) && Play(w, [move] + more) == Play(Do(w, move).value, more)
  {
    assert ([move] + more)[1..] == more;
  }

  lemma {:induction false} PlayOk(w: World, moves: seq<Move>)
    requires WorldOk(w) && IsPlay(w, moves)
    ensures Play(w, moves).Ok? ==> WorldOk(Play(w, moves).value)
    decreases |moves|
  {
    if moves != [] {
      MoveOk(w, moves[0]);
      if Do(w, moves[0]).Ok? { PlayOk(Do(w, moves[0]).value, moves[1..]); }
    }
  }

  predicate OwnIds(w: World) {
    forall r :: r in w.returned ==> r.id == r.own
  }

  lemma {:induction false} SafePlay(w: World, moves: seq<Move>)
    requires WorldOk(w) && OwnIds(w) && IsPlay(w, moves) && ReadsSafely(w, moves)
    ensures Play(w, moves).Ok? && OwnIds(Play(w, moves).value)
    decreases |moves|
  {
    if moves != [] {
      MoveOk(w, moves[0]);
      if moves[0].ReadId? { ReadOk(w, moves[0].t); }
      SafePlay(Do(w, moves[0]).value, moves[1..]);
    }
  }

  /**
    In every run, with `addTimer` called by any thread at any moment: if each id is read on the loop
    thread, or for a repeating timer that nobody has cancelled, then no assert fails, no freed timer
    is used, and every call returns the id of its own timer.
   */
  lemma SafeReadsAreRight(moves: seq<Move>)
    requires IsPlay(Begin, moves) && ReadsSafely(Begin, moves)
    ensures Play(Begin, moves).Ok? && OwnIds(Play(Begin, moves).value)
  {
    SafePlay(Begin, moves);
  }

  /** The run goes well up to move `i`, an unsafe read, and crashes there. */
  ghost predicate CrashesAt(w: World, moves: seq<Move>, i: nat)
    requires IsPlay(w, moves)
  {
    && i < |moves| && IsPlay(w, moves[..i]) && Play(w, moves[..i]).Ok? && Play(w, moves) == Crash(Dangling)
    && var w' := Play(w, moves[..i]).value;
       Can(w', moves[i]) && moves[i].ReadId? && !SafeCall(w', moves[i].t) && Do(w', moves[i]) == Crash(Dangling)
  }

  lemma CrashesLater(w: World, moves: seq<Move>, i: nat)
    requires IsPlay(w, moves) && moves != [] && Do(w, moves[0]).Ok? && CrashesAt(Do(w, moves[0]).value, moves[1..], i)
    ensures CrashesAt(w, moves, i + 1)
  {
    OneMore(w, moves[0], moves[1..][..i]);
    assert moves[..i + 1] == [moves[0]] + moves[1..][..i];
  }

  lemma {:induction false} CrashedPlay(w: World, moves: seq<Move>) returns (i: nat)
    requires WorldOk(w) && IsPlay(w, moves) && Play(w, moves).Crash?
    ensures CrashesAt(w, moves, i)
    decreases |moves|
  {
    MoveOk(w, moves[0]);
    if Do(w, moves[0]).Crash? {
      i := 0;
      assert moves[..0] == [];
    } else {
      var j := CrashedPlay(Do(w, moves[0]).value, moves[1..]);
      i := j + 1;
      CrashesLater(w, moves, j);
    }
  }

  /**
    In every run, whatever crashes is the read of an id by another thread, for a one-shot timer or a
    cancelled one, through a dangling pointer; the loop thread itself never crashes.
   */
  lemma OnlyUnsafeReadsCrash(moves: seq<Move>) returns (i: nat)
    requires IsPlay(Begin, moves) && Play(Begin, moves).Crash?
    ensures i < |moves| && IsPlay(Begin, moves[..i]) && Play(Begin, moves[..i]).Ok?
    ensures var w := Play(Begin, moves[..i]).value;
            && moves[i].ReadId? && moves[i].t in w.calls && moves[i].t != LOOP
            && (!w.calls[moves[i].t].repeats || w.calls[moves[i].t].cancelled)
            && Play(Begin, moves) == Crash(Dangling)
  {
    i := CrashedPlay(Begin, moves);
  }

  /** The queue only ever makes runs of the machine, so all that holds of those holds of it. */
  lemma {:induction false} PlayReaches(w: World, moves: seq<Move>)
    requires Reached(w.trace, w.queue) && IsPlay(w, moves)
    ensures Play(w, moves).Ok? ==> Reached(Play(w, moves).value.trace, Play(w, moves).value.queue)
    decreases |moves|
  {
    if moves != [] {
      MoveReaches(w, moves[0]);
      if Do(w, moves[0]).Ok? { PlayReaches(Do(w, moves[0]).value, moves[1..]); }
    }
  }

  lemma MoveReaches(w: World, move: Move)
    requires Reached(w.trace, w.queue) && Can(w, move)
    ensures Do(w, move).Ok? ==> Reached(Do(w, move).value.trace, Do(w, move).value.queue)
  {
    match move
    case New(t, a, when, interval) => Extend(w.trace, w.queue, Create(a, when, interval));
    case HandOver(t) =>
      if t == LOOP && Allowed(w.queue, Add(w.calls[t].timer)) { Extend(w.trace, w.queue, Add(w.calls[t].timer)); }
    case Loop(step) => Extend(w.trace, w.queue, step);
    case ReadId(t) =>
  }

  // ---------------------------------------------------------------- one call

  /** The call that made timer number `n` is about to read its id, and the timer is gone. */
  predicate Misses(w: World, t: Thread, n: nat) {
    t in w.calls && w.calls[t].number == n && w.calls[t].handedOver && !ReadsOwnTimer(w, t)
  }

  /** Some continuation without a cancel of `id` gets there. */
  ghost predicate CanMiss(w: World, t: Thread, id: Id) {
    exists moves :: IsPlay(w, moves) && Loop(Cancel(id)) !in moves
                    && Play(w, moves).Ok? && Misses(Play(w, moves).value, t, id.sequence)
  }

  lemma MissesNow(w: World, move: Move, t: Thread, id: Id)
    requires Can(w, move) && Do(w, move).Ok? && Misses(Do(w, move).value, t, id.sequence) && move != Loop(Cancel(id))
    ensures CanMiss(w, t, id)
  {
    OneMore(w, move, []);
  }

  lemma MissesLater(w: World, move: Move, t: Thread, id: Id)
    requires Can(w, move) && Do(w, move).Ok? && CanMiss(Do(w, move).value, t, id) && move != Loop(Cancel(id))
    ensures CanMiss(w, t, id)
  {
    var w' := Do(w, move).value;
    var more :| IsPlay(w', more) && Loop(Cancel(id)) !in more
                && Play(w', more).Ok? && Misses(Play(w', more).value, t, id.sequence);
    OneMore(w, move, more);
  }

  // ---------------------------------------------------------------- calls that cannot miss

  /** The call that made timer `id` is over or safe. */
  predicate OverOrSafe(w: World, t: Thread, id: Id) {
    && id.sequence in w.queue.ids
    && (t in w.calls && w.calls[t].number == id.sequence ==> SafeCall(w, t) && w.calls[t].Name() == id)
  }

  lemma LoopKeepsSafe(w: World, step: Step, t: Thread, id: Id)
    requires WorldOk(w) && OverOrSafe(w, t, id) && Can(w, Loop(step)) && step != Cancel(id) && Do(w, Loop(step)).Ok?
    ensures OverOrSafe(Do(w, Loop(step)).value, t, id)
  {
    StepEffect(w.queue, step);
    CreatedStays(w.queue, step, Do(w, Loop(step)).value.queue, id.sequence);
  }

  lemma NewKeepsSafe(w: World, move: Move, t: Thread, id: Id)
    requires WorldOk(w) && OverOrSafe(w, t, id) && Can(w, move) && move.New? && Do(w, move).Ok?
    ensures OverOrSafe(Do(w, move).value, t, id)
  {
    NewNumber(w.queue);
  }

  lemma CallKeepsSafe(w: World, move: Move, t: Thread, id: Id)
    requires OverOrSafe(w, t, id) && Can(w, move) && (move.HandOver? || move.ReadId?) && Do(w, move).Ok?
    ensures OverOrSafe(Do(w, move).value, t, id)
  {
    if move == HandOver(LOOP) { AddEffect(w.queue, w.calls[LOOP].timer); }
  }

  lemma MoveKeepsSafe(w: World, move: Move, t: Thread, id: Id)
    requires WorldOk(w) && OverOrSafe(w, t, id) && Can(w, move) && move != Loop(Cancel(id)) && Do(w, move).Ok?
    ensures OverOrSafe(Do(w, move).value, t, id)
  {
    match move
    case New(_, _, _, _) => NewKeepsSafe(w, move, t, id);
    case Loop(step) => LoopKeepsSafe(w, step, t, id);
    case _ => CallKeepsSafe(w, move, t, id);
  }

  lemma {:induction false} PlayKeepsSafe(w: World, moves: seq<Move>, t: Thread, id: Id)
    requires WorldOk(w) && OverOrSafe(w, t, id) && IsPlay(w, moves) && Loop(Cancel(id)) !in moves && Play(w, moves).Ok?
    ensures WorldOk(Play(w, moves).value) && OverOrSafe(Play(w, moves).value, t, id)
    decreases |moves|
  {
    if moves != [] {
      assert moves[0] in moves && forall m :: m in moves[1..] ==> m in moves;
      MoveOk(w, moves[0]);
      MoveKeepsSafe(w, moves[0], t, id);
      PlayKeepsSafe(Do(w, moves[0]).value, moves[1..], t, id);
    }
  }

  lemma SafeNeverMisses(w: World, t: Thread, id: Id)
    requires WorldOk(w) && OverOrSafe(w, t, id)
    ensures !CanMiss(w, t, id)
  {
    forall moves | IsPlay(w, moves) && Loop(Cancel(id)) !in moves && Play(w, moves).Ok?
      ensures !Misses(Play(w, moves).value, t, id.sequence) {
      PlayKeepsSafe(w, moves, t, id);
      var w' := Play(w, moves).value;
      if t in w'.calls { assert CallOk(w', t); }
    }
  }

  // ---------------------------------------------------------------- calls that can

  /** What the loop thread does next inside `handleRead`. */
  function LoopStep(q: Queue): Step
    requires !q.phase.Idle?
  {
    match q.phase
    case Calling(_, expired, next) => if next < |expired| then RunNext else EndCalls
    case Resetting(_, rest, _) => if rest != [] then ResetNext else EndReset
  }

  /** How many such steps are left. */
  function Work(q: Queue): int {
    match q.phase
    case Idle => 0
    case Calling(_, expired, next) => 2 * |expired| - next + 3
    case Resetting(_, rest, _) => |rest| + 1
  }

  lemma LoopStepWorks(q: Queue)
    requires Inv(q) && !q.phase.Idle?
    ensures Allowed(q, LoopStep(q)) && Next(q, LoopStep(q)).Ok?
    ensures 0 <= Work(Next(q, LoopStep(q)).value) < Work(q)
  {
    StepKeeps(q, LoopStep(q));
    if LoopStep(q).ResetNext? { ResetShape(q); }
  }

  /** The call has handed its one-shot timer over, and the loop has not inserted it yet. */
  predicate Waiting(w: World, t: Thread, id: Id) {
    && t != LOOP && t in w.calls && w.calls[t].Name() == id && w.calls[t].handedOver
    && id.timer in w.handed && There(w.queue, id.timer, id.sequence) && !w.queue.heap[id.timer].Repeat()
  }

  /** The loop is running the batch that holds the timer. */
  predicate Running(w: World, t: Thread, id: Id) {
    && t != LOOP && t in w.calls && w.calls[t].Name() == id && w.calls[t].handedOver && LOOP !in w.calls
    && There(w.queue, id.timer, id.sequence) && !w.queue.heap[id.timer].Repeat() && id.sequence in w.queue.batch
  }

  lemma StillRunning(w: World, t: Thread, id: Id)
    requires WorldOk(w) && Running(w, t, id) && !w.queue.phase.Idle?
    ensures Can(w, Loop(LoopStep(w.queue))) && Do(w, Loop(LoopStep(w.queue))).Ok?
    ensures var w' := Do(w, Loop(LoopStep(w.queue))).value;
            Running(w', t, id) || Misses(w', t, id.sequence)
  {
    LoopStepWorks(w.queue);
    var step, q := LoopStep(w.queue), w.queue;
    StepEffect(q, step);
    if step.ResetNext? {
      assert BatchEntryOk(q, 0);
      assert q.batch == [q.batch[0]] + q.batch[1..];
    }
  }

  /** The batch comes to its end, and with it the timer. */
  lemma {:induction false} RunningMisses(w: World, t: Thread, id: Id)
    requires WorldOk(w) && Running(w, t, id)
    ensures CanMiss(w, t, id)
    decreases Work(w.queue)
  {
    assert |w.queue.batch| == |Expired(w.queue)|;
    var move := Loop(LoopStep(w.queue));
    LoopStepWorks(w.queue);
    StillRunning(w, t, id);
    var w' := Do(w, move).value;
    if Misses(w', t, id.sequence) {
      MissesNow(w, move, t, id);
    } else {
      MoveOk(w, move);
      RunningMisses(w', t, id);
      MissesLater(w, move, t, id);
    }
  }

  lemma StillWaiting(w: World, step: Step, t: Thread, id: Id)
    requires WorldOk(w) && Waiting(w, t, id) && Can(w, Loop(step)) && step != Add(id.timer)
    ensures Do(w, Loop(step)).Ok? && WorldOk(Do(w, Loop(step)).value) && Waiting(Do(w, Loop(step)).value, t, id)
  {
    MoveOk(w, Loop(step));
    StepEffect(w.queue, step);
    var q' := Do(w, Loop(step)).value.queue;
    DetachedStays(w.queue, step, q', id.timer);
    CreatedStays(w.queue, step, q', id.sequence);
  }

  /** The only timer in the queue, with the kernel timer set for it. */
  predicate Armed(w: World, id: Id) {
    && w.queue.phase.Idle? && w.queue.fd.armed.Some?
    && id.timer in w.queue.heap && w.queue.timers == [Entry(w.queue.heap[id.timer].expiration, id.timer)]
  }

  /** Its own call is still open, and the loop thread is in none. */
  predicate Open(w: World, t: Thread, id: Id) {
    && t != LOOP && t in w.calls && w.calls[t].Name() == id && w.calls[t].handedOver && LOOP !in w.calls
    && There(w.queue, id.timer, id.sequence) && !w.queue.heap[id.timer].Repeat()
  }

  lemma FiredBatch(q: Queue, now: Time, e: Entry)
    requires Inv(q) && q.phase.Idle? && q.timers == [e] && e.when <= now && e.timer in q.heap
    ensures FireTimers(q, now).Ok? && FireTimers(q, now).value.batch == [q.heap[e.timer].sequence]
  {
    FireShape(q, now);
    SentrySplits(q.timers, now);
    assert e in q.timers[..DueCount(q, now)];
    assert DueCount(q, now) == 1;
  }

  lemma FiringMisses(w: World, t: Thread, id: Id)
    requires WorldOk(w) && Open(w, t, id) && w.queue.fd.ready && w.queue.phase.Idle?
    requires w.queue.timers == [Entry(w.queue.heap[id.timer].expiration, id.timer)]
    ensures CanMiss(w, t, id)
  {
    var now := w.queue.heap[id.timer].expiration;
    FiredBatch(w.queue, now, Entry(now, id.timer));
    StepEffect(w.queue, Fire(now));
    MoveOk(w, Loop(Fire(now)));
    RunningMisses(Do(w, Loop(Fire(now))).value, t, id);
    MissesLater(w, Loop(Fire(now)), t, id);
  }

  lemma ArmedMisses(w: World, t: Thread, id: Id)
    requires WorldOk(w) && Open(w, t, id) && Armed(w, id)
    ensures CanMiss(w, t, id)
  {
    MoveOk(w, Loop(Expire));
    FiringMisses(Do(w, Loop(Expire)).value, t, id);
    MissesLater(w, Loop(Expire), t, id);
  }

  lemma InsertedAlone(q: Queue, a: nat)
    requires Inv(q) && Allowed(q, Add(a)) && q.timers == []
    ensures AddTimerInLoop(q, a).Ok?
    ensures var q' := AddTimerInLoop(q, a).value;
            q'.phase == q.phase && q'.timers == [Entry(q.heap[a].expiration, a)] && q'.fd.armed.Some? && q'.heap == q.heap
  {
    InsertOk(q, a);
    assert Insert([], Entry(q.heap[a].expiration, a)) == [Entry(q.heap[a].expiration, a)];
  }

  lemma AloneMisses(w: World, t: Thread, id: Id)
    requires WorldOk(w) && Waiting(w, t, id) && LOOP !in w.calls && w.queue.phase.Idle? && w.queue.timers == []
    ensures CanMiss(w, t, id)
  {
    var move := Loop(Add(id.timer));
    InsertedAlone(w.queue, id.timer);
    StepEffect(w.queue, Add(id.timer));
    MoveOk(w, move);
    ArmedMisses(Do(w, move).value, t, id);
    MissesLater(w, move, t, id);
  }

  /** The loop's own code cancels all other timers, and inserts this one into the empty queue. */
  lemma {:induction false} IdleMisses(w: World, t: Thread, id: Id)
    requires WorldOk(w) && Waiting(w, t, id) && LOOP !in w.calls && w.queue.phase.Idle?
    ensures CanMiss(w, t, id)
    decreases |w.queue.active|
  {
    if w.queue.active == {} {
      AloneMisses(w, t, id);
    } else {
      var other :| other in w.queue.active;
      assert id !in w.queue.active;
      CancelIndex(w.queue, other);
      StillWaiting(w, Cancel(other), t, id);
      IdleMisses(Do(w, Loop(Cancel(other))).value, t, id);
      MissesLater(w, Loop(Cancel(other)), t, id);
    }
  }

  /** A `handleRead` in progress comes to its end first. */
  lemma {:induction false} WaitingMisses(w: World, t: Thread, id: Id)
    requires WorldOk(w) && Waiting(w, t, id) && LOOP !in w.calls
    ensures CanMiss(w, t, id)
    decreases Work(w.queue)
  {
    if w.queue.phase.Idle? {
      IdleMisses(w, t, id);
    } else {
      var step := LoopStep(w.queue);
      LoopStepWorks(w.queue);
      StillWaiting(w, step, t, id);
      WaitingMisses(Do(w, Loop(step)).value, t, id);
      MissesLater(w, Loop(step), t, id);
    }
  }

  /** So does a call of `addTimer` by the loop thread itself. */
  lemma LoopReadsFirst(w: World, t: Thread, id: Id)
    requires WorldOk(w) && Waiting(w, t, id) && LOOP in w.calls && w.calls[LOOP].handedOver
    ensures CanMiss(w, t, id)
  {
    ReadOk(w, LOOP);
    MoveOk(w, ReadId(LOOP));
    WaitingMisses(Do(w, ReadId(LOOP)).value, t, id);
    MissesLater(w, ReadId(LOOP), t, id);
  }

  lemma LoopInsertsFirst(w: World, t: Thread, id: Id)
    requires WorldOk(w) && Waiting(w, t, id) && LOOP in w.calls && !w.calls[LOOP].handedOver
    ensures CanMiss(w, t, id)
  {
    assert CallOk(w, LOOP);
    InsertNowOk(w);
    AddEffect(w.queue, w.calls[LOOP].timer);
    LoopReadsFirst(Do(w, HandOver(LOOP)).value, t, id);
    MissesLater(w, HandOver(LOOP), t, id);
  }

  lemma HandedOverMisses(w: World, t: Thread, id: Id)
    requires WorldOk(w) && Waiting(w, t, id)
    ensures CanMiss(w, t, id)
  {
    if LOOP !in w.calls {
      WaitingMisses(w, t, id);
    } else if w.calls[LOOP].handedOver {
      LoopReadsFirst(w, t, id);
    } else {
      LoopInsertsFirst(w, t, id);
    }
  }

  /** A new one-shot timer of another thread. */
  lemma OneShotMisses(w: World, t: Thread, id: Id)
    requires WorldOk(w) && t != LOOP && t in w.calls && !w.calls[t].handedOver && w.calls[t].Name() == id
    requires There(w.queue, id.timer, id.sequence) && !w.queue.heap[id.timer].Repeat()
    ensures CanMiss(w, t, id)
  {
    QueueInsertionOk(w, t);
    HandedOverMisses(Do(w, HandOver(t)).value, t, id);
    MissesLater(w, HandOver(t), t, id);
  }

  /**
    From the moment a call of `addTimer` has made its timer, in any state of the queue: in every
    continuation in which nobody cancels the id, the call reads the id from its own timer, if and
    only if it is on the loop thread or the timer repeats.
   */
  lemma AddTimerReadsOwnTimerIff(w: World, t: Thread, a: nat, when: Time, interval: real)
    requires WorldOk(w) && Can(w, New(t, a, when, interval))
    ensures Do(w, New(t, a, when, interval)).Ok?
    ensures var w' := Do(w, New(t, a, when, interval)).value;
            !CanMiss(w', t, Id(a, w.queue.numCreated + 1)) <==> t == LOOP || interval > 0.0
  {
    var move, id := New(t, a, when, interval), Id(a, w.queue.numCreated + 1);
    NewOk(w, move);
    var w' := Do(w, move).value;
    if t == LOOP || interval > 0.0 { SafeNeverMisses(w', t, id); } else { OneShotMisses(w', t, id); }
  }

  /** What a call gets that misses its timer: a dead pointer, or the number of another timer. */
  lemma MissedRead(w: World, t: Thread, n: nat)
    requires WorldOk(w) && Misses(w, t, n)
    ensures Can(w, ReadId(t))
    ensures var r := Do(w, ReadId(t));
            || r == Crash(Dangling)
            || (r.Ok? && r.value.returned[|w.returned|].id != r.value.returned[|w.returned|].own)
  {
    assert CallOk(w, t);
  }

  // ---------------------------------------------------------------- a run that shows it

  /** The rest of the run crashes in the read. */
  predicate Crashes(w: World, moves: seq<Move>) {
    IsPlay(w, moves) && Play(w, moves) == Crash(Dangling)
  }

  lemma CrashesThen(w: World, move: Move, more: seq<Move>)
    requires Can(w, move) && Do(w, move).Ok? && Crashes(Do(w, move).value, more)
    ensures Crashes(w, [move] + more)
  {
    OneMore(w, move, more);
  }

  /** What the queue expires next, or is running, is the timer of the call alone. */
  function Due(w: World, id: Id): Entry
    requires id.timer in w.queue.heap
  {
    Entry(w.queue.heap[id.timer].expiration, id.timer)
  }

  lemma ReadCrashes(w: World, t: Thread)
    requires t in w.calls && w.calls[t].handedOver && w.calls[t].timer !in w.queue.heap
    ensures Crashes(w, [ReadId(t)])
  {
  }

  lemma DeletedCrashes(w: World, t: Thread, id: Id)
    requires WorldOk(w) && Running(w, t, id) && w.queue.phase.Resetting? && w.queue.phase.rest == [Due(w, id)]
    ensures Crashes(w, [Loop(ResetNext)] + [ReadId(t)])
  {
    StepEffect(w.queue, ResetNext);
    ReadCrashes(Do(w, Loop(ResetNext)).value, t);
    CrashesThen(w, Loop(ResetNext), [ReadId(t)]);
  }

  lemma CalledCrashes(w: World, t: Thread, id: Id)
    requires WorldOk(w) && Running(w, t, id) && w.queue.phase.Calling?
    requires w.queue.phase.expired == [Due(w, id)] && w.queue.phase.next == 1
    ensures Crashes(w, [Loop(EndCalls)] + ([Loop(ResetNext)] + [ReadId(t)]))
  {
    MoveOk(w, Loop(EndCalls));
    DeletedCrashes(Do(w, Loop(EndCalls)).value, t, id);
    CrashesThen(w, Loop(EndCalls), [Loop(ResetNext)] + [ReadId(t)]);
  }

  const CALLED: seq<Move> := [Loop(RunNext), Loop(EndCalls), Loop(ResetNext)]

  lemma FiredCrashes(w: World, t: Thread, id: Id)
    requires WorldOk(w) && Running(w, t, id) && w.queue.phase.Calling?
    requires w.queue.phase.expired == [Due(w, id)] && w.queue.phase.next == 0
    ensures Crashes(w, CALLED + [ReadId(t)])
  {
    MoveOk(w, Loop(RunNext));
    CalledCrashes(Do(w, Loop(RunNext)).value, t, id);
    CrashesThen(w, Loop(RunNext), [Loop(EndCalls)] + ([Loop(ResetNext)] + [ReadId(t)]));
    assert CALLED + [ReadId(t)] == [Loop(RunNext)] + ([Loop(EndCalls)] + ([Loop(ResetNext)] + [ReadId(t)]));
  }

  lemma FiresAlone(q: Queue, e: Entry)
    requires Inv(q) && q.phase.Idle? && q.timers == [e] && e.timer in q.heap
    ensures FireTimers(q, e.when).Ok? && FireTimers(q, e.when).value.phase == Calling(e.when, [e], 0)
    ensures FireTimers(q, e.when).value.batch == [q.heap[e.timer].sequence]
  {
    FiredBatch(q, e.when, e);
    FireShape(q, e.when);
    assert q.timers[..1] == [e];
  }

  lemma ReadyCrashes(w: World, t: Thread, id: Id, now: Time)
    requires WorldOk(w) && Open(w, t, id) && w.queue.fd.ready && w.queue.phase.Idle?
    requires w.queue.timers == [Due(w, id)] && now == w.queue.heap[id.timer].expiration
    ensures Crashes(w, [Loop(Fire(now))] + (CALLED + [ReadId(t)]))
  {
    FiresAlone(w.queue, Due(w, id));
    StepEffect(w.queue, Fire(now));
    MoveOk(w, Loop(Fire(now)));
    FiredCrashes(Do(w, Loop(Fire(now))).value, t, id);
    CrashesThen(w, Loop(Fire(now)), CALLED + [ReadId(t)]);
  }

  lemma ArmedCrashes(w: World, t: Thread, id: Id, now: Time)
    requires WorldOk(w) && Open(w, t, id) && Armed(w, id) && now == w.queue.heap[id.timer].expiration
    ensures Crashes(w, [Loop(Expire)] + ([Loop(Fire(now))] + (CALLED + [ReadId(t)])))
  {
    MoveOk(w, Loop(Expire));
    ReadyCrashes(Do(w, Loop(Expire)).value, t, id, now);
    CrashesThen(w, Loop(Expire), [Loop(Fire(now))] + (CALLED + [ReadId(t)]));
  }

  /** The loop inserts the timer, it expires at its time, runs, and is deleted; then the id is read. */
  function LateRead(t: Thread, a: nat, when: Time): seq<Move> {
    [Loop(Add(a))] + ([Loop(Expire)] + ([Loop(Fire(when))] + (CALLED + [ReadId(t)])))
  }

  lemma WaitingCrashes(w: World, t: Thread, id: Id, when: Time)
    requires WorldOk(w) && Waiting(w, t, id) && LOOP !in w.calls && w.queue.phase.Idle? && w.queue.timers == []
    requires when == w.queue.heap[id.timer].expiration
    ensures Crashes(w, LateRead(t, id.timer, when))
  {
    InsertedAlone(w.queue, id.timer);
    StepEffect(w.queue, Add(id.timer));
    MoveOk(w, Loop(Add(id.timer)));
    ArmedCrashes(Do(w, Loop(Add(id.timer))).value, t, id, when);
    CrashesThen(w, Loop(Add(id.timer)), [Loop(Expire)] + ([Loop(Fire(when))] + (CALLED + [ReadId(t)])));
  }

  /**
    With nothing else in the queue: another thread makes a one-shot timer and hands it over, the
    loop runs and deletes it, and only then the thread reads the id, through a dangling pointer.
   */
  lemma LateReadCrashes(w: World, t: Thread, a: nat, when: Time, interval: real)
    requires WorldOk(w) && Can(w, New(t, a, when, interval)) && t != LOOP && interval <= 0.0
    requires w.queue.phase.Idle? && w.queue.timers == [] && LOOP !in w.calls
    ensures Crashes(w, [New(t, a, when, interval)] + ([HandOver(t)] + LateRead(t, a, when)))
  {
    var id := Id(a, w.queue.numCreated + 1);
    NewOk(w, New(t, a, when, interval));
    var w1 := Do(w, New(t, a, when, interval)).value;
    QueueInsertionOk(w1, t);
    WaitingCrashes(Do(w1, HandOver(t)).value, t, id, when);
    CrashesThen(w1, HandOver(t), LateRead(t, a, when));
    CrashesThen(w, New(t, a, when, interval), [HandOver(t)] + LateRead(t, a, when));
  }

  /** So it does at the very start: one timer due at 10, made by thread 1 at address 1. */
  lemma FirstReadMayCrash()
    ensures Crashes(Begin, [New(1, 1, 10, 0.0)] + ([HandOver(1)] + LateRead(1, 1, 10)))
  {
    LateReadCrashes(Begin, 1, 1, 10, 0.0);
  }
}
