/**
  `addTimer` called by any thread, on top of the timer machine. It makes the timer, hands it to the
  loop, and only then reads the sequence number for the returned id through its raw pointer. On the
  loop thread the hand-over inserts the timer at once; from another thread it queues the insertion,
  and the loop may have run and deleted the timer by the time of the read.
 */
module TimerIds {
  import opened Outcomes
  import opened TimerSets
  import opened TimerMachine
  import opened TimerSafety
  import opened TimerQueues

  type Thread = nat

  const LOOP: Thread := 0

  /** A call of `addTimer` in progress; `number` is what the timer was created with. */
  datatype Call = Call(timer: nat, number: nat, repeats: bool, handedOver: bool, cancelled: bool) {
    function Name(): Id {
      Id(timer, number)
    }
  }

  /** What a call returned, beside the id its timer really has. */
  datatype Returned = Returned(id: Id, own: Id)

  /** `trace` is the run of the machine that the queue has made. */
  datatype World = World(
    queue: Queue,
    calls: map<Thread, Call>,
    handed: set<nat>,              // timers whose insertion is queued
    returned: seq<Returned>,
    trace: seq<Step>)

  const Begin: World := World(Empty, map[], {}, [], [])

  datatype Move =
    | New(t: Thread, at: nat, when: Time, interval: real)
    | HandOver(t: Thread)
    | ReadId(t: Thread)
    | Loop(step: Step)             // a step of the loop thread outside addTimer, or of the kernel

  predicate Can(w: World, move: Move) {
    match move
    case New(t, a, when, interval) =>
      t !in w.calls && Allowed(w.queue, Create(a, when, interval)) && (t == LOOP ==> UserCode(w.queue))
    case HandOver(t) => t in w.calls && !w.calls[t].handedOver
    case ReadId(t) => t in w.calls && w.calls[t].handedOver
    case Loop(step) =>
      && !step.Create? && Allowed(w.queue, step)
      && (step.Expire? || LOOP !in w.calls)
      && (step.Add? ==> step.timer in w.handed)
      && (step.Fire? ==> w.queue.fd.ready)
  }

  /** The machine takes a step. */
  function Advance(w: World, step: Step): Outcome<World>
    requires Allowed(w.queue, step)
  {
    var q :- Next(w.queue, step);
    Ok(w.(queue := q, trace := w.trace + [step]))
  }

  /** Calls whose timer is named by `id` are marked as cancelled. */
  function MarkCancelled(calls: map<Thread, Call>, id: Id): map<Thread, Call> {
    map t | t in calls :: if calls[t].Name() == id then calls[t].(cancelled := true) else calls[t]
  }

  function Do(w: World, move: Move): Outcome<World>
    requires Can(w, move)
  {
    match move
    case New(t, a, when, interval) =>
      var w' :- Advance(w, Create(a, when, interval));
      Ok(w'.(calls := w.calls[t := Call(a, w.queue.numCreated + 1, interval > 0.0, false, false)]))
    case HandOver(t) =>
      var c := w.calls[t];
      var w' := w.(calls := w.calls[t := c.(handedOver := true)]);
      if t != LOOP then Ok(w'.(handed := w.handed + {c.timer}))
      else
        var _ :- Check(Allowed(w.queue, Add(c.timer)));
        Advance(w', Add(c.timer))
    case ReadId(t) =>
      var c := w.calls[t];
      var timer :- Deref(w.queue.heap, c.timer);
      Ok(w.(calls := w.calls - {t}, returned := w.returned + [Returned(Id(c.timer, timer.sequence), c.Name())]))
    case Loop(step) =>
      var w' :- Advance(w, step);
      Ok(w'.(handed := if step.Add? then w.handed - {step.timer} else w.handed,
             calls := if step.Cancel? then MarkCancelled(w.calls, step.id) else w.calls))
  }

  predicate IsPlay(w: World, moves: seq<Move>)
    decreases |moves|
  {
    moves == [] || (Can(w, moves[0]) && (Do(w, moves[0]).Ok? ==> IsPlay(Do(w, moves[0]).value, moves[1..])))
  }

  function Play(w: World, moves: seq<Move>): Outcome<World>
    requires IsPlay(w, moves)
    decreases |moves|
  {
    if moves == [] then Ok(w)
    else
      var w' :- Do(w, moves[0]);
      Play(w', moves[1..])
  }

  // ---------------------------------------------------------------- one timer over one step

  /** What a step does to the timers themselves, apart from expirations. */
  predicate Effect(q: Queue, step: Step, q': Queue) {
    match step
    case Create(a, when, interval) =>
      && q'.heap == q.heap[a := Timer(when, interval, q.numCreated + 1)] && q'.ids == q.ids[q.numCreated + 1 := a]
      && q'.detached == q.detached + {a} && q'.canceling == q.canceling && q'.batch == q.batch
    case Add(a) =>
      && q'.heap == q.heap && q'.ids == q.ids && q'.detached == q.detached - {a}
      && q'.canceling == q.canceling && q'.batch == q.batch
    case Cancel(id) =>
      && q'.heap == (if id in q.active then q.heap - {id.timer} else q.heap) && q'.ids == q.ids
      && q'.detached == q.detached && q'.canceling <= q.canceling + {id} && q'.batch == q.batch
    case Fire(_) => q'.heap == q.heap && q'.ids == q.ids && q'.detached == q.detached && q'.canceling == {}
    case ResetNext =>
      && q.phase.Resetting? && q.phase.rest != [] && q.phase.rest[0].timer in q.heap && q.batch != []
      && q'.ids == q.ids && q'.detached == q.detached && q'.canceling == q.canceling && q'.batch == q.batch[1..]
      && var a := q.phase.rest[0].timer;
         q'.heap == if Restarts(q) then q.heap[a := q.heap[a].Restart(q.phase.now)] else q.heap - {a}
    case _ =>
      && q'.heap == q.heap && q'.ids == q.ids && q'.detached == q.detached
      && q'.canceling == q.canceling && q'.batch == q.batch
  }

  lemma AddEffect(q: Queue, a: nat)
    requires AddTimerInLoop(q, a).Ok?
    ensures Effect(q, Add(a), AddTimerInLoop(q, a).value)
  {
  }

  lemma CancelEffect(q: Queue, id: Id)
    requires CancelInLoop(q, id).Ok?
    ensures Effect(q, Cancel(id), CancelInLoop(q, id).value)
  {
  }

  lemma FireEffect(q: Queue, now: Time)
    requires FireTimers(q, now).Ok?
    ensures Effect(q, Fire(now), FireTimers(q, now).value)
  {
  }

  lemma ResetEffect(q: Queue)
    requires Inv(q) && Allowed(q, ResetNext)
    ensures ResetOne(q).Ok? && Effect(q, ResetNext, ResetOne(q).value)
  {
    ResetShape(q);
    ResetTimers(q);
  }

  lemma StepEffect(q: Queue, step: Step)
    requires Inv(q) && Allowed(q, step)
    ensures Next(q, step).Ok? && Effect(q, step, Next(q, step).value)
  {
    StepKeeps(q, step);
    match step
    case Add(a) => AddEffect(q, a);
    case Cancel(id) => CancelEffect(q, id);
    case Fire(now) => FireEffect(q, now);
    case ResetNext => ResetEffect(q);
    case _ =>
  }

  /** Timer number `n` was created at `a` and is still there. */
  predicate There(q: Queue, a: nat, n: nat) {
    n in q.ids && q.ids[n] == a && a in q.heap && q.heap[a].sequence == n
  }

  lemma CreatedStays(q: Queue, step: Step, q': Queue, n: nat)
    requires HeapOk(q) && Effect(q, step, q') && n in q.ids
    ensures n in q'.ids && q'.ids[n] == q.ids[n]
  {
  }

  /** A timer not yet inserted waits untouched for its own insertion. */
  lemma DetachedStays(q: Queue, step: Step, q': Queue, a: nat)
    requires Inv(q) && Allowed(q, step) && Effect(q, step, q') && a in q.detached && step != Add(a)
    ensures a in q'.detached && a in q'.heap && q'.heap[a] == q.heap[a]
  {
    if step.ResetNext? { assert BatchEntryOk(q, 0); }
  }

  /** A repeating timer that nobody has cancelled will be scheduled again. */
  predicate Held(q: Queue, a: nat, n: nat) {
    There(q, a, n) && q.heap[a].Repeat() && (n in q.batch ==> Id(a, n) !in q.canceling)
  }

  lemma HeldStays(q: Queue, step: Step, q': Queue, a: nat, n: nat)
    requires Inv(q) && Allowed(q, step) && Effect(q, step, q') && Held(q, a, n) && step != Cancel(Id(a, n))
    ensures Held(q', a, n)
  {
    if step.ResetNext? {
      assert BatchEntryOk(q, 0);
      assert q.batch == [q.batch[0]] + q'.batch;
    }
  }

  // ---------------------------------------------------------------- invariant

  predicate CallOk(w: World, t: Thread)
    requires t in w.calls
  {
    var c, q := w.calls[t], w.queue;
    && c.number in q.ids && q.ids[c.number] == c.timer
    && (!c.handedOver ==> c.timer in q.detached && c.timer !in w.handed && There(q, c.timer, c.number))
    && (t == LOOP ==> There(q, c.timer, c.number))
    && (c.repeats && !c.cancelled ==> Held(q, c.timer, c.number))
  }

  ghost predicate CallsOk(w: World) {
    && (LOOP in w.calls ==> UserCode(w.queue))
    && w.handed <= w.queue.detached
    && (forall t :: t in w.calls ==> CallOk(w, t))
    && (forall t, u :: t in w.calls && u in w.calls && t != u ==> w.calls[t].number != w.calls[u].number)
  }

  ghost predicate WorldOk(w: World) {
    Inv(w.queue) && CallsOk(w)
  }

  /** A call in progress over a step of the queue that is not its own. */
  lemma CallStays(w: World, step: Step, w': World, t: Thread)
    requires Inv(w.queue) && Allowed(w.queue, step) && Effect(w.queue, step, w'.queue)
    requires t in w.calls && t in w'.calls && CallOk(w, t)
    requires w'.calls[t] == w.calls[t].(cancelled := w'.calls[t].cancelled)
    requires w.calls[t].cancelled || step == Cancel(w.calls[t].Name()) ==> w'.calls[t].cancelled
    requires !w.calls[t].handedOver ==> step != Add(w.calls[t].timer) && w.calls[t].timer !in w'.handed
    requires t == LOOP ==> step.Create? || step.Expire? || step.Add?
    ensures CallOk(w', t)
  {
    var c := w.calls[t];
    CreatedStays(w.queue, step, w'.queue, c.number);
    if !c.handedOver { DetachedStays(w.queue, step, w'.queue, c.timer); }
    if c.repeats && !w'.calls[t].cancelled { HeldStays(w.queue, step, w'.queue, c.timer, c.number); }
  }

  lemma NewNumber(q: Queue)
    requires Inv(q)
    ensures q.numCreated + 1 !in q.ids && q.numCreated + 1 !in q.batch
  {
    forall i | 0 <= i < |q.batch| ensures q.batch[i] != q.numCreated + 1 {
      assert BatchEntryOk(q, i);
    }
  }

  lemma NewCalls(w: World, move: Move, w': World)
    requires WorldOk(w) && Can(w, move) && move.New?
    requires w'.queue == CreateTimer(w.queue, move.at, move.when, move.interval) && w'.handed == w.handed
    requires w'.calls == w.calls[move.t := Call(move.at, w.queue.numCreated + 1, move.interval > 0.0, false, false)]
    ensures CallsOk(w')
  {
    NewNumber(w.queue);
    forall t | t in w'.calls ensures CallOk(w', t) {
      if t != move.t { CallStays(w, Create(move.at, move.when, move.interval), w', t); }
    }
  }

  lemma NewOk(w: World, move: Move)
    requires WorldOk(w) && Can(w, move) && move.New?
    ensures Do(w, move).Ok? && WorldOk(Do(w, move).value)
  {
    CreateKeeps(w.queue, move.at, move.when, move.interval);
    NewCalls(w, move, Do(w, move).value);
  }

  /** Timers of different calls that are both still there are different timers. */
  lemma OtherTimer(w: World, t: Thread, u: Thread)
    requires WorldOk(w) && t in w.calls && u in w.calls && t != u
    requires There(w.queue, w.calls[t].timer, w.calls[t].number) && There(w.queue, w.calls[u].timer, w.calls[u].number)
    ensures w.calls[t].timer != w.calls[u].timer
  {
  }

  lemma QueueInsertionOk(w: World, t: Thread)
    requires WorldOk(w) && Can(w, HandOver(t)) && t != LOOP
    ensures Do(w, HandOver(t)).Ok? && WorldOk(Do(w, HandOver(t)).value)
  {
    var w' := Do(w, HandOver(t)).value;
    assert CallOk(w, t);
    forall u | u in w'.calls ensures CallOk(w', u) {
      assert CallOk(w, u);
      if u != t && !w.calls[u].handedOver { OtherTimer(w, t, u); }
    }
  }

  lemma InsertNowCalls(w: World, w': World)
    requires WorldOk(w) && Can(w, HandOver(LOOP)) && Allowed(w.queue, Add(w.calls[LOOP].timer))
    requires Effect(w.queue, Add(w.calls[LOOP].timer), w'.queue) && UserCode(w'.queue) && w'.handed == w.handed
    requires w'.calls == w.calls[LOOP := w.calls[LOOP].(handedOver := true)]
    ensures CallsOk(w')
  {
    var a := w.calls[LOOP].timer;
    forall u | u in w'.calls ensures CallOk(w', u) {
      assert CallOk(w, u) && CallOk(w, LOOP);
      if u == LOOP {
        CallStays(w.(calls := w'.calls), Add(a), w', LOOP);
      } else {
        if !w.calls[u].handedOver { OtherTimer(w, LOOP, u); }
        CallStays(w, Add(a), w', u);
      }
    }
  }

  lemma AddPhase(q: Queue, a: nat)
    requires AddTimerInLoop(q, a).Ok?
    ensures AddTimerInLoop(q, a).value.phase == q.phase
  {
  }

  lemma InsertNowOk(w: World)
    requires WorldOk(w) && Can(w, HandOver(LOOP))
    ensures Do(w, HandOver(LOOP)).Ok? && WorldOk(Do(w, HandOver(LOOP)).value)
  {
    var a := w.calls[LOOP].timer;
    assert CallOk(w, LOOP);
    AddKeeps(w.queue, a);
    AddEffect(w.queue, a);
    AddPhase(w.queue, a);
    InsertNowCalls(w, Do(w, HandOver(LOOP)).value);
  }

  lemma LoopCalls(w: World, step: Step, w': World)
    requires WorldOk(w) && Can(w, Loop(step)) && Effect(w.queue, step, w'.queue)
    requires w'.calls == if step.Cancel? then MarkCancelled(w.calls, step.id) else w.calls
    requires w'.handed == if step.Add? then w.handed - {step.timer} else w.handed
    requires step.Expire? ==> w'.queue.phase == w.queue.phase
    ensures CallsOk(w')
  {
    forall t | t in w'.calls ensures CallOk(w', t) {
      assert CallOk(w, t);
      CallStays(w, step, w', t);
    }
  }

  lemma LoopOk(w: World, step: Step)
    requires WorldOk(w) && Can(w, Loop(step))
    ensures Do(w, Loop(step)).Ok? && WorldOk(Do(w, Loop(step)).value)
  {
    StepKeeps(w.queue, step);
    StepEffect(w.queue, step);
    LoopCalls(w, step, Do(w, Loop(step)).value);
  }

  /** The call's timer is still there when the id is read. */
  predicate ReadsOwnTimer(w: World, t: Thread)
    requires t in w.calls
  {
    There(w.queue, w.calls[t].timer, w.calls[t].number)
  }

  /** On the loop thread, or a repeating timer that nobody has cancelled yet. */
  predicate SafeCall(w: World, t: Thread)
    requires t in w.calls
  {
    t == LOOP || (w.calls[t].repeats && !w.calls[t].cancelled)
  }

  lemma ReadOk(w: World, t: Thread)
    requires WorldOk(w) && Can(w, ReadId(t)) && SafeCall(w, t)
    ensures ReadsOwnTimer(w, t)
    ensures Do(w, ReadId(t)).Ok? && Do(w, ReadId(t)).value.returned == w.returned + [Returned(w.calls[t].Name(), w.calls[t].Name())]
  {
    assert CallOk(w, t);
  }

  lemma MoveOk(w: World, move: Move)
    requires WorldOk(w) && Can(w, move)
    ensures Do(w, move).Ok? ==> WorldOk(Do(w, move).value)
    ensures Do(w, move).Crash? ==> Do(w, move) == Crash(Dangling) && move.ReadId? && !SafeCall(w, move.t)
  {
    match move {
      case New(_, _, _, _) => NewOk(w, move);
      case HandOver(t) => if t == LOOP { InsertNowOk(w); } else { QueueInsertionOk(w, t); }
      case Loop(step) => LoopOk(w, step);
      case ReadId(t) =>
        if SafeCall(w, t) { ReadOk(w, t); }
        if Do(w, move).Ok? {
          var w' := Do(w, move).value;
          forall u | u in w'.calls ensures CallOk(w', u) { assert CallOk(w, u); }
        }
    }
  }

  /** No id is read by an unsafe call. */
  predicate ReadsSafely(w: World, moves: seq<Move>)
    requires IsPlay(w, moves)
    decreases |moves|
  {
    moves == [] ||
    ((moves[0].ReadId? ==> SafeCall(w, moves[0].t)) && (Do(w, moves[0]).Ok? ==> ReadsSafely(Do(w, moves[0]).value, moves[1..])))
  }
}
