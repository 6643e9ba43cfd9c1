/**
  The timer queue as a step system over an explicit heap of timers.

  A raw pointer is an address; `new` picks any address not in the heap, `delete` removes it, so
  addresses are reused. Every assert, and every pointer use of the loop thread from
  `addTimerInLoop` on, is a `Crash` when it fails; the use in `addTimer` itself is in `TimerIds`.
  A callback is whatever `Add` and `Cancel` steps fall between two `RunNext` steps, so a run
  covers every callback; `Create` (the `new Timer` of any thread) and `Expire` (the kernel) may
  fall anywhere. From `ids` on, the fields of `Queue` record the run; no outcome depends on them.
 */
module TimerMachine {
  import opened Outcomes
  import opened TimerSets

  /** The value of a default `time_point`, which the code takes for "invalid". */
  const EPOCH: Time := 0

  /** `duration_cast<nanoseconds>`, which truncates towards zero. */
  function Nanoseconds(seconds: real): Time {
    if seconds < 0.0 then -((-seconds * 1000000000.0).Floor) else (seconds * 1000000000.0).Floor
  }

  datatype Timer = Timer(expiration: Time, interval: real, sequence: nat) {
    predicate Repeat() {
      interval > 0.0
    }

    function Restart(now: Time): Timer {
      if Repeat() then this.(expiration := now + Nanoseconds(interval)) else this.(expiration := EPOCH)
    }
  }

  /** `TimerId` and `ActiveTimer`: a pointer with the sequence number it was created with. */
  datatype Id = Id(timer: nat, sequence: nat)

  /** The kernel timer: the expiration it is set for, and whether a firing waits to be read. */
  datatype TimerFd = TimerFd(armed: Option<Time>, ready: bool)

  /** Where `handleRead` stands: not running, calling callbacks, or resetting what is left. */
  datatype Phase =
    | Idle
    | Calling(now: Time, expired: seq<Entry>, next: nat)
    | Resetting(now: Time, rest: seq<Entry>, nextExpire: Time)

  /** A callback invocation: the clock reading of its batch and the timer as it was. */
  datatype Invocation = Invocation(now: Time, timer: Timer)

  datatype Queue = Queue(
    heap: map<nat, Timer>,
    numCreated: nat,
    timers: seq<Entry>,
    active: set<Id>,
    calling: bool,
    canceling: set<Id>,
    fd: TimerFd,
    phase: Phase,
    ids: map<nat, nat>,       // sequence number -> address, for every timer ever created
    detached: set<nat>,       // created, but not yet handed to addTimerInLoop
    accepted: set<nat>,       // sequence numbers handed to addTimerInLoop
    batch: seq<nat>,          // sequence numbers of the expired entries still to be reset
    freed: seq<nat>,          // sequence numbers in order of deletion
    runs: seq<Invocation>)

  const Empty: Queue := Queue(map[], 0, [], {}, false, {}, TimerFd(None, false), Idle,
                              map[], {}, {}, [], [], [])

  datatype Step =
    | Create(at: nat, when: Time, interval: real)
    | Add(timer: nat)
    | Cancel(id: Id)
    | Expire
    | Fire(now: Time)
    | RunNext
    | EndCalls
    | ResetNext
    | EndReset

  function Expired(s: Queue): seq<Entry> {
    match s.phase
    case Idle => []
    case Calling(_, expired, _) => expired
    case Resetting(_, rest, _) => rest
  }

  /** Loop-thread code outside `handleRead`, or inside a callback. */
  predicate UserCode(s: Queue) {
    s.phase.Idle? || (s.phase.Calling? && 0 < s.phase.next)
  }

  /** What the allocator, the kernel and the control flow permit; no safety is built in. */
  predicate Allowed(s: Queue, step: Step) {
    match step
    case Create(a, _, _) => 0 < a < UINTPTR_MAX && a !in s.heap
    case Add(a) => UserCode(s) && a in s.detached
    case Cancel(_) => UserCode(s)
    case Expire => s.fd.armed.Some?
    case Fire(_) => s.phase.Idle?
    case RunNext => s.phase.Calling? && s.phase.next < |s.phase.expired|
    case EndCalls => s.phase.Calling? && s.phase.next == |s.phase.expired|
    case ResetNext => s.phase.Resetting? && s.phase.rest != []
    case EndReset => s.phase.Resetting? && s.phase.rest == []
  }

  function Deref(heap: map<nat, Timer>, a: nat): Outcome<Timer> {
    if a in heap then Ok(heap[a]) else Crash(Dangling)
  }

  /** `delete`; deleting twice is a crash. */
  function Delete(s: Queue, a: nat): Outcome<Queue> {
    var t :- Deref(s.heap, a);
    Ok(s.(heap := s.heap - {a}, freed := s.freed + [t.sequence]))
  }

  function ResetTimerfd(s: Queue, expiration: Time): Queue {
    s.(fd := TimerFd(Some(expiration), false))
  }

  function CreateTimer(s: Queue, a: nat, when: Time, interval: real): Queue {
    var q := s.numCreated + 1;
    s.(heap := s.heap[a := Timer(when, interval, q)], numCreated := q,
       ids := s.ids[q := a], detached := s.detached + {a})
  }

  function InsertTimer(s: Queue, a: nat): Outcome<Queue> {
    var _ :- Check(|s.timers| == |s.active|);
    var t :- Deref(s.heap, a);
    var entry, id := Entry(t.expiration, a), Id(a, t.sequence);
    var _ :- Check(entry !in s.timers);
    var _ :- Check(id !in s.active);
    var s' := s.(timers := Insert(s.timers, entry), active := s.active + {id});
    var _ :- Check(|s'.timers| == |s'.active|);
    Ok(s')
  }

  predicate EarliestChanged(s: Queue, t: Timer) {
    s.timers == [] || t.expiration < s.timers[0].when
  }

  function AddTimerInLoop(s: Queue, a: nat): Outcome<Queue> {
    var t :- Deref(s.heap, a);
    var s' :- InsertTimer(s, a);
    var s'' := s'.(detached := s.detached - {a}, accepted := s.accepted + {t.sequence});
    Ok(if EarliestChanged(s, t) then ResetTimerfd(s'', t.expiration) else s'')
  }

  function CancelInLoop(s: Queue, id: Id): Outcome<Queue> {
    var _ :- Check(|s.timers| == |s.active|);
    if id in s.active then
      var t :- Deref(s.heap, id.timer);
      var entry := Entry(t.expiration, id.timer);
      var _ :- Check(entry in s.timers);
      var s' :- Delete(s.(timers := Erase(s.timers, entry)), id.timer);
      var s'' := s'.(active := s.active - {id});
      var _ :- Check(|s''.timers| == |s''.active|);
      Ok(s'')
    else
      Ok(if s.calling then s.(canceling := s.canceling + {id}) else s)
  }

  /** The ids of a list of entries, read through their pointers. */
  function SequencesOf(heap: map<nat, Timer>, entries: seq<Entry>): Outcome<seq<nat>> {
    if entries == [] then Ok([])
    else
      var t :- Deref(heap, entries[0].timer);
      var rest :- SequencesOf(heap, entries[1..]);
      Ok([t.sequence] + rest)
  }

  /** `getExpired`'s loop: every expired timer is erased from `activeTimers_` exactly once. */
  function EraseActive(heap: map<nat, Timer>, active: set<Id>, entries: seq<Entry>): Outcome<set<Id>> {
    if entries == [] then Ok(active)
    else
      var t :- Deref(heap, entries[0].timer);
      var id := Id(entries[0].timer, t.sequence);
      var _ :- Check(id in active);
      EraseActive(heap, active - {id}, entries[1..])
  }

  function DueCount(s: Queue, now: Time): nat {
    LowerBound(s.timers, Entry(now, UINTPTR_MAX))
  }

  /** `handleRead` up to its first callback. */
  function FireTimers(s: Queue, now: Time): Outcome<Queue> {
    var _ :- Check(|s.timers| == |s.active|);
    var k := DueCount(s, now);
    var _ :- Check(k == |s.timers| || now < s.timers[k].when);
    var expired := s.timers[..k];
    var active :- EraseActive(s.heap, s.active, expired);
    var batch :- SequencesOf(s.heap, expired);
    var _ :- Check(|s.timers[k..]| == |active|);
    Ok(s.(timers := s.timers[k..], active := active, calling := true, canceling := {},
          fd := s.fd.(ready := false), phase := Calling(now, expired, 0), batch := batch))
  }

  function RunCallback(s: Queue): Outcome<Queue>
    requires Allowed(s, RunNext)
  {
    var t :- Deref(s.heap, s.phase.expired[s.phase.next].timer);
    Ok(s.(phase := s.phase.(next := s.phase.next + 1), runs := s.runs + [Invocation(s.phase.now, t)]))
  }

  /** The first half of a `reset` iteration: restart the timer or delete it. */
  function RestartOrDelete(s: Queue): (r: Outcome<Queue>)
    requires Allowed(s, ResetNext)
    ensures r.Ok? ==> r.value.phase.Resetting?
  {
    var a := s.phase.rest[0].timer;
    var t :- Deref(s.heap, a);
    var s' := s.(phase := s.phase.(rest := s.phase.rest[1..]), batch := if s.batch == [] then [] else s.batch[1..]);
    if t.Repeat() && Id(a, t.sequence) !in s.canceling
    then InsertTimer(s'.(heap := s.heap[a := t.Restart(s.phase.now)]), a)
    else Delete(s', a)
  }

  /** The second half: set the kernel timer for the earliest entry, unless it looks invalid. */
  function Rearm(s: Queue): Outcome<Queue>
    requires s.phase.Resetting?
  {
    var nextExpire :- if s.timers == [] then Ok(s.phase.nextExpire)
                      else var t :- Deref(s.heap, s.timers[0].timer); Ok(t.expiration);
    var s' := s.(phase := s.phase.(nextExpire := nextExpire));
    Ok(if nextExpire > EPOCH then ResetTimerfd(s', nextExpire) else s')
  }

  function ResetOne(s: Queue): Outcome<Queue>
    requires Allowed(s, ResetNext)
  {
    var s' :- RestartOrDelete(s);
    Rearm(s')
  }

  function Next(s: Queue, step: Step): Outcome<Queue>
    requires Allowed(s, step)
  {
    match step
    case Create(a, when, interval) => Ok(CreateTimer(s, a, when, interval))
    case Add(a) => AddTimerInLoop(s, a)
    case Cancel(id) => CancelInLoop(s, id)
    case Expire => Ok(s.(fd := TimerFd(None, true)))
    case Fire(now) => FireTimers(s, now)
    case RunNext => RunCallback(s)
    case EndCalls => Ok(s.(calling := false, phase := Resetting(s.phase.now, s.phase.expired, EPOCH)))
    case ResetNext => ResetOne(s)
    case EndReset => Ok(s.(phase := Idle))
  }

  /** Whether a list of steps is a run from `s`; it ends at a crash. */
  predicate IsRun(s: Queue, steps: seq<Step>)
    decreases |steps|
  {
    steps == [] ||
    (Allowed(s, steps[0]) && (Next(s, steps[0]).Ok? ==> IsRun(Next(s, steps[0]).value, steps[1..])))
  }

  function Exec(s: Queue, steps: seq<Step>): Outcome<Queue>
    requires IsRun(s, steps)
    decreases |steps|
  {
    if steps == [] then Ok(s)
    else
      var s' :- Next(s, steps[0]);
      Exec(s', steps[1..])
  }

  // ---------------------------------------------------------------- invariant

  /** Timer number `q` is in the heap, at the address it was created at. */
  predicate Live(s: Queue, q: nat) {
    q in s.ids && s.ids[q] in s.heap && s.heap[s.ids[q]].sequence == q
  }

  /** Every timer ever created is live or freed, not both, and freed at most once. */
  ghost predicate HeapOk(s: Queue) {
    && (forall a :: a in s.heap ==> 0 < a < UINTPTR_MAX)
    && (forall a :: a in s.heap ==> s.heap[a].sequence in s.ids && s.ids[s.heap[a].sequence] == a)
    && (forall a :: a in s.heap ==> s.heap[a].sequence !in s.freed)
    && (forall q :: q in s.ids ==> 1 <= q <= s.numCreated)
    && (forall q :: q in s.ids ==> q in s.freed || Live(s, q))
    && (forall q :: q in s.freed ==> q in s.ids)
    && (forall i, j :: 0 <= i < j < |s.freed| ==> s.freed[i] != s.freed[j])
  }

  /** The two indexes describe the same timers, by current expiration and by own sequence number. */
  ghost predicate IndexOk(s: Queue) {
    && Sorted(s.timers)
    && |s.timers| == |s.active|
    && (forall e :: e in s.timers ==> e.timer in s.heap && s.heap[e.timer].expiration == e.when
                                      && Id(e.timer, s.heap[e.timer].sequence) in s.active)
    && (forall id :: id in s.active ==> id.timer in s.heap && s.heap[id.timer].sequence == id.sequence
                                        && Entry(s.heap[id.timer].expiration, id.timer) in s.timers)
  }

  /** Entry `i` of the batch still points at the live timer it was taken from. */
  predicate BatchEntryOk(s: Queue, i: nat)
    requires i < |s.batch| && |s.batch| == |Expired(s)|
  {
    var q, e := s.batch[i], Expired(s)[i];
    && Live(s, q) && s.ids[q] == e.timer && s.heap[e.timer].expiration == e.when
    && e.timer !in s.detached && Id(e.timer, q) !in s.active
  }

  ghost predicate BatchOk(s: Queue) {
    && |s.batch| == |Expired(s)|
    && (forall i, j :: 0 <= i < j < |s.batch| ==> s.batch[i] != s.batch[j])
    && (forall i :: 0 <= i < |s.batch| ==> BatchEntryOk(s, i))
    && (forall i :: 0 <= i < |s.batch| ==> !s.phase.Idle? && Expired(s)[i].when <= s.phase.now)
    && (s.calling <==> s.phase.Calling?)
    && (s.phase.Calling? ==> s.phase.next <= |s.phase.expired|)
  }

  /** Every live timer has exactly one owner: its creator, the indexes, or the batch. */
  ghost predicate OwnersOk(s: Queue) {
    && s.detached <= s.heap.Keys
    && (forall a :: a in s.detached ==> Id(a, s.heap[a].sequence) !in s.active)
    && (forall a :: a in s.heap ==> a in s.detached || Id(a, s.heap[a].sequence) in s.active
                                    || s.heap[a].sequence in s.batch)
    && (forall q :: q in s.accepted <==> q in s.ids && !(Live(s, q) && s.ids[q] in s.detached))
  }

  ghost predicate Inv(s: Queue) {
    HeapOk(s) && IndexOk(s) && BatchOk(s) && OwnersOk(s)
  }
}
