# A verified model of the muduo reactor core

This project models, in Dafny, the parts of the reactor whose correctness rests on state kept
consistent across many operations, and proves what they promise over every run.

* **Timer queue** (`TimerSet`, `TimerMachine`, `TimerSafety`, `TimerTheorems`, `TimerTiming`,
  `TimerArming`, `TimerQueue`, `TimerIds`, `TimerReads`). Timers live in an explicit heap of addresses;
  `delete` returns an address to the allocator and `new` may hand it out again. Every `assert` and every
  use of a raw pointer by the loop thread, from `addTimerInLoop` on, is an outcome that can crash, and
  the main theorem is that no run of the loop thread crashes, with timers made by any thread at any
  moment and callbacks that add and cancel timers in the middle of a batch. The class `TimerQueue`
  carries the source's fields, and `HandleRead` is proved to be a run of that machine. `addTimer` itself
  reads the id through its pointer after the hand-over; `TimerIds` adds the callers on all threads as
  steps of their own, and `TimerReads` proves exactly when that read is safe.
* **Event loop hand-off** (`EventLoop`). Producers push under the mutex and write the eventfd as
  two separate steps; the loop waits, handles events, swaps the pending list and runs the batch. All
  interleavings are covered. The class `EventLoop` has methods for the loop thread and for the steps
  of other threads, which may fall inside its `doPendingFunctors`.
* **Thread pool** (`ThreadPool`). A bounded queue with two condition variables, signals that
  release at least one waiter of the scheduler's choice, stolen tasks, spurious wakeups, tasks that
  call `run` themselves, and the stop broadcast. The class `ThreadPool` holds the critical sections.
* **TCP output path** (`ConnectionModel`, `ConnectionLaws`, `ConnectionShutdown`, `TcpConnection`). Sends from several
  threads, direct and partial writes, buffering, write interest, high-water notices and half-close,
  with a socket that takes any prefix or fails. `send`, `shutdown` and `forceClose` test `state_`, set
  it and hand their work over in separate steps, so calls of several threads interleave as they do
  without a compare-and-swap. The class works on the real `Buffer` object.
* **Byte buffer** (`BufferModel`, `Buffer`). One array and two indexes, compaction by an overlapping
  copy, growth, the scatter read and big-endian integers, against a plain byte queue.
* **Epoll registration** (`EPollerModel`, `EPoller`). The poller's map, each channel's cached index
  and mask, and the kernel's interest set, where a wrong `epoll_ctl` is a crash.
* **Integer printing** (`Numerals`, `LogStream`). Truncated division, the two-sided digit table and
  the in-place reversal, against numerals and their value.

The step systems have the form `Allowed` (what the environment and the control flow permit),
`Next` (what the code does), and `IsRun` / `Exec` (whole runs). A class method's contract equates the
object's new state with the step, or chain of steps, it stands for, so the theorems about runs hold
of the objects.

What single operations do is also said without the functions that do it: how far a restart moves a
timer, what the kernel timer is set for, which ids a run hands to the loop, which bytes a write puts on
the wire and which callbacks are then due, which byte of an integer stands where, what a removal leaves
in the poller, and when text is dropped from the log.

Where the code does not do what its names or comments suggest, the model follows the code:

* `addTimer` from another thread may read its id through a dangling pointer, or get the number of another
  timer. `TimerReads.FirstReadMayCrash` gives a run, `TimerReads.AddTimerReadsOwnTimerIff` the exact
  condition.
* `reset` re-arms the timerfd inside its loop over expired timers, so a firing that expires nothing
  leaves pending timers without one. `TimerArming.CancelledEarliestStrandsTheRest` gives a run,
  `TimerArming.HandleReadKeepsCoverIff` the exact condition.
* `shutdown` sets `kDisconnected` although `handleWrite` half-closes for `kDisconnecting`, and either
  state may be set late by a thread that tested `state_` before. `ConnectionShutdown.ShutdownMayNeverHalfClose`
  and `ConnectionShutdown.CloseMayFailItsAssert` give runs.
  `ConnectionShutdown.ShutdownHalfClosesIff` and `ConnectionShutdown.HalfCloseComesLaterIff` say exactly
  when the socket is half-closed, now or later; `ConnectionShutdown.ShutdownKeepsMessagesIff` and
  `ConnectionShutdown.NothingMoreAcceptedIff` when messages are given up or still accepted;
  `ConnectionShutdown.CloseAssertHoldsLaterIff` when the assert of `handleClose` can hold again.
* A running thread pool can deadlock: a task that calls `run` may sleep on a full queue inside its own
  worker. `ThreadPools.TaskMayBlockItsPool` gives a run, `ThreadPools.CanTakeIff` the exact condition.
* `stop` of the thread pool may leave accepted tasks behind; `ThreadPools.StopServesAllIff` says
  exactly how many.
* A functor the loop thread queues before it enters `loop()` gets no wakeup of its own;
  `EventLoops.EarlyFunctorIsWokenIff` says when one is on its way all the same, and
  `EventLoops.NoLostWakeup` covers all other functors. Entering `loop()` discards an earlier `quit`:
  `EventLoops.QuitSurvivesIff`.
* A mask change that leaves a channel's mask empty registers a channel that was not registered;
  `EPollerModel.EmptyChangeToggles`.
* `formatInteger` checks no space; `LogStreams.FixedBuffer.FormatInteger` overruns exactly when the text
  does not fit, and `LogStreams.RoomForIntegerIff` gives the room for all integers.

## Model

| member | source | states |
|---|---|---|
| TimerTheorems.EveryTimerHasOneFate | muduo/net/TimerQueue.cc:150-254 | after any run, without a crash, every accepted timer is pending, in the batch in flight, or freed, and exactly one of these; no timer is freed twice |
| TimerTheorems.IndexesAgree | muduo/net/TimerQueue.cc:150-283 | after any run `timers_` is ordered and the two indexes describe the same live timers, one by current expiration, the other by own sequence number, in both directions |
| TimerTheorems.BatchPointersStayTrue | muduo/net/TimerQueue.cc:173-254 | after any run each pointer left in the expired batch leads to the very timer that expired, with the expiration it expired at |
| TimerTheorems.CancelStopsTimer | muduo/net/TimerQueue.cc:150-194 | once an accepted timer's id is cancelled, in every continuation it runs at most the one callback the batch in flight still owes it, and is freed by the time the loop is idle |
| TimerTheorems.FreedNeverRuns | muduo/net/TimerQueue.cc:150-254 | in every continuation a freed timer's callback never runs again |
| TimerTheorems.StaleCancelIsInvisible | muduo/net/TimerQueue.cc:150-171 | cancelling the id of a freed timer, whatever lives at its address now, changes no timer, index, kernel timer or callback in any continuation |
| TimerTheorems.RunDoomed | muduo/net/TimerQueue.cc:186-189 | running the next callback of a batch uses up exactly that timer's one outstanding call |
| TimerTheorems.CancelDooms | muduo/net/TimerQueue.cc:150-171 | after `cancelInLoop` an accepted timer is freed, or in flight and marked as being cancelled |
| TimerSafety.RunSafe | muduo/net/TimerQueue.cc:138-283 | from any sound state every run goes through all asserts and pointer uses and ends in a sound state |
| TimerSafety.StepKeeps | muduo/net/TimerQueue.cc:138-283 | the same for each single step the allocator, the kernel and the control flow permit |
| TimerSafety.CreateKeeps | muduo/net/Timer.h:27-34 | a new timer at any free address, old ones included, gets a sequence number no timer ever had, and the accounts stay sound |
| TimerSafety.InsertOk | muduo/net/TimerQueue.cc:256-283 | inserting a timer that is in neither index passes every assert of `insert` and adds it to both |
| TimerSafety.AddKeeps | muduo/net/TimerQueue.cc:138-148 | `addTimerInLoop` passes its asserts and keeps the invariant, also inside a callback |
| TimerSafety.CancelIndex | muduo/net/TimerQueue.cc:157-165 | cancelling an active id erases exactly its entry from both indexes, deletes the timer and passes `n == 1` |
| TimerSafety.CancelActive | muduo/net/TimerQueue.cc:150-171 | cancelling an active id keeps the invariant, the batch in flight included |
| TimerSafety.DeleteHeap | muduo/net/TimerQueue.cc:163 | `delete` of a live timer kills exactly that timer and frees it for the first time |
| TimerSafety.EraseActiveOk | muduo/net/TimerQueue.cc:209-218 | the loop of `getExpired` finds every id exactly once and leaves exactly the others |
| TimerSafety.FireShape | muduo/net/TimerQueue.cc:173-220 | what one firing does to every field, with all asserts of `getExpired` passed |
| TimerSafety.FireKeeps | muduo/net/TimerQueue.cc:196-220 | after `getExpired` the indexes agree again and the batch owns exactly the timers taken out |
| TimerSafety.RunKeeps | muduo/net/TimerQueue.cc:186-189 | the next callback goes through a live pointer to the timer that expired |
| TimerSafety.RestartKeeps | muduo/net/TimerQueue.cc:233-237 | restarting and re-inserting a repeating timer keeps the invariant |
| TimerSafety.DropKeeps | muduo/net/TimerQueue.cc:238-242 | any other timer of the batch is deleted, once, and nothing else changes |
| TimerSafety.RearmOk | muduo/net/TimerQueue.cc:244-252 | re-arming reads a live timer and sets the kernel timer for the earliest expiration |
| TimerSafety.ResetKeeps | muduo/net/TimerQueue.cc:229-253 | an iteration of `reset` keeps the invariant |
| TimerSets.InsertCorrect | muduo/net/TimerQueue.cc:262-273 | insertion keeps the order, adds exactly the entry, and changes the front only for a new minimum |
| TimerSets.EraseCorrect | muduo/net/TimerQueue.cc:160-161 | erasing a member keeps the order and removes exactly that member |
| TimerSets.LowerBound | muduo/net/TimerQueue.cc:202 | everything before the position is below the key, and what stands there is not |
| TimerSets.SentrySplits | muduo/net/TimerQueue.cc:200-207 | the sentry splits the set into exactly the entries due and exactly the later ones |
| TimerTiming.CallbacksAreTimely | muduo/net/TimerQueue.cc:173-254 | in every run no callback runs before its expiration, only repeating timers run twice, and then at readings a full interval apart |
| TimerTiming.BatchRunsInOrder | muduo/net/TimerQueue.cc:186-189 | in every run, at every moment of a batch, the most recent calls are those of its timers called so far, one each, with non-decreasing expirations, at one clock reading |
| TimerTiming.BatchIsWhatIsDue | muduo/net/TimerQueue.cc:196-207 | a firing takes exactly the timers due at its reading, in order, and leaves exactly the rest |
| TimerTiming.ResetRuns | muduo/net/TimerQueue.cc:229-242 | an iteration of `reset` keeps every earlier call of a timer at least an interval before its next expiration |
| TimerTiming.RestartIsOneInterval | muduo/net/Timer.cc:8-15 | a repeating timer is next due one interval after the reading, to the nanosecond below, and nothing else of it changes |
| TimerTiming.ResetReschedules | muduo/net/TimerQueue.cc:231-242 | after an iteration of `reset` a repeating timer that was not cancelled stands in both indexes, due one interval after the reading of its batch; any other is gone |
| TimerArming.PendingTimersAreCovered | muduo/net/TimerQueue.cc:138-254 | in every run with times after the epoch in which no firing is used up for nothing, a queue at rest has a firing waiting or the timerfd set no later than its earliest timer |
| TimerArming.HandleReadKeepsCoverIff | muduo/net/TimerQueue.cc:222-254 | a whole `handleRead`, whatever its callbacks do, ends with the queue covered if and only if it did not use up a firing with timers pending and none due |
| TimerArming.CancelledEarliestStrandsTheRest | muduo/net/TimerQueue.cc:229-253 | cancelling the earliest timer and firing at its time leaves a later timer pending with the timerfd off |
| TimerArming.AddArms | muduo/net/TimerQueue.cc:138-148 | adding a timer, also inside a callback, keeps the earliest timer covered |
| TimerArming.CancelArms | muduo/net/TimerQueue.cc:150-171 | so does cancelling any timer, the earliest included |
| TimerArming.AddSetsKernelTimer | muduo/net/TimerQueue.cc:138-148 | adding a timer earlier than all others sets the kernel timer for exactly its time; adding any other leaves it alone |
| TimerArming.ResetsSetKernelTimer | muduo/net/TimerQueue.cc:244-252 | in every run, an iteration of `reset` sets the kernel timer for exactly the earliest pending timer, or leaves it alone if none is pending |
| TimerArming.CancelOtherChanges | muduo/net/TimerQueue.cc:166-169 | cancelling an id that is not active changes nothing but `cancelingTimers_`, and that only during callbacks |
| TimerQueues.TimerQueue.constructor | muduo/net/TimerQueue.cc:95-105 | a new queue is empty and unarmed |
| TimerQueues.TimerQueue.NewDetached | muduo/net/TimerQueue.cc:124 | the `new Timer` alone, on any thread; its number is read later, through the pointer |
| TimerQueues.TimerQueue.ReadId | muduo/net/TimerQueue.cc:129 | succeeds exactly while some timer is at the address, with that timer's number |
| TimerQueues.TimerQueue.AddTimer | muduo/net/TimerQueue.cc:120-148 | on the loop thread: creation, insertion, and the read, which returns the id of the new timer |
| TimerQueues.TimerQueue.Insert | muduo/net/TimerQueue.cc:256-283 | adds to both indexes with every assert holding, and reports whether the earliest expiration changed |
| TimerQueues.TimerQueue.AddTimerInLoop | muduo/net/TimerQueue.cc:138-148 | is the machine's step, without a crash |
| TimerQueues.TimerQueue.CancelInLoop | muduo/net/TimerQueue.cc:150-171 | is the machine's step, without a crash |
| TimerQueues.TimerQueue.EraseOrRemember | muduo/net/TimerQueue.cc:153-170 | erases and deletes an active timer, remembers another id during a batch, asserts holding |
| TimerQueues.TimerQueue.GetExpired | muduo/net/TimerQueue.cc:196-220 | returns the entries up to the sentry, keeps the later ones, and takes exactly the expired ids out of `activeTimers_` |
| TimerQueues.TimerQueue.BeginHandleRead | muduo/net/TimerQueue.cc:173-184 | is the machine's firing step |
| TimerQueues.TimerQueue.RunCommands | muduo/net/TimerQueue.cc:186-189 | a callback's adds and cancels have exactly their effects, in order, and do not disturb the batch |
| TimerQueues.TimerQueue.CallAll | muduo/net/TimerQueue.cc:186-189 | every expired timer's callback is called once, in order, each followed by all it does |
| TimerQueues.TimerQueue.RestartOrDeleteTimer | muduo/net/TimerQueue.cc:231-242 | restarts a repeating timer that was not cancelled, deletes any other, as `TimerTiming.ResetReschedules` says of the machine |
| TimerQueues.TimerQueue.RearmTimerfd | muduo/net/TimerQueue.cc:244-252 | sets the kernel timer for the earliest entry, if any looks valid |
| TimerQueues.TimerQueue.Reset | muduo/net/TimerQueue.cc:222-254 | treats every expired timer exactly once and empties the batch |
| TimerQueues.TimerQueue.HandleRead | muduo/net/TimerQueue.cc:173-194 | from any reached state and for any callbacks, ends in the state of the whole machine run, with one firing and one complete reset |
| TimerQueues.Extend | muduo/net/TimerQueue.cc:138-283 | from a reached state every permitted operation succeeds and reaches a state again |
| TimerQueues.PerformAdds | muduo/net/TimerQueue.cc:120-148 | `addTimer` in a callback makes the timer and puts it, and nothing else, into both indexes |
| TimerQueues.PerformCancels | muduo/net/TimerQueue.cc:150-171 | `cancel` in a callback takes exactly the id out of the queue, or notes it for the end of the batch |
| TimerQueues.CommandsInOrder | muduo/net/TimerQueue.cc:186-189 | what a callback does takes effect one after the other, from the first on |
| TimerQueues.CallGoesIntoLog | muduo/net/TimerQueue.cc:186-189 | the next callback is the one of the next expired timer, at the batch's reading |
| TimerQueues.CallbacksInOrder | muduo/net/TimerQueue.cc:186-189 | callbacks are called one after the other, each with its own effects |
| TimerIds.MoveOk | muduo/net/TimerQueue.cc:120-283 | with `addTimer` called by any thread, nothing crashes but the read of an id by another thread for a one-shot or cancelled timer |
| TimerIds.HeldStays | muduo/net/TimerQueue.cc:222-242 | a repeating timer that nobody cancels survives every step of the loop |
| TimerIds.DetachedStays | muduo/net/TimerQueue.cc:120-148 | a timer waits untouched for its own insertion, whatever the loop does meanwhile |
| TimerReads.AddTimerReadsOwnTimerIff | muduo/net/TimerQueue.cc:120-130 | from any sound state: in every continuation without a cancel of its id, a call of `addTimer` reads the id from its own timer if and only if it is on the loop thread or the timer repeats |
| TimerReads.SafeReadsAreRight | muduo/net/TimerQueue.cc:120-283 | in every run over all threads in which each id is read on the loop thread or for a repeating timer not cancelled yet, nothing crashes and every call returns the id of its own timer |
| TimerReads.OnlyUnsafeReadsCrash | muduo/net/TimerQueue.cc:120-283 | in every run over all threads, whatever crashes is such a read by another thread, through a dangling pointer |
| TimerReads.MissedRead | muduo/net/TimerQueue.cc:129 | a read that comes too late goes through a dangling pointer or returns the number of another timer |
| TimerReads.LateReadCrashes | muduo/net/TimerQueue.cc:120-130 | from any sound idle and empty queue, the run in which another thread's one-shot timer is inserted, run and deleted before its id is read crashes |
| TimerReads.FirstReadMayCrash | muduo/net/TimerQueue.cc:120-130 | that run from the start, for a timer due at 10 made at address 1 |
| TimerReads.PlayReaches | muduo/net/TimerQueue.cc:120-283 | with callers on all threads the queue only makes runs of the machine, so all that holds of those holds of it |
| EventLoops.NoLostWakeup | muduo/net/EventLoop.cc:89-160 | in every interleaving, a loop at its wait with a functor pending that it did not queue itself outside the loop has been woken or is about to be |
| EventLoops.NoLostQuit | muduo/net/EventLoop.cc:115-125 | in every interleaving, a loop at its wait with `quit_` set has been woken or is about to be |
| EventLoops.FunctorsRunOnceInOrder | muduo/net/EventLoop.cc:146-160 | in every interleaving, executed functors, then the rest of the batch, then the pending list are everything queued, in order |
| EventLoops.HandedOverOnceInOrder | muduo/net/EventLoop.cc:146-160 | in every interleaving, the ids executed, then left in the batch, then pending are exactly those the calls of `queueInLoop` brought, each once, in the order of the pushes |
| EventLoops.OwingFollowsSteps | muduo/net/EventLoop.cc:115-160 | in every interleaving a thread owes a wakeup exactly from its push, or its `quit`, to its write |
| EventLoops.CounterFollowsStep | muduo/net/EventLoop.cc:192-244 | every wakeup leaves the eventfd readable, one more than before unless it is full; the loop's read empties it; nothing else touches it |
| EventLoops.BatchEndsAtItsSwap | muduo/net/EventLoop.cc:246-262 | until the next swap, exactly what was queued before this one is executed or in the batch, and all that is queued meanwhile stays pending |
| EventLoops.OneIterationDrains | muduo/net/EventLoop.cc:89-109 | left alone, one iteration from the wait executes everything queued |
| EventLoops.EarlyFunctorMayWait | muduo/net/EventLoop.cc:146-160 | from the start, a functor queued by the loop thread before `loop()` sits at the first wait without a wakeup |
| EventLoops.EarlyFunctorIsWokenIff | muduo/net/EventLoop.cc:81-160 | from any state outside the loop, such a functor is pending at the first wait, with a wakeup on its way if and only if one was on its way before |
| EventLoops.QuitSurvivesIff | muduo/net/EventLoop.cc:81-125 | after any run, a `quit` takes effect at a test of `quit_` if and only if `loop()` was not entered since, or another `quit` came after the last entry |
| EventLoops.StepKeeps | muduo/net/EventLoop.cc:81-262 | each step of any thread keeps the wakeup, quit and order accounts |
| EventLoops.EventLoop.constructor | muduo/net/EventLoop.cc:40-69 | starts outside the loop with nothing queued |
| EventLoops.EventLoop.QueueInLoop | muduo/net/EventLoop.cc:146-160 | by any thread: the functor is the new last one of the pending list, and the eventfd is readable afterwards, on the loop thread just while functors are being called |
| EventLoops.EventLoop.PushFrom | muduo/net/EventLoop.cc:148-151 | by another thread: the functor is the new last one of the pending list, and a wakeup is owed |
| EventLoops.EventLoop.WakeFrom | muduo/net/EventLoop.cc:153-159 | by another thread: the wakeup it owes |
| EventLoops.EventLoop.QuitFrom | muduo/net/EventLoop.cc:115-117 | by another thread: sets `quit_`, after which it owes a wakeup |
| EventLoops.EventLoop.Interfere | muduo/net/EventLoop.cc:115-160 | any step of another thread, at any moment, has the model's effect |
| EventLoops.EventLoop.Wakeup | muduo/net/EventLoop.cc:192-201 | adds one to the eventfd unless it is full |
| EventLoops.EventLoop.HandleRead | muduo/net/EventLoop.cc:236-244 | one read empties the eventfd |
| EventLoops.EventLoop.TakePending | muduo/net/EventLoop.cc:251-255 | the batch is the whole pending list, which is left empty |
| EventLoops.EventLoop.CallFunctor | muduo/net/EventLoop.cc:257-260 | one functor is executed; whatever it and other threads queue meanwhile has exactly its effects, in order |
| EventLoops.EventLoop.DoPendingFunctors | muduo/net/EventLoop.cc:246-262 | with other threads at work before the swap and during every functor: everything queued by the time of the swap is executed in order, and exactly what was queued after it is left pending |
| EventLoops.PerformQueues | muduo/net/EventLoop.cc:146-151 | during a functor, what it or another thread queues is appended to the pending list |
| EventLoops.ActsInOrder | muduo/net/EventLoop.cc:257-260 | what happens during a functor takes effect in order, from the first act on |
| EventLoops.DoPendingIsCalls | muduo/net/EventLoop.cc:246-262 | `doPendingFunctors` is the calls of all that is pending at the swap, each with its own acts |
| EventLoops.CallOneIs | muduo/net/EventLoop.cc:257-260 | a call executes the first functor of the batch, and then all its acts take effect |
| ThreadPools.NoLostWakeup | muduo/base/ThreadPool.cc:65-128 | in every run of a running pool, an unsignalled waiting worker means a signalled worker for every queued task, and an unsignalled waiting producer a signalled producer for every free slot |
| ThreadPools.AsleepOnlyInsideRun | muduo/base/ThreadPool.cc:65-128 | in every run, while a running pool has a task queued, some worker is awake, or all sleep in a `run` called by their own tasks, on a full queue unless a signalled producer is about to fill it; with an empty queue not everybody inside `run` sleeps |
| ThreadPools.CanTakeIff | muduo/base/ThreadPool.cc:65-128 | a queued task of a running pool can be taken without a `stop` if and only if the queue is not full or some worker is not inside a `run` called by its own task |
| ThreadPools.StuckRun | muduo/base/ThreadPool.cc:74-77 | once full with every worker inside `run`, the pool takes nothing more in any continuation without `stop` |
| ThreadPools.TaskMayBlockItsPool | muduo/base/ThreadPool.cc:74-77 | a run in which a task that calls `run` twice puts the only worker to sleep with a task queued |
| ThreadPools.TasksTakenInOrder | muduo/base/ThreadPool.cc:65-128 | tasks taken then tasks queued are the tasks accepted, in order, and a positive limit is respected |
| ThreadPools.TaskIsRunOrBrought | muduo/base/ThreadPool.cc:65-73 | without threads the task runs at once and nothing is queued; otherwise its thread brings it to the mutex |
| ThreadPools.TaskIsQueuedOrRefused | muduo/base/ThreadPool.cc:73-84 | there it waits exactly if the pool runs and is full, is turned away if the pool has stopped, and else its task is the new last one |
| ThreadPools.TaskIsTaken | muduo/base/ThreadPool.cc:109-128 | the first task, if there is one, goes to the worker; without one the worker waits exactly while the pool runs |
| ThreadPools.StopReleasesEveryone | muduo/base/ThreadPool.cc:45-57 | after `stop` no thread waits again, nothing is accepted, and each worker takes at most one more task, counted over the steps |
| ThreadPools.StopServesAllIff | muduo/base/ThreadPool.cc:93-128 | when all workers have exited, every accepted task was taken if and only if at `stop` the queue held no more tasks than workers were inside `take`; otherwise exactly the excess remains |
| ThreadPools.StopMayLeaveTasks | muduo/base/ThreadPool.cc:99-107 | a run in which an accepted task is never taken |
| ThreadPools.StepKeeps | muduo/base/ThreadPool.cc:45-128 | each critical section, wakeup and stop keeps the accounts of signals, slots and tasks |
| ThreadPools.ThreadPool.constructor | muduo/base/ThreadPool.cc:26-43 | a started pool runs, is empty, and has its workers at their first check |
| ThreadPools.ThreadPool.Run | muduo/base/ThreadPool.cc:65-73 | without threads the caller runs the task, otherwise it goes for the mutex with it |
| ThreadPools.ThreadPool.PushLocked | muduo/base/ThreadPool.cc:73-84 | waits on a full running pool, gives up on a stopped one, else appends the task and signals, with `!isFull()` holding |
| ThreadPools.ThreadPool.TakeLocked | muduo/base/ThreadPool.cc:109-128 | waits on an empty running pool, else takes the first task if there is one and signals a producer of a bounded pool |
| ThreadPools.ThreadPool.Stop | muduo/base/ThreadPool.cc:45-52 | stops the pool and releases every waiter |
| ConnectionModel.OutputIsConserved | muduo/net/TcpConnection.cc:81-175 | after any run the bytes on the wire followed by the output buffer are the accepted messages one after the other, and each thread's messages are dealt with in the order it sent them, the rest being queued or about to be |
| ConnectionModel.InterestFollowsOutput | muduo/net/TcpConnection.cc:136-174 | write interest is on only while output is buffered, and until the channel is disabled exactly then; write-complete notices, and half-closes before the channel is disabled, come with every accepted byte written |
| ConnectionModel.HighWaterNoticesAreSeparated | muduo/net/TcpConnection.cc:164-168 | between two high-water notices lies a write event that takes the output from the mark or above to below it |
| ConnectionModel.StepKeeps | muduo/net/TcpConnection.cc:81-373 | each step of any thread keeps conservation, write interest and the truth of all notices |
| ConnectionModel.StepOrder | muduo/net/TcpConnection.cc:81-175 | each step of any thread keeps every thread's order |
| ConnectionLaws.RefusedMessage | muduo/net/TcpConnection.cc:130-134 | a message is refused when disconnected, or when the socket is tried and answers `EPIPE` or `ECONNRESET`; nothing else changes then |
| ConnectionLaws.AcceptedMessage | muduo/net/TcpConnection.cc:135-174 | any other message is accepted whole: exactly the bytes the socket took at once go to the wire, the others behind what is buffered, with write interest if there are any |
| ConnectionLaws.WriteEventMovesBytes | muduo/net/TcpConnection.cc:326-352 | a write event moves exactly the bytes the socket took from the front of the buffer to the wire, and drops the interest exactly when that empties it |
| ConnectionLaws.SendNotices | muduo/net/TcpConnection.cc:139-168 | `sendInLoop` queues write-complete exactly when the socket took the whole message at once, and high-water exactly when the buffered output reaches the mark from below, with the size it then has |
| ConnectionLaws.WriteEventNotices | muduo/net/TcpConnection.cc:329-346 | a write event queues write-complete exactly when it empties the buffer, and then half-closes exactly when disconnecting |
| ConnectionLaws.CompletesExactly | muduo/net/TcpConnection.cc:124-358 | each step of any thread queues exactly one write-complete callback if its write empties the buffer or took a whole message at once, and none otherwise |
| ConnectionLaws.EmptiesIff | muduo/net/TcpConnection.cc:329-337 | a step empties a buffer that is not empty if and only if it is a write event that takes all there is |
| ConnectionLaws.TestsOfState | muduo/net/TcpConnection.cc:81-217 | each call gets past its test in exactly the states the source names |
| ConnectionLaws.CallsGoOn | muduo/net/TcpConnection.cc:81-227 | past its test a call sets the state, then queues its task or does its work, once each |
| ConnectionLaws.TasksGoOn | muduo/net/TcpConnection.cc:119-227 | the loop runs the oldest task; a queued close goes ahead exactly when connected or disconnected |
| ConnectionLaws.ConnectsAndCloses | muduo/net/TcpConnection.cc:281-373 | what establishing and closing do to the state and the interest |
| ConnectionShutdown.ShutdownHalfClosesIff | muduo/net/TcpConnection.cc:177-196 | when any thread's `shutdown` reaches the loop and nothing else that leads to a half-close is queued or in flight, the socket is half-closed, now or ever, if and only if there is no write interest at that moment |
| ConnectionShutdown.HalfCloseComesLaterIff | muduo/net/TcpConnection.cc:326-346 | at any moment with output waiting, some continuation half-closes if and only if the state is not `kDisconnected`, or another `shutdown` is queued, or a `shutdown` or `forceClose` is in flight that tested the state before, the loop thread's own `shutdown` not counted; while the loop thread is about to close, if and only if a `shutdown` can still come, or a late `kDisconnecting` and a message with data |
| ConnectionShutdown.ShutdownKeepsMessagesIff | muduo/net/TcpConnection.cc:124-134 | once disconnected, every message sent before is kept in every continuation if and only if none is queued or past its test and about to be handed over |
| ConnectionShutdown.NothingMoreAcceptedIff | muduo/net/TcpConnection.cc:124-134 | once disconnected, no continuation accepts a message if and only if no `forceClose` that tested the state before is in flight, or no message is pending |
| ConnectionShutdown.PendingAreGivenUp | muduo/net/TcpConnection.cc:124-134 | with no such `forceClose`, when nothing is pending any more every sent message has been dealt with in order, and all dealt with since the disconnection were given up |
| ConnectionShutdown.CloseAssertHoldsLaterIff | muduo/net/TcpConnection.cc:360-366 | after `shutdown` the assert of `handleClose` can hold again if and only if such a `forceClose` is in flight |
| ConnectionShutdown.ShutdownDropsMessage | muduo/net/TcpConnection.cc:81-98 | a run in which a message that passed the test of `send` before `shutdown` never reaches the wire |
| ConnectionShutdown.ShutdownMayNeverHalfClose | muduo/net/TcpConnection.cc:177-196 | a run in which a `shutdown` with one byte waiting half-closes neither when the byte is written nor in any continuation |
| ConnectionShutdown.CloseMayFailItsAssert | muduo/net/TcpConnection.cc:360-364 | a run after which the assert of `handleClose` fails, then and at every later moment |
| TcpConnections.TcpConnection.constructor | muduo/net/TcpConnection.cc:27-53 | a new connection is connecting with an empty output buffer |
| TcpConnections.TcpConnection.Send | muduo/net/TcpConnection.cc:81-98 | uninterrupted: ignored unless connected, done at once on the loop thread, queued otherwise |
| TcpConnections.TcpConnection.BeginSend | muduo/net/TcpConnection.cc:83 | the test alone, after which other threads may act |
| TcpConnections.TcpConnection.HandOver | muduo/net/TcpConnection.cc:85-96 | what follows the test, in whatever state it then finds the connection |
| TcpConnections.TcpConnection.SendInLoop | muduo/net/TcpConnection.cc:124-175 | the whole of `sendInLoop` on the real buffer has the model's effect |
| TcpConnections.TcpConnection.TryWrite | muduo/net/TcpConnection.cc:135-159 | tries the socket only with nothing buffered and no interest, and tells a full write, a partial one, would-block and a fault apart |
| TcpConnections.TcpConnection.BufferRest | muduo/net/TcpConnection.cc:162-174 | appends the rest, turns interest on, and notifies just when the mark is crossed |
| TcpConnections.TcpConnection.ShutdownInLoop | muduo/net/TcpConnection.cc:188-196 | half-closes unless output is waiting |
| TcpConnections.TcpConnection.Shutdown | muduo/net/TcpConnection.cc:177-186 | uninterrupted: test, state change and hand-over |
| TcpConnections.TcpConnection.BeginShutdown | muduo/net/TcpConnection.cc:180 | the test alone |
| TcpConnections.TcpConnection.SetDown | muduo/net/TcpConnection.cc:182 | the state change alone, whatever the state has become since the test |
| TcpConnections.TcpConnection.PassOnShutdown | muduo/net/TcpConnection.cc:184 | the hand-over alone |
| TcpConnections.TcpConnection.ForceClose | muduo/net/TcpConnection.cc:198-206 | uninterrupted: test, state change and queueing |
| TcpConnections.TcpConnection.BeginForceClose | muduo/net/TcpConnection.cc:198-217 | the test alone, with or without delay |
| TcpConnections.TcpConnection.SetClose | muduo/net/TcpConnection.cc:198-217 | the state change alone, whatever the state has become since the test |
| TcpConnections.TcpConnection.PassOnForceClose | muduo/net/TcpConnection.cc:204 | the queueing alone |
| TcpConnections.TcpConnection.HandleWrite | muduo/net/TcpConnection.cc:326-358 | writes the front of the buffer, and when it is empty drops interest, notifies, and half-closes if disconnecting, as `ConnectionLaws.WriteEventNotices` says of the model |
| TcpConnections.TcpConnection.HandleClose | muduo/net/TcpConnection.cc:360-373 | disconnects and disables the channel |
| TcpConnections.TcpConnection.ConnectDestroyed | muduo/net/TcpConnection.cc:292-303 | uninterrupted: disconnects and disables a connected channel |
| TcpConnections.TcpConnection.BeginDestroy | muduo/net/TcpConnection.cc:295 | the test alone |
| TcpConnections.TcpConnection.FinishClosing | muduo/net/TcpConnection.cc:219-227 | what follows the test of `forceCloseInLoop` or `connectDestroyed` |
| TcpConnections.TcpConnection.ConnectEstablished | muduo/net/TcpConnection.cc:281-285 | a connecting connection becomes connected |
| TcpConnections.TcpConnection.RunTask | muduo/net/TcpConnection.cc:119-227 | the loop runs the connection's oldest queued operation, `forceCloseInLoop` up to its test |
| BufferModel.Reserve | muduo/net/Buffer.h:340-357 | makes room, keeps what is unread, moves only towards the front (the assert of `makeSpace`) and exactly when that is enough, and else grows by exactly what is missing, to at most twice the demand plus seven |
| BufferModel.ShrinkShape | muduo/net/Buffer.h:318-324 | leaves the reserve free and exactly the stated size |
| BufferModel.MemoryIsBounded | muduo/net/Buffer.h:180-187 | over any run between shrinks the backing size never falls and never exceeds the larger of its start and twice the highest demand plus seven |
| BufferModel.QueueByteByByte | muduo/net/Buffer.h:104-324 | the plain byte queue, byte by byte: what goes in stays where it was put, what is taken out is the front or the end |
| BufferModel.StepMakesRoom | muduo/net/Buffer.h:180-324 | asking for room makes it; shrinking keeps no more than the readable bytes and the reserve need |
| BufferModel.RetrieveShape | muduo/net/Buffer.h:104-148 | retrieving everything resets both indexes to eight, retrieving less moves the reader alone |
| BufferModel.ReadShape | muduo/net/Buffer.cc:30-38 | the array is filled to its end before room is made for the rest |
| BufferModel.ReadLimit | muduo/net/Buffer.cc:16-24 | the extra segment of 65536 bytes is offered exactly when fewer are writable |
| BufferModel.BigEndianInverts | muduo/net/Buffer.h:205-261 | the bytes of a value in range read back as the value |
| BufferModel.EncodeByte | muduo/net/Buffer.h:205-226 | network byte order: byte `k` of an integer of `width` bytes is the one of weight 256 to the power `width - 1 - k`, in two's complement |
| BufferModel.DecodeWeighs | muduo/net/Buffer.h:256-285 | reading weighs the bytes from the front, most significant first; a first byte from 128 on makes the integer negative |
| BufferModel.DecodeEncode | muduo/net/Buffer.h:205-285 | a signed integer of any width reads back as itself, negative ones included |
| BufferModel.EncodeDecode | muduo/net/Buffer.h:256-308 | any bytes are the encoding of exactly the integer read from them |
| BufferModel.MixedListRoundTrip | muduo/net/Buffer.h:205-285 | a list of mixed widths reads back as itself and leaves what follows in place |
| Buffers.Buffer.constructor | muduo/net/Buffer.h:31-39 | starts empty with both indexes at the prepend area |
| Buffers.Buffer.Swap | muduo/net/Buffer.h:43-48 | the two buffers change places |
| Buffers.Buffer.Retrieve | muduo/net/Buffer.h:104-115 | drops exactly the first bytes, resetting the indexes when nothing is left |
| Buffers.Buffer.RetrieveAsString | muduo/net/Buffer.h:155-161 | the result followed by what is left is what was readable |
| Buffers.Buffer.Append | muduo/net/Buffer.h:168-173 | appends exactly the data, across compaction and growth |
| Buffers.Buffer.EnsureWritableBytes | muduo/net/Buffer.h:180-187 | makes room without changing the readable bytes |
| Buffers.Buffer.HasWritten | muduo/net/Buffer.h:193-197 | makes the bytes after the write position readable |
| Buffers.Buffer.Unwrite | muduo/net/Buffer.h:199-203 | drops exactly the last bytes |
| Buffers.Buffer.AppendInt | muduo/net/Buffer.h:205-226 | appends the integer's bytes, most significant first |
| Buffers.Buffer.ReadInt | muduo/net/Buffer.h:228-285 | returns the integer at the front, read as `BufferModel.DecodeWeighs` says, and drops its bytes |
| Buffers.Buffer.PrependInt | muduo/net/Buffer.h:287-308 | puts the integer in front, and peeking gives it back |
| Buffers.Buffer.AppendInts | muduo/net/Buffer.h:205-226 | appends a mixed list, whatever compaction or growth happens in between |
| Buffers.Buffer.ReadInts | muduo/net/Buffer.h:228-285 | reads a list of given widths from the front and leaves exactly the rest |
| Buffers.Buffer.AppendThenRead | muduo/net/Buffer.h:205-285 | integers appended, then any legal operations that leave them at the front, then read back: the same integers, and what stood behind them stays |
| Buffers.Buffer.Prepend | muduo/net/Buffer.h:310-316 | puts exactly the data in front |
| Buffers.Buffer.Shrink | muduo/net/Buffer.h:318-324 | keeps the readable bytes in a fresh array of the stated size |
| Buffers.Buffer.MakeSpace | muduo/net/Buffer.h:340-357 | keeps the readable bytes, with `kCheapPrepend < readerIndex_` holding before a move |
| Buffers.Buffer.MoveToFront | muduo/net/Buffer.h:349-354 | the overlapping forward copy keeps the readable bytes |
| Buffers.Buffer.ReadFd | muduo/net/Buffer.cc:14-41 | what `readv` delivered in one or two segments is appended in order; an error changes nothing |
| Buffers.Buffer.Execute | muduo/net/Buffer.h:104-324 | any legal sequence of operations acts on the readable bytes as on a plain byte queue |
| EPollerModel.KernelFollowsChannels | muduo/net/EPoller.cc:72-139 | in every run no assert fails and no `epoll_ctl` is refused; the map holds a channel under its descriptor unless the channel is new, and the kernel watches it exactly when it is added, with exactly its mask |
| EPollerModel.RunSafe | muduo/net/EPoller.cc:72-201 | every run from a sound state is free of failed asserts and refused calls |
| EPollerModel.SetKeeps | muduo/net/EPoller.cc:72-117 | any change of a mask is registered by the right operation and keeps the agreement |
| EPollerModel.RemoveKeeps | muduo/net/EPoller.cc:120-139 | a removal keeps the agreement of channels, map and kernel |
| EPollerModel.RemoveTakesOut | muduo/net/EPoller.cc:120-139 | after a removal the channel is new and its descriptor in neither the map nor the kernel set; its mask and all other entries are as they were |
| EPollerModel.SetRegisters | muduo/net/EPoller.cc:72-117 | after a change of mask the channel is in the map, and watched for exactly its events if there are any or it was not watched before; all other entries are as they were |
| EPollerModel.KernelRefusesIff | muduo/net/EPoller.cc:189-199 | the kernel refuses exactly to add what it watches and to change or delete what it does not |
| EPollerModel.EmptyChangeToggles | muduo/net/EPoller.cc:79-111 | a change to the empty mask unregisters a watched descriptor and registers an unwatched one |
| EPollerModel.Apply | muduo/net/Channel.h:53-81 | each change sets or clears all bits of its own kind of event and keeps every other bit |
| EPollers.Channel.SetMask | muduo/net/Channel.h:53-81 | the mask operations on the object |
| EPollers.Channel.IsWriting | muduo/net/Channel.h:83 | true exactly with the whole write event in the mask |
| EPollers.EPoller.UpdataChannel | muduo/net/EPoller.cc:72-117 | has the model's effect on map, index and kernel set, with its asserts holding |
| EPollers.EPoller.RemoveChannel | muduo/net/EPoller.cc:120-139 | erases the descriptor from the map, takes a watched one out of the kernel set, and makes the channel new, with its asserts holding |
| EPollers.EPoller.HasChannel | muduo/net/EPoller.cc:141-146 | true exactly for channels whose index is not `kNew` |
| EPollers.EPoller.Update | muduo/net/EPoller.cc:178-201 | one `epoll_ctl` changes exactly the channel's own entry, or is refused, changes nothing, and is logged as an error for a DEL and as fatal otherwise |
| EPollers.EPoller.SetEvents | muduo/net/Channel.h:53-81 | `enableReading` to `disableAll` keep channels, map and kernel in agreement |
| EPollers.EPoller.Remove | muduo/net/Channel.h:97 | after a removal the channel is new and its descriptor in neither the map nor the kernel set, and the agreement holds |
| Numerals.DecimalRoundTrip | muduo/base/LogStream.cc:26-46 | the text of any integer, the most negative ones included, parses to it and has no superfluous zero |
| Numerals.CanonicalIsPrinted | muduo/base/LogStream.cc:26-46 | every canonical decimal text is what is printed for the number it denotes |
| Numerals.DigitsCorrect | muduo/base/LogStream.cc:31-36 | digits in base 10 or 16 denote the number, without leading zeros |
| Numerals.DecimalFits | muduo/base/LogStream.cc:26-46 | any 64-bit integer, signed or unsigned, prints in at most 20 characters and a terminator |
| Numerals.LargestIsLongest | muduo/base/LogStream.cc:26-46 | the largest unsigned 64-bit integer takes all 20 |
| LogStreams.Convert | muduo/base/LogStream.cc:26-46 | writes exactly the decimal text and its terminator and no other cell, or writes past the array, which happens if and only if they do not fit |
| LogStreams.WriteDigits | muduo/base/LogStream.cc:29-36 | the do-while loop with truncated division and the two-sided table writes the digits backwards, as far as they fit |
| LogStreams.ReverseInPlace | muduo/base/LogStream.cc:44 | reverses exactly its range |
| LogStreams.ConverHex | muduo/base/LogStream.cc:48-64 | writes exactly the hexadecimal text and its terminator, and no other cell |
| LogStreams.PointerText | muduo/base/LogStream.cc:48-64 | a pointer prints in at most 16 digits that read back as it |
| LogStreams.TruncStep | muduo/base/LogStream.cc:33-36 | truncated division of either sign steps through the digits of the absolute value |
| LogStreams.RoomForIntegerIff | muduo/base/LogStream.cc:71-76 | every integer the stream takes can be printed within the buffer if and only if 21 bytes are free |
| LogStreams.NothingIsDropped | muduo/base/LogStream.cc:71-138 | with `kMaxNumericSize` bytes to spare a whole chain of `<<` is safe and loses nothing |
| LogStreams.PutExactly | muduo/base/LogStream.cc:71-138 | text is appended whole if strictly more bytes are free than it has, a pointer if at least 48 are, an integer always; otherwise nothing is |
| LogStreams.RenderReadsBack | muduo/base/LogStream.cc:71-138 | what is appended reads back as the number, as the address in base 16 behind `0x`, or as the text |
| LogStreams.FixedBuffer.Append | muduo/base/LogStream.h:27-35 | appends all of the text or nothing |
| LogStreams.FixedBuffer.FormatInteger | muduo/base/LogStream.cc:71-76 | appends the decimal text, or writes past the buffer, which happens if and only if text and terminator do not fit |
| LogStreams.FixedBuffer.FormatPointer | muduo/base/LogStream.cc:126-138 | appends `0x` and the digits, or nothing when fewer than `kMaxNumericSize` bytes are left |
| LogStreams.FixedBuffer.Stream | muduo/base/LogStream.cc:71-138 | a chain of `<<` appends item by item, and goes well if and only if every integer in it fits |

## Left out

- Timer arming: the kernel timer is set for an absolute expiration and may report a firing at any
  time while it is set; the 100 microsecond minimum, the truncation to microseconds and the two clocks are
  not modelled.
- Timer intervals: real numbers, truncated to nanoseconds; the rounding of `double` is not modelled.
- Timer handles: `addTimer` of another thread queues its insertion on the event loop; here the loop may
  take the queued insertions in any order.
- Timers as objects: they are values in an explicit heap, because the reuse of a deleted object's
  address cannot be said of Dafny objects.
- Threads: concurrency is modelled as interleaved atomic steps, in which each read and each write of
  `quit_`, `running_`, `state_` and `callingPendingFunctors_` is a step of its own or the only access of
  its step to what threads share; the memory model is not. A wait loop of the pool is one method called
  again after each wakeup.
- ThreadPools.ThreadPool.constructor: threads exist all at once when `start` returns; `run` called while
  they are being started, thread names and the init callback are not modelled.
- TcpConnections.TcpConnection.HandleClose: models the effect on the state and the write interest; the
  connection and close callbacks, `shared_ptr` ties and descriptor lifetimes are not modelled.
- TcpConnections.TcpConnection.ConnectDestroyed: does not model the channel's removal from the poller.
- Connection callbacks are taken to be set; `startRead`, `stopRead` and the reading side are not modelled.
- EPoller event delivery (`epoll_wait`, `fillActiveChannels`, growth of the result array) is not modelled.
- Buffer integers are one operation over a width in bytes instead of one per type; `size_t` overflow,
  `vector::capacity`, `findCRLF` and `findEOL` are not modelled.
- LogStreams.FixedBuffer.FormatInteger: what an overrun does to the memory behind the buffer is not
  modelled.
- Floating-point formatting, log files, asynchronous logging, log levels and time strings.
- Sockets, acceptor, server, event loop threads and their pool, latches, mutexes and conditions other
  than by their abstract meaning.
