/**
  The output path of a TCP connection as a step system.

  `send`, `shutdown` and `forceClose` may be called by any thread, and test `state_`, set it and
  queue their work for the loop in separate steps: `calls` says what a thread inside one of them
  does next. The loop thread's other work touches nothing the others see but `state_`, which each
  piece of it reads or writes once, so a piece is one step. The socket accepts any prefix of what is
  written, or fails. From `wire` on, the fields record the run.
 */
module ConnectionModel {
  import opened BufferModel

  datatype State = Connecting | Connected | Disconnecting | Disconnected

  type Thread = nat

  const LOOP: Thread := 0

  datatype Errno = EWOULDBLOCK | EPIPE | ECONNRESET | OTHER

  /** What `::write` answers. */
  datatype WriteResult = Wrote(n: nat) | WriteFailed(errno: Errno)

  datatype Message = Message(from: Thread, data: seq<byte>)

  datatype Task = SendTask(message: Message) | ShutdownTask | ForceCloseTask

  /** What a thread inside an operation does next. */
  datatype Op =
    | Sending(message: Message)      // send has seen kConnected
    | SettingDown                    // shutdown has seen kConnected
    | QueueingDown                   // shutdown has set kDisconnected
    | SettingClose(delayed: bool)    // forceClose has seen kConnected or kDisconnecting
    | QueueingClose                  // forceClose has set kDisconnecting
    | Closing                        // forceCloseInLoop or connectDestroyed has passed its test

  /** Callbacks queued and half-closes done, with what had been written and accepted by then. */
  datatype Notice =
    | WriteComplete(written: nat, accepted: nat)
    | HighWater(size: nat)
    | HalfClose(disabled: bool, written: nat, accepted: nat)

  /** A message `sendInLoop` has dealt with. */
  datatype Done = Done(message: Message, accepted: bool)

  datatype Conn = Conn(
    state: State,
    output: seq<byte>,          // readable bytes of outputBuffer_
    writing: bool,              // the channel's write interest
    mark: nat,                  // highWaterMark_
    tasks: seq<Task>,
    calls: map<Thread, Op>,     // threads inside an operation
    wire: seq<byte>,            // bytes the socket has taken
    accepted: seq<byte>,        // bytes of the accepted messages
    disabled: bool,             // disableAll has been called
    sent: seq<Message>,         // messages that send() let through
    done: seq<Done>,
    notices: seq<Notice>)

  function NewConn(mark: nat): Conn {
    Conn(Connecting, [], false, mark, [], map[], [], [], false, [], [], [])
  }

  datatype Step =
    | Establish
    | Send(message: Message)                     // the test of state_ in send
    | Shutdown(from: Thread)                     // in shutdown
    | ForceClose(from: Thread, delayed: bool)    // in forceClose or forceCloseWithDelay
    | Act(t: Thread, write: WriteResult)         // what a thread inside an operation does next
    | RunTask(write: WriteResult)
    | Writable(write: WriteResult)
    | Close
    | Destroy                                    // the test of state_ in connectDestroyed

  /** A write reports no more than it was given. */
  predicate CanAnswer(w: WriteResult, size: nat) {
    w.Wrote? ==> w.n <= size
  }

  predicate Allowed(c: Conn, step: Step) {
    match step
    case Establish => c.state.Connecting?
    case Send(m) => m.from !in c.calls
    case Shutdown(t) => t !in c.calls
    case ForceClose(t, _) => t !in c.calls
    case Act(t, w) => t in c.calls && (c.calls[t].Sending? ==> CanAnswer(w, |c.calls[t].message.data|))
    case RunTask(w) =>
      LOOP !in c.calls && c.tasks != [] && (c.tasks[0].SendTask? ==> CanAnswer(w, |c.tasks[0].message.data|))
    case Writable(w) => LOOP !in c.calls && CanAnswer(w, |c.output|)
    case Close => LOOP !in c.calls
    case Destroy => LOOP !in c.calls
  }

  /** `sendInLoop` tries the socket itself only with nothing buffered and no write interest. */
  predicate WritesDirectly(c: Conn) {
    !c.writing && c.output == []
  }

  predicate FaultError(c: Conn, w: WriteResult) {
    WritesDirectly(c) && w.WriteFailed? && (w.errno.EPIPE? || w.errno.ECONNRESET?)
  }

  /** How many bytes of the message the direct write put on the wire. */
  function Direct(c: Conn, w: WriteResult): nat {
    if WritesDirectly(c) && w.Wrote? then w.n else 0
  }

  function Notify(c: Conn, n: Notice): Conn {
    c.(notices := c.notices + [n])
  }

  function NotifyComplete(c: Conn): Conn {
    Notify(c, WriteComplete(|c.wire|, |c.accepted|))
  }

  /** The message is accepted: a prefix may be on the wire already, the rest is buffered. */
  function Accept(c: Conn, m: Message, w: WriteResult): Conn
    requires CanAnswer(w, |m.data|)
  {
    var n := Direct(c, w);
    var rest := m.data[n..];
    var c' := c.(wire := c.wire + m.data[..n], accepted := c.accepted + m.data, done := c.done + [Done(m, true)]);
    if rest == [] then
      if WritesDirectly(c) && w.Wrote? then NotifyComplete(c') else c'
    else
      var size := |c.output| + |rest|;
      var c'' := if |c.output| < c.mark <= size then Notify(c', HighWater(size)) else c';
      c''.(output := c.output + rest, writing := true)
  }

  function SendInLoop(c: Conn, m: Message, w: WriteResult): Conn
    requires CanAnswer(w, |m.data|)
  {
    if c.state.Disconnected? || FaultError(c, w) then c.(done := c.done + [Done(m, false)]) else Accept(c, m, w)
  }

  function ShutdownInLoop(c: Conn): Conn {
    if c.writing then c else Notify(c, HalfClose(c.disabled, |c.wire|, |c.accepted|))
  }

  function HandleWrite(c: Conn, w: WriteResult): Conn
    requires CanAnswer(w, |c.output|)
  {
    if !c.writing || w.WriteFailed? || w.n == 0 then c
    else
      var c' := c.(output := c.output[w.n..], wire := c.wire + c.output[..w.n]);
      if c'.output != [] then c'
      else
        var c'' := NotifyComplete(c'.(writing := false));
        if c.state.Disconnecting? then ShutdownInLoop(c'') else c''
  }

  function HandleClose(c: Conn): Conn {
    c.(state := Disconnected, writing := false, disabled := true)
  }

  function Enter(c: Conn, t: Thread, op: Op): Conn {
    c.(calls := c.calls[t := op])
  }

  function Queue(c: Conn, task: Task): Conn {
    c.(tasks := c.tasks + [task])
  }

  /** The next step of the operation thread `t` is inside; on the loop thread the work is done at once. */
  function Proceed(c: Conn, t: Thread, w: WriteResult): Conn
    requires Allowed(c, Act(t, w))
  {
    var left := c.(calls := c.calls - {t});
    match c.calls[t]
    case Sending(m) => if t == LOOP then SendInLoop(left, m, w) else Queue(left, SendTask(m))
    case SettingDown => Enter(c.(state := Disconnected), t, QueueingDown)
    case QueueingDown => if t == LOOP then ShutdownInLoop(left) else Queue(left, ShutdownTask)
    case SettingClose(delayed) =>
      if delayed then left.(state := Disconnecting) else Enter(c.(state := Disconnecting), t, QueueingClose)
    case QueueingClose => Queue(left, ForceCloseTask)
    case Closing => HandleClose(left)
  }

  function RunFirst(c: Conn, w: WriteResult): Conn
    requires Allowed(c, RunTask(w))
  {
    var c' := c.(tasks := c.tasks[1..]);
    match c.tasks[0]
    case SendTask(m) => SendInLoop(c', m, w)
    case ShutdownTask => ShutdownInLoop(c')
    case ForceCloseTask => if c.state.Connected? || c.state.Disconnected? then Enter(c', LOOP, Closing) else c'
  }

  function Next(c: Conn, step: Step): Conn
    requires Allowed(c, step)
  {
    match step
    case Establish => c.(state := Connected)
    case Send(m) => if c.state.Connected? then Enter(c.(sent := c.sent + [m]), m.from, Sending(m)) else c
    case Shutdown(t) => if c.state.Connected? then Enter(c, t, SettingDown) else c
    case ForceClose(t, delayed) =>
      if c.state.Connected? || c.state.Disconnecting? then Enter(c, t, SettingClose(delayed)) else c
    case Act(t, w) => Proceed(c, t, w)
    case RunTask(w) => RunFirst(c, w)
    case Writable(w) => HandleWrite(c, w)
    case Close => HandleClose(c)
    case Destroy => if c.state.Connected? then Enter(c, LOOP, Closing) else c
  }

  predicate IsRun(c: Conn, steps: seq<Step>)
    decreases |steps|
  {
    steps == [] || (Allowed(c, steps[0]) && IsRun(Next(c, steps[0]), steps[1..]))
  }

  function Exec(c: Conn, steps: seq<Step>): Conn
    requires IsRun(c, steps)
    decreases |steps|
  {
    if steps == [] then c else Exec(Next(c, steps[0]), steps[1..])
  }

  // ---------------------------------------------------------------- conservation and interest

  predicate NoticeOk(n: Notice) {
    match n
    case WriteComplete(written, accepted) => written == accepted
    case HighWater(_) => true
    case HalfClose(disabled, written, accepted) => disabled || written == accepted
  }

  /** A thread sends its own messages, and only the loop thread closes. */
  ghost predicate CallsOk(c: Conn) {
    && (forall t :: t in c.calls && c.calls[t].Sending? ==> c.calls[t].message.from == t)
    && (forall t :: t in c.calls && c.calls[t].Closing? ==> t == LOOP)
    && (c.state.Connecting? ==> c.tasks == [] && c.calls == map[] && !c.writing)
  }

  ghost predicate Inv(c: Conn) {
    && c.wire + c.output == c.accepted
    && (c.writing ==> c.output != [])
    && (c.output != [] ==> c.writing || c.disabled)
    && (forall n :: n in c.notices ==> NoticeOk(n))
    && CallsOk(c)
  }

  /** Splitting a message between the wire and the end of the buffer adds exactly the message. */
  lemma AddsMessage(wire: seq<byte>, output: seq<byte>, data: seq<byte>, n: nat)
    requires n <= |data| && (n > 0 ==> output == [])
    ensures (wire + data[..n]) + (output + data[n..]) == (wire + output) + data
    ensures data[n..] == [] ==> (wire + data[..n]) + output == (wire + output) + data
  {
  }

  lemma AcceptKeeps(c: Conn, m: Message, w: WriteResult)
    requires Inv(c) && CanAnswer(w, |m.data|) && !c.state.Connecting?
    ensures Inv(Accept(c, m, w))
  {
    AddsMessage(c.wire, c.output, m.data, Direct(c, w));
  }

  lemma SendKeeps(c: Conn, m: Message, w: WriteResult)
    requires Inv(c) && CanAnswer(w, |m.data|) && !c.state.Connecting?
    ensures Inv(SendInLoop(c, m, w))
  {
    if !c.state.Disconnected? && !FaultError(c, w) { AcceptKeeps(c, m, w); }
  }

  lemma WriteKeeps(c: Conn, w: WriteResult)
    requires Inv(c) && CanAnswer(w, |c.output|)
    ensures Inv(HandleWrite(c, w))
  {
    if c.writing && w.Wrote? {
      assert c.output == c.output[..w.n] + c.output[w.n..];
      assert c.wire + c.output[..w.n] + c.output[w.n..] == c.wire + c.output;
    }
  }

  lemma ActKeeps(c: Conn, t: Thread, w: WriteResult)
    requires Inv(c) && Allowed(c, Act(t, w))
    ensures Inv(Proceed(c, t, w))
  {
    if c.calls[t].Sending? && t == LOOP {
      SendKeeps(c.(calls := c.calls - {t}), c.calls[t].message, w);
    }
  }

  lemma TaskKeeps(c: Conn, w: WriteResult)
    requires Inv(c) && Allowed(c, RunTask(w))
    ensures Inv(RunFirst(c, w))
  {
    if c.tasks[0].SendTask? { SendKeeps(c.(tasks := c.tasks[1..]), c.tasks[0].message, w); }
  }

  lemma StepKeeps(c: Conn, step: Step)
    requires Inv(c) && Allowed(c, step)
    ensures Inv(Next(c, step))
  {
    match step
    case Act(t, w) => ActKeeps(c, t, w);
    case RunTask(w) => TaskKeeps(c, w);
    case Writable(w) => WriteKeeps(c, w);
    case _ =>
  }

  // ---------------------------------------------------------------- order

  /** The data of the accepted messages, in the order they were dealt with. */
  function AcceptedData(ds: seq<Done>): seq<byte> {
    if ds == [] then []
    else
      var last := ds[|ds| - 1];
      var front := AcceptedData(ds[..|ds| - 1]);
      if last.accepted then front + last.message.data else front
  }

  function Messages(ds: seq<Done>): seq<Message> {
    if ds == [] then [] else Messages(ds[..|ds| - 1]) + [ds[|ds| - 1].message]
  }

  function TaskMessages(ts: seq<Task>): seq<Message> {
    if ts == [] then [] else (if ts[0].SendTask? then [ts[0].message] else []) + TaskMessages(ts[1..])
  }

  function From(ms: seq<Message>, t: Thread): seq<Message> {
    if ms == [] then [] else From(ms[..|ms| - 1], t) + if ms[|ms| - 1].from == t then [ms[|ms| - 1]] else []
  }

  lemma {:induction false} FromAppend(a: seq<Message>, b: seq<Message>, t: Thread)
    ensures From(a + b, t) == From(a, t) + From(b, t)
    decreases |b|
  {
    if b == [] {
      assert a + b == a;
    } else {
      assert (a + b)[..|a + b| - 1] == a + b[..|b| - 1];
      FromAppend(a, b[..|b| - 1], t);
    }
  }

  lemma {:induction false} TaskAppend(ts: seq<Task>, task: Task)
    ensures TaskMessages(ts + [task]) == TaskMessages(ts) + if task.SendTask? then [task.message] else []
    decreases |ts|
  {
    if ts == [] {
      assert ts + [task] == [task] && [task][1..] == [];
      assert TaskMessages([]) == [];
    } else {
      assert (ts + [task])[0] == ts[0] && (ts + [task])[1..] == ts[1..] + [task];
      TaskAppend(ts[1..], task);
    }
  }

  /** The message thread `t` is about to hand over. */
  function InCall(c: Conn, t: Thread): seq<Message> {
    if t in c.calls && c.calls[t].Sending? then [c.calls[t].message] else []
  }

  /** Dealt with, queued and about to be handed over: all that `t` sent, in that order. */
  ghost predicate PerThread(c: Conn, t: Thread) {
    From(Messages(c.done), t) + From(TaskMessages(c.tasks), t) + InCall(c, t) == From(c.sent, t)
  }

  ghost predicate OrderOk(c: Conn) {
    && c.accepted == AcceptedData(c.done)
    && (forall m :: m in TaskMessages(c.tasks) ==> m.from != LOOP)
    && (forall t :: PerThread(c, t))
  }

  lemma DoneSnoc(ds: seq<Done>, d: Done)
    ensures Messages(ds + [d]) == Messages(ds) + [d.message]
    ensures AcceptedData(ds + [d]) == if d.accepted then AcceptedData(ds) + d.message.data else AcceptedData(ds)
  {
    assert (ds + [d])[..|ds|] == ds;
  }

  /** The message is logged as dealt with, and its data as accepted just when it is. */
  ghost predicate Dealt(c: Conn, m: Message, c': Conn, accepted: bool) {
    && c'.tasks == c.tasks && c'.calls == c.calls && c'.sent == c.sent && c'.done == c.done + [Done(m, accepted)]
    && c'.accepted == if accepted then c.accepted + m.data else c.accepted
  }

  lemma AcceptDealt(c: Conn, m: Message, w: WriteResult)
    requires CanAnswer(w, |m.data|)
    ensures Dealt(c, m, Accept(c, m, w), true)
  {
  }

  lemma SendInLoopDone(c: Conn, m: Message, w: WriteResult)
    requires CanAnswer(w, |m.data|)
    ensures var c' := SendInLoop(c, m, w);
            && c'.tasks == c.tasks && c'.calls == c.calls && c'.sent == c.sent
            && Messages(c'.done) == Messages(c.done) + [m]
            && (c.accepted == AcceptedData(c.done) ==> c'.accepted == AcceptedData(c'.done))
  {
    AcceptDealt(c, m, w);
    DoneSnoc(c.done, Done(m, true));
    DoneSnoc(c.done, Done(m, false));
  }

  lemma {:induction false} FromNone(ms: seq<Message>, t: Thread)
    requires forall m :: m in ms ==> m.from != t
    ensures From(ms, t) == []
    decreases |ms|
  {
    if ms != [] { FromNone(ms[..|ms| - 1], t); }
  }

  lemma FromSnoc(ms: seq<Message>, m: Message, t: Thread)
    ensures From(ms + [m], t) == From(ms, t) + if m.from == t then [m] else []
  {
    assert (ms + [m])[..|ms|] == ms;
  }

  lemma SendOrder(c: Conn, m: Message)
    requires OrderOk(c) && m.from !in c.calls && c.state.Connected?
    ensures OrderOk(Next(c, Send(m)))
  {
    var c' := Next(c, Send(m));
    forall t ensures PerThread(c', t) {
      assert PerThread(c, t);
      FromSnoc(c.sent, m, t);
    }
  }

  /** What thread `t` has dealt with, queued and in its call, after `m` was dealt with at once. */
  lemma HandOverNow(dealt: seq<Message>, queued: seq<Message>, call: seq<Message>, m: Message, t: Thread)
    requires m.from == t ==> From(queued, t) == [] && call == [m]
    ensures From(dealt + [m], t) + From(queued, t) + (if m.from == t then [] else call) ==
            From(dealt, t) + From(queued, t) + call
  {
    FromSnoc(dealt, m, t);
  }

  lemma HandOverLater(dealt: seq<Message>, queued: seq<Message>, call: seq<Message>, m: Message, t: Thread)
    requires m.from == t ==> call == [m]
    ensures From(dealt, t) + From(queued + [m], t) + (if m.from == t then [] else call) ==
            From(dealt, t) + From(queued, t) + call
  {
    FromSnoc(queued, m, t);
    var d, q := From(dealt, t), From(queued, t);
    assert d + (q + [m]) == d + q + [m];
  }

  lemma CallEnds(c: Conn, m: Message, c': Conn, t: Thread)
    requires m.from in c.calls && c.calls[m.from] == Sending(m) && c'.calls == c.calls - {m.from}
    ensures InCall(c', t) == if m.from == t then [] else InCall(c, t)
    ensures m.from == t ==> InCall(c, t) == [m]
  {
  }

  lemma LoopHandsOver(c: Conn, m: Message, c': Conn)
    requires OrderOk(c) && m.from == LOOP && LOOP in c.calls && c.calls[LOOP] == Sending(m)
    requires c'.tasks == c.tasks && c'.calls == c.calls - {LOOP} && c'.sent == c.sent
    requires Messages(c'.done) == Messages(c.done) + [m] && c'.accepted == AcceptedData(c'.done)
    ensures OrderOk(c')
  {
    var queued := TaskMessages(c.tasks);
    FromNone(queued, LOOP);
    forall t ensures PerThread(c', t) {
      assert PerThread(c, t);
      CallEnds(c, m, c', t);
      HandOverNow(Messages(c.done), queued, InCall(c, t), m, t);
    }
  }

  lemma OtherHandsOver(c: Conn, m: Message, c': Conn)
    requires OrderOk(c) && m.from != LOOP && m.from in c.calls && c.calls[m.from] == Sending(m)
    requires TaskMessages(c'.tasks) == TaskMessages(c.tasks) + [m] && c'.calls == c.calls - {m.from}
    requires c'.sent == c.sent && c'.done == c.done && c'.accepted == c.accepted
    ensures OrderOk(c')
  {
    forall t ensures PerThread(c', t) {
      assert PerThread(c, t);
      CallEnds(c, m, c', t);
      HandOverLater(Messages(c.done), TaskMessages(c.tasks), InCall(c, t), m, t);
    }
  }

  lemma HandOverOrder(c: Conn, t: Thread, w: WriteResult)
    requires OrderOk(c) && CallsOk(c) && Allowed(c, Act(t, w)) && c.calls[t].Sending?
    ensures OrderOk(Proceed(c, t, w))
  {
    var m := c.calls[t].message;
    if t == LOOP {
      SendInLoopDone(c.(calls := c.calls - {t}), m, w);
      LoopHandsOver(c, m, Proceed(c, t, w));
    } else {
      TaskAppend(c.tasks, SendTask(m));
      OtherHandsOver(c, m, Proceed(c, t, w));
    }
  }

  /** Neither a message nor the order is touched. */
  ghost predicate SameMessages(c: Conn, c': Conn) {
    && c'.accepted == c.accepted && c'.done == c.done && c'.sent == c.sent
    && TaskMessages(c'.tasks) == TaskMessages(c.tasks)
    && forall t :: InCall(c', t) == InCall(c, t)
  }

  /** The shape of any other step of an operation of thread `t`. */
  predicate OtherAct(c: Conn, t: Thread, c': Conn) {
    && c'.accepted == c.accepted && c'.done == c.done && c'.sent == c.sent
    && (c'.tasks == c.tasks || c'.tasks == c.tasks + [ShutdownTask] || c'.tasks == c.tasks + [ForceCloseTask])
    && (c'.calls == c.calls - {t} || c'.calls == c.calls[t := QueueingDown] || c'.calls == c.calls[t := QueueingClose])
  }

  lemma OtherActShape(c: Conn, t: Thread, w: WriteResult)
    requires Allowed(c, Act(t, w)) && !c.calls[t].Sending?
    ensures OtherAct(c, t, Proceed(c, t, w))
  {
  }

  lemma OtherActMessages(c: Conn, t: Thread, c': Conn)
    requires t in c.calls && !c.calls[t].Sending? && OtherAct(c, t, c')
    ensures SameMessages(c, c')
  {
    TaskAppend(c.tasks, ShutdownTask);
    TaskAppend(c.tasks, ForceCloseTask);
  }

  lemma OtherTaskMessages(c: Conn, w: WriteResult)
    requires Allowed(c, RunTask(w)) && !c.tasks[0].SendTask?
    ensures SameMessages(c, RunFirst(c, w))
  {
    var c' := RunFirst(c, w);
    assert TaskMessages(c.tasks) == TaskMessages(c.tasks[1..]);
    assert c'.tasks == c.tasks[1..] && (c'.calls == c.calls || c'.calls == c.calls[LOOP := Closing]);
  }

  /** Tests and events hand over no message; a test that lets a message through is not meant. */
  lemma OtherMessages(c: Conn, step: Step)
    requires Allowed(c, step) && !step.Act? && !step.RunTask? && (step.Send? ==> !c.state.Connected?)
    ensures SameMessages(c, Next(c, step))
  {
  }

  lemma DealWithHead(dealt: seq<Message>, queued: seq<Message>, m: Message, t: Thread)
    ensures From(dealt + [m], t) + From(queued, t) == From(dealt, t) + From([m] + queued, t)
  {
    FromAppend(dealt, [m], t);
    FromAppend([m], queued, t);
  }

  lemma SendTaskOrder(c: Conn, w: WriteResult)
    requires OrderOk(c) && Allowed(c, RunTask(w)) && c.tasks[0].SendTask?
    ensures OrderOk(Next(c, RunTask(w)))
  {
    var m, c' := c.tasks[0].message, Next(c, RunTask(w));
    SendInLoopDone(c.(tasks := c.tasks[1..]), m, w);
    forall t ensures PerThread(c', t) {
      assert PerThread(c, t);
      DealWithHead(Messages(c.done), TaskMessages(c'.tasks), m, t);
    }
  }

  lemma SameOrder(c: Conn, c': Conn)
    requires OrderOk(c) && SameMessages(c, c')
    ensures OrderOk(c')
  {
    forall t ensures PerThread(c', t) { assert PerThread(c, t); }
  }

  lemma StepOrder(c: Conn, step: Step)
    requires OrderOk(c) && CallsOk(c) && Allowed(c, step)
    ensures OrderOk(Next(c, step))
  {
    if step.Send? && c.state.Connected? {
      SendOrder(c, step.message);
    } else if step.Act? && c.calls[step.t].Sending? {
      HandOverOrder(c, step.t, step.write);
    } else if step.RunTask? && c.tasks[0].SendTask? {
      SendTaskOrder(c, step.write);
    } else {
      NoMessage(c, step);
      SameOrder(c, Next(c, step));
    }
  }

  lemma NoMessage(c: Conn, step: Step)
    requires Allowed(c, step) && (step.Send? ==> !c.state.Connected?)
    requires step.Act? ==> !c.calls[step.t].Sending?
    requires step.RunTask? ==> !c.tasks[0].SendTask?
    ensures SameMessages(c, Next(c, step))
  {
    if step.Act? {
      OtherActShape(c, step.t, step.write);
      OtherActMessages(c, step.t, Next(c, step));
    } else if step.RunTask? {
      OtherTaskMessages(c, step.write);
    } else {
      OtherMessages(c, step);
    }
  }

  /** Everything this module promises of a state. */
  ghost predicate Sound(c: Conn) {
    Inv(c) && OrderOk(c)
  }

  lemma NewSound(mark: nat)
    ensures Sound(NewConn(mark))
  {
  }

  lemma StepSound(c: Conn, step: Step)
    requires Sound(c) && Allowed(c, step)
    ensures Sound(Next(c, step))
  {
    StepKeeps(c, step);
    StepOrder(c, step);
  }

  lemma {:induction false} RunSound(c: Conn, steps: seq<Step>)
    requires Sound(c) && IsRun(c, steps)
    ensures Sound(Exec(c, steps))
    decreases |steps|
  {
    if steps != [] {
      StepSound(c, steps[0]);
      RunSound(Next(c, steps[0]), steps[1..]);
    }
  }

  /**
    After any run: the bytes on the wire followed by the output buffer are exactly the accepted
    messages one after the other, and each thread's messages were dealt with in the order it sent
    them, with the rest of them still queued or about to be.
   */
  lemma OutputIsConserved(mark: nat, steps: seq<Step>, t: Thread)
    requires IsRun(NewConn(mark), steps)
    ensures var c := Exec(NewConn(mark), steps);
            && c.wire + c.output == AcceptedData(c.done)
            && From(Messages(c.done), t) + From(TaskMessages(c.tasks), t) + InCall(c, t) == From(c.sent, t)
  {
    RunSound(NewConn(mark), steps);
    assert PerThread(Exec(NewConn(mark), steps), t);
  }

  /**
    After any run, write interest is on only while output is buffered, and until the channel was
    disabled exactly then; every write-complete notice, and every half-close before the channel
    was disabled, came with all accepted bytes on the wire.
   */
  lemma InterestFollowsOutput(mark: nat, steps: seq<Step>)
    requires IsRun(NewConn(mark), steps)
    ensures var c := Exec(NewConn(mark), steps);
            && (c.writing ==> c.output != [])
            && (!c.disabled ==> (c.writing <==> c.output != []))
            && forall n :: n in c.notices ==> NoticeOk(n)
  {
    RunSound(NewConn(mark), steps);
  }

  // ---------------------------------------------------------------- high-water notices

  /** The step queues a high-water notice. */
  predicate RaisesHighWater(c: Conn, step: Step)
    requires Allowed(c, step)
  {
    exists i :: |c.notices| <= i < |Next(c, step).notices| && Next(c, step).notices[i].HighWater?
  }

  lemma HighWaterCrosses(c: Conn, step: Step)
    requires Allowed(c, step) && RaisesHighWater(c, step)
    ensures |c.output| < c.mark <= |Next(c, step).output| && Next(c, step).mark == c.mark
  {
  }

  /** Only the write event shortens the output buffer. */
  lemma OnlyWritesDrain(c: Conn, step: Step)
    requires Allowed(c, step) && |Next(c, step).output| < |c.output|
    ensures step.Writable?
  {
  }

  lemma MarkIsFixed(c: Conn, step: Step)
    requires Allowed(c, step)
    ensures Next(c, step).mark == c.mark
  {
  }

  lemma {:induction false} Drains(c: Conn, steps: seq<Step>) returns (i: nat)
    requires IsRun(c, steps) && |c.output| >= c.mark > |Exec(c, steps).output|
    ensures i < |steps| && steps[i].Writable?
    ensures IsRun(c, steps[..i]) && IsRun(c, steps[..i + 1])
    ensures |Exec(c, steps[..i]).output| >= c.mark > |Exec(c, steps[..i + 1]).output|
    decreases |steps|
  {
    var c' := Next(c, steps[0]);
    MarkIsFixed(c, steps[0]);
    if |c'.output| < c.mark {
      i := 0;
      OnlyWritesDrain(c, steps[0]);
      assert steps[..1][1..] == [];
      assert Exec(c', []) == c' && IsRun(c', []);
    } else {
      var j := Drains(c', steps[1..]);
      i := j + 1;
      assert steps[..i][1..] == steps[1..][..j] && steps[..i + 1][1..] == steps[1..][..j + 1];
    }
  }

  /**
    Between two high-water notices there is a write event that takes the buffered output from the
    mark or above to below it.
   */
  lemma HighWaterNoticesAreSeparated(c: Conn, first: Step, steps: seq<Step>, second: Step) returns (i: nat)
    requires Allowed(c, first) && RaisesHighWater(c, first) && IsRun(Next(c, first), steps)
    requires Allowed(Exec(Next(c, first), steps), second) && RaisesHighWater(Exec(Next(c, first), steps), second)
    ensures i < |steps| && steps[i].Writable?
    ensures IsRun(Next(c, first), steps[..i]) && IsRun(Next(c, first), steps[..i + 1])
    ensures |Exec(Next(c, first), steps[..i]).output| >= c.mark > |Exec(Next(c, first), steps[..i + 1]).output|
  {
    HighWaterCrosses(c, first);
    HighWaterCrosses(Exec(Next(c, first), steps), second);
    MarkIsFixedInRuns(Next(c, first), steps);
    i := Drains(Next(c, first), steps);
  }

  lemma {:induction false} MarkIsFixedInRuns(c: Conn, steps: seq<Step>)
    requires IsRun(c, steps)
    ensures Exec(c, steps).mark == c.mark
    decreases |steps|
  {
    if steps != [] {
      MarkIsFixed(c, steps[0]);
      MarkIsFixedInRuns(Next(c, steps[0]), steps[1..]);
    }
  }
}
