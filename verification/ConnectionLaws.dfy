/**
  What each operation of a connection does, said without the functions that do it: which bytes the
  socket took, which messages are accepted, and exactly which callbacks are due.
 */
module ConnectionLaws {
  import opened BufferModel
  import opened ConnectionModel

  // ---------------------------------------------------------------- messages and bytes

  /** The socket is tried at once: nothing is buffered and no write event is awaited. */
  predicate TriesSocket(c: Conn) {
    !c.writing && c.output == []
  }

  /** The fate of a message in `sendInLoop`. */
  predicate IsRefused(c: Conn, w: WriteResult) {
    || c.state == Disconnected
    || (TriesSocket(c) && (w == WriteFailed(EPIPE) || w == WriteFailed(ECONNRESET)))
  }

  /** A refused message changes nothing; its refusal is all that is noted. */
  lemma RefusedMessage(c: Conn, m: Message, w: WriteResult)
    requires CanAnswer(w, |m.data|) && IsRefused(c, w)
    ensures SendInLoop(c, m, w) == c.(done := c.done + [Done(m, false)])
  {
  }

  /** How many bytes of an accepted message the socket took at once. */
  function TakenAtOnce(c: Conn, w: WriteResult): nat {
    match w
    case Wrote(n) => if TriesSocket(c) then n else 0
    case WriteFailed(_) => 0
  }

  /**
    Any other message is accepted whole: the bytes the socket took at once, if it was tried, go to
    the wire, all others behind what is buffered, with the interest on if anything is.
   */
  lemma AcceptedMessage(c: Conn, m: Message, w: WriteResult)
    requires CanAnswer(w, |m.data|) && !IsRefused(c, w)
    ensures TakenAtOnce(c, w) <= |m.data|
    ensures var c', n := SendInLoop(c, m, w), TakenAtOnce(c, w);
            && c'.wire == c.wire + m.data[..n] && c'.output == c.output + m.data[n..]
            && c'.writing == (c.writing || n < |m.data|)
            && c'.accepted == c.accepted + m.data && c'.done == c.done + [Done(m, true)]
            && c'.state == c.state && c'.tasks == c.tasks && c'.calls == c.calls
            && c'.disabled == c.disabled && c'.sent == c.sent && c'.mark == c.mark
  {
    var n := TakenAtOnce(c, w);
    assert n == Direct(c, w);
    if m.data[n..] == [] { assert c.output + m.data[n..] == c.output; }
  }

  /** A write event hands exactly the bytes the socket took from the front of the buffer to the wire. */
  lemma WriteEventMovesBytes(c: Conn, w: WriteResult)
    requires CanAnswer(w, |c.output|)
    ensures var c', n := HandleWrite(c, w), if c.writing && w.Wrote? then w.n else 0;
            && c'.wire == c.wire + c.output[..n] && c'.output == c.output[n..]
            && c'.writing == (c.writing && !(n > 0 && n == |c.output|))
            && c'.accepted == c.accepted && c'.done == c.done && c'.sent == c.sent && c'.state == c.state
            && c'.tasks == c.tasks && c'.calls == c.calls && c'.disabled == c.disabled && c'.mark == c.mark
  {
    assert c.wire + c.output[..0] == c.wire && c.output[0..] == c.output;
  }

  // ---------------------------------------------------------------- callbacks

  function CompleteDue(due: bool, c: Conn): seq<Notice> {
    if due then [WriteComplete(|c.wire|, |c.accepted|)] else []
  }

  /**
    `sendInLoop` queues the write-complete callback exactly when the socket was tried and took the
    whole message, and the high-water callback exactly when the buffered output reaches the mark
    from below, with the size it then has.
   */
  lemma SendNotices(c: Conn, m: Message, w: WriteResult)
    requires CanAnswer(w, |m.data|)
    ensures var c' := SendInLoop(c, m, w);
            c'.notices == c.notices
              + CompleteDue(!IsRefused(c, w) && TriesSocket(c) && w == Wrote(|m.data|), c')
              + if |c.output| < c.mark <= |c'.output| then [HighWater(|c'.output|)] else []
  {
    if IsRefused(c, w) {
      RefusedMessage(c, m, w);
    } else {
      AcceptedMessage(c, m, w);
      assert SendInLoop(c, m, w) == Accept(c, m, w);
      assert TakenAtOnce(c, w) == Direct(c, w);
    }
  }

  /**
    A write event queues the write-complete callback exactly when it empties the buffer, and then
    half-closes exactly when the connection is disconnecting.
   */
  lemma WriteEventNotices(c: Conn, w: WriteResult)
    requires CanAnswer(w, |c.output|)
    ensures var c' := HandleWrite(c, w);
            var drained := c.writing && c.output != [] && w == Wrote(|c.output|);
            && (c.output != [] && c'.output == [] <==> drained)
            && c'.notices == c.notices + CompleteDue(drained, c')
                 + if drained && c.state == Disconnecting then [HalfClose(c.disabled, |c'.wire|, |c'.accepted|)] else []
  {
    WriteEventMovesBytes(c, w);
  }

  function Completes(ns: seq<Notice>): nat {
    if ns == [] then 0 else Completes(ns[..|ns| - 1]) + if ns[|ns| - 1].WriteComplete? then 1 else 0
  }

  lemma CompletesSnoc(ns: seq<Notice>, n: Notice)
    ensures Completes(ns + [n]) == Completes(ns) + if n.WriteComplete? then 1 else 0
  {
    assert (ns + [n])[..|ns|] == ns;
  }

  lemma {:induction false} CompletesConcat(a: seq<Notice>, b: seq<Notice>)
    ensures Completes(a + b) == Completes(a) + Completes(b)
    decreases |b|
  {
    if b == [] {
      assert a + b == a;
    } else {
      assert (a + b)[..|a + b| - 1] == a + b[..|b| - 1];
      CompletesConcat(a, b[..|b| - 1]);
    }
  }

  lemma CompletesOne(n: Notice)
    ensures Completes([n]) == if n.WriteComplete? then 1 else 0
  {
    assert [n][..0] == [];
  }

  lemma CompletesAppend(ns: seq<Notice>, due: bool, c: Conn, last: seq<Notice>)
    requires last == [] || (|last| == 1 && !last[0].WriteComplete?)
    ensures Completes(ns + CompleteDue(due, c) + last) == Completes(ns) + if due then 1 else 0
  {
    CompletesConcat(ns + CompleteDue(due, c), last);
    CompletesConcat(ns, CompleteDue(due, c));
    CompletesOne(WriteComplete(|c.wire|, |c.accepted|));
    if last != [] {
      CompletesOne(last[0]);
      assert last == [last[0]];
    }
  }

  /** The step hands this message to `sendInLoop`. */
  predicate Delivers(c: Conn, step: Step, m: Message)
    requires Allowed(c, step)
  {
    || (step.RunTask? && c.tasks[0] == SendTask(m))
    || (step.Act? && step.t == LOOP && c.calls[LOOP] == Sending(m))
  }

  /** The step's write reports that the socket took all it was offered, which empties the buffer or leaves it empty. */
  ghost predicate WritesAll(c: Conn, step: Step)
    requires Allowed(c, step)
  {
    || (step.Writable? && c.writing && c.output != [] && step.write == Wrote(|c.output|))
    || (exists m :: Delivers(c, step, m) && c.state != Disconnected && TriesSocket(c) && step.write == Wrote(|m.data|))
  }

  lemma DeliveryCompletes(c: Conn, step: Step, m: Message, left: Conn)
    requires Allowed(c, step) && Delivers(c, step, m) && CanAnswer(step.write, |m.data|)
    requires left == c.(tasks := left.tasks, calls := left.calls) && Next(c, step) == SendInLoop(left, m, step.write)
    ensures Completes(Next(c, step).notices) == Completes(c.notices) + if WritesAll(c, step) then 1 else 0
  {
    var w, c' := step.write, Next(c, step);
    var due := !IsRefused(left, w) && TriesSocket(left) && w == Wrote(|m.data|);
    var last := if |left.output| < left.mark <= |c'.output| then [HighWater(|c'.output|)] else [];
    SendNotices(left, m, w);
    CompletesAppend(left.notices, due, c', last);
    assert WritesAll(c, step) <==> due by {
      if due { assert Delivers(c, step, m); }
    }
  }

  lemma DrainCompletes(c: Conn, w: WriteResult)
    requires Allowed(c, Writable(w))
    ensures Completes(Next(c, Writable(w)).notices) == Completes(c.notices) + if WritesAll(c, Writable(w)) then 1 else 0
  {
    var c' := HandleWrite(c, w);
    var drained := c.writing && c.output != [] && w == Wrote(|c.output|);
    WriteEventNotices(c, w);
    var last := if drained && c.state == Disconnecting then [HalfClose(c.disabled, |c'.wire|, |c'.accepted|)] else [];
    CompletesAppend(c.notices, drained, c', last);
  }

  lemma OtherStepCompletes(c: Conn, step: Step)
    requires Allowed(c, step) && !step.Writable? && (step.RunTask? ==> !c.tasks[0].SendTask?)
    requires step.Act? && step.t == LOOP ==> !c.calls[LOOP].Sending?
    ensures Completes(Next(c, step).notices) == Completes(c.notices)
  {
    CompletesSnoc(c.notices, HalfClose(c.disabled, |c.wire|, |c.accepted|));
  }

  /**
    Each step queues exactly one write-complete callback if its write empties the buffer, or if the
    socket took a whole message at once, and none otherwise.
   */
  lemma CompletesExactly(c: Conn, step: Step)
    requires Allowed(c, step)
    ensures Completes(Next(c, step).notices) == Completes(c.notices) + if WritesAll(c, step) then 1 else 0
  {
    if step.Writable? {
      DrainCompletes(c, step.write);
    } else if step.RunTask? && c.tasks[0].SendTask? {
      DeliveryCompletes(c, step, c.tasks[0].message, c.(tasks := c.tasks[1..]));
    } else if step.Act? && step.t == LOOP && c.calls[LOOP].Sending? {
      DeliveryCompletes(c, step, c.calls[LOOP].message, c.(calls := c.calls - {LOOP}));
    } else {
      OtherStepCompletes(c, step);
    }
  }

  /** Only a write event that takes all there is empties a buffer that is not empty. */
  lemma EmptiesIff(c: Conn, step: Step)
    requires Allowed(c, step) && c.output != []
    ensures Next(c, step).output == [] <==> step.Writable? && c.writing && step.write == Wrote(|c.output|)
  {
    if step.Writable? {
      WriteEventMovesBytes(c, step.write);
    } else if step.RunTask? && c.tasks[0].SendTask? {
      KeepsOutput(c.(tasks := c.tasks[1..]), c.tasks[0].message, step.write);
    } else if step.Act? && step.t == LOOP && c.calls[LOOP].Sending? {
      KeepsOutput(c.(calls := c.calls - {LOOP}), c.calls[LOOP].message, step.write);
    }
  }

  lemma KeepsOutput(c: Conn, m: Message, w: WriteResult)
    requires CanAnswer(w, |m.data|) && c.output != []
    ensures SendInLoop(c, m, w).output != []
  {
    if IsRefused(c, w) { RefusedMessage(c, m, w); } else { AcceptedMessage(c, m, w); }
  }

  // ---------------------------------------------------------------- states, calls and tasks

  /** A call gets past its test exactly in these states, and a connection is destroyed only when connected. */
  lemma TestsOfState(c: Conn, step: Step)
    requires Allowed(c, step) && (step.Send? || step.Shutdown? || step.ForceClose? || step.Destroy?)
    ensures var c' := Next(c, step);
            && c'.state == c.state && c'.tasks == c.tasks && c'.output == c.output && c'.notices == c.notices
            && (step.Send? ==> c'.calls == if c.state == Connected then c.calls[step.message.from := Sending(step.message)] else c.calls)
            && (step.Shutdown? ==> c'.calls == if c.state == Connected then c.calls[step.from := SettingDown] else c.calls)
            && (step.ForceClose? ==> c'.calls == if c.state == Connected || c.state == Disconnecting
                                                 then c.calls[step.from := SettingClose(step.delayed)] else c.calls)
            && (step.Destroy? ==> c'.calls == if c.state == Connected then c.calls[LOOP := Closing] else c.calls)
  {
  }

  /** Past its test, a call changes the state, then queues its task, once each. */
  lemma CallsGoOn(c: Conn, t: Thread, w: WriteResult)
    requires Allowed(c, Act(t, w))
    ensures var c', left := Next(c, Act(t, w)), c.calls - {t};
            match c.calls[t]
            case Sending(m) => c'.calls == left && c'.state == c.state
                               && c'.tasks == if t == LOOP then c.tasks else c.tasks + [SendTask(m)]
            case SettingDown => c'.calls == c.calls[t := QueueingDown] && c'.state == Disconnected && c'.tasks == c.tasks
            case QueueingDown => c'.calls == left && c'.state == c.state
                                 && c'.tasks == if t == LOOP then c.tasks else c.tasks + [ShutdownTask]
            case SettingClose(delayed) => c'.calls == (if delayed then left else c.calls[t := QueueingClose])
                                          && c'.state == Disconnecting && c'.tasks == c.tasks
            case QueueingClose => c'.calls == left && c'.state == c.state && c'.tasks == c.tasks + [ForceCloseTask]
            case Closing => c'.calls == left && c'.state == Disconnected && !c'.writing && c'.disabled && c'.tasks == c.tasks
  {
    if c.calls[t].Sending? && t == LOOP {
      DeliveryControl(c.(calls := c.calls - {LOOP}), c.calls[LOOP].message, w);
    }
  }

  lemma DeliveryControl(c: Conn, m: Message, w: WriteResult)
    requires CanAnswer(w, |m.data|)
    ensures var c' := SendInLoop(c, m, w); c'.calls == c.calls && c'.state == c.state && c'.tasks == c.tasks
  {
    if IsRefused(c, w) { RefusedMessage(c, m, w); } else { AcceptedMessage(c, m, w); }
  }

  /** The loop runs the oldest task, and a queued close goes ahead when connected or disconnected. */
  lemma TasksGoOn(c: Conn, w: WriteResult)
    requires Allowed(c, RunTask(w))
    ensures var c' := Next(c, RunTask(w));
            && c'.state == c.state && c'.tasks == c.tasks[1..]
            && c'.calls == (if c.tasks[0] == ForceCloseTask && (c.state == Connected || c.state == Disconnected)
                            then c.calls[LOOP := Closing] else c.calls)
            && (c.tasks[0] == ShutdownTask ==>
                  c'.notices == c.notices + if c.writing then [] else [HalfClose(c.disabled, |c.wire|, |c.accepted|)])
  {
    if c.tasks[0].SendTask? { DeliveryControl(c.(tasks := c.tasks[1..]), c.tasks[0].message, w); }
  }

  /** Establishing and closing. */
  lemma ConnectsAndCloses(c: Conn, step: Step)
    requires Allowed(c, step) && (step.Establish? || step.Close?)
    ensures var c' := Next(c, step);
            && c'.output == c.output && c'.wire == c.wire && c'.notices == c.notices && c'.tasks == c.tasks && c'.calls == c.calls
            && (step.Establish? ==> c'.state == Connected && c'.writing == c.writing && c'.disabled == c.disabled)
            && (step.Close? ==> c'.state == Disconnected && !c'.writing && c'.disabled)
  {
  }
}
