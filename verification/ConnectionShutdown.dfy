/**
  What `shutdown` leads to. `handleWrite` half-closes for `kDisconnecting`, but `shutdown` sets
  `kDisconnected`, and both states may be set late by a thread that tested `state_` before.
 */
module ConnectionShutdown {
  import opened ConnectionModel

  lemma OneMore(c: Conn, step: Step, more: seq<Step>)
    requires Allowed(c, step) && IsRun(Next(c, step), more)
    ensures IsRun(c, [step] + more) && Exec(c, [step] + more) == Exec(Next(c, step), more)
  {
    assert ([step] + more)[1..] == more;
  }

  // ---------------------------------------------------------------- half-closes

  function HalfCloses(ns: seq<Notice>): nat {
    if ns == [] then 0 else HalfCloses(ns[..|ns| - 1]) + if ns[|ns| - 1].HalfClose? then 1 else 0
  }

  lemma HalfClosesSnoc(ns: seq<Notice>, n: Notice)
    ensures HalfCloses(ns + [n]) == HalfCloses(ns) + if n.HalfClose? then 1 else 0
  {
    assert (ns + [n])[..|ns|] == ns;
  }

  /** The rest of the operation queues a half-close or sets a state that leads to one. */
  predicate LeadsToHalfClose(op: Op) {
    op.SettingDown? || op.QueueingDown? || op.SettingClose?
  }

  /** The step is the call of `shutdownInLoop` for a `shutdown`, by whatever thread. */
  predicate RunsShutdown(c: Conn, step: Step)
    requires Allowed(c, step)
  {
    || (step.RunTask? && c.tasks[0].ShutdownTask?)
    || (step.Act? && step.t == LOOP && c.calls[LOOP].QueueingDown?)
  }

  /** Nothing queued or in flight leads to a half-close, and the state rules the rest out. */
  ghost predicate NoHalfCloseComing(c: Conn) {
    && c.state.Disconnected? && ShutdownTask !in c.tasks
    && forall t :: t in c.calls ==> !LeadsToHalfClose(c.calls[t])
  }

  /** Of all the callbacks, a disconnected connection can only queue the write-complete one. */
  lemma DisconnectedNotices(c: Conn, step: Step)
    requires c.state.Disconnected? && Allowed(c, step) && !RunsShutdown(c, step)
    ensures var c' := Next(c, step);
            || c'.notices == c.notices
            || c'.notices == c.notices + [WriteComplete(|c'.wire|, |c'.accepted|)]
  {
  }

  lemma NoHalfCloseStep(c: Conn, step: Step)
    requires NoHalfCloseComing(c) && Allowed(c, step)
    ensures NoHalfCloseComing(Next(c, step)) && HalfCloses(Next(c, step).notices) == HalfCloses(c.notices)
  {
    var c' := Next(c, step);
    DisconnectedNotices(c, step);
    HalfClosesSnoc(c.notices, WriteComplete(|c'.wire|, |c'.accepted|));
  }

  lemma {:induction false} NoHalfCloseRun(c: Conn, steps: seq<Step>)
    requires NoHalfCloseComing(c) && IsRun(c, steps)
    ensures HalfCloses(Exec(c, steps).notices) == HalfCloses(c.notices)
    decreases |steps|
  {
    if steps != [] {
      NoHalfCloseStep(c, steps[0]);
      NoHalfCloseRun(Next(c, steps[0]), steps[1..]);
    }
  }

  /**
    When a thread's `shutdown` reaches the loop and nothing else that leads to a half-close is
    queued or in flight, the socket is half-closed, now or ever, if and only if there is no write
    interest at that moment.
   */
  lemma ShutdownHalfClosesIff(c: Conn, step: Step, steps: seq<Step>)
    requires Allowed(c, step) && RunsShutdown(c, step) && NoHalfCloseComing(Next(c, step))
    requires IsRun(Next(c, step), steps)
    ensures HalfCloses(Exec(Next(c, step), steps).notices) > HalfCloses(c.notices) <==> !c.writing
  {
    var c' := Next(c, step);
    if !c.writing { HalfClosesSnoc(c.notices, c'.notices[|c.notices|]); }
    NoHalfCloseRun(c', steps);
  }

  /** Some continuation half-closes the socket. */
  ghost predicate CanHalfClose(c: Conn) {
    exists steps :: IsRun(c, steps) && HalfCloses(Exec(c, steps).notices) > HalfCloses(c.notices)
  }

  lemma HalfClosesNow(c: Conn, step: Step)
    requires Allowed(c, step) && HalfCloses(Next(c, step).notices) > HalfCloses(c.notices)
    ensures CanHalfClose(c)
  {
    OneMore(c, step, []);
  }

  lemma HalfClosesLater(c: Conn, step: Step)
    requires Allowed(c, step) && CanHalfClose(Next(c, step))
    requires HalfCloses(Next(c, step).notices) == HalfCloses(c.notices)
    ensures CanHalfClose(c)
  {
    var more :| IsRun(Next(c, step), more) && HalfCloses(Exec(Next(c, step), more).notices) > HalfCloses(c.notices);
    OneMore(c, step, more);
  }

  /** While disconnecting, draining the output half-closes. */
  lemma DrainHalfCloses(c: Conn)
    requires c.state.Disconnecting? && c.writing && c.output != [] && LOOP !in c.calls
    ensures CanHalfClose(c)
  {
    var step := Writable(Wrote(|c.output|));
    var ns := c.notices + [WriteComplete(|c.wire + c.output|, |c.accepted|)];
    assert c.output[..|c.output|] == c.output;
    HalfClosesSnoc(c.notices, WriteComplete(|c.wire + c.output|, |c.accepted|));
    HalfClosesSnoc(ns, HalfClose(c.disabled, |c.wire + c.output|, |c.accepted|));
    HalfClosesNow(c, step);
  }

  /** With no output, the loop gets to the queued `shutdownInLoop` and half-closes. */
  lemma {:induction false} QueuedHalfCloses(c: Conn)
    requires c.state.Disconnected? && !c.writing && LOOP !in c.calls && ShutdownTask in c.tasks
    ensures CanHalfClose(c)
    decreases |c.tasks|
  {
    var step := RunTask(Wrote(0));
    var c' := Next(c, step);
    if c.tasks[0].ShutdownTask? {
      HalfClosesSnoc(c.notices, c'.notices[|c.notices|]);
      HalfClosesNow(c, step);
    } else if c.tasks[0].SendTask? {
      QueuedHalfCloses(c');
      HalfClosesLater(c, step);
    } else {
      QueuedHalfCloses(Next(c', Act(LOOP, Wrote(0))));
      HalfClosesLater(c', Act(LOOP, Wrote(0)));
      HalfClosesLater(c, step);
    }
  }

  /** The output is drained first. */
  lemma DrainedHalfCloses(c: Conn)
    requires c.state.Disconnected? && c.writing && c.output != [] && LOOP !in c.calls && ShutdownTask in c.tasks
    ensures CanHalfClose(c)
  {
    var step := Writable(Wrote(|c.output|));
    var c' := Next(c, step);
    QueuedHalfCloses(c');
    HalfClosesSnoc(c.notices, c'.notices[|c.notices|]);
    HalfClosesLater(c, step);
  }

  /** A call in flight brings its half-close about. */
  lemma FlightHalfCloses(c: Conn, t: Thread)
    requires c.state.Disconnected? && c.writing && c.output != [] && LOOP !in c.calls
    requires t in c.calls && LeadsToHalfClose(c.calls[t])
    ensures CanHalfClose(c)
  {
    var step := Act(t, Wrote(0));
    var c' := Next(c, step);
    match c.calls[t] {
      case SettingClose(_) => DrainHalfCloses(c');
      case QueueingDown => DrainedHalfCloses(c');
      case SettingDown =>
        DrainedHalfCloses(Next(c', step));
        HalfClosesLater(c', step);
    }
    HalfClosesLater(c, step);
  }

  /** The loop thread is inside no operation of its own. */
  lemma FreeLoopHalfClosesIff(c: Conn)
    requires Inv(c) && c.writing && LOOP !in c.calls
    ensures CanHalfClose(c) <==> !NoHalfCloseComing(c)
  {
    if NoHalfCloseComing(c) {
      forall steps | IsRun(c, steps) ensures HalfCloses(Exec(c, steps).notices) == HalfCloses(c.notices) {
        NoHalfCloseRun(c, steps);
      }
    } else if c.state.Disconnecting? {
      DrainHalfCloses(c);
    } else if c.state.Connected? {
      var c' := Next(c, ForceClose(LOOP, true));
      DrainHalfCloses(Next(c', Act(LOOP, Wrote(0))));
      HalfClosesLater(c', Act(LOOP, Wrote(0)));
      HalfClosesLater(c, ForceClose(LOOP, true));
    } else if ShutdownTask in c.tasks {
      DrainedHalfCloses(c);
    } else {
      var t :| t in c.calls && LeadsToHalfClose(c.calls[t]);
      FlightHalfCloses(c, t);
    }
  }

  // ---------------------------------------------------------------- messages

  /** No message is queued or about to be handed over. */
  ghost predicate NothingPending(c: Conn) {
    TaskMessages(c.tasks) == [] && forall t :: t in c.calls ==> !c.calls[t].Sending?
  }

  /** A `forceClose` that tested the state before is about to set `kDisconnecting`. */
  ghost predicate Reopening(c: Conn) {
    exists t :: t in c.calls && c.calls[t].SettingClose?
  }

  /** Between the two states a message was dealt with, and this was its fate. */
  ghost predicate Deals(c: Conn, c': Conn, accepted: bool) {
    exists i :: |c.done| <= i < |c'.done| && c'.done[i].accepted == accepted
  }

  /** In some continuation a message is accepted, or given up. */
  ghost predicate CanDeal(c: Conn, accepted: bool) {
    exists steps :: IsRun(c, steps) && Deals(c, Exec(c, steps), accepted)
  }

  lemma DealsNow(c: Conn, step: Step, accepted: bool)
    requires Allowed(c, step) && Deals(c, Next(c, step), accepted)
    ensures CanDeal(c, accepted)
  {
    OneMore(c, step, []);
  }

  lemma DealsLater(c: Conn, step: Step, accepted: bool)
    requires Allowed(c, step) && |Next(c, step).done| >= |c.done| && CanDeal(Next(c, step), accepted)
    ensures CanDeal(c, accepted)
  {
    var c' := Next(c, step);
    var more :| IsRun(c', more) && Deals(c', Exec(c', more), accepted);
    var i :| |c'.done| <= i < |Exec(c', more).done| && Exec(c', more).done[i].accepted == accepted;
    OneMore(c, step, more);
    assert Deals(c, Exec(c, [step] + more), accepted);
  }

  /** Once `send` lets nothing through any more, nothing pending stays nothing pending. */
  lemma NothingPendingStep(c: Conn, step: Step)
    requires NothingPending(c) && (c.state.Disconnected? || c.state.Disconnecting?) && Allowed(c, step)
    ensures var c' := Next(c, step);
            NothingPending(c') && (c'.state.Disconnected? || c'.state.Disconnecting?) && c'.done == c.done
  {
    NoMessage(c, step);
    var c' := Next(c, step);
    forall t | t in c'.calls ensures !c'.calls[t].Sending? {
      assert InCall(c', t) == InCall(c, t);
    }
  }

  lemma {:induction false} NothingPendingRun(c: Conn, steps: seq<Step>)
    requires NothingPending(c) && (c.state.Disconnected? || c.state.Disconnecting?) && IsRun(c, steps)
    ensures Exec(c, steps).done == c.done
    decreases |steps|
  {
    if steps != [] {
      NothingPendingStep(c, steps[0]);
      NothingPendingRun(Next(c, steps[0]), steps[1..]);
    }
  }

  /** Disconnected, the loop gives up the first message queued. */
  lemma {:induction false} QueuedGivenUp(c: Conn)
    requires c.state.Disconnected? && LOOP !in c.calls && TaskMessages(c.tasks) != []
    ensures CanDeal(c, false)
    decreases |c.tasks|
  {
    var step := RunTask(Wrote(0));
    var c' := Next(c, step);
    if c.tasks[0].SendTask? {
      assert c'.done[|c.done|].accepted == false;
      DealsNow(c, step, false);
    } else if c.tasks[0].ShutdownTask? {
      QueuedGivenUp(c');
      DealsLater(c, step, false);
    } else {
      QueuedGivenUp(Next(c', Act(LOOP, Wrote(0))));
      DealsLater(c', Act(LOOP, Wrote(0)), false);
      DealsLater(c, step, false);
    }
  }

  lemma PendingGivenUp(c: Conn)
    requires c.state.Disconnected? && LOOP !in c.calls && !NothingPending(c)
    ensures CanDeal(c, false)
  {
    if TaskMessages(c.tasks) != [] {
      QueuedGivenUp(c);
    } else {
      var t :| t in c.calls && c.calls[t].Sending?;
      TaskAppend(c.tasks, SendTask(c.calls[t].message));
      QueuedGivenUp(Next(c, Act(t, Wrote(0))));
      DealsLater(c, Act(t, Wrote(0)), false);
    }
  }

  /** The loop thread finishes an operation of its own that hands over no message; others stay pending. */
  lemma StaysPending(c: Conn)
    requires LOOP in c.calls && !c.calls[LOOP].Sending? && !NothingPending(c)
    ensures !NothingPending(Next(c, Act(LOOP, Wrote(0))))
  {
    var c' := Next(c, Act(LOOP, Wrote(0)));
    NoMessage(c, Act(LOOP, Wrote(0)));
    if TaskMessages(c.tasks) == [] {
      var t :| t in c.calls && c.calls[t].Sending?;
      assert InCall(c', t) == InCall(c, t);
    }
  }

  /** A closing peer sets `kDisconnected`, whatever the state is. */
  lemma ClosedGivenUp(c: Conn)
    requires LOOP !in c.calls && !NothingPending(c)
    ensures CanDeal(c, false)
  {
    PendingGivenUp(Next(c, Close));
    DealsLater(c, Close, false);
  }

  lemma LoopFinishesGivenUp(c: Conn)
    requires LOOP in c.calls && !NothingPending(c) && !c.calls[LOOP].Sending?
    ensures CanDeal(c, false)
    decreases c.calls[LOOP].SettingDown? || c.calls[LOOP].SettingClose?
  {
    var step := Act(LOOP, Wrote(0));
    var c' := Next(c, step);
    StaysPending(c);
    if LOOP in c'.calls { LoopFinishesGivenUp(c'); } else { ClosedGivenUp(c'); }
    DealsLater(c, step, false);
  }

  /**
    Once `shutdown` or anything else has set `kDisconnected`, every message sent before is kept in
    every continuation if and only if none is queued or about to be.
   */
  lemma ShutdownKeepsMessagesIff(c: Conn)
    requires c.state.Disconnected?
    ensures !CanDeal(c, false) <==> NothingPending(c)
  {
    if NothingPending(c) {
      forall steps | IsRun(c, steps) ensures !Deals(c, Exec(c, steps), false) {
        NothingPendingRun(c, steps);
      }
    } else if LOOP !in c.calls {
      PendingGivenUp(c);
    } else if c.calls[LOOP].Sending? {
      assert Next(c, Act(LOOP, Wrote(0))).done[|c.done|].accepted == false;
      DealsNow(c, Act(LOOP, Wrote(0)), false);
    } else {
      LoopFinishesGivenUp(c);
    }
  }

  lemma DisconnectedStep(c: Conn, step: Step)
    requires c.state.Disconnected? && !Reopening(c) && Allowed(c, step)
    ensures var c' := Next(c, step);
            && c'.state.Disconnected? && !Reopening(c') && c'.accepted == c.accepted && c'.sent == c.sent
            && (c'.done == c.done || (|c'.done| == |c.done| + 1 && c.done <= c'.done && !c'.done[|c.done|].accepted))
  {
    var c' := Next(c, step);
    forall t | t in c'.calls ensures !c'.calls[t].SettingClose? {
      assert t in c.calls ==> !c.calls[t].SettingClose?;
    }
  }

  /** Nothing is accepted any more, and all that is dealt with is given up. */
  lemma {:induction false} DisconnectedRun(c: Conn, steps: seq<Step>)
    requires c.state.Disconnected? && !Reopening(c) && IsRun(c, steps)
    ensures var c' := Exec(c, steps);
            && c'.state.Disconnected? && c'.accepted == c.accepted && c'.sent == c.sent
            && c.done <= c'.done && !Deals(c, c', true)
    decreases |steps|
  {
    if steps != [] {
      DisconnectedStep(c, steps[0]);
      DisconnectedRun(Next(c, steps[0]), steps[1..]);
      var c1, c' := Next(c, steps[0]), Exec(c, steps);
      forall i | |c.done| <= i < |c'.done| ensures !c'.done[i].accepted {
        if i < |c1.done| { assert c'.done[i] == c1.done[i]; }
      }
    }
  }

  /**
    With no `forceClose` in flight: after any continuation that leaves nothing pending, every
    message sent has been dealt with, thread by thread in order, and those dealt with since the
    disconnection have all been given up.
   */
  lemma PendingAreGivenUp(c: Conn, steps: seq<Step>, t: Thread)
    requires Sound(c) && c.state.Disconnected? && !Reopening(c) && IsRun(c, steps)
    requires NothingPending(Exec(c, steps))
    ensures var c' := Exec(c, steps);
            && From(Messages(c'.done), t) == From(c.sent, t) && c.done <= c'.done && !Deals(c, c', true)
            && c'.accepted == c.accepted
  {
    DisconnectedRun(c, steps);
    RunSound(c, steps);
    var c' := Exec(c, steps);
    assert PerThread(c', t);
    assert From(Messages(c'.done), t) + [] + [] == From(Messages(c'.done), t);
  }

  /** Disconnecting, the first message queued is accepted. */
  lemma {:induction false} QueuedAccepted(c: Conn)
    requires c.state.Disconnecting? && LOOP !in c.calls && TaskMessages(c.tasks) != []
    ensures CanDeal(c, true)
    decreases |c.tasks|
  {
    var step := RunTask(WriteFailed(EWOULDBLOCK));
    var c' := Next(c, step);
    if c.tasks[0].SendTask? {
      assert c'.done[|c.done|].accepted;
      DealsNow(c, step, true);
    } else {
      QueuedAccepted(c');
      DealsLater(c, step, true);
    }
  }

  lemma PendingAccepted(c: Conn)
    requires c.state.Disconnecting? && LOOP !in c.calls && !NothingPending(c)
    ensures CanDeal(c, true)
  {
    if TaskMessages(c.tasks) != [] {
      QueuedAccepted(c);
    } else {
      var t :| t in c.calls && c.calls[t].Sending?;
      TaskAppend(c.tasks, SendTask(c.calls[t].message));
      QueuedAccepted(Next(c, Act(t, Wrote(0))));
      DealsLater(c, Act(t, Wrote(0)), true);
    }
  }

  /** The late write of `kDisconnecting` by another thread. */
  lemma ReopenedAccepted(c: Conn, t: Thread)
    requires t in c.calls && t != LOOP && c.calls[t].SettingClose? && !NothingPending(c)
    requires LOOP in c.calls ==> c.calls[LOOP].Sending?
    ensures CanDeal(c, true)
  {
    var step := Act(t, Wrote(0));
    var c' := Next(c, step);
    if LOOP in c.calls {
      var send := Act(LOOP, WriteFailed(EWOULDBLOCK));
      assert Next(c', send).done[|c'.done|].accepted;
      DealsNow(c', send, true);
    } else {
      if TaskMessages(c.tasks) == [] {
        var u :| u in c.calls && c.calls[u].Sending?;
        assert u in c'.calls && c'.calls[u].Sending?;
      }
      PendingAccepted(c');
    }
    DealsLater(c, step, true);
  }

  /** The loop thread is inside an operation of its own. */
  lemma LoopFinishesAccepted(c: Conn)
    requires LOOP in c.calls && !NothingPending(c) && !c.calls[LOOP].Sending?
    requires Reopening(c) || (c.state.Disconnecting? && c.calls[LOOP].QueueingClose?)
    ensures CanDeal(c, true)
    decreases c.calls[LOOP].SettingDown? || c.calls[LOOP].SettingClose?
  {
    var step := Act(LOOP, Wrote(0));
    var c' := Next(c, step);
    StaysPending(c);
    if t :| t in c.calls && t != LOOP && c.calls[t].SettingClose? {
      assert t in c'.calls && c'.calls[t].SettingClose?;
      if LOOP in c'.calls { LoopFinishesAccepted(c'); } else { ReopenedAccepted(c', t); }
    } else if LOOP in c'.calls {
      LoopFinishesAccepted(c');
    } else {
      PendingAccepted(c');
    }
    DealsLater(c, step, true);
  }

  /**
    After the disconnection no continuation accepts a message any more if and only if no
    `forceClose` that tested the state before is in flight, or no message is pending.
   */
  lemma NothingMoreAcceptedIff(c: Conn)
    requires c.state.Disconnected?
    ensures !CanDeal(c, true) <==> !Reopening(c) || NothingPending(c)
  {
    if NothingPending(c) {
      forall steps | IsRun(c, steps) ensures !Deals(c, Exec(c, steps), true) {
        NothingPendingRun(c, steps);
      }
    } else if !Reopening(c) {
      forall steps | IsRun(c, steps) ensures !Deals(c, Exec(c, steps), true) {
        DisconnectedRun(c, steps);
      }
    } else if LOOP in c.calls && !c.calls[LOOP].Sending? {
      LoopFinishesAccepted(c);
    } else {
      var t :| t in c.calls && c.calls[t].SettingClose?;
      ReopenedAccepted(c, t);
    }
  }

  // ---------------------------------------------------------------- half-closes, with the loop thread in mid-operation

  lemma {:induction false} Above(ts: set<Thread>) returns (u: Thread)
    ensures forall t :: t in ts ==> t < u
  {
    if ts == {} {
      u := 0;
    } else {
      var t :| t in ts;
      var v := Above(ts - {t});
      u := if v <= t then t + 1 else v;
      forall x | x in ts ensures x < u {
        if x != t { assert x in ts - {t}; }
      }
    }
  }

  /** A thread that is in no operation and is not the loop thread. */
  lemma FreeThread(c: Conn) returns (u: Thread)
    ensures u !in c.calls && u != LOOP
  {
    var v := Above(c.calls.Keys + {LOOP});
    u := v;
  }

  /** A message with something in it is queued or about to be handed over. */
  ghost predicate DataPending(c: Conn) {
    || (exists m :: m in TaskMessages(c.tasks) && m.data != [])
    || (exists t :: t in c.calls && c.calls[t].Sending? && c.calls[t].message.data != [])
  }

  predicate IsShutdown(op: Op) {
    op.SettingDown? || op.QueueingDown?
  }

  /** The loop thread's own `shutdown` half-closes nothing while output is waiting. */
  function WithoutOwnShutdown(c: Conn): Conn {
    if LOOP in c.calls && IsShutdown(c.calls[LOOP]) then c.(calls := c.calls - {LOOP}) else c
  }

  /**
    What can still bring a half-close about while output is waiting. When the loop thread is about
    to close, and so to drop the write interest, a half-close takes a `shutdown`, or a late
    `kDisconnecting` and a message with data to turn the interest on again.
   */
  ghost predicate HalfCloseAhead(c: Conn) {
    if LOOP in c.calls && c.calls[LOOP].Closing? then
      || c.state.Connected? || ShutdownTask in c.tasks
      || (exists t :: t in c.calls && IsShutdown(c.calls[t]))
      || ((c.state.Disconnecting? || Reopening(c)) && DataPending(c))
    else !NoHalfCloseComing(WithoutOwnShutdown(c))
  }

  /** The closing loop thread, then a queued `shutdownInLoop`. */
  lemma ClosedThenQueued(c: Conn)
    requires LOOP in c.calls && c.calls[LOOP].Closing? && ShutdownTask in c.tasks
    ensures CanHalfClose(c)
  {
    QueuedHalfCloses(Next(c, Act(LOOP, Wrote(0))));
    HalfClosesLater(c, Act(LOOP, Wrote(0)));
  }

  lemma ClosedThenShutdown(c: Conn, t: Thread)
    requires LOOP in c.calls && c.calls[LOOP].Closing? && t in c.calls && IsShutdown(c.calls[t])
    ensures CanHalfClose(c)
  {
    var step := Act(t, Wrote(0));
    var c' := Next(c, step);
    if c.calls[t].SettingDown? {
      ClosedThenQueued(Next(c', step));
      HalfClosesLater(c', step);
    } else {
      ClosedThenQueued(c');
    }
    HalfClosesLater(c, step);
  }

  /** Behind buffered output, or with the interest on, a message is accepted into the buffer whole. */
  lemma AcceptBehind(c: Conn, m: Message, w: WriteResult)
    requires !WritesDirectly(c) && CanAnswer(w, |m.data|)
    ensures var c' := Accept(c, m, w);
            && c'.state == c.state && c'.tasks == c.tasks && c'.calls == c.calls && c'.output == c.output + m.data
            && c'.writing == (c.writing || m.data != [])
            && (c'.notices == c.notices || c'.notices == c.notices + [HighWater(|c.output| + |m.data|)])
  {
    assert Direct(c, w) == 0;
    assert m.data[0..] == m.data;
    if m.data == [] { assert c.output + m.data == c.output; }
  }

  /** It turns the interest on. */
  lemma Buffered(c: Conn, m: Message, w: WriteResult)
    requires c.state.Disconnecting? && c.output != [] && m.data != [] && CanAnswer(w, |m.data|)
    ensures var c' := SendInLoop(c, m, w);
            && c'.state == c.state && c'.writing && c'.output != [] && c'.calls == c.calls
            && HalfCloses(c'.notices) == HalfCloses(c.notices)
  {
    assert SendInLoop(c, m, w) == Accept(c, m, w);
    AcceptBehind(c, m, w);
    HalfClosesSnoc(c.notices, HighWater(|c.output| + |m.data|));
  }

  lemma BufferedHalfCloses(c: Conn)
    requires c.state.Disconnecting? && LOOP !in c.calls && c.output != []
    requires c.tasks != [] && c.tasks[0].SendTask? && c.tasks[0].message.data != []
    ensures CanHalfClose(c)
  {
    Buffered(c.(tasks := c.tasks[1..]), c.tasks[0].message, Wrote(0));
    DrainHalfCloses(Next(c, RunTask(Wrote(0))));
    HalfClosesLater(c, RunTask(Wrote(0)));
  }

  lemma ShutdownFirstHalfCloses(c: Conn)
    requires LOOP !in c.calls && !c.writing && c.tasks != [] && c.tasks[0].ShutdownTask?
    ensures CanHalfClose(c)
  {
    HalfClosesSnoc(c.notices, HalfClose(c.disabled, |c.wire|, |c.accepted|));
    HalfClosesNow(c, RunTask(Wrote(0)));
  }

  /** A task before the message changes nothing that matters. */
  lemma SkipsTask(c: Conn, m: Message)
    requires c.state.Disconnecting? && LOOP !in c.calls && c.output != [] && m in TaskMessages(c.tasks) && m.data != []
    requires !c.tasks[0].ShutdownTask? && (c.tasks[0].SendTask? ==> c.tasks[0].message.data == [])
    ensures Allowed(c, RunTask(Wrote(0)))
    ensures var c' := Next(c, RunTask(Wrote(0)));
            && c'.state == c.state && c'.calls == c.calls && c'.output == c.output && c'.tasks == c.tasks[1..]
            && HalfCloses(c'.notices) == HalfCloses(c.notices) && m in TaskMessages(c'.tasks)
  {
    if c.tasks[0].SendTask? {
      var left, x := c.(tasks := c.tasks[1..]), c.tasks[0].message;
      assert SendInLoop(left, x, Wrote(0)) == Accept(left, x, Wrote(0));
      AcceptBehind(left, x, Wrote(0));
      HalfClosesSnoc(c.notices, HighWater(|c.output| + |x.data|));
      assert c.output + x.data == c.output;
    }
  }

  /** A queued message with data turns the interest on again, and draining it half-closes. */
  lemma {:induction false} DataHalfCloses(c: Conn, m: Message)
    requires c.state.Disconnecting? && LOOP !in c.calls && c.output != [] && m in TaskMessages(c.tasks) && m.data != []
    ensures CanHalfClose(c)
    decreases |c.tasks|
  {
    if c.writing {
      DrainHalfCloses(c);
    } else if c.tasks[0].SendTask? && c.tasks[0].message.data != [] {
      BufferedHalfCloses(c);
    } else if c.tasks[0].ShutdownTask? {
      ShutdownFirstHalfCloses(c);
    } else {
      SkipsTask(c, m);
      DataHalfCloses(Next(c, RunTask(Wrote(0))), m);
      HalfClosesLater(c, RunTask(Wrote(0)));
    }
  }

  /** The late `kDisconnecting` comes after the close. */
  lemma ReopenedHalfCloses(c: Conn, t: Thread)
    requires c.state.Disconnected? && LOOP !in c.calls && c.output != [] && DataPending(c)
    requires t in c.calls && c.calls[t].SettingClose?
    ensures CanHalfClose(c)
  {
    var step := Act(t, Wrote(0));
    var c' := Next(c, step);
    if m :| m in TaskMessages(c.tasks) && m.data != [] {
      DataHalfCloses(c', m);
    } else {
      var u :| u in c.calls && c.calls[u].Sending? && c.calls[u].message.data != [];
      var c'' := Next(c', Act(u, Wrote(0)));
      TaskAppend(c'.tasks, SendTask(c.calls[u].message));
      assert c.calls[u].message in TaskMessages(c''.tasks);
      DataHalfCloses(c'', c.calls[u].message);
      HalfClosesLater(c', Act(u, Wrote(0)));
    }
    HalfClosesLater(c, step);
  }

  lemma DataStays(c: Conn, c': Conn)
    requires DataPending(c) && c'.tasks == c.tasks
    requires forall t :: t in c.calls && c.calls[t].Sending? ==> t in c'.calls && c'.calls[t] == c.calls[t]
    ensures DataPending(c')
  {
    if t :| t in c.calls && c.calls[t].Sending? && c.calls[t].message.data != [] {
      assert c'.calls[t].message.data != [];
    }
  }

  lemma ClosedThenReopened(c: Conn, t: Thread)
    requires LOOP in c.calls && c.calls[LOOP].Closing? && c.output != [] && DataPending(c)
    requires t in c.calls && c.calls[t].SettingClose?
    ensures CanHalfClose(c)
  {
    DataStays(c, Next(c, Act(LOOP, Wrote(0))));
    ReopenedHalfCloses(Next(c, Act(LOOP, Wrote(0))), t);
    HalfClosesLater(c, Act(LOOP, Wrote(0)));
  }

  lemma ClosingHalfCloses(c: Conn)
    requires LOOP in c.calls && c.calls[LOOP].Closing? && c.output != [] && HalfCloseAhead(c)
    ensures CanHalfClose(c)
  {
    if ShutdownTask in c.tasks {
      ClosedThenQueued(c);
    } else if t :| t in c.calls && IsShutdown(c.calls[t]) {
      ClosedThenShutdown(c, t);
    } else if c.state.Connected? {
      var u := FreeThread(c);
      ClosedThenShutdown(Next(c, Shutdown(u)), u);
      HalfClosesLater(c, Shutdown(u));
    } else if t :| t in c.calls && c.calls[t].SettingClose? {
      ClosedThenReopened(c, t);
    } else {
      var u := FreeThread(c);
      DataStays(c, Next(c, ForceClose(u, true)));
      ClosedThenReopened(Next(c, ForceClose(u, true)), u);
      HalfClosesLater(c, ForceClose(u, true));
    }
  }

  /** After the close nothing turns the write interest on again, and no `shutdown` is left. */
  ghost predicate ClosedForGood(c: Conn) {
    && (c.state.Disconnected? || c.state.Disconnecting?) && ShutdownTask !in c.tasks && !DataPending(c)
    && (forall t :: t in c.calls ==> !IsShutdown(c.calls[t]))
    && ((LOOP in c.calls && c.calls[LOOP].Closing?) || !c.writing)
  }

  /** The step queues at most one callback, and no half-close. */
  predicate NoHalfCloseIn(c: Conn, c': Conn) {
    || c'.notices == c.notices
    || (|c'.notices| > 0 && c'.notices == c.notices + [c'.notices[|c'.notices| - 1]]
        && !c'.notices[|c'.notices| - 1].HalfClose?)
  }

  lemma SameHalfCloses(c: Conn, c': Conn)
    requires NoHalfCloseIn(c, c')
    ensures HalfCloses(c'.notices) == HalfCloses(c.notices)
  {
    if c'.notices != c.notices { HalfClosesSnoc(c.notices, c'.notices[|c'.notices| - 1]); }
  }

  lemma OneNotice(c: Conn, c': Conn, n: Notice)
    requires c'.notices == c.notices + [n] && !n.HalfClose?
    ensures NoHalfCloseIn(c, c')
  {
  }

  /** Nothing of an empty message is left to buffer. */
  lemma EmptyAccept(c: Conn, m: Message, w: WriteResult)
    requires CanAnswer(w, |m.data|) && m.data == []
    ensures var c' := Accept(c, m, w);
            && c'.state == c.state && c'.tasks == c.tasks && c'.calls == c.calls && c'.writing == c.writing
            && (c'.notices == c.notices || c'.notices == c.notices + [WriteComplete(|c'.wire|, |c'.accepted|)])
  {
    assert Direct(c, w) == 0;
    assert m.data[0..] == [];
  }

  /** An empty message is dealt with and nothing is buffered. */
  lemma EmptySend(c: Conn, m: Message, w: WriteResult)
    requires CanAnswer(w, |m.data|) && m.data == []
    ensures var c' := SendInLoop(c, m, w);
            && c'.state == c.state && c'.tasks == c.tasks && c'.calls == c.calls && c'.writing == c.writing
            && NoHalfCloseIn(c, c')
  {
    if c.state.Disconnected? || FaultError(c, w) {
      assert SendInLoop(c, m, w).notices == c.notices;
    } else {
      var c' := Accept(c, m, w);
      EmptyAccept(c, m, w);
      if c'.notices != c.notices { OneNotice(c, c', WriteComplete(|c'.wire|, |c'.accepted|)); }
    }
  }

  /** An empty message that is handed over leaves no data pending. */
  lemma StillNoData(c: Conn, t: Thread, c': Conn)
    requires !DataPending(c) && t in c.calls && c.calls[t].Sending? && c'.calls == c.calls - {t}
    requires c'.tasks == c.tasks || c'.tasks == c.tasks + [SendTask(c.calls[t].message)]
    ensures !DataPending(c')
  {
    var m := c.calls[t].message;
    assert m.data == [];
    TaskAppend(c.tasks, SendTask(m));
    forall x | x in TaskMessages(c'.tasks) ensures x.data == [] {
      assert x in TaskMessages(c.tasks) || x == m;
    }
  }

  lemma HandsOverEmpty(c: Conn, t: Thread, w: WriteResult)
    requires ClosedForGood(c) && Allowed(c, Act(t, w)) && c.calls[t].Sending?
    ensures ClosedForGood(Proceed(c, t, w)) && NoHalfCloseIn(c, Proceed(c, t, w))
  {
    var left := c.(calls := c.calls - {t});
    if t == LOOP {
      EmptySend(left, c.calls[t].message, w);
    } else {
      assert ShutdownTask !in (c.tasks + [SendTask(c.calls[t].message)]);
    }
    StillNoData(c, t, Proceed(c, t, w));
  }

  lemma ActNotices(c: Conn, t: Thread, w: WriteResult)
    requires Allowed(c, Act(t, w)) && !c.calls[t].Sending? && !c.calls[t].QueueingDown?
    ensures var c' := Proceed(c, t, w);
            && c'.notices == c.notices && (c'.writing ==> c.writing) && (c.calls[t].Closing? ==> !c'.writing)
            && (c'.state == c.state || c'.state.Disconnected? || c'.state.Disconnecting?)
            && (c'.tasks == c.tasks || c'.tasks == c.tasks + [ForceCloseTask])
            && (c'.calls == c.calls - {t} || (!c.calls[t].SettingDown? ==> c'.calls == c.calls[t := QueueingClose]))
  {
  }

  /** Calls that change without a `shutdown` or a message keep the closed connection closed. */
  lemma StaysClosed(c: Conn, t: Thread, c': Conn)
    requires ClosedForGood(c) && t in c.calls && !c.calls[t].Sending?
    requires (c'.writing ==> c.writing) && (c.calls[t].Closing? ==> !c'.writing)
    requires c'.state == c.state || c'.state.Disconnected? || c'.state.Disconnecting?
    requires c'.tasks == c.tasks || c'.tasks == c.tasks + [ForceCloseTask]
    requires c'.calls == c.calls - {t} || c'.calls == c.calls[t := QueueingClose]
    ensures ClosedForGood(c')
  {
    TaskAppend(c.tasks, ForceCloseTask);
  }

  lemma ActsClosed(c: Conn, t: Thread, w: WriteResult)
    requires ClosedForGood(c) && Allowed(c, Act(t, w)) && !c.calls[t].Sending?
    ensures ClosedForGood(Proceed(c, t, w)) && NoHalfCloseIn(c, Proceed(c, t, w))
  {
    ActNotices(c, t, w);
    StaysClosed(c, t, Proceed(c, t, w));
  }

  lemma RunsClosed(c: Conn, w: WriteResult)
    requires ClosedForGood(c) && Allowed(c, RunTask(w))
    ensures ClosedForGood(RunFirst(c, w)) && NoHalfCloseIn(c, RunFirst(c, w))
  {
    if c.tasks[0].SendTask? {
      assert c.tasks[0].message in TaskMessages(c.tasks);
      EmptySend(c.(tasks := c.tasks[1..]), c.tasks[0].message, w);
    }
  }

  lemma ClosedForGoodStep(c: Conn, step: Step)
    requires ClosedForGood(c) && Allowed(c, step)
    ensures ClosedForGood(Next(c, step)) && NoHalfCloseIn(c, Next(c, step))
  {
    match step
    case Act(t, w) => if c.calls[t].Sending? { HandsOverEmpty(c, t, w); } else { ActsClosed(c, t, w); }
    case RunTask(w) => RunsClosed(c, w);
    case _ =>
  }

  lemma {:induction false} ClosedForGoodRun(c: Conn, steps: seq<Step>)
    requires ClosedForGood(c) && IsRun(c, steps)
    ensures HalfCloses(Exec(c, steps).notices) == HalfCloses(c.notices)
    decreases |steps|
  {
    if steps != [] {
      ClosedForGoodStep(c, steps[0]);
      SameHalfCloses(c, Next(c, steps[0]));
      ClosedForGoodRun(Next(c, steps[0]), steps[1..]);
    }
  }

  /** Only the loop thread's own `shutdown` is left, and output is waiting. */
  ghost predicate OnlyOwnShutdown(c: Conn) {
    && LOOP in c.calls && IsShutdown(c.calls[LOOP]) && c.writing && c.state.Disconnected? && ShutdownTask !in c.tasks
    && forall t :: t in c.calls && t != LOOP ==> !LeadsToHalfClose(c.calls[t])
  }

  lemma OnlyOwnShutdownStep(c: Conn, step: Step)
    requires CallsOk(c) && OnlyOwnShutdown(c) && Allowed(c, step)
    ensures OnlyOwnShutdown(Next(c, step)) || NoHalfCloseComing(Next(c, step))
    ensures Next(c, step).notices == c.notices
  {
  }

  lemma {:induction false} OnlyOwnShutdownRun(c: Conn, steps: seq<Step>)
    requires Inv(c) && OnlyOwnShutdown(c) && IsRun(c, steps)
    ensures HalfCloses(Exec(c, steps).notices) == HalfCloses(c.notices)
    decreases |steps|
  {
    if steps != [] {
      StepKeeps(c, steps[0]);
      OnlyOwnShutdownStep(c, steps[0]);
      if NoHalfCloseComing(Next(c, steps[0])) {
        NoHalfCloseRun(Next(c, steps[0]), steps[1..]);
      } else {
        OnlyOwnShutdownRun(Next(c, steps[0]), steps[1..]);
      }
    }
  }

  /** The loop thread passes its `shutdown` on to itself, in vain. */
  lemma OwnShutdownEnds(c: Conn)
    requires Inv(c) && c.writing && LOOP in c.calls && c.calls[LOOP].QueueingDown?
    requires !NoHalfCloseComing(c.(calls := c.calls - {LOOP}))
    ensures CanHalfClose(c)
  {
    var step := Act(LOOP, Wrote(0));
    StepKeeps(c, step);
    FreeLoopHalfClosesIff(Next(c, step));
    HalfClosesLater(c, step);
  }

  lemma OwnShutdownSets(c: Conn)
    requires Inv(c) && c.writing && LOOP in c.calls && c.calls[LOOP].SettingDown?
    requires ShutdownTask in c.tasks || exists t :: t in c.calls && t != LOOP && LeadsToHalfClose(c.calls[t])
    ensures CanHalfClose(c)
  {
    var step := Act(LOOP, Wrote(0));
    var c' := Next(c, step);
    StepKeeps(c, step);
    if ShutdownTask !in c.tasks {
      var t :| t in c.calls && t != LOOP && LeadsToHalfClose(c.calls[t]);
      assert t in (c'.calls - {LOOP}) && LeadsToHalfClose((c'.calls - {LOOP})[t]);
    }
    OwnShutdownEnds(c');
    HalfClosesLater(c, step);
  }

  /** While the state is not yet set, another thread may start a call that will. */
  lemma OwnShutdownHalfCloses(c: Conn)
    requires Inv(c) && c.writing && LOOP in c.calls && IsShutdown(c.calls[LOOP])
    requires !NoHalfCloseComing(c.(calls := c.calls - {LOOP}))
    ensures CanHalfClose(c)
  {
    if c.calls[LOOP].QueueingDown? {
      OwnShutdownEnds(c);
    } else if c.state.Disconnected? {
      if ShutdownTask !in c.tasks {
        var t :| t in c.calls - {LOOP} && LeadsToHalfClose((c.calls - {LOOP})[t]);
        assert t in c.calls && t != LOOP && LeadsToHalfClose(c.calls[t]);
      }
      OwnShutdownSets(c);
    } else {
      var u := FreeThread(c);
      var step := if c.state.Connected? then Shutdown(u) else ForceClose(u, true);
      StepKeeps(c, step);
      assert u in Next(c, step).calls && LeadsToHalfClose(Next(c, step).calls[u]);
      OwnShutdownSets(Next(c, step));
      HalfClosesLater(c, step);
    }
  }

  /** While output is waiting, a message is buffered behind it or given up. */
  lemma SendKeepsWriting(c: Conn, m: Message, w: WriteResult)
    requires c.writing && CanAnswer(w, |m.data|)
    ensures var c' := SendInLoop(c, m, w);
            && c'.writing && c'.state == c.state && c'.tasks == c.tasks && c'.calls == c.calls
            && HalfCloses(c'.notices) == HalfCloses(c.notices)
  {
    if !c.state.Disconnected? {
      assert SendInLoop(c, m, w) == Accept(c, m, w);
      AcceptBehind(c, m, w);
      HalfClosesSnoc(c.notices, HighWater(|c.output| + |m.data|));
    }
  }

  /** What leads to a half-close still does when the loop thread has left a call that does not. */
  lemma StillComing(c: Conn, c': Conn)
    requires LOOP in c.calls && !LeadsToHalfClose(c.calls[LOOP]) && !NoHalfCloseComing(c)
    requires c'.state == c.state && c'.calls == c.calls - {LOOP} && (ShutdownTask in c.tasks ==> ShutdownTask in c'.tasks)
    ensures !NoHalfCloseComing(c')
  {
    if t :| t in c.calls && LeadsToHalfClose(c.calls[t]) {
      assert t in c'.calls && c'.calls[t] == c.calls[t];
    }
  }

  lemma OwnSendHalfCloses(c: Conn)
    requires Inv(c) && c.writing && LOOP in c.calls && c.calls[LOOP].Sending? && !NoHalfCloseComing(c)
    ensures CanHalfClose(c)
  {
    var step := Act(LOOP, Wrote(0));
    StepKeeps(c, step);
    SendKeepsWriting(c.(calls := c.calls - {LOOP}), c.calls[LOOP].message, Wrote(0));
    StillComing(c, Next(c, step));
    FreeLoopHalfClosesIff(Next(c, step));
    HalfClosesLater(c, step);
  }

  lemma OwnQueueHalfCloses(c: Conn)
    requires Inv(c) && c.writing && LOOP in c.calls && c.calls[LOOP].QueueingClose? && !NoHalfCloseComing(c)
    ensures CanHalfClose(c)
  {
    var step := Act(LOOP, Wrote(0));
    StepKeeps(c, step);
    StillComing(c, Next(c, step));
    FreeLoopHalfClosesIff(Next(c, step));
    HalfClosesLater(c, step);
  }

  lemma OwnForceCloseHalfCloses(c: Conn)
    requires Inv(c) && c.writing && LOOP in c.calls && c.calls[LOOP].SettingClose?
    ensures CanHalfClose(c)
  {
    var step := Act(LOOP, Wrote(0));
    var c' := Next(c, step);
    if c.calls[LOOP].delayed {
      DrainHalfCloses(c');
    } else {
      DrainHalfCloses(Next(c', step));
      HalfClosesLater(c', step);
    }
    HalfClosesLater(c, step);
  }

  lemma NoneAhead(c: Conn, steps: seq<Step>)
    requires Inv(c) && c.writing && !HalfCloseAhead(c) && IsRun(c, steps)
    ensures HalfCloses(Exec(c, steps).notices) == HalfCloses(c.notices)
  {
    if LOOP in c.calls && c.calls[LOOP].Closing? && DataPending(c) {
      assert NoHalfCloseComing(c);
      NoHalfCloseRun(c, steps);
    } else if LOOP in c.calls && c.calls[LOOP].Closing? {
      ClosedForGoodRun(c, steps);
    } else if LOOP in c.calls && IsShutdown(c.calls[LOOP]) {
      forall t | t in c.calls && t != LOOP ensures !LeadsToHalfClose(c.calls[t]) {
        assert t in c.calls - {LOOP} && (c.calls - {LOOP})[t] == c.calls[t];
      }
      OnlyOwnShutdownRun(c, steps);
    } else {
      NoHalfCloseRun(c, steps);
    }
  }

  /**
    At any moment with output waiting, and so no half-close from a `shutdown` that has reached the
    loop, some continuation half-closes the socket if and only if: the state is not
    `kDisconnected`, or another `shutdown` is queued, or a `shutdown` or `forceClose` is in flight
    that tested the state before, the loop thread's own `shutdown` not counted; with the condition
    of `HalfCloseAhead` when the loop thread is about to close.
   */
  lemma HalfCloseComesLaterIff(c: Conn)
    requires Inv(c) && c.writing
    ensures CanHalfClose(c) <==> HalfCloseAhead(c)
  {
    if !HalfCloseAhead(c) {
      forall steps | IsRun(c, steps) ensures HalfCloses(Exec(c, steps).notices) == HalfCloses(c.notices) {
        NoneAhead(c, steps);
      }
    } else if LOOP !in c.calls {
      FreeLoopHalfClosesIff(c);
    } else if c.calls[LOOP].Closing? {
      ClosingHalfCloses(c);
    } else if IsShutdown(c.calls[LOOP]) {
      OwnShutdownHalfCloses(c);
    } else if c.calls[LOOP].SettingClose? {
      OwnForceCloseHalfCloses(c);
    } else if c.calls[LOOP].QueueingClose? {
      OwnQueueHalfCloses(c);
    } else {
      OwnSendHalfCloses(c);
    }
  }

  // ---------------------------------------------------------------- the assert in handleClose

  /** What `handleClose` asserts of the state. */
  predicate CloseAssert(c: Conn) {
    c.state.Connected? || c.state.Disconnecting?
  }

  /** Some continuation gets to a state in which the assert of `handleClose` would hold. */
  ghost predicate CanCloseSoundly(c: Conn) {
    exists steps :: IsRun(c, steps) && CloseAssert(Exec(c, steps))
  }

  /**
    After `shutdown` the assert of `handleClose` holds again, at any later moment, if and only if a
    `forceClose` that tested the state before is in flight; otherwise every close violates it.
   */
  lemma CloseAssertHoldsLaterIff(c: Conn)
    requires c.state.Disconnected?
    ensures CanCloseSoundly(c) <==> Reopening(c)
  {
    if Reopening(c) {
      var t :| t in c.calls && c.calls[t].SettingClose?;
      OneMore(c, Act(t, Wrote(0)), []);
    } else {
      forall steps | IsRun(c, steps) ensures !CloseAssert(Exec(c, steps)) {
        DisconnectedRun(c, steps);
      }
    }
  }

  // ---------------------------------------------------------------- runs that show it

  const DROPPED: seq<Step> := [Establish, Send(Message(1, [65])), Shutdown(2), Act(2, Wrote(0)), Act(1, Wrote(0)), RunTask(Wrote(1))]

  /** A message that `send` let through before `shutdown` is given up: "flush, then close" fails. */
  lemma ShutdownDropsMessage()
    ensures IsRun(NewConn(100), DROPPED)
    ensures var c := Exec(NewConn(100), DROPPED);
            c.sent == [Message(1, [65])] && c.done == [Done(Message(1, [65]), false)] && c.wire == [] && c.output == []
  {
    var c1 := Next(NewConn(100), DROPPED[0]);
    var c2 := Next(c1, DROPPED[1]);
    var c3 := Next(c2, DROPPED[2]);
    var c4 := Next(c3, DROPPED[3]);
    var c5 := Next(c4, DROPPED[4]);
    OneMore(c5, DROPPED[5], []);
    OneMore(c4, DROPPED[4], [DROPPED[5]]);
    OneMore(c3, DROPPED[3], [DROPPED[4], DROPPED[5]]);
    OneMore(c2, DROPPED[2], [DROPPED[3], DROPPED[4], DROPPED[5]]);
    OneMore(c1, DROPPED[1], DROPPED[2..]);
    OneMore(NewConn(100), DROPPED[0], DROPPED[1..]);
  }

  /** Four moves along known states. */
  lemma FourSteps(c: Conn, a: Step, c1: Conn, b: Step, c2: Conn, d: Step, c3: Conn, e: Step, c4: Conn)
    requires Allowed(c, a) && Next(c, a) == c1 && Allowed(c1, b) && Next(c1, b) == c2
    requires Allowed(c2, d) && Next(c2, d) == c3 && Allowed(c3, e) && Next(c3, e) == c4
    ensures IsRun(c, [a, b, d, e]) && Exec(c, [a, b, d, e]) == c4
  {
    OneMore(c3, e, []);
    OneMore(c2, d, [e]);
    assert [d] + [e] == [d, e];
    OneMore(c1, b, [d, e]);
    assert [b] + [d, e] == [b, d, e];
    OneMore(c, a, [b, d, e]);
    assert [a] + [b, d, e] == [a, b, d, e];
  }

  const SHUT_DOWN: seq<Step> := [Establish, Shutdown(LOOP), Act(LOOP, Wrote(0)), Act(LOOP, Wrote(0))]

  /** After a `shutdown` on the loop thread the peer closes, and `handleClose` fails its assert. */
  lemma CloseMayFailItsAssert()
    ensures IsRun(NewConn(100), SHUT_DOWN)
    ensures var c := Exec(NewConn(100), SHUT_DOWN);
            Allowed(c, Close) && !CloseAssert(c) && !CanCloseSoundly(c)
  {
    var c1 := NewConn(100).(state := Connected);
    var c2 := c1.(calls := map[LOOP := SettingDown]);
    var c3 := c1.(state := Disconnected, calls := map[LOOP := QueueingDown]);
    var c4 := c1.(state := Disconnected, notices := [HalfClose(false, 0, 0)]);
    assert c3.calls - {LOOP} == map[];
    assert Next(c3, Act(LOOP, Wrote(0))) == c4;
    FourSteps(NewConn(100), Establish, c1, Shutdown(LOOP), c2, Act(LOOP, Wrote(0)), c3, Act(LOOP, Wrote(0)), c4);
    CloseAssertHoldsLaterIff(c4);
  }

  /** Connected, with one byte that the socket would not take waiting in the buffer. */
  lemma OneByteWaits() returns (c: Conn)
    ensures IsRun(NewConn(100), BYTE_SENT) && Exec(NewConn(100), BYTE_SENT) == c
    ensures c.state.Connected? && c.writing && c.output == [65] && c.tasks == [] && c.calls == map[] && c.notices == []
    ensures c.wire == [] && c.accepted == [65] && !c.disabled
  {
    var m := Message(LOOP, [65]);
    var c1 := NewConn(100).(state := Connected);
    var c2 := c1.(calls := map[LOOP := Sending(m)], sent := [m]);
    c := c1.(output := [65], writing := true, accepted := [65], sent := [m], done := [Done(m, true)]);
    assert c2.calls - {LOOP} == map[];
    assert m.data[0..] == [65] && m.data[..0] == [];
    assert Next(c2, Act(LOOP, WriteFailed(EWOULDBLOCK))) == c;
    OneMore(c2, Act(LOOP, WriteFailed(EWOULDBLOCK)), []);
    OneMore(c1, Send(m), [Act(LOOP, WriteFailed(EWOULDBLOCK))]);
    OneMore(NewConn(100), Establish, [Send(m)] + [Act(LOOP, WriteFailed(EWOULDBLOCK))]);
  }

  const BYTE_SENT: seq<Step> := [Establish] + ([Send(Message(LOOP, [65]))] + [Act(LOOP, WriteFailed(EWOULDBLOCK))])
  const SHUT: seq<Step> := [Shutdown(LOOP), Act(LOOP, Wrote(0)), Act(LOOP, Wrote(0)), Writable(Wrote(1))]

  /**
    A `shutdown` with one byte waiting: the byte is written afterwards, but neither then nor in any
    continuation is the socket half-closed.
   */
  lemma ShutdownMayNeverHalfClose()
    ensures IsRun(NewConn(100), BYTE_SENT) && IsRun(Exec(NewConn(100), BYTE_SENT), SHUT)
    ensures var c := Exec(Exec(NewConn(100), BYTE_SENT), SHUT);
            c.wire == c.accepted == [65] && HalfCloses(c.notices) == 0 && !CanHalfClose(c)
  {
    var c := OneByteWaits();
    var c1 := c.(calls := map[LOOP := SettingDown]);
    var c2 := c.(state := Disconnected, calls := map[LOOP := QueueingDown]);
    var c3 := c.(state := Disconnected);
    var c4 := c3.(output := [], wire := c.wire + [65], writing := false,
                  notices := [WriteComplete(|c.wire + [65]|, |c.accepted|)]);
    assert c2.calls - {LOOP} == map[];
    assert c3.output[1..] == [] && c3.output[..1] == [65];
    assert Next(c3, Writable(Wrote(1))) == c4;
    FourSteps(c, Shutdown(LOOP), c1, Act(LOOP, Wrote(0)), c2, Act(LOOP, Wrote(0)), c3, Writable(Wrote(1)), c4);
    HalfClosesSnoc([], WriteComplete(|c.wire + [65]|, |c.accepted|));
    forall steps | IsRun(c4, steps) ensures HalfCloses(Exec(c4, steps).notices) == HalfCloses(c4.notices) {
      NoHalfCloseRun(c4, steps);
    }
  }
}
