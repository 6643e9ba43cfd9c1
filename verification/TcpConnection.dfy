/**
  The output path of `TcpConnection` over its real output buffer, method by method. An operation
  open to all threads has one method for each of its steps, and one for its uninterrupted call.
 */
module TcpConnections {
  import opened BufferModel
  import opened Buffers
  import CM = ConnectionModel

  class TcpConnection {
    var state: CM.State
    const outputBuffer: Buffer
    var channelIsWriting: bool
    const highWaterMark: nat
    var loopTasks: seq<CM.Task>
    ghost var calls: map<CM.Thread, CM.Op>
    ghost var wire: seq<byte>
    ghost var accepted: seq<byte>
    ghost var disabled: bool
    ghost var sent: seq<CM.Message>
    ghost var done: seq<CM.Done>
    ghost var notices: seq<CM.Notice>

    ghost function View(): CM.Conn
      reads this, outputBuffer, outputBuffer.buf
      requires outputBuffer.Valid()
    {
      CM.Conn(state, outputBuffer.Content(), channelIsWriting, highWaterMark, loopTasks, calls,
              wire, accepted, disabled, sent, done, notices)
    }

    ghost predicate Valid()
      reads this, outputBuffer, outputBuffer.buf
    {
      outputBuffer.Valid() && CM.Sound(View())
    }

    constructor (mark: nat)
      ensures Valid() && fresh(outputBuffer) && fresh(outputBuffer.buf) && View() == CM.NewConn(mark)
    {
      state, channelIsWriting, highWaterMark, loopTasks := CM.Connecting, false, mark, [];
      outputBuffer := new Buffer(INITIAL_SIZE);
      calls, wire, accepted, disabled, sent, done, notices := map[], [], [], false, [], [], [];
      new;
      CM.NewSound(mark);
    }

    ghost method NoteComplete()
      modifies this`notices
      ensures notices == old(notices) + [CM.WriteComplete(|wire|, |accepted|)]
    {
      notices := notices + [CM.WriteComplete(|wire|, |accepted|)];
    }

    // -------------------------------------------------------------- sendInLoop

    /** The tail of `sendInLoop`: what the socket did not take is buffered. */
    method BufferRest(rest: seq<byte>)
      requires outputBuffer.Valid() && rest != []
      modifies this`channelIsWriting, this`notices, outputBuffer, outputBuffer.buf
      ensures outputBuffer.Valid() && outputBuffer.Content() == old(outputBuffer.Content()) + rest && channelIsWriting
      ensures outputBuffer.buf == old(outputBuffer.buf) || fresh(outputBuffer.buf)
      ensures notices == old(notices) +
        (var size := |old(outputBuffer.Content())| + |rest|;
         if |old(outputBuffer.Content())| < highWaterMark <= size then [CM.HighWater(size)] else [])
    {
      var oldLen := outputBuffer.ReadableBytes();
      if oldLen + |rest| >= highWaterMark && oldLen < highWaterMark {
        notices := notices + [CM.HighWater(oldLen + |rest|)];
      }
      outputBuffer.Append(rest);
      if !channelIsWriting {
        channelIsWriting := true;
      }
    }

    /** The direct write at the head of `sendInLoop`. */
    method TryWrite(size: nat, write: CM.WriteResult) returns (nwrote: nat, completed: bool, faultError: bool)
      requires outputBuffer.Valid() && CM.CanAnswer(write, size)
      ensures nwrote == CM.Direct(View(), write) <= size && faultError == CM.FaultError(View(), write)
      ensures completed <==> CM.WritesDirectly(View()) && write == CM.Wrote(size)
    {
      nwrote, completed, faultError := 0, false, false;
      if !channelIsWriting && outputBuffer.ReadableBytes() == 0 {
        match write {
          case Wrote(n) =>
            nwrote := n;
            completed := n == size;
          case WriteFailed(errno) =>
            if errno != CM.EWOULDBLOCK {
              faultError := errno == CM.EPIPE || errno == CM.ECONNRESET;
            }
        }
      }
    }

    method Accept(m: CM.Message, nwrote: nat, completed: bool, ghost write: CM.WriteResult)
      requires outputBuffer.Valid() && CM.CanAnswer(write, |m.data|) && nwrote == CM.Direct(View(), write)
      requires completed <==> CM.WritesDirectly(View()) && write == CM.Wrote(|m.data|)
      modifies this`channelIsWriting, this`wire, this`accepted, this`done, this`notices,
               outputBuffer, outputBuffer.buf
      ensures outputBuffer.Valid() && View() == CM.Accept(old(View()), m, write)
      ensures outputBuffer.buf == old(outputBuffer.buf) || fresh(outputBuffer.buf)
    {
      wire, accepted, done := wire + m.data[..nwrote], accepted + m.data, done + [CM.Done(m, true)];
      if completed { NoteComplete(); }
      if nwrote < |m.data| { BufferRest(m.data[nwrote..]); }
    }

    method SendInLoop(m: CM.Message, write: CM.WriteResult)
      requires outputBuffer.Valid() && CM.CanAnswer(write, |m.data|)
      modifies this`channelIsWriting, this`wire, this`accepted, this`done, this`notices,
               outputBuffer, outputBuffer.buf
      ensures outputBuffer.Valid() && View() == CM.SendInLoop(old(View()), m, write)
      ensures outputBuffer.buf == old(outputBuffer.buf) || fresh(outputBuffer.buf)
    {
      if state.Disconnected? {
        done := done + [CM.Done(m, false)];
        return;
      }
      var nwrote, completed, faultError := TryWrite(|m.data|, write);
      if faultError {
        done := done + [CM.Done(m, false)];
      } else {
        Accept(m, nwrote, completed, write);
      }
    }

    // -------------------------------------------------------------- send

    /** The test in `send`. */
    method BeginSend(m: CM.Message) returns (goesOn: bool)
      requires Valid() && m.from !in calls
      modifies this`calls, this`sent
      ensures Valid() && View() == CM.Next(old(View()), CM.Send(m))
      ensures goesOn == state.Connected? && (goesOn ==> m.from in calls && calls[m.from] == CM.Sending(m))
    {
      CM.StepSound(View(), CM.Send(m));
      goesOn := state.Connected?;
      if goesOn {
        sent, calls := sent + [m], calls[m.from := CM.Sending(m)];
      }
    }

    /** What `send` does after its test. */
    method HandOver(m: CM.Message, write: CM.WriteResult)
      requires Valid() && m.from in calls && calls[m.from] == CM.Sending(m) && CM.CanAnswer(write, |m.data|)
      modifies this, outputBuffer, outputBuffer.buf
      ensures Valid() && View() == CM.Next(old(View()), CM.Act(m.from, write))
      ensures outputBuffer.buf == old(outputBuffer.buf) || fresh(outputBuffer.buf)
    {
      CM.StepSound(View(), CM.Act(m.from, write));
      calls := calls - {m.from};
      if m.from == CM.LOOP {
        SendInLoop(m, write);
      } else {
        loopTasks := loopTasks + [CM.SendTask(m)];
      }
    }

    /** `send` without interruption. */
    method Send(m: CM.Message, write: CM.WriteResult)
      requires Valid() && m.from !in calls && CM.CanAnswer(write, |m.data|)
      modifies this, outputBuffer, outputBuffer.buf
      ensures Valid()
      ensures View() == var c := CM.Next(old(View()), CM.Send(m));
                        if old(state).Connected? then CM.Next(c, CM.Act(m.from, write)) else c
      ensures outputBuffer.buf == old(outputBuffer.buf) || fresh(outputBuffer.buf)
    {
      var goesOn := BeginSend(m);
      if goesOn {
        HandOver(m, write);
      }
    }

    // -------------------------------------------------------------- shutdown

    method ShutdownInLoop()
      requires outputBuffer.Valid()
      modifies this`notices
      ensures View() == CM.ShutdownInLoop(old(View()))
    {
      if !channelIsWriting {
        notices := notices + [CM.HalfClose(disabled, |wire|, |accepted|)];
      }
    }

    /** The test in `shutdown`. */
    method BeginShutdown(from: CM.Thread) returns (goesOn: bool)
      requires Valid() && from !in calls
      modifies this`calls
      ensures Valid() && View() == CM.Next(old(View()), CM.Shutdown(from))
      ensures goesOn == state.Connected? && (goesOn ==> from in calls && calls[from] == CM.SettingDown)
    {
      CM.StepSound(View(), CM.Shutdown(from));
      goesOn := state.Connected?;
      if goesOn {
        calls := calls[from := CM.SettingDown];
      }
    }

    /** `setState(kDisconnected)` in `shutdown`. */
    method SetDown(from: CM.Thread)
      requires Valid() && from in calls && calls[from] == CM.SettingDown
      modifies this`state, this`calls
      ensures Valid() && View() == CM.Next(old(View()), CM.Act(from, CM.Wrote(0)))
      ensures from in calls && calls[from] == CM.QueueingDown
    {
      CM.StepSound(View(), CM.Act(from, CM.Wrote(0)));
      state, calls := CM.Disconnected, calls[from := CM.QueueingDown];
    }

    /** The `runInLoop` of `shutdown`. */
    method PassOnShutdown(from: CM.Thread)
      requires Valid() && from in calls && calls[from] == CM.QueueingDown
      modifies this`loopTasks, this`calls, this`notices
      ensures Valid() && View() == CM.Next(old(View()), CM.Act(from, CM.Wrote(0)))
    {
      CM.StepSound(View(), CM.Act(from, CM.Wrote(0)));
      calls := calls - {from};
      if from == CM.LOOP {
        ShutdownInLoop();
      } else {
        loopTasks := loopTasks + [CM.ShutdownTask];
      }
    }

    /** `shutdown` without interruption. */
    method Shutdown(from: CM.Thread)
      requires Valid() && from !in calls
      modifies this`state, this`loopTasks, this`calls, this`notices
      ensures Valid()
      ensures View() == var c, act := CM.Next(old(View()), CM.Shutdown(from)), CM.Act(from, CM.Wrote(0));
                        if old(state).Connected? then CM.Next(CM.Next(c, act), act) else c
    {
      var goesOn := BeginShutdown(from);
      if goesOn {
        SetDown(from);
        PassOnShutdown(from);
      }
    }

    // -------------------------------------------------------------- forceClose

    /** The test in `forceClose` and `forceCloseWithDelay`. */
    method BeginForceClose(from: CM.Thread, delayed: bool) returns (goesOn: bool)
      requires Valid() && from !in calls
      modifies this`calls
      ensures Valid() && View() == CM.Next(old(View()), CM.ForceClose(from, delayed))
      ensures goesOn == (state.Connected? || state.Disconnecting?)
      ensures goesOn ==> from in calls && calls[from] == CM.SettingClose(delayed)
    {
      CM.StepSound(View(), CM.ForceClose(from, delayed));
      goesOn := state.Connected? || state.Disconnecting?;
      if goesOn {
        calls := calls[from := CM.SettingClose(delayed)];
      }
    }

    /** `setState(kDisconnecting)`; with a delay the timer calls `forceClose` again. */
    method SetClose(from: CM.Thread, delayed: bool)
      requires Valid() && from in calls && calls[from] == CM.SettingClose(delayed)
      modifies this`state, this`calls
      ensures Valid() && View() == CM.Next(old(View()), CM.Act(from, CM.Wrote(0)))
      ensures !delayed ==> from in calls && calls[from] == CM.QueueingClose
    {
      CM.StepSound(View(), CM.Act(from, CM.Wrote(0)));
      state := CM.Disconnecting;
      calls := if delayed then calls - {from} else calls[from := CM.QueueingClose];
    }

    /** The `queueInLoop` of `forceClose`. */
    method PassOnForceClose(from: CM.Thread)
      requires Valid() && from in calls && calls[from] == CM.QueueingClose
      modifies this`loopTasks, this`calls
      ensures Valid() && View() == CM.Next(old(View()), CM.Act(from, CM.Wrote(0)))
    {
      CM.StepSound(View(), CM.Act(from, CM.Wrote(0)));
      calls := calls - {from};
      loopTasks := loopTasks + [CM.ForceCloseTask];
    }

    /** `forceClose` without interruption. */
    method ForceClose(from: CM.Thread)
      requires Valid() && from !in calls
      modifies this`state, this`loopTasks, this`calls
      ensures Valid()
      ensures View() == var c, act := CM.Next(old(View()), CM.ForceClose(from, false)), CM.Act(from, CM.Wrote(0));
                        if old(state).Connected? || old(state).Disconnecting? then CM.Next(CM.Next(c, act), act) else c
    {
      var goesOn := BeginForceClose(from, false);
      if goesOn {
        SetClose(from, false);
        PassOnForceClose(from);
      }
    }

    // -------------------------------------------------------------- the loop thread's events

    /** The state change of `connectEstablished`. */
    method ConnectEstablished()
      requires Valid() && state.Connecting?
      modifies this`state
      ensures Valid() && View() == CM.Next(old(View()), CM.Establish)
    {
      CM.StepSound(View(), CM.Establish);
      state := CM.Connected;
    }

    method WriteOut(write: CM.WriteResult)
      requires outputBuffer.Valid() && CM.CanAnswer(write, |outputBuffer.Content()|)
      modifies this`channelIsWriting, this`wire, this`notices, outputBuffer
      ensures outputBuffer.Valid() && View() == CM.HandleWrite(old(View()), write)
      ensures outputBuffer.buf == old(outputBuffer.buf)
    {
      if channelIsWriting && write.Wrote? && write.n > 0 {
        wire := wire + outputBuffer.Content()[..write.n];
        outputBuffer.Retrieve(write.n);
        if outputBuffer.ReadableBytes() == 0 {
          channelIsWriting := false;
          NoteComplete();
          if state.Disconnecting? {
            ShutdownInLoop();
          }
        }
      }
    }

    method HandleWrite(write: CM.WriteResult)
      requires Valid() && CM.Allowed(View(), CM.Writable(write))
      modifies this`channelIsWriting, this`wire, this`notices, outputBuffer
      ensures Valid() && View() == CM.Next(old(View()), CM.Writable(write))
      ensures outputBuffer.buf == old(outputBuffer.buf)
    {
      CM.StepSound(View(), CM.Writable(write));
      WriteOut(write);
    }

    /** The state change and `disableAll`. */
    method Disable()
      requires outputBuffer.Valid()
      modifies this`state, this`channelIsWriting, this`disabled
      ensures View() == CM.HandleClose(old(View()))
    {
      state, channelIsWriting, disabled := CM.Disconnected, false, true;
    }

    method HandleClose()
      requires Valid() && CM.LOOP !in calls
      modifies this`state, this`channelIsWriting, this`disabled
      ensures Valid() && View() == CM.Next(old(View()), CM.Close)
    {
      CM.StepSound(View(), CM.Close);
      Disable();
    }

    /** What `forceCloseInLoop` or `connectDestroyed` does after its test. */
    method FinishClosing()
      requires Valid() && CM.LOOP in calls && calls[CM.LOOP] == CM.Closing
      modifies this`state, this`channelIsWriting, this`disabled, this`calls
      ensures Valid() && View() == CM.Next(old(View()), CM.Act(CM.LOOP, CM.Wrote(0)))
    {
      CM.StepSound(View(), CM.Act(CM.LOOP, CM.Wrote(0)));
      calls := calls - {CM.LOOP};
      Disable();
    }

    /** The test in `connectDestroyed`. */
    method BeginDestroy() returns (goesOn: bool)
      requires Valid() && CM.LOOP !in calls
      modifies this`calls
      ensures Valid() && View() == CM.Next(old(View()), CM.Destroy)
      ensures goesOn == state.Connected? && (goesOn ==> CM.LOOP in calls && calls[CM.LOOP] == CM.Closing)
    {
      CM.StepSound(View(), CM.Destroy);
      goesOn := state.Connected?;
      if goesOn {
        calls := calls[CM.LOOP := CM.Closing];
      }
    }

    /** `connectDestroyed` without interruption. */
    method ConnectDestroyed()
      requires Valid() && CM.LOOP !in calls
      modifies this`state, this`channelIsWriting, this`disabled, this`calls
      ensures Valid()
      ensures View() == var c := CM.Next(old(View()), CM.Destroy);
                        if old(state).Connected? then CM.Next(c, CM.Act(CM.LOOP, CM.Wrote(0))) else c
    {
      var goesOn := BeginDestroy();
      if goesOn {
        FinishClosing();
      }
    }

    method RunFirst(write: CM.WriteResult)
      requires outputBuffer.Valid() && CM.Allowed(View(), CM.RunTask(write))
      modifies this, outputBuffer, outputBuffer.buf
      ensures outputBuffer.Valid() && View() == CM.RunFirst(old(View()), write)
      ensures outputBuffer.buf == old(outputBuffer.buf) || fresh(outputBuffer.buf)
    {
      var task := loopTasks[0];
      loopTasks := loopTasks[1..];
      match task
      case SendTask(m) => SendInLoop(m, write);
      case ShutdownTask => ShutdownInLoop();
      case ForceCloseTask =>
        if state.Connected? || state.Disconnected? {
          calls := calls[CM.LOOP := CM.Closing];
        }
    }

    /** The loop runs the connection's oldest task, `forceCloseInLoop` up to its test. */
    method RunTask(write: CM.WriteResult)
      requires Valid() && CM.Allowed(View(), CM.RunTask(write))
      modifies this, outputBuffer, outputBuffer.buf
      ensures Valid() && View() == CM.Next(old(View()), CM.RunTask(write))
      ensures outputBuffer.buf == old(outputBuffer.buf) || fresh(outputBuffer.buf)
    {
      CM.StepSound(View(), CM.RunTask(write));
      RunFirst(write);
    }
  }
}
