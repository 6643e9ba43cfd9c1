/** `Channel` and `EPoller` as objects; each operation is one step of `EPollerModel`. */
module EPollers {
  import opened Outcomes
  import opened EPollerModel

  /** How an `epoll_ctl` call ends; this library's `LOG_FATAL` writes its line and goes on, like `LOG_ERROR`. */
  datatype End = Done | LoggedError | LoggedFatal

  class Channel {
    const fd: int
    var events: Mask
    var index: Index

    constructor (fd: int)
      ensures this.fd == fd && events == NONE_EVENT && index == New
    {
      this.fd := fd;
      events, index := NONE_EVENT, New;
    }

    /** The mask part of `enableReading` to `disableAll`. */
    method SetMask(change: Change)
      modifies this`events
      ensures events == Apply(old(events), change)
    {
      match change
      case EnableReading => events := events | READ_EVENT;
      case DisableReading => events := events & !READ_EVENT;
      case EnableWriting => events := events | WRITE_EVENT;
      case DisableWriting => events := events & !WRITE_EVENT;
      case DisableAll => events := NONE_EVENT;
    }

    predicate IsNoneEvent()
      reads this
    {
      events == NONE_EVENT
    }

    predicate IsWriting()
      reads this
      ensures IsWriting() <==> events & WRITE_EVENT == WRITE_EVENT
    {
      events & WRITE_EVENT != 0
    }
  }

  class EPoller {
    var channels: map<int, Channel>
    var kernel: map<int, Interest<Channel>>
    ghost var live: set<Channel>      // the channels that exist

    ghost function View(): Poller<Channel>
      reads this, live
    {
      Poller(map c | c in live :: Chan(c.fd, c.events, c.index), channels, kernel)
    }

    constructor ()
      ensures View() == Poller(map[], map[], map[]) && live == {}
    {
      channels, kernel, live := map[], map[], {};
    }

    /** A channel with its own descriptor comes into being. */
    ghost method Open(c: Channel)
      requires Allowed(View(), EPollerModel.Open(c, c.fd)) && c.events == NONE_EVENT && c.index == New
      modifies this`live
      ensures Next(old(View()), EPollerModel.Open(c, c.fd)) == Ok(View())
    {
      ghost var before := View();
      live := live + {c};
      assert View().chans == before.chans[c := Chan(c.fd, NONE_EVENT, New)];
    }

    /** `update`: a call the kernel refuses changes nothing and is logged, as fatal unless it is a DEL. */
    method Update(op: Operation, c: Channel) returns (end: End)
      requires c in live
      modifies this`kernel
      ensures end.Done? <==> Control(old(View()), op, c).Ok?
      ensures end.Done? ==> Control(old(View()), op, c) == Ok(View())
      ensures !end.Done? ==> View() == old(View()) && (end.LoggedFatal? <==> op != DEL)
    {
      ghost var before := View();
      if (op == ADD) == (c.fd in kernel) {
        return if op == DEL then LoggedError else LoggedFatal;
      }
      end := Done;
      if op == DEL {
        kernel := kernel - {c.fd};
      } else {
        kernel := kernel[c.fd := Interest(c.events, c)];
      }
      assert View().chans == before.chans;
    }

    method UpdataChannel(c: Channel)
      requires c in live && UpdateChannel(View(), c).Ok?
      modifies this`channels, this`kernel, c`index
      ensures UpdateChannel(old(View()), c) == Ok(View())
    {
      ghost var before := View();
      if c.index == New || c.index == Deleted {
        if c.index == New {
          assert c.fd !in channels;
          channels := channels[c.fd := c];
        } else {
          assert c.fd in channels && channels[c.fd] == c;
          assert channels == channels[c.fd := c];
        }
        c.index := Added;
        assert View() == SetIndex(before.(channels := channels), c, Added);
        var end := Update(ADD, c);
        assert end.Done?;
      } else {
        assert c.fd in channels && channels[c.fd] == c;
        if c.IsNoneEvent() {
          var end := Update(DEL, c);
          assert end.Done?;
          ghost var deleted := View();
          c.index := Deleted;
          assert View() == SetIndex(deleted, c, Deleted);
        } else {
          var end := Update(MOD, c);
          assert end.Done?;
        }
      }
    }

    method RemoveChannel(c: Channel)
      requires c in live && EPollerModel.RemoveChannel(View(), c).Ok?
      modifies this`channels, this`kernel, c`index
      ensures EPollerModel.RemoveChannel(old(View()), c) == Ok(View())
      ensures c.index == New && channels == old(channels) - {c.fd}
      ensures kernel == if old(c.index) == Added then old(kernel) - {c.fd} else old(kernel)
    {
      assert c.fd in channels && channels[c.fd] == c && c.IsNoneEvent() && c.index != New;
      ghost var start := View();
      channels := channels - {c.fd};
      assert View() == start.(channels := channels) by { assert View().chans == start.chans; }
      if c.index == Added {
        var end := Update(DEL, c);
        assert end.Done?;
      }
      ghost var before := View();
      c.index := New;
      assert View() == SetIndex(before, c, New);
    }

    method HasChannel(c: Channel) returns (r: bool)
      requires Inv(View()) && c in live
      ensures r <==> c.index != New
    {
      r := c.fd in channels && channels[c.fd] == c;
      assert ChanOk(View(), c);
    }

    /** `enableReading` to `disableAll` on a channel of this poller: change the mask, then `update`. */
    method SetEvents(c: Channel, change: Change)
      requires c in live && Inv(View())
      modifies this`channels, this`kernel, c`events, c`index
      ensures Next(old(View()), Set(c, change)) == Ok(View()) && Inv(View())
      ensures c.events == Apply(old(c.events), change)
    {
      StepKeeps(View(), Set(c, change));
      ChangeMask(c, change);
      UpdataChannel(c);
    }

    method ChangeMask(c: Channel, change: Change)
      requires c in live
      modifies c`events
      ensures c.events == Apply(old(c.events), change)
      ensures View() == old(View()).(chans := old(View()).chans[c := old(View()).chans[c].(events := c.events)])
    {
      ghost var before := View();
      c.SetMask(change);
      assert View().chans == before.chans[c := before.chans[c].(events := c.events)];
    }

    /** `Channel::remove`. */
    method Remove(c: Channel)
      requires Inv(View()) && Allowed(View(), EPollerModel.Remove(c))
      modifies this`channels, this`kernel, c`index
      ensures Next(old(View()), EPollerModel.Remove(c)) == Ok(View()) && Inv(View())
      ensures c.index == New && c.fd !in channels && c.fd !in kernel
      ensures channels == old(channels) - {c.fd} && kernel == old(kernel) - {c.fd}
    {
      RemoveTakesOut(View(), c);
      StepKeeps(View(), EPollerModel.Remove(c));
      RemoveChannel(c);
    }
  }
}
