/**
  Channel registration as a step system: the poller's map, each channel's cached index, and the
  kernel's interest set. `P` is the type of channel pointers. Every assert, and every `epoll_ctl`
  the kernel would refuse, is a crash.
 */
module EPollerModel {
  import opened Outcomes

  /** An epoll event mask. */
  type Mask = bv8

  const NONE_EVENT: Mask := 0
  const READ_EVENT: Mask := 3      // EPOLLIN | EPOLLPRI
  const WRITE_EVENT: Mask := 4     // EPOLLOUT

  datatype Index = New | Added | Deleted

  datatype Chan = Chan(fd: int, events: Mask, index: Index)

  datatype Interest<P> = Interest(mask: Mask, channel: P)

  datatype Poller<P(==)> = Poller(chans: map<P, Chan>, channels: map<int, P>, kernel: map<int, Interest<P>>)

  datatype Change = EnableReading | DisableReading | EnableWriting | DisableWriting | DisableAll

  datatype Step<P> = Open(p: P, fd: int) | Set(p: P, change: Change) | Remove(p: P) | Destroy(p: P)

  datatype Operation = ADD | MOD | DEL

  /** A change sets or clears all bits of its own kind of event, and keeps every other bit. */
  function Apply(events: Mask, change: Change): (r: Mask)
    ensures r & 4 == if change.EnableWriting? then 4 else if change.DisableWriting? || change.DisableAll? then 0 else events & 4
    ensures r & 3 == if change.EnableReading? then 3 else if change.DisableReading? || change.DisableAll? then 0 else events & 3
    ensures r & 0xF8 == if change.DisableAll? then 0 else events & 0xF8
  {
    match change
    case EnableReading => events | READ_EVENT
    case DisableReading => events & !READ_EVENT
    case EnableWriting => events | WRITE_EVENT
    case DisableWriting => events & !WRITE_EVENT
    case DisableAll => NONE_EVENT
  }

  /** Channels live at a time have distinct descriptors; removal is for idle registered channels. */
  predicate Allowed<P>(s: Poller<P>, step: Step<P>) {
    match step
    case Open(p, fd) => p !in s.chans && forall q :: q in s.chans ==> s.chans[q].fd != fd
    case Set(p, _) => p in s.chans
    case Remove(p) => p in s.chans && s.chans[p].events == NONE_EVENT && s.chans[p].index != New
    case Destroy(p) => p in s.chans && s.chans[p].index == New
  }

  /** `update`: one `epoll_ctl` call, which the kernel refuses for a wrong registration state. */
  function Control<P>(s: Poller<P>, op: Operation, p: P): Outcome<Poller<P>>
    requires p in s.chans
  {
    var fd := s.chans[p].fd;
    if (op == ADD) == (fd in s.kernel) then Crash(KernelRefused)
    else if op == DEL then Ok(s.(kernel := s.kernel - {fd}))
    else Ok(s.(kernel := s.kernel[fd := Interest(s.chans[p].events, p)]))
  }

  /** The kernel refuses to add what it watches, and to change or delete what it does not. */
  lemma KernelRefusesIff<P>(s: Poller<P>, op: Operation, p: P)
    requires p in s.chans
    ensures Control(s, op, p).Ok? <==> if op == ADD then s.chans[p].fd !in s.kernel else s.chans[p].fd in s.kernel
  {
  }

  function SetIndex<P>(s: Poller<P>, p: P, index: Index): Poller<P>
    requires p in s.chans
  {
    s.(chans := s.chans[p := s.chans[p].(index := index)])
  }

  predicate Mapped<P(==)>(s: Poller<P>, p: P)
    requires p in s.chans
  {
    s.chans[p].fd in s.channels && s.channels[s.chans[p].fd] == p
  }

  /** `updataChannel`. */
  function UpdateChannel<P(==)>(s: Poller<P>, p: P): (r: Outcome<Poller<P>>)
    requires p in s.chans
    ensures r.Ok? ==> p in r.value.chans
  {
    var c := s.chans[p];
    if c.index == Added then
      var _ :- Check(Mapped(s, p));
      if c.events == NONE_EVENT then
        var s' :- Control(s, DEL, p);
        Ok(SetIndex(s', p, Deleted))
      else Control(s, MOD, p)
    else
      var _ :- Check(if c.index == New then c.fd !in s.channels else Mapped(s, p));
      Control(SetIndex(s.(channels := s.channels[c.fd := p]), p, Added), ADD, p)
  }

  /** `removeChannel`. */
  function RemoveChannel<P(==)>(s: Poller<P>, p: P): Outcome<Poller<P>>
    requires p in s.chans
  {
    var c := s.chans[p];
    var _ :- Check(Mapped(s, p));
    var _ :- Check(c.events == NONE_EVENT && c.index != New);
    var s' := s.(channels := s.channels - {c.fd});
    var s'' :- if c.index == Added then Control(s', DEL, p) else Ok(s');
    Ok(SetIndex(s'', p, New))
  }

  function Next<P(==)>(s: Poller<P>, step: Step<P>): Outcome<Poller<P>>
    requires Allowed(s, step)
  {
    match step
    case Open(p, fd) => Ok(s.(chans := s.chans[p := Chan(fd, NONE_EVENT, New)]))
    case Set(p, change) =>
      UpdateChannel(s.(chans := s.chans[p := s.chans[p].(events := Apply(s.chans[p].events, change))]), p)
    case Remove(p) => RemoveChannel(s, p)
    case Destroy(p) => Ok(s.(chans := s.chans - {p}))
  }

  predicate IsRun<P(==)>(s: Poller<P>, steps: seq<Step<P>>)
    decreases |steps|
  {
    steps == [] ||
    (Allowed(s, steps[0]) && (Next(s, steps[0]).Ok? ==> IsRun(Next(s, steps[0]).value, steps[1..])))
  }

  function Exec<P(==)>(s: Poller<P>, steps: seq<Step<P>>): Outcome<Poller<P>>
    requires IsRun(s, steps)
    decreases |steps|
  {
    if steps == [] then Ok(s)
    else
      var s' :- Next(s, steps[0]);
      Exec(s', steps[1..])
  }

  // ---------------------------------------------------------------- invariant

  /** What a channel's cached index says about the map and the kernel. */
  predicate ChanOk<P(==)>(s: Poller<P>, p: P)
    requires p in s.chans
  {
    var c := s.chans[p];
    match c.index
    case New => c.fd !in s.channels && c.fd !in s.kernel && c.events == NONE_EVENT
    case Deleted => Mapped(s, p) && c.fd !in s.kernel && c.events == NONE_EVENT
    case Added => Mapped(s, p) && c.fd in s.kernel && s.kernel[c.fd] == Interest(c.events, p)
  }

  ghost predicate Inv<P>(s: Poller<P>) {
    && (forall p :: p in s.chans ==> ChanOk(s, p))
    && (forall p, q :: p in s.chans && q in s.chans && p != q ==> s.chans[p].fd != s.chans[q].fd)
    && (forall fd :: fd in s.channels ==> s.channels[fd] in s.chans && s.chans[s.channels[fd]].fd == fd)
    && (forall fd :: fd in s.kernel ==> s.kernel[fd].channel in s.chans && s.chans[s.kernel[fd].channel].fd == fd)
  }

  lemma SameElsewhere<V>(m: map<int, V>, m': map<int, V>, fd: int)
    requires m' - {fd} == m - {fd}
    ensures forall d :: d != fd ==> (d in m' <==> d in m) && (d in m ==> m'[d] == m[d])
  {
    forall d | d != fd ensures (d in m' <==> d in m) && (d in m ==> m'[d] == m[d]) {
      assert d in m' <==> d in m' - {fd};
      assert d in m <==> d in m - {fd};
      if d in m { assert m[d] == (m - {fd})[d] && m'[d] == (m' - {fd})[d]; }
    }
  }

  /** Only what belongs to channel `p` differs, and it is sound afterwards. */
  predicate AboutOne<P(==)>(s: Poller<P>, s': Poller<P>, p: P) {
    && p in s.chans && p in s'.chans && s'.chans[p].fd == s.chans[p].fd
    && s'.chans == s.chans[p := s'.chans[p]]
    && s'.channels - {s.chans[p].fd} == s.channels - {s.chans[p].fd}
    && s'.kernel - {s.chans[p].fd} == s.kernel - {s.chans[p].fd}
    && ChanOk(s', p)
  }

  lemma SetIsLocal<P>(s: Poller<P>, p: P, change: Change)
    requires p in s.chans && ChanOk(s, p)
    ensures Next(s, Set(p, change)).Ok? && AboutOne(s, Next(s, Set(p, change)).value, p)
  {
  }

  lemma RemoveIsLocal<P>(s: Poller<P>, p: P)
    requires Allowed(s, Remove(p)) && ChanOk(s, p)
    ensures Next(s, Remove(p)).Ok? && AboutOne(s, Next(s, Remove(p)).value, p)
  {
  }

  /** A step about one channel that leaves it sound keeps all others sound. */
  lemma OneChannel<P>(s: Poller<P>, s': Poller<P>, p: P)
    requires Inv(s) && AboutOne(s, s', p)
    ensures Inv(s')
  {
    var fd := s.chans[p].fd;
    SameElsewhere(s.channels, s'.channels, fd);
    SameElsewhere(s.kernel, s'.kernel, fd);
    forall q | q in s'.chans ensures ChanOk(s', q) {
      if q != p { assert ChanOk(s, q); }
    }
  }

  lemma SetKeeps<P>(s: Poller<P>, p: P, change: Change)
    requires Inv(s) && Allowed(s, Set(p, change))
    ensures Next(s, Set(p, change)).Ok? && Inv(Next(s, Set(p, change)).value)
  {
    SetIsLocal(s, p, change);
    OneChannel(s, Next(s, Set(p, change)).value, p);
  }

  /**
    After a removal the channel is new: its descriptor is in neither the map nor the kernel set. Its
    mask, the other channels, and the entries of all other descriptors are as they were.
   */
  lemma RemoveTakesOut<P>(s: Poller<P>, p: P)
    requires Inv(s) && Allowed(s, Remove(p))
    ensures Next(s, Remove(p)).Ok?
    ensures var s', fd := Next(s, Remove(p)).value, s.chans[p].fd;
            && s'.chans == s.chans[p := Chan(fd, s.chans[p].events, New)]
            && s'.channels == s.channels - {fd} && s'.kernel == s.kernel - {fd}
  {
    assert ChanOk(s, p);
    if s.chans[p].fd !in s.kernel { assert s.kernel - {s.chans[p].fd} == s.kernel; }
  }

  /**
    After a change of mask the channel is watched for exactly its events if there are any, or if it
    was not watched before; it is in the map in any case, and nothing of other descriptors changes.
   */
  lemma SetRegisters<P>(s: Poller<P>, p: P, change: Change)
    requires Inv(s) && Allowed(s, Set(p, change))
    ensures Next(s, Set(p, change)).Ok?
    ensures var s', c, events := Next(s, Set(p, change)).value, s.chans[p], Apply(s.chans[p].events, change);
            var watched := events != 0 || c.index != Added;
            && s'.chans == s.chans[p := Chan(c.fd, events, if watched then Added else Deleted)]
            && s'.channels == s.channels[c.fd := p]
            && s'.kernel == if watched then s.kernel[c.fd := Interest(events, p)] else s.kernel - {c.fd}
  {
    assert ChanOk(s, p);
  }

  lemma RemoveKeeps<P>(s: Poller<P>, p: P)
    requires Inv(s) && Allowed(s, Remove(p))
    ensures Next(s, Remove(p)).Ok? && Inv(Next(s, Remove(p)).value)
  {
    RemoveIsLocal(s, p);
    OneChannel(s, Next(s, Remove(p)).value, p);
  }

  lemma OpenKeeps<P>(s: Poller<P>, p: P, fd: int)
    requires Inv(s) && Allowed(s, Open(p, fd))
    ensures Inv(Next(s, Open(p, fd)).value)
  {
    var s' := Next(s, Open(p, fd)).value;
    forall q | q in s'.chans ensures ChanOk(s', q) {
      if q in s.chans { assert ChanOk(s, q); }
    }
  }

  lemma DestroyKeeps<P>(s: Poller<P>, p: P)
    requires Inv(s) && Allowed(s, Destroy(p))
    ensures Inv(Next(s, Destroy(p)).value)
  {
    var s' := Next(s, Destroy(p)).value;
    assert ChanOk(s, p);
    forall q | q in s'.chans ensures ChanOk(s', q) {
      assert ChanOk(s, q);
    }
  }

  lemma StepKeeps<P>(s: Poller<P>, step: Step<P>)
    requires Inv(s) && Allowed(s, step)
    ensures Next(s, step).Ok? && Inv(Next(s, step).value)
  {
    match step
    case Open(p, fd) => OpenKeeps(s, p, fd);
    case Set(p, change) => SetKeeps(s, p, change);
    case Remove(p) => RemoveKeeps(s, p);
    case Destroy(p) => DestroyKeeps(s, p);
  }

  lemma {:induction false} RunSafe<P>(s: Poller<P>, steps: seq<Step<P>>)
    requires Inv(s) && IsRun(s, steps)
    ensures Exec(s, steps).Ok? && Inv(Exec(s, steps).value)
    decreases |steps|
  {
    if steps != [] {
      StepKeeps(s, steps[0]);
      RunSafe(Next(s, steps[0]).value, steps[1..]);
    }
  }

  /**
    In every run, no assert fails, every ADD targets an absent descriptor and every MOD and DEL a
    present one; and the kernel watches a channel's descriptor exactly when its index says so,
    for exactly the channel's events, on the channel's behalf.
   */
  lemma KernelFollowsChannels<P>(steps: seq<Step<P>>, p: P)
    requires IsRun(Poller(map[], map[], map[]), steps)
    ensures Exec(Poller(map[], map[], map[]), steps).Ok?
    ensures var s := Exec(Poller(map[], map[], map[]), steps).value;
            p in s.chans ==>
              var c := s.chans[p];
              && (c.fd in s.kernel <==> c.index == Added)
              && (c.fd in s.channels <==> c.index != New) && (c.index != New ==> Mapped(s, p))
              && (c.index == Added ==> s.kernel[c.fd] == Interest(c.events, p))
              && (c.events != NONE_EVENT ==> c.index == Added)
  {
    RunSafe(Poller(map[], map[], map[]), steps);
    var s := Exec(Poller(map[], map[], map[]), steps).value;
    if p in s.chans { assert ChanOk(s, p); }
  }

  /**
    A change that leaves the mask empty does not mean "unregistered": it takes a watched descriptor
    out of the kernel set, but puts an unwatched one in, with an empty mask.
   */
  lemma EmptyChangeToggles<P>(s: Poller<P>, p: P, change: Change)
    requires Inv(s) && p in s.chans && Apply(s.chans[p].events, change) == NONE_EVENT
    ensures Next(s, Set(p, change)).Ok?
    ensures var s' := Next(s, Set(p, change)).value;
            s.chans[p].fd in s'.kernel <==> s.chans[p].fd !in s.kernel
  {
    assert ChanOk(s, p);
    StepKeeps(s, Set(p, change));
  }
}
