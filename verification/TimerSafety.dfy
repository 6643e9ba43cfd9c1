/** Safety of the loop thread's timer code over every run: no assert fails and no freed timer is touched. */
module TimerSafety {
  import opened Outcomes
  import opened TimerSets
  import opened TimerMachine

  // ---------------------------------------------------------------- new Timer

  lemma CreateHeap(s: Queue, a: nat, when: Time, interval: real)
    requires HeapOk(s) && Allowed(s, Create(a, when, interval))
    ensures HeapOk(CreateTimer(s, a, when, interval)) && s.numCreated + 1 !in s.ids
    ensures forall q :: q in s.ids ==> (Live(CreateTimer(s, a, when, interval), q) <==> Live(s, q))
  {
    var s' := CreateTimer(s, a, when, interval);
    assert s'.numCreated !in s.ids;
    assert forall q :: q in s.ids ==> (Live(s', q) <==> Live(s, q));
  }

  /** The new timer gets a number no timer ever had, whatever lived at its address. */
  lemma CreateKeeps(s: Queue, a: nat, when: Time, interval: real)
    requires Inv(s) && Allowed(s, Create(a, when, interval))
    ensures Inv(CreateTimer(s, a, when, interval))
    ensures CreateTimer(s, a, when, interval).heap[a].sequence !in s.ids
  {
    var s' := CreateTimer(s, a, when, interval);
    CreateHeap(s, a, when, interval);
    forall i | 0 <= i < |s.batch| ensures BatchEntryOk(s', i) {
      assert BatchEntryOk(s, i);
    }
    assert BatchOk(s');
  }

  // ---------------------------------------------------------------- insert

  lemma InsertOk(s: Queue, a: nat)
    requires IndexOk(s) && a in s.heap && Id(a, s.heap[a].sequence) !in s.active
    ensures InsertTimer(s, a) == Ok(s.(timers := Insert(s.timers, Entry(s.heap[a].expiration, a)),
                                       active := s.active + {Id(a, s.heap[a].sequence)}))
    ensures IndexOk(InsertTimer(s, a).value)
  {
    InsertCorrect(s.timers, Entry(s.heap[a].expiration, a));
  }

  lemma SameHeap(s: Queue, s': Queue)
    requires HeapOk(s)
    requires s'.heap == s.heap && s'.ids == s.ids && s'.freed == s.freed && s'.numCreated == s.numCreated
    ensures HeapOk(s') && forall q :: Live(s', q) <==> Live(s, q)
  {
    assert forall q :: Live(s', q) <==> Live(s, q);
  }

  /** The timer at `a` is the same after the step, and still owned by the batch alone. */
  predicate StaysInBatch(s: Queue, s': Queue, a: nat) {
    && a in s.heap && a in s'.heap && s'.heap[a] == s.heap[a]
    && a !in s'.detached && Id(a, s.heap[a].sequence) !in s'.active
  }

  /** The batch survives a step that leaves its phase and its timers alone. */
  lemma SameBatch(s: Queue, s': Queue)
    requires BatchOk(s)
    requires s'.phase == s.phase && s'.batch == s.batch && s'.calling == s.calling && s'.ids == s.ids
    requires forall i :: 0 <= i < |s.batch| ==> StaysInBatch(s, s', Expired(s)[i].timer)
    ensures BatchOk(s')
  {
    forall i | 0 <= i < |s.batch| ensures BatchEntryOk(s', i) {
      assert BatchEntryOk(s, i);
      assert StaysInBatch(s, s', Expired(s)[i].timer);
    }
  }

  lemma AddBatch(s: Queue, s': Queue, a: nat)
    requires HeapOk(s) && BatchOk(s) && a in s.detached && a in s.heap
    requires s'.phase == s.phase && s'.batch == s.batch && s'.calling == s.calling && s'.ids == s.ids
    requires s'.heap == s.heap && s'.detached == s.detached - {a}
    requires s'.active == s.active + {Id(a, s.heap[a].sequence)}
    ensures BatchOk(s')
  {
    forall i | 0 <= i < |s.batch| ensures StaysInBatch(s, s', Expired(s)[i].timer) {
      assert BatchEntryOk(s, i);
    }
    SameBatch(s, s');
  }

  lemma AddOwners(s: Queue, s': Queue, a: nat)
    requires HeapOk(s) && OwnersOk(s) && a in s.detached
    requires s'.heap == s.heap && s'.ids == s.ids && s'.batch == s.batch && s'.detached == s.detached - {a}
    requires s'.accepted == s.accepted + {s.heap[a].sequence}
    requires s'.active == s.active + {Id(a, s.heap[a].sequence)}
    ensures OwnersOk(s')
  {
    assert forall q :: Live(s', q) <==> Live(s, q);
  }

  lemma AddKeeps(s: Queue, a: nat)
    requires Inv(s) && Allowed(s, Add(a))
    ensures AddTimerInLoop(s, a).Ok? && Inv(AddTimerInLoop(s, a).value)
  {
    InsertOk(s, a);
    var i := InsertTimer(s, a).value;
    var s' := AddTimerInLoop(s, a).value;
    assert s' == s.(timers := i.timers, active := i.active, fd := s'.fd, detached := s.detached - {a},
                    accepted := s.accepted + {s.heap[a].sequence});
    SameHeap(s, s');
    AddBatch(s, s', a);
    AddOwners(s, s', a);
  }

  // ---------------------------------------------------------------- delete

  /** Deleting a live timer keeps the heap accounts and kills exactly that timer. */
  lemma DeleteHeap(s: Queue, a: nat, s': Queue)
    requires HeapOk(s) && a in s.heap && s'.ids == s.ids && s'.numCreated == s.numCreated
    requires s'.heap == s.heap - {a} && s'.freed == s.freed + [s.heap[a].sequence]
    ensures HeapOk(s') && forall q :: Live(s', q) <==> Live(s, q) && q != s.heap[a].sequence
  {
    assert forall q :: q in s'.freed <==> q in s.freed || q == s.heap[a].sequence;
    assert forall q :: Live(s', q) <==> Live(s, q) && q != s.heap[a].sequence;
  }

  lemma CancelShape(s: Queue, id: Id)
    requires |s.timers| == |s.active| && id in s.active && id.timer in s.heap && s.heap[id.timer].sequence == id.sequence
    requires var entry := Entry(s.heap[id.timer].expiration, id.timer);
             entry in s.timers && |Erase(s.timers, entry)| == |s.timers| - 1
    ensures var entry := Entry(s.heap[id.timer].expiration, id.timer);
            CancelInLoop(s, id) == Ok(s.(timers := Erase(s.timers, entry), active := s.active - {id},
                                         heap := s.heap - {id.timer}, freed := s.freed + [id.sequence]))
  {
  }

  /** Taking one timer out of both indexes and the heap leaves the others in both. */
  lemma ErasedIndex(s: Queue, id: Id, s': Queue)
    requires IndexOk(s) && id in s.active && s'.heap == s.heap - {id.timer} && s'.active == s.active - {id}
    requires s'.timers == Erase(s.timers, Entry(s.heap[id.timer].expiration, id.timer))
    ensures IndexOk(s')
  {
    EraseCorrect(s.timers, Entry(s.heap[id.timer].expiration, id.timer));
  }

  lemma CancelIndex(s: Queue, id: Id)
    requires IndexOk(s) && id in s.active
    ensures var entry := Entry(s.heap[id.timer].expiration, id.timer);
            CancelInLoop(s, id) == Ok(s.(timers := Erase(s.timers, entry), active := s.active - {id},
                                         heap := s.heap - {id.timer}, freed := s.freed + [id.sequence]))
    ensures IndexOk(CancelInLoop(s, id).value)
  {
    EraseCorrect(s.timers, Entry(s.heap[id.timer].expiration, id.timer));
    CancelShape(s, id);
    ErasedIndex(s, id, CancelInLoop(s, id).value);
  }

  lemma CancelOwners(s: Queue, id: Id, s': Queue)
    requires Inv(s) && id in s.active && Live(s, id.sequence) && s.ids[id.sequence] == id.timer
    requires s' == s.(timers := s'.timers, active := s.active - {id},
                      heap := s.heap - {id.timer}, freed := s.freed + [id.sequence])
    ensures BatchOk(s') && OwnersOk(s')
  {
    forall i | 0 <= i < |s.batch| ensures StaysInBatch(s, s', Expired(s)[i].timer) {
      assert BatchEntryOk(s, i);
    }
    SameBatch(s, s');
    assert forall q :: Live(s', q) <==> Live(s, q) && q != id.sequence;
  }

  lemma CancelActive(s: Queue, id: Id)
    requires Inv(s) && id in s.active
    ensures CancelInLoop(s, id).Ok? && Inv(CancelInLoop(s, id).value)
  {
    CancelIndex(s, id);
    var s' := CancelInLoop(s, id).value;
    DeleteHeap(s, id.timer, s');
    CancelOwners(s, id, s');
  }

  lemma CancelOther(s: Queue, id: Id)
    requires Inv(s) && id !in s.active
    ensures CancelInLoop(s, id).Ok? && Inv(CancelInLoop(s, id).value)
  {
    var s' := CancelInLoop(s, id).value;
    SameHeap(s, s');
    forall i | 0 <= i < |s.batch| ensures StaysInBatch(s, s', Expired(s)[i].timer) {
      assert BatchEntryOk(s, i);
    }
    SameBatch(s, s');
  }

  // ---------------------------------------------------------------- getExpired

  /** `id` is the id of the timer behind one of the entries. */
  predicate Names(s: Queue, entries: seq<Entry>, id: Id) {
    && id.timer in s.heap && s.heap[id.timer].sequence == id.sequence
    && Entry(s.heap[id.timer].expiration, id.timer) in entries
  }

  predicate Faithful(s: Queue, e: Entry) {
    e.timer in s.heap && s.heap[e.timer].expiration == e.when
  }

  lemma {:induction false} EraseActiveOk(s: Queue, active: set<Id>, entries: seq<Entry>)
    requires Sorted(entries)
    requires forall e :: e in entries ==> Faithful(s, e) && Id(e.timer, s.heap[e.timer].sequence) in active
    ensures var r := EraseActive(s.heap, active, entries);
            && r.Ok? && |r.value| == |active| - |entries|
            && forall id :: id in r.value <==> id in active && !Names(s, entries, id)
    decreases |entries|
  {
    if entries != [] {
      var e, rest := entries[0], entries[1..];
      assert entries == [e] + rest && e in entries;
      var id := Id(e.timer, s.heap[e.timer].sequence);
      forall x | x in rest ensures Faithful(s, x) && x.timer != e.timer {
        var i :| 1 <= i < |entries| && entries[i] == x;
        assert x in entries && Less(entries[0], entries[i]);
      }
      EraseActiveOk(s, active - {id}, rest);
      assert forall y :: Names(s, entries, y) <==> Names(s, rest, y) || y == id;
    }
  }

  lemma {:induction false} SequencesOk(s: Queue, entries: seq<Entry>)
    requires forall e :: e in entries ==> e.timer in s.heap
    ensures var r := SequencesOf(s.heap, entries);
            r.Ok? && |r.value| == |entries|
            && forall i :: 0 <= i < |entries| ==> r.value[i] == s.heap[entries[i].timer].sequence
    decreases |entries|
  {
    if entries != [] {
      assert forall x :: x in entries[1..] ==> x in entries;
      SequencesOk(s, entries[1..]);
    }
  }

  /** What one firing does to the fields, given sound indexes. */
  lemma FireShape(s: Queue, now: Time)
    requires HeapOk(s) && IndexOk(s)
    ensures var k := DueCount(s, now);
            var r := FireTimers(s, now);
            && r.Ok?
            && r.value == s.(timers := s.timers[k..], active := r.value.active, calling := true, canceling := {},
                             fd := s.fd.(ready := false), phase := Calling(now, s.timers[..k], 0), batch := r.value.batch)
            && |r.value.active| == |s.timers| - k
            && (forall id :: id in r.value.active <==> id in s.active && !Names(s, s.timers[..k], id))
            && |r.value.batch| == k
            && forall i :: 0 <= i < k ==> r.value.batch[i] == s.heap[s.timers[i].timer].sequence
  {
    var k := DueCount(s, now);
    SentrySplits(s.timers, now);
    if k < |s.timers| { SentryPosition(s.timers, now, k); }
    EraseActiveOk(s, s.active, s.timers[..k]);
    SequencesOk(s, s.timers[..k]);
  }

  /** The fields after a firing, as `FireShape` gives them. */
  ghost predicate Fired(s: Queue, now: Time, s': Queue) {
    var k := DueCount(s, now);
    && s' == s.(timers := s.timers[k..], active := s'.active, calling := true, canceling := {},
                fd := s'.fd, phase := Calling(now, s.timers[..k], 0), batch := s'.batch)
    && |s'.active| == |s.timers| - k
    && (forall id :: id in s'.active <==> id in s.active && !Names(s, s.timers[..k], id))
    && |s'.batch| == k
    && forall i :: 0 <= i < k ==> s.timers[i].timer in s.heap
                                  && s'.batch[i] == s.heap[s.timers[i].timer].sequence
  }

  lemma FireIndex(s: Queue, now: Time, s': Queue)
    requires HeapOk(s) && IndexOk(s) && Fired(s, now, s')
    ensures IndexOk(s')
  {
    SentrySplits(s.timers, now);
  }

  lemma FireBatch(s: Queue, now: Time, s': Queue)
    requires HeapOk(s) && IndexOk(s) && OwnersOk(s) && Fired(s, now, s')
    ensures BatchOk(s')
  {
    var k := DueCount(s, now);
    SentrySplits(s.timers, now);
    forall i | 0 <= i < k ensures BatchEntryOk(s', i) && s.timers[i].when <= now {
      assert s.timers[i] in s.timers[..k];
      assert Names(s, s.timers[..k], Id(s.timers[i].timer, s'.batch[i]));
    }
    forall i, j | 0 <= i < j < k ensures s'.batch[i] != s'.batch[j] {
      assert Less(s.timers[i], s.timers[j]);
      assert BatchEntryOk(s', i) && BatchEntryOk(s', j);
    }
  }

  lemma FireOwners(s: Queue, now: Time, s': Queue)
    requires HeapOk(s) && IndexOk(s) && OwnersOk(s) && s.batch == [] && Fired(s, now, s')
    ensures OwnersOk(s')
  {
    var k := DueCount(s, now);
    assert forall q :: Live(s', q) <==> Live(s, q);
    forall a | a in s.heap && a !in s.detached && Id(a, s.heap[a].sequence) !in s'.active
      ensures s.heap[a].sequence in s'.batch
    {
      var e := Entry(s.heap[a].expiration, a);
      assert e in s.timers[..k];
      var i :| 0 <= i < k && s.timers[..k][i] == e;
      assert s'.batch[i] == s.heap[a].sequence;
    }
  }

  lemma FireKeeps(s: Queue, now: Time)
    requires Inv(s) && Allowed(s, Fire(now))
    ensures FireTimers(s, now).Ok? && Inv(FireTimers(s, now).value) && Fired(s, now, FireTimers(s, now).value)
  {
    FireShape(s, now);
    var s' := FireTimers(s, now).value;
    SameHeap(s, s');
    FireIndex(s, now, s');
    FireBatch(s, now, s');
    FireOwners(s, now, s');
  }

  // ---------------------------------------------------------------- callbacks and reset

  lemma RunKeeps(s: Queue)
    requires Inv(s) && Allowed(s, RunNext)
    ensures var e, q := s.phase.expired[s.phase.next], s.batch[s.phase.next];
            e.timer in s.heap && s.heap[e.timer].sequence == q && q !in s.freed
    ensures RunCallback(s).Ok? && Inv(RunCallback(s).value)
  {
    assert BatchEntryOk(s, s.phase.next);
    var s' := RunCallback(s).value;
    SameHeap(s, s');
    forall i | 0 <= i < |s.batch| ensures BatchEntryOk(s', i) {
      assert BatchEntryOk(s, i);
    }
  }

  lemma EndCallsKeeps(s: Queue)
    requires Inv(s) && Allowed(s, EndCalls)
    ensures Inv(Next(s, EndCalls).value)
  {
    var s' := Next(s, EndCalls).value;
    SameHeap(s, s');
    forall i | 0 <= i < |s.batch| ensures BatchEntryOk(s', i) {
      assert BatchEntryOk(s, i);
    }
  }

  lemma PopBatchOk(s: Queue, s': Queue)
    requires BatchOk(s) && Allowed(s, ResetNext) && s.batch != []
    requires s'.phase.Resetting? && s'.phase.now == s.phase.now && s'.phase.rest == s.phase.rest[1..]
    requires s'.batch == s.batch[1..] && s'.calling == s.calling && s'.ids == s.ids && s'.detached == s.detached
    requires forall b :: b in s.heap && b != s.phase.rest[0].timer ==> b in s'.heap && s'.heap[b] == s.heap[b]
    requires forall id :: id in s'.active && id.timer != s.phase.rest[0].timer ==> id in s.active
    ensures BatchOk(s')
  {
    assert BatchEntryOk(s, 0);
    forall i | 0 <= i < |s'.batch| ensures BatchEntryOk(s', i) {
      assert BatchEntryOk(s, i + 1) && s.batch[0] != s.batch[i + 1];
    }
  }

  lemma RestartOwners(s: Queue, a: nat, s': Queue)
    requires HeapOk(s) && OwnersOk(s) && s.batch != [] && a in s.heap && a !in s.detached
    requires s.heap[a].sequence == s.batch[0] && s'.batch == s.batch[1..]
    requires a in s'.heap && s'.heap.Keys == s.heap.Keys && s'.heap[a].sequence == s.heap[a].sequence
    requires forall b :: b in s.heap && b != a ==> s'.heap[b] == s.heap[b]
    requires s'.ids == s.ids && s'.detached == s.detached && s'.accepted == s.accepted
    requires s'.active == s.active + {Id(a, s.heap[a].sequence)}
    ensures OwnersOk(s')
  {
    assert s.batch == [s.batch[0]] + s'.batch;
    assert forall q :: Live(s', q) <==> Live(s, q);
  }

  lemma RestartHeap(s: Queue, a: nat, s': Queue)
    requires HeapOk(s) && a in s.heap && s'.heap.Keys == s.heap.Keys && s'.heap[a].sequence == s.heap[a].sequence
    requires forall b :: b in s.heap && b != a ==> s'.heap[b] == s.heap[b]
    requires s'.ids == s.ids && s'.freed == s.freed && s'.numCreated == s.numCreated
    ensures HeapOk(s')
  {
    assert forall q :: Live(s', q) <==> Live(s, q);
  }

  lemma RestartIndex(s: Queue, a: nat, s': Queue)
    requires IndexOk(s) && a in s.heap && Id(a, s.heap[a].sequence) !in s.active
    requires s'.timers == s.timers && s'.active == s.active && s'.heap.Keys == s.heap.Keys
    requires forall b :: b in s.heap && b != a ==> s'.heap[b] == s.heap[b]
    ensures IndexOk(s')
  {
  }

  lemma DeleteIndex(s: Queue, a: nat, s': Queue)
    requires IndexOk(s) && a in s.heap && Id(a, s.heap[a].sequence) !in s.active
    requires s'.timers == s.timers && s'.active == s.active && s'.heap == s.heap - {a}
    ensures IndexOk(s')
  {
  }

  lemma DeleteOwners(s: Queue, a: nat, s': Queue)
    requires HeapOk(s) && OwnersOk(s) && s.batch != [] && a in s.heap && a !in s.detached
    requires s.heap[a].sequence == s.batch[0] && s'.batch == s.batch[1..]
    requires s'.heap == s.heap - {a} && s'.active == s.active
    requires s'.ids == s.ids && s'.detached == s.detached && s'.accepted == s.accepted
    ensures OwnersOk(s')
  {
    assert s.batch == [s.batch[0]] + s'.batch;
    assert forall q :: Live(s', q) <==> Live(s, q) && q != s.heap[a].sequence;
  }

  /** Re-arming reads one live timer and changes only the kernel timer and a local variable. */
  lemma RearmOk(s: Queue)
    requires IndexOk(s) && s.phase.Resetting?
    ensures var r := Rearm(s);
            && r.Ok? && r.value == s.(phase := r.value.phase, fd := r.value.fd)
            && r.value.phase == s.phase.(nextExpire := r.value.phase.nextExpire)
            && (s.timers != [] && s.timers[0].when > EPOCH ==> r.value.fd == TimerFd(Some(s.timers[0].when), false))
            && (s.timers == [] && s.phase.nextExpire <= EPOCH ==> r.value.fd == s.fd)
            && r.value.phase.nextExpire == if s.timers == [] then s.phase.nextExpire else s.timers[0].when
  {
    if s.timers != [] { assert s.timers[0] in s.timers; }
  }

  /** Whether the first entry of the batch is to be scheduled again. */
  predicate Restarts(s: Queue)
    requires Allowed(s, ResetNext)
  {
    var a := s.phase.rest[0].timer;
    a in s.heap && s.heap[a].Repeat() && Id(a, s.heap[a].sequence) !in s.canceling
  }

  lemma RestartShape(s: Queue)
    requires Inv(s) && Allowed(s, ResetNext) && Restarts(s)
    ensures var a := s.phase.rest[0].timer;
            var t := s.heap[a].Restart(s.phase.now);
            var r := RestartOrDelete(s);
            && r == Ok(s.(phase := s.phase.(rest := s.phase.rest[1..]), batch := s.batch[1..],
                          heap := s.heap[a := t], timers := Insert(s.timers, Entry(t.expiration, a)),
                          active := s.active + {Id(a, t.sequence)}))
            && IndexOk(r.value)
  {
    assert BatchEntryOk(s, 0);
    var a := s.phase.rest[0].timer;
    var s1 := s.(phase := s.phase.(rest := s.phase.rest[1..]), batch := s.batch[1..],
                 heap := s.heap[a := s.heap[a].Restart(s.phase.now)]);
    RestartIndex(s, a, s1);
    InsertOk(s1, a);
  }

  lemma RestartKeeps(s: Queue)
    requires Inv(s) && Allowed(s, ResetNext) && Restarts(s)
    ensures RestartOrDelete(s).Ok? && Inv(RestartOrDelete(s).value)
  {
    assert BatchEntryOk(s, 0);
    RestartShape(s);
    var a := s.phase.rest[0].timer;
    var s' := RestartOrDelete(s).value;
    RestartHeap(s, a, s');
    PopBatchOk(s, s');
    RestartOwners(s, a, s');
  }

  lemma DropKeeps(s: Queue)
    requires Inv(s) && Allowed(s, ResetNext) && !Restarts(s)
    ensures var a := s.phase.rest[0].timer;
            var r := RestartOrDelete(s);
            && a in s.heap && s.batch != [] && s.heap[a].sequence == s.batch[0]
            && r == Ok(s.(phase := s.phase.(rest := s.phase.rest[1..]), batch := s.batch[1..],
                          heap := s.heap - {a}, freed := s.freed + [s.heap[a].sequence]))
            && Inv(r.value)
  {
    assert BatchEntryOk(s, 0);
    var a := s.phase.rest[0].timer;
    var s' := RestartOrDelete(s).value;
    DeleteHeap(s, a, s');
    DeleteIndex(s, a, s');
    PopBatchOk(s, s');
    DeleteOwners(s, a, s');
  }

  /** The frame of one iteration of `reset`. */
  predicate ResetFrame(s: Queue, s': Queue, restarted: bool) {
    && s.batch != [] && s.phase.Resetting? && s.phase.rest != [] && s'.phase.Resetting?
    && s' == s.(heap := s'.heap, timers := s'.timers, active := s'.active, fd := s'.fd, phase := s'.phase,
                batch := s.batch[1..], freed := if restarted then s.freed else s.freed + [s.batch[0]])
    && s'.phase == Resetting(s.phase.now, s.phase.rest[1..], s'.phase.nextExpire)
  }

  lemma RestartFrame(s: Queue)
    requires Inv(s) && Allowed(s, ResetNext) && Restarts(s)
    ensures RestartOrDelete(s).Ok? && IndexOk(RestartOrDelete(s).value)
    ensures ResetFrame(s, RestartOrDelete(s).value, true)
  {
    RestartShape(s);
  }

  lemma DropFrame(s: Queue)
    requires Inv(s) && Allowed(s, ResetNext) && !Restarts(s)
    ensures RestartOrDelete(s).Ok? && IndexOk(RestartOrDelete(s).value)
    ensures ResetFrame(s, RestartOrDelete(s).value, false)
  {
    DropKeeps(s);
  }

  /** What one iteration of `reset` leaves alone, and whom it frees. */
  lemma ResetShape(s: Queue)
    requires Inv(s) && Allowed(s, ResetNext)
    ensures s.batch != [] && Live(s, s.batch[0]) && s.ids[s.batch[0]] == s.phase.rest[0].timer
    ensures ResetOne(s).Ok? && ResetFrame(s, ResetOne(s).value, Restarts(s))
  {
    assert BatchEntryOk(s, 0);
    if Restarts(s) { RestartFrame(s); } else { DropFrame(s); }
    RearmOk(RestartOrDelete(s).value);
  }

  /** An iteration of `reset` restarts the first timer of the batch or removes it; no other changes. */
  lemma ResetTimers(s: Queue)
    requires Inv(s) && Allowed(s, ResetNext)
    ensures ResetOne(s).Ok? && s.phase.rest[0].timer in s.heap
    ensures var a := s.phase.rest[0].timer;
            ResetOne(s).value.heap == if Restarts(s) then s.heap[a := s.heap[a].Restart(s.phase.now)] else s.heap - {a}
  {
    assert BatchEntryOk(s, 0);
    if Restarts(s) { RestartShape(s); } else { DropKeeps(s); }
    RearmOk(RestartOrDelete(s).value);
  }

  /** Re-arming keeps the invariant. */
  lemma RearmKeeps(m: Queue, s': Queue)
    requires Inv(m) && m.phase.Resetting? && s'.phase.Resetting? && s' == m.(phase := s'.phase, fd := s'.fd)
    requires s'.phase == m.phase.(nextExpire := s'.phase.nextExpire)
    ensures Inv(s')
  {
    SameHeap(m, s');
    forall i | 0 <= i < |m.batch| ensures BatchEntryOk(s', i) {
      assert BatchEntryOk(m, i);
    }
  }

  lemma RestartOrDeleteKeeps(s: Queue)
    requires Inv(s) && Allowed(s, ResetNext)
    ensures RestartOrDelete(s).Ok? && Inv(RestartOrDelete(s).value)
  {
    if Restarts(s) { RestartKeeps(s); } else { DropKeeps(s); }
  }

  lemma ResetKeeps(s: Queue)
    requires Inv(s) && Allowed(s, ResetNext)
    ensures ResetOne(s).Ok? && Inv(ResetOne(s).value)
  {
    RestartOrDeleteKeeps(s);
    var m := RestartOrDelete(s).value;
    RearmOk(m);
    RearmKeeps(m, ResetOne(s).value);
  }

  // ---------------------------------------------------------------- whole runs

  /** No step the environment permits fails an assert or touches a freed timer; all keep `Inv`. */
  lemma StepKeeps(s: Queue, step: Step)
    requires Inv(s) && Allowed(s, step)
    ensures Next(s, step).Ok? && Inv(Next(s, step).value)
  {
    match step
    case Create(a, when, interval) => CreateKeeps(s, a, when, interval);
    case Add(a) => AddKeeps(s, a);
    case Cancel(id) => if id in s.active { CancelActive(s, id); } else { CancelOther(s, id); }
    case Fire(now) => FireKeeps(s, now);
    case RunNext => RunKeeps(s);
    case EndCalls => EndCallsKeeps(s);
    case ResetNext => ResetKeeps(s);
    case Expire => SameHeap(s, Next(s, step).value); SameParts(s, Next(s, step).value);
    case EndReset => SameHeap(s, Next(s, step).value); SameParts(s, Next(s, step).value);
  }

  /** Steps that touch neither the timers nor the batch. */
  lemma SameParts(s: Queue, s': Queue)
    requires Inv(s) && s' == s.(fd := s'.fd, phase := s'.phase)
    requires s'.phase == s.phase || (s.phase.Resetting? && s.phase.rest == [] && s'.phase.Idle?)
    ensures Inv(s')
  {
    SameHeap(s, s');
    forall i | 0 <= i < |s.batch| ensures BatchEntryOk(s', i) {
      assert BatchEntryOk(s, i);
    }
  }

  /** Every run is free of crashes and ends in a state satisfying the invariant. */
  lemma {:induction false} RunSafe(s: Queue, steps: seq<Step>)
    requires Inv(s) && IsRun(s, steps)
    ensures Exec(s, steps).Ok? && Inv(Exec(s, steps).value)
    decreases |steps|
  {
    if steps != [] {
      StepKeeps(s, steps[0]);
      RunSafe(Next(s, steps[0]).value, steps[1..]);
    }
  }

  /** Runs compose. */
  lemma {:induction false} RunAppend(s: Queue, head: seq<Step>, tail: seq<Step>)
    requires IsRun(s, head) && Exec(s, head).Ok? && IsRun(Exec(s, head).value, tail)
    ensures IsRun(s, head + tail) && Exec(s, head + tail) == Exec(Exec(s, head).value, tail)
    decreases |head|
  {
    if head == [] {
      assert head + tail == tail;
    } else {
      assert (head + tail)[1..] == head[1..] + tail;
      RunAppend(Next(s, head[0]).value, head[1..], tail);
    }
  }
}
