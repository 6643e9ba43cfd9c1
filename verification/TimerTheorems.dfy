/** What the timer queue promises over whole runs: ownership, cancellation and stale ids. */
module TimerTheorems {
  import opened Outcomes
  import opened TimerSets
  import opened TimerMachine
  import opened TimerSafety

  predicate Pending(s: Queue, q: nat) {
    q in s.ids && Id(s.ids[q], q) in s.active
  }

  predicate ExactlyOne(a: bool, b: bool, c: bool) {
    (a && !b && !c) || (!a && b && !c) || (!a && !b && c)
  }

  lemma InvStart()
    ensures Inv(Empty)
  {
  }

  /**
    After any run, every accepted timer is pending, in the batch in flight, or freed, never two
    of these; and no timer was freed twice.
   */
  lemma EveryTimerHasOneFate(steps: seq<Step>, q: nat)
    requires IsRun(Empty, steps)
    ensures var r := Exec(Empty, steps);
            && r.Ok?
            && (q in r.value.accepted ==> ExactlyOne(Pending(r.value, q), q in r.value.batch, q in r.value.freed))
            && forall i, j :: 0 <= i < j < |r.value.freed| ==> r.value.freed[i] != r.value.freed[j]
  {
    InvStart();
    RunSafe(Empty, steps);
    OneFate(Exec(Empty, steps).value, q);
  }

  /**
    After any run the two indexes describe the same live timers: one by current expiration in
    order, the other by the sequence number the timer was created with.
   */
  lemma IndexesAgree(steps: seq<Step>, a: nat, q: nat)
    requires IsRun(Empty, steps)
    ensures Exec(Empty, steps).Ok?
    ensures var s := Exec(Empty, steps).value;
            && Sorted(s.timers) && |s.timers| == |s.active|
            && (Id(a, q) in s.active <==>
                a in s.heap && s.heap[a].sequence == q && Entry(s.heap[a].expiration, a) in s.timers)
            && forall e :: e in s.timers ==> e.timer in s.heap && s.heap[e.timer].expiration == e.when
  {
    InvStart();
    RunSafe(Empty, steps);
  }

  /**
    After any run, the pointer the next callback or the next iteration of `reset` goes through
    still leads to the very timer that expired, not to a freed one or to a newer one at its address.
   */
  lemma BatchPointersStayTrue(steps: seq<Step>)
    requires IsRun(Empty, steps)
    ensures Exec(Empty, steps).Ok?
    ensures var s := Exec(Empty, steps).value;
            forall i :: 0 <= i < |Expired(s)| ==>
              var a := Expired(s)[i].timer;
              && i < |s.batch| && s.batch[i] !in s.freed
              && a in s.heap && s.heap[a].sequence == s.batch[i] && s.heap[a].expiration == Expired(s)[i].when
  {
    InvStart();
    RunSafe(Empty, steps);
    var s := Exec(Empty, steps).value;
    forall i | 0 <= i < |Expired(s)|
      ensures var a := Expired(s)[i].timer;
              && i < |s.batch| && s.batch[i] !in s.freed
              && a in s.heap && s.heap[a].sequence == s.batch[i] && s.heap[a].expiration == Expired(s)[i].when {
      assert BatchEntryOk(s, i);
    }
  }

  lemma OneFate(s: Queue, q: nat)
    requires Inv(s)
    ensures q in s.accepted ==> ExactlyOne(Pending(s, q), q in s.batch, q in s.freed)
  {
    if q in s.batch {
      var _ := InBatch(s, q);
    }
  }

  /** A timer of the batch is live, so not freed, and in no index. */
  lemma InBatch(s: Queue, q: nat) returns (i: nat)
    requires Inv(s) && q in s.batch
    ensures i < |s.batch| && s.batch[i] == q && BatchEntryOk(s, i) && Live(s, q) && q !in s.freed && !Pending(s, q)
  {
    i :| 0 <= i < |s.batch| && s.batch[i] == q;
    assert BatchEntryOk(s, i);
  }

  // ---------------------------------------------------------------- cancellation

  function CountRuns(runs: seq<Invocation>, q: nat): nat {
    if runs == [] then 0
    else CountRuns(runs[..|runs| - 1], q) + if runs[|runs| - 1].timer.sequence == q then 1 else 0
  }

  /** Timer `q` can never be scheduled again. */
  predicate Doomed(s: Queue, q: nat) {
    q in s.freed || (q in s.batch && q in s.ids && Id(s.ids[q], q) in s.canceling)
  }

  /** The callbacks of `q` that the batch in flight still owes. */
  function RunsLeft(s: Queue, q: nat): nat {
    if s.phase.Calling? && s.phase.next <= |s.batch| && q in s.batch[s.phase.next..] then 1 else 0
  }

  /** Within a batch, running the next callback uses up exactly its own debt. */
  lemma RunDoomed(s: Queue, q: nat)
    requires Inv(s) && Allowed(s, RunNext)
    ensures RunCallback(s).Ok?
    ensures var s' := RunCallback(s).value;
            && s' == s.(phase := s'.phase, runs := s'.runs)
            && CountRuns(s'.runs, q) + RunsLeft(s', q) == CountRuns(s.runs, q) + RunsLeft(s, q)
  {
    var n := s.phase.next;
    assert BatchEntryOk(s, n);
    var s' := RunCallback(s).value;
    assert s'.runs[..|s'.runs| - 1] == s.runs;
    assert s.batch[n..] == [s.batch[n]] + s.batch[n + 1..];
    assert forall j :: n + 1 <= j < |s.batch| ==> s.batch[j] != s.batch[n];
    assert s.batch[n] !in s.batch[n + 1..];
  }

  lemma FireDoomed(s: Queue, now: Time, q: nat)
    requires Inv(s) && Allowed(s, Fire(now)) && Doomed(s, q)
    ensures FireTimers(s, now).Ok?
    ensures var s' := FireTimers(s, now).value;
            Doomed(s', q) && RunsLeft(s', q) == 0 && s'.runs == s.runs
  {
    FireKeeps(s, now);
    FireShape(s, now);
    var s' := FireTimers(s, now).value;
    if q in s'.batch { var _ := InBatch(s', q); }
  }

  lemma ResetDoomed(s: Queue, q: nat)
    requires Inv(s) && Allowed(s, ResetNext) && Doomed(s, q)
    ensures ResetOne(s).Ok? && Doomed(ResetOne(s).value, q)
    ensures ResetOne(s).value.runs == s.runs && RunsLeft(ResetOne(s).value, q) == 0
  {
    ResetShape(s);
    assert s.batch == [s.batch[0]] + s.batch[1..];
  }

  predicate Quiet(step: Step) {
    !step.Fire? && !step.RunNext? && !step.ResetNext?
  }

  /** The other steps run no callback, keep the batch, and only ever add to what is doomed. */
  ghost predicate QuietChange(s: Queue, r: Outcome<Queue>) {
    && r.Ok? && r.value.runs == s.runs && r.value.batch == s.batch && s.canceling <= r.value.canceling
    && s.freed <= r.value.freed
    && (forall q :: q in s.ids ==> q in r.value.ids && r.value.ids[q] == s.ids[q])
    && (r.value.phase == s.phase || !r.value.phase.Calling?)
  }

  lemma AddQuiet(s: Queue, a: nat)
    requires Inv(s) && Allowed(s, Add(a))
    ensures QuietChange(s, AddTimerInLoop(s, a))
  {
    InsertOk(s, a);
  }

  lemma CancelQuiet(s: Queue, id: Id)
    requires Inv(s) && Allowed(s, Cancel(id))
    ensures QuietChange(s, CancelInLoop(s, id))
  {
    if id in s.active { CancelIndex(s, id); }
  }

  lemma CreateQuiet(s: Queue, a: nat, when: Time, interval: real)
    requires HeapOk(s)
    ensures QuietChange(s, Ok(CreateTimer(s, a, when, interval)))
  {
  }

  lemma QuietShape(s: Queue, step: Step)
    requires Inv(s) && Allowed(s, step) && Quiet(step)
    ensures QuietChange(s, Next(s, step))
  {
    match step
    case Create(a, when, interval) => CreateQuiet(s, a, when, interval);
    case Add(a) => AddQuiet(s, a);
    case Cancel(id) => CancelQuiet(s, id);
    case _ =>
  }

  /** The callbacks made and still owed do not grow, and the timer stays doomed. */
  ghost predicate NoMoreRuns(s: Queue, s': Queue, q: nat) {
    Doomed(s', q) && CountRuns(s'.runs, q) + RunsLeft(s', q) <= CountRuns(s.runs, q) + RunsLeft(s, q)
  }

  lemma QuietDoomed(s: Queue, step: Step, q: nat)
    requires Inv(s) && Allowed(s, step) && Doomed(s, q) && Quiet(step)
    ensures Next(s, step).Ok? && NoMoreRuns(s, Next(s, step).value, q)
  {
    QuietShape(s, step);
  }

  lemma StepDoomed(s: Queue, step: Step, q: nat)
    requires Inv(s) && Allowed(s, step) && Doomed(s, q)
    ensures Next(s, step).Ok? && NoMoreRuns(s, Next(s, step).value, q)
  {
    match step
    case Fire(now) => FireDoomed(s, now, q);
    case RunNext => RunDoomed(s, q);
    case ResetNext => ResetDoomed(s, q);
    case _ => QuietDoomed(s, step, q);
  }

  lemma {:induction false} RunsDoomed(s: Queue, steps: seq<Step>, q: nat)
    requires Inv(s) && Doomed(s, q) && IsRun(s, steps)
    ensures var r := Exec(s, steps);
            r.Ok? && NoMoreRuns(s, r.value, q)
    decreases |steps|
  {
    if steps != [] {
      StepKeeps(s, steps[0]);
      StepDoomed(s, steps[0], q);
      RunsDoomed(Next(s, steps[0]).value, steps[1..], q);
    }
  }

  /** `id` is what `addTimer` returned for a timer that `addTimerInLoop` has since taken. */
  predicate Accepted(s: Queue, id: Id) {
    id.sequence in s.accepted && id.sequence in s.ids && s.ids[id.sequence] == id.timer
  }

  lemma CancelDooms(s: Queue, id: Id)
    requires Inv(s) && Allowed(s, Cancel(id)) && Accepted(s, id)
    ensures var r := CancelInLoop(s, id);
            && r.Ok? && Doomed(r.value, id.sequence) && r.value.runs == s.runs
            && r.value.phase == s.phase && r.value.batch == s.batch
  {
    OneFate(s, id.sequence);
    if id in s.active { CancelIndex(s, id); }
  }

  /**
    Once `cancelInLoop` has seen an accepted timer's id, in every continuation the timer runs at
    most the one callback a batch already in flight still owes it, and it is freed by the time
    the loop is idle again.
   */
  lemma CancelStopsTimer(s: Queue, id: Id, steps: seq<Step>)
    requires Inv(s) && Allowed(s, Cancel(id)) && Accepted(s, id)
    requires CancelInLoop(s, id).Ok? ==> IsRun(CancelInLoop(s, id).value, steps)
    ensures CancelInLoop(s, id).Ok?
    ensures var r := Exec(CancelInLoop(s, id).value, steps);
            && r.Ok?
            && CountRuns(r.value.runs, id.sequence) <= CountRuns(s.runs, id.sequence) + RunsLeft(s, id.sequence)
            && (r.value.phase.Idle? ==> id.sequence in r.value.freed)
  {
    CancelDooms(s, id);
    StepKeeps(s, Cancel(id));
    RunSafe(CancelInLoop(s, id).value, steps);
    RunsDoomed(CancelInLoop(s, id).value, steps, id.sequence);
  }

  /** A freed timer never runs again. */
  lemma FreedNeverRuns(s: Queue, steps: seq<Step>, q: nat)
    requires Inv(s) && q in s.freed && IsRun(s, steps)
    ensures Exec(s, steps).Ok? && CountRuns(Exec(s, steps).value.runs, q) <= CountRuns(s.runs, q)
  {
    RunsDoomed(s, steps, q);
    if RunsLeft(s, q) != 0 { var _ := InBatch(s, q); }
  }

  // ---------------------------------------------------------------- stale ids

  /** Equal up to ids of the freed timer `q` in `cancelingTimers_`. */
  ghost predicate Twin(s: Queue, t: Queue, q: nat) {
    && t == s.(canceling := t.canceling) && q in s.freed
    && forall id: Id :: id.sequence != q ==> (id in s.canceling <==> id in t.canceling)
  }

  /** The same outcome with another `cancelingTimers_`. */
  function With(r: Outcome<Queue>, canceling: set<Id>): Outcome<Queue> {
    match r
    case Ok(s) => Ok(s.(canceling := canceling))
    case Crash(fault) => Crash(fault)
  }

  lemma InsertIgnores(s: Queue, canceling: set<Id>, a: nat)
    ensures InsertTimer(s.(canceling := canceling), a) == With(InsertTimer(s, a), canceling)
  {
  }

  lemma AddIgnores(s: Queue, canceling: set<Id>, a: nat)
    ensures AddTimerInLoop(s.(canceling := canceling), a) == With(AddTimerInLoop(s, a), canceling)
  {
    InsertIgnores(s, canceling, a);
  }

  lemma CancelIgnores(s: Queue, canceling: set<Id>, id: Id)
    requires id in s.active || !s.calling
    ensures CancelInLoop(s.(canceling := canceling), id) == With(CancelInLoop(s, id), canceling)
  {
  }

  lemma FireIgnores(s: Queue, canceling: set<Id>, now: Time)
    ensures FireTimers(s.(canceling := canceling), now) == FireTimers(s, now)
  {
  }

  /** `reset` looks up one id only, that of the timer it treats. */
  lemma RestartIgnores(s: Queue, canceling: set<Id>)
    requires Allowed(s, ResetNext) && s.phase.rest[0].timer in s.heap
    requires var id := Id(s.phase.rest[0].timer, s.heap[s.phase.rest[0].timer].sequence);
             id in canceling <==> id in s.canceling
    ensures RestartOrDelete(s.(canceling := canceling)) == With(RestartOrDelete(s), canceling)
  {
    var a := s.phase.rest[0].timer;
    InsertIgnores(s.(phase := s.phase.(rest := s.phase.rest[1..]), batch := if s.batch == [] then [] else s.batch[1..],
                     heap := s.heap[a := s.heap[a].Restart(s.phase.now)]), canceling, a);
  }

  lemma RearmIgnores(s: Queue, canceling: set<Id>)
    requires s.phase.Resetting?
    ensures Rearm(s.(canceling := canceling)) == With(Rearm(s), canceling)
  {
  }

  lemma ResetIgnores(s: Queue, canceling: set<Id>)
    requires Allowed(s, ResetNext) && s.phase.rest[0].timer in s.heap
    requires var id := Id(s.phase.rest[0].timer, s.heap[s.phase.rest[0].timer].sequence);
             id in canceling <==> id in s.canceling
    ensures ResetOne(s.(canceling := canceling)) == With(ResetOne(s), canceling)
  {
    RestartIgnores(s, canceling);
    if RestartOrDelete(s).Ok? { RearmIgnores(RestartOrDelete(s).value, canceling); }
  }

  lemma ResetTwin(s: Queue, t: Queue, q: nat)
    requires Inv(s) && Twin(s, t, q) && Allowed(s, ResetNext)
    ensures SameWith(s, ResetNext, t.canceling)
  {
    ResetShape(s);
    ResetIgnores(s, t.canceling);
  }

  lemma CancelTwin(s: Queue, t: Queue, id: Id, q: nat)
    requires Inv(s) && Twin(s, t, q) && Allowed(s, Cancel(id))
    ensures CancelInLoop(s, id).Ok? && CancelInLoop(t, id).Ok?
    ensures Twin(CancelInLoop(s, id).value, CancelInLoop(t, id).value, q)
  {
    if id in s.active {
      CancelIndex(s, id);
      CancelIgnores(s, t.canceling, id);
    }
  }

  lemma FireTwin(s: Queue, t: Queue, now: Time, q: nat)
    requires Inv(s) && Twin(s, t, q)
    ensures FireTimers(s, now).Ok? && FireTimers(t, now) == FireTimers(s, now) && FireTimers(s, now).value.freed == s.freed
  {
    FireShape(s, now);
    FireIgnores(s, t.canceling, now);
  }

  /** The step does the same whatever is in `cancelingTimers_`, which it leaves alone. */
  ghost predicate SameWith(s: Queue, step: Step, canceling: set<Id>)
    requires Allowed(s, step) && Allowed(s.(canceling := canceling), step)
  {
    && Next(s, step).Ok? && Next(s.(canceling := canceling), step) == With(Next(s, step), canceling)
    && Next(s, step).value.canceling == s.canceling && s.freed <= Next(s, step).value.freed
  }

  lemma AddSucceeds(s: Queue, a: nat)
    requires Inv(s) && Allowed(s, Add(a))
    ensures AddTimerInLoop(s, a).Ok?
  {
    AddKeeps(s, a);
  }

  lemma AddFrame(s: Queue, a: nat)
    requires AddTimerInLoop(s, a).Ok?
    ensures AddTimerInLoop(s, a).value.canceling == s.canceling && AddTimerInLoop(s, a).value.freed == s.freed
  {
  }

  lemma AddTwin(s: Queue, canceling: set<Id>, a: nat)
    requires Inv(s) && Allowed(s, Add(a))
    ensures SameWith(s, Add(a), canceling)
  {
    AddSucceeds(s, a);
    AddFrame(s, a);
    AddIgnores(s, canceling, a);
  }

  lemma CallTwin(s: Queue, canceling: set<Id>)
    requires Inv(s) && Allowed(s, RunNext)
    ensures SameWith(s, RunNext, canceling)
  {
    assert BatchEntryOk(s, s.phase.next);
  }

  lemma PlainTwin(s: Queue, step: Step, canceling: set<Id>)
    requires Allowed(s, step) && (step.Create? || step.Expire? || step.EndCalls? || step.EndReset?)
    ensures Allowed(s.(canceling := canceling), step) && SameWith(s, step, canceling)
  {
  }

  lemma StillTwins(s: Queue, t: Queue, q: nat, s': Queue)
    requires Twin(s, t, q) && s'.canceling == s.canceling && s.freed <= s'.freed
    ensures Twin(s', s'.(canceling := t.canceling), q)
  {
  }

  lemma StepTwin(s: Queue, t: Queue, step: Step, q: nat)
    requires Inv(s) && Twin(s, t, q) && Allowed(s, step)
    ensures Allowed(t, step) && Next(s, step).Ok? && Next(t, step).Ok?
    ensures Twin(Next(s, step).value, Next(t, step).value, q)
  {
    if step.Cancel? {
      CancelTwin(s, t, step.id, q);
    } else if step.Fire? {
      FireTwin(s, t, step.now, q);
    } else {
      match step {
        case ResetNext => ResetTwin(s, t, q);
        case Add(a) => AddTwin(s, t.canceling, a);
        case RunNext => CallTwin(s, t.canceling);
        case _ => PlainTwin(s, step, t.canceling);
      }
      StillTwins(s, t, q, Next(s, step).value);
    }
  }

  lemma {:induction false} RunTwin(s: Queue, t: Queue, steps: seq<Step>, q: nat)
    requires Inv(s) && Twin(s, t, q) && IsRun(s, steps)
    ensures IsRun(t, steps) && Exec(s, steps).Ok? && Exec(t, steps).Ok?
    ensures Twin(Exec(s, steps).value, Exec(t, steps).value, q)
    decreases |steps|
  {
    if steps != [] {
      StepTwin(s, t, steps[0], q);
      StepKeeps(s, steps[0]);
      RunTwin(Next(s, steps[0]).value, Next(t, steps[0]).value, steps[1..], q);
    }
  }

  /**
    Cancelling the id of a timer already freed changes no timer in any continuation, whatever
    now lives at its address: every run after it is a run without it, with the same heap,
    indexes, kernel timer and callbacks.
   */
  lemma StaleCancelIsInvisible(s: Queue, id: Id, steps: seq<Step>)
    requires Inv(s) && Allowed(s, Cancel(id)) && id.sequence in s.freed && IsRun(s, steps)
    ensures CancelInLoop(s, id).Ok? && IsRun(CancelInLoop(s, id).value, steps)
    ensures Exec(s, steps).Ok? && Exec(CancelInLoop(s, id).value, steps).Ok?
    ensures var u, v := Exec(s, steps).value, Exec(CancelInLoop(s, id).value, steps).value;
            v == u.(canceling := v.canceling)
  {
    StepKeeps(s, Cancel(id));
    RunTwin(s, CancelInLoop(s, id).value, steps, id.sequence);
  }
}
