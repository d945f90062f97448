/**
  The sender's defence against doing a request twice: handleIncomingRequest of internal/poller/poller.go
  and the state writes of internal/poller/dispatcher.go. Clock readings are nanoseconds, stored leases
  whole seconds.
 */
module Dedupe {
  import opened Wrappers
  import opened Models
  import opened SenderStore
  import OutboxLog
  import opened Outbox
  import opened WsSession

  const SECOND := 1_000_000_000

  function Unix(t: int): int {
    t / SECOND
  }

  /** The lease that a write at `now` stores: now plus ttl seconds, cut to whole seconds. */
  function LeaseAt(now: int, ttl: nat): int {
    Unix(now + ttl * SECOND)
  }

  predicate ShouldDispatch(state: Option<StateRow>, pendingResult: bool, now: int) {
    state.None?
    || (state.value.status != Completed && !pendingResult
        && (state.value.leaseUntil <= 0 || state.value.leaseUntil * SECOND <= now))
  }

  function Reported(state: Option<StateRow>, dispatch: bool): Status {
    if !dispatch && state.Some? then state.value.status else Received
  }

  // ------------------------------------------------------------ the code, undisturbed

  function StateEntry(id: Id, status: Status, lease: int): Entry {
    Entry(id, RequestState(SyncState(id, status, Some(lease))))
  }

  method HandleIncomingRequest(store: Store, outbox: SqliteOutbox, id: Id, now: int, ttl: nat) returns (dispatch: bool)
    requires outbox.Valid()
    modifies store`requestStates, outbox
    ensures outbox.Valid()
    ensures var state := Get(old(store.requestStates), id);
            var row := StateRow(Reported(state, dispatch), LeaseAt(now, ttl));
            && dispatch == ShouldDispatch(state, id in IdSet(store.pendingResults), now)
            && store.requestStates == old(store.requestStates)[id := row]
            && outbox.Abs() == OutboxLog.Append(old(outbox.Abs()), StateEntry(id, row.status, row.leaseUntil))
  {
    var state := store.GetSenderRequestState(id);
    var pendingResult := store.ResultPending(id);
    dispatch := false;
    if state.None? {
      dispatch := true;
    } else if state.value.status == Completed {
    } else if pendingResult {
    } else if state.value.leaseUntil <= 0 || state.value.leaseUntil * SECOND <= now {
      dispatch := true;
    }
    var reportStatus := Received;
    if !dispatch && state.Some? {
      reportStatus := state.value.status;
    }
    store.StoreSenderRequestState(id, StateRow(reportStatus, LeaseAt(now, ttl)));
    var _ := outbox.AppendWSOutbox(StateEntry(id, reportStatus, LeaseAt(now, ttl)));
  }

  /** What an execution leaves in the outbox: executing, the result in its pieces, completed. */
  function Reports(codec: Codec, res: RelayResult, chunkSize: int, now: int, doneAt: int, ttl: nat): seq<Entry>
    requires 0 < chunkSize
  {
    [StateEntry(res.requestId, Executing, LeaseAt(now, ttl))]
    + ResultEntries(codec, res, chunkSize)
    + [StateEntry(res.requestId, Completed, LeaseAt(doneAt, ttl))]
  }

  /** The relayed call is I/O; `res` is what it came to, `now` and `doneAt` the clock before and after it. */
  method Execute(
    store: Store, outbox: SqliteOutbox, codec: Codec, res: RelayResult, chunkSize: int, now: int, doneAt: int, ttl: nat)
    requires store.Valid() && outbox.Valid() && 0 < chunkSize
    modifies store, outbox
    ensures store.Valid() && outbox.Valid()
    ensures store.pendingResults == Pushed(old(store.pendingResults), res)
    ensures store.requestStates == old(store.requestStates)[res.requestId := StateRow(Completed, LeaseAt(doneAt, ttl))]
    ensures outbox.Abs() == AppendAll(old(outbox.Abs()), Reports(codec, res, chunkSize, now, doneAt, ttl))
  {
    ghost var log := outbox.Abs();
    var first := StateEntry(res.requestId, Executing, LeaseAt(now, ttl));
    var last := StateEntry(res.requestId, Completed, LeaseAt(doneAt, ttl));
    store.StoreSenderRequestState(res.requestId, StateRow(Executing, LeaseAt(now, ttl)));
    var _ := outbox.AppendWSOutbox(first);
    store.PushResult(res);
    QueueSenderResultWS(outbox, codec, res, chunkSize);
    store.StoreSenderRequestState(res.requestId, StateRow(Completed, LeaseAt(doneAt, ttl)));
    var _ := outbox.AppendWSOutbox(last);
    ghost var es := ResultEntries(codec, res, chunkSize);
    assert AppendAll(log, [first]) == OutboxLog.Append(AppendAll(log, []), first);
    AppendAllMore(log, [first], es);
    assert ([first] + es + [last])[..1 + |es|] == [first] + es;
  }

  // ------------------------------------------------------------ every interleaving

  /** How far handleIncomingRequest has come; one goroutine runs it, and acks, one after the other. */
  datatype Phase =
    | Idle
    | Clocked(id: Id, now: int)
    | Looked(id: Id, now: int, seen: Option<StateRow>)
    | Decided(id: Id, now: int, seen: Option<StateRow>, dispatch: bool)
    | Noted(id: Id, now: int, dispatch: bool)

  /** How far execute has come: `reading` is what it read from the clock for the write it does next. */
  datatype Stage = Waiting | Ready(reading: int) | Running | Delivered | Finishing(reading: int)

  datatype Job = Job(id: Id, stage: Stage)

  /** A dispatch: what the handler had read from the clock, and the moment it handed the request over. */
  datatype Dispatched = Dispatched(reading: int, moment: int)

  /**
    `last` is the latest dispatch since the last ack of an id; `done` and `acked` are the ids whose
    result was ever pushed, ever acknowledged.
   */
  datatype Sender = Sender(
    clock: int, states: map<Id, StateRow>, pending: set<Id>, phase: Phase, jobs: seq<Job>,
    last: map<Id, Dispatched>, done: set<Id>, acked: set<Id>)

  const START := Sender(0, map[], {}, Idle, [], map[], {}, {})

  /** The lease in seconds, and how long a job's write and the handler's dispatch may trail their clock readings. */
  datatype Limits = Limits(ttl: nat, jobDelay: nat, handlerDelay: nat)

  /** The writes of execute may fail, which it only logs: `ok` says whether they did. */
  datatype Step =
    | Arrive(id: Id, now: int)
    | Look
    | Decide
    | Note(ok: bool)
    | Dispatch(at: int)
    | ReadClock(job: nat, now: int)
    | MarkExecuting(job: nat, at: int, ok: bool)
    | PushResult(job: nat, ok: bool)
    | ReadDone(job: nat, now: int)
    | MarkCompleted(job: nat, at: int, ok: bool)
    | Ack(ids: set<Id>)
    | Crash

  ghost predicate Enabled(s: Sender, step: Step, m: Limits) {
    match step
    case Arrive(_, now) => s.phase.Idle? && s.clock <= now
    case Look => s.phase.Clocked?
    case Decide => s.phase.Looked?
    case Note(_) => s.phase.Decided?
    case Dispatch(at) => s.phase.Noted? && s.clock <= at <= s.phase.now + m.handlerDelay
    case ReadClock(i, now) => i < |s.jobs| && s.jobs[i].stage.Waiting? && s.clock <= now
    case MarkExecuting(i, at, _) =>
      i < |s.jobs| && s.jobs[i].stage.Ready? && s.clock <= at <= s.jobs[i].stage.reading + m.jobDelay
    case PushResult(i, _) => i < |s.jobs| && s.jobs[i].stage.Running?
    case ReadDone(i, now) => i < |s.jobs| && s.jobs[i].stage.Delivered? && s.clock <= now
    case MarkCompleted(i, at, _) =>
      i < |s.jobs| && s.jobs[i].stage.Finishing? && s.clock <= at <= s.jobs[i].stage.reading + m.jobDelay
    case Ack(_) => s.phase.Idle?
    case Crash => true
  }

  function WithStage(jobs: seq<Job>, i: nat, stage: Stage): seq<Job>
    requires i < |jobs|
  {
    jobs[i := jobs[i].(stage := stage)]
  }

  function Apply(s: Sender, step: Step, m: Limits): Sender
    requires Enabled(s, step, m)
  {
    match step
    case Arrive(id, now) => s.(clock := now, phase := Clocked(id, now))
    case Look => s.(phase := Looked(s.phase.id, s.phase.now, Get(s.states, s.phase.id)))
    case Decide =>
      var p := s.phase;
      s.(phase := Decided(p.id, p.now, p.seen, ShouldDispatch(p.seen, p.id in s.pending, p.now)))
    case Note(ok) =>
      var p := s.phase;
      if !ok then s.(phase := Idle)
      else s.(phase := Noted(p.id, p.now, p.dispatch),
              states := s.states[p.id := StateRow(Reported(p.seen, p.dispatch), LeaseAt(p.now, m.ttl))])
    case Dispatch(at) =>
      var p := s.phase;
      if !p.dispatch then s.(clock := at, phase := Idle)
      else
        s.(clock := at, phase := Idle, jobs := s.jobs + [Job(p.id, Waiting)],
           last := s.last[p.id := Dispatched(p.now, at)])
    case ReadClock(i, now) => s.(clock := now, jobs := WithStage(s.jobs, i, Ready(now)))
    case MarkExecuting(i, at, ok) =>
      s.(clock := at, jobs := WithStage(s.jobs, i, Running),
         states := if ok then s.states[s.jobs[i].id := StateRow(Executing, LeaseAt(s.jobs[i].stage.reading, m.ttl))]
                   else s.states)
    case PushResult(i, ok) =>
      if ok then s.(jobs := WithStage(s.jobs, i, Delivered),
                    pending := s.pending + {s.jobs[i].id}, done := s.done + {s.jobs[i].id})
      else s.(jobs := s.jobs[..i] + s.jobs[i + 1..])
    case ReadDone(i, now) => s.(clock := now, jobs := WithStage(s.jobs, i, Finishing(now)))
    case MarkCompleted(i, at, ok) =>
      s.(clock := at, jobs := s.jobs[..i] + s.jobs[i + 1..],
         states := if ok then s.states[s.jobs[i].id := StateRow(Completed, LeaseAt(s.jobs[i].stage.reading, m.ttl))]
                   else s.states)
    case Ack(ids) =>
      s.(states := s.states - ids, pending := s.pending - ids, last := s.last - ids, acked := s.acked + ids)
    case Crash => s.(phase := Idle, jobs := [])
  }

  ghost predicate Reaches(s: Sender, steps: seq<Step>, end: Sender, m: Limits)
    decreases |steps|
  {
    if steps == [] then s == end
    else Enabled(s, steps[0], m) && Reaches(Apply(s, steps[0], m), steps[1..], end, m)
  }

  /** A state that keeps duplicates away at least as long as a write with this clock reading would. */
  predicate Shields(state: Option<StateRow>, pending: bool, reading: int, ttl: nat) {
    state.Some? && (state.value.status == Completed || pending || state.value.leaseUntil >= LeaseAt(reading, ttl))
  }

  /** After a dispatch at reading `since`, a job's delayed write may still store a lease from `jobDelay` before it. */
  predicate Guarded(state: Option<StateRow>, pending: bool, since: int, m: Limits) {
    Shields(state, pending, since - m.jobDelay, m.ttl)
  }

  predicate Apart(since: int, now: int, m: Limits) {
    LeaseAt(since - m.jobDelay, m.ttl) * SECOND <= now
  }

  ghost predicate PhaseInv(s: Sender, m: Limits) {
    var p := s.phase;
    !p.Idle? ==>
      && 0 <= p.now <= s.clock
      && (p.id in s.last ==> s.last[p.id].reading <= p.now)
      && (p.Looked? || p.Decided? ==>
            && (p.id in s.last ==> Guarded(p.seen, p.id in s.pending, s.last[p.id].reading, m))
            && (p.seen.Some? && p.seen.value.status == Completed ==> p.id in s.done))
      && (p.Decided? || p.Noted? ==> p.dispatch && p.id in s.last ==> Apart(s.last[p.id].reading, p.now, m))
      && (p.Decided? && !p.dispatch ==> p.seen.Some? && Spared(s, p.id, p.seen.value, p.now))
      && (p.Noted? ==> Guarded(Get(s.states, p.id), p.id in s.pending, p.now, m))
  }

  /** Why a request is not dispatched: its result was pushed, or another dispatch still has its lease. */
  ghost predicate Spared(s: Sender, id: Id, seen: StateRow, now: int) {
    id in s.done || id in s.pending || now < seen.leaseUntil * SECOND
  }

  ghost predicate LastInv(s: Sender, m: Limits) {
    forall id :: id in s.last ==>
      && 0 <= s.last[id].reading <= s.last[id].moment <= s.clock
      && s.last[id].moment <= s.last[id].reading + m.handlerDelay
      && Guarded(Get(s.states, id), id in s.pending, s.last[id].reading, m)
  }

  ghost predicate Inv(s: Sender, m: Limits) {
    && 0 <= s.clock
    && LastInv(s, m) && PhaseInv(s, m)
    && (forall id :: id in s.states && s.states[id].status == Completed ==> id in s.done)
    && (forall i :: 0 <= i < |s.jobs| && (s.jobs[i].stage.Delivered? || s.jobs[i].stage.Finishing?) ==>
         s.jobs[i].id in s.done)
    && s.done <= s.pending + s.acked
  }

  lemma LeaseGrows(a: int, b: int, ttl: nat)
    requires a <= b
    ensures LeaseAt(a, ttl) <= LeaseAt(b, ttl)
  {
  }

  /** A dispatch that was decided on comes when the lease that guards the one before it has ended. */
  lemma DecidedApart(seen: Option<StateRow>, pending: bool, since: int, now: int, m: Limits)
    requires 0 <= now && Guarded(seen, pending, since, m) && ShouldDispatch(seen, pending, now)
    ensures Apart(since, now, m)
  {
  }

  lemma InvHandle(s: Sender, step: Step, m: Limits)
    requires Inv(s, m) && Enabled(s, step, m)
    requires step.Arrive? || step.Look? || step.Decide? || step.Note? || step.Dispatch?
    ensures Inv(Apply(s, step, m), m)
  {
    var p := s.phase;
    match step {
      case Arrive(id, now) =>
      case Look =>
      case Decide =>
        if p.id in s.last && ShouldDispatch(p.seen, p.id in s.pending, p.now) {
          DecidedApart(p.seen, p.id in s.pending, s.last[p.id].reading, p.now, m);
        }
      case Note(ok) =>
        LeaseGrows(p.now - m.jobDelay, p.now, m.ttl);
        if p.id in s.last {
          LeaseGrows(s.last[p.id].reading - m.jobDelay, p.now, m.ttl);
        }
      case Dispatch(at) =>
    }
  }

  /** A job's write, however long after its reading, still guards every dispatch before it. */
  lemma InvExecuting(s: Sender, step: Step, m: Limits)
    requires Inv(s, m) && Enabled(s, step, m) && step.MarkExecuting?
    ensures Inv(Apply(s, step, m), m)
  {
    var reading := s.jobs[step.job].stage.reading;
    forall id | id in s.last ensures LeaseAt(s.last[id].reading - m.jobDelay, m.ttl) <= LeaseAt(reading, m.ttl) {
      LeaseGrows(s.last[id].reading - m.jobDelay, reading, m.ttl);
    }
    if !s.phase.Idle? {
      LeaseGrows(s.phase.now - m.jobDelay, reading, m.ttl);
    }
  }

  lemma InvJob(s: Sender, step: Step, m: Limits)
    requires Inv(s, m) && Enabled(s, step, m)
    requires step.ReadClock? || step.PushResult? || step.ReadDone? || step.MarkCompleted?
    ensures Inv(Apply(s, step, m), m)
  {
  }

  lemma InvOther(s: Sender, step: Step, m: Limits)
    requires Inv(s, m) && Enabled(s, step, m)
    requires step.Ack? || step.Crash?
    ensures Inv(Apply(s, step, m), m)
  {
  }

  lemma InvStep(s: Sender, step: Step, m: Limits)
    requires Inv(s, m) && Enabled(s, step, m)
    ensures Inv(Apply(s, step, m), m)
  {
    if step.Ack? || step.Crash? {
      InvOther(s, step, m);
    } else if step.MarkExecuting? {
      InvExecuting(s, step, m);
    } else if step.ReadClock? || step.PushResult? || step.ReadDone? || step.MarkCompleted? {
      InvJob(s, step, m);
    } else {
      InvHandle(s, step, m);
    }
  }

  lemma {:induction false} InvRun(s: Sender, steps: seq<Step>, end: Sender, m: Limits)
    requires Inv(s, m) && Reaches(s, steps, end, m)
    ensures Inv(end, m)
    decreases |steps|
  {
    if steps != [] {
      InvStep(s, steps[0], m);
      InvRun(Apply(s, steps[0], m), steps[1..], end, m);
    }
  }

  /**
    In every run, however duplicates, clock readings, state writes, failures and restarts interleave:
    two dispatches of a request, with no ack of it in between, are more than ttl - 1 seconds apart,
    less the longest time a job's write trails its clock reading, and, from moment to moment, less the
    longest time a dispatch trails its handler's.
   */
  lemma DispatchesApart(steps: seq<Step>, s: Sender, m: Limits, at: int)
    requires Reaches(START, steps, s, m) && Enabled(s, Dispatch(at), m)
    requires s.phase.dispatch && s.phase.id in s.last
    ensures var before := s.last[s.phase.id];
            && s.phase.now - before.reading > (m.ttl - 1) * SECOND - m.jobDelay
            && at - before.moment > (m.ttl - 1) * SECOND - m.jobDelay - m.handlerDelay
  {
    InvRun(START, steps, s, m);
  }

  /** A duplicate held back has its result pending or acknowledged, or a lease that still runs. */
  lemma HeldBackForAReason(steps: seq<Step>, s: Sender, m: Limits)
    requires Reaches(START, steps, s, m)
    ensures s.phase.Decided? && !s.phase.dispatch ==>
              && s.phase.seen.Some?
              && (s.phase.id in s.pending + s.acked || s.phase.now < s.phase.seen.value.leaseUntil * SECOND)
    ensures forall id :: id in s.states && s.states[id].status == Completed ==> id in s.pending + s.acked
  {
    InvRun(START, steps, s, m);
  }

  // ------------------------------------------------------------ the bound is sharp

  lemma Then(s: Sender, step: Step, rest: seq<Step>, end: Sender, m: Limits)
    requires Enabled(s, step, m) && Reaches(Apply(s, step, m), rest, end, m)
    ensures Reaches(s, [step] + rest, end, m)
  {
    assert ([step] + rest)[1..] == rest;
  }

  /** One arrival handled without interruption, up to its state write. */
  function Noting(id: Id, now: int): seq<Step> {
    [Arrive(id, now), Look, Decide, Note(true)]
  }

  function AfterNoting(s: Sender, id: Id, now: int, m: Limits): Sender {
    s.(clock := now, phase := Noted(id, now, true), states := s.states[id := StateRow(Received, LeaseAt(now, m.ttl))])
  }

  lemma NotingRun(s: Sender, id: Id, now: int, rest: seq<Step>, end: Sender, m: Limits)
    requires s.phase.Idle? && s.clock <= now && ShouldDispatch(Get(s.states, id), id in s.pending, now)
    requires Reaches(AfterNoting(s, id, now, m), rest, end, m)
    ensures Reaches(s, Noting(id, now) + rest, end, m)
  {
    var seen := Get(s.states, id);
    var s1 := s.(clock := now, phase := Clocked(id, now));
    var s2 := s1.(phase := Looked(id, now, seen));
    var s3 := s2.(phase := Decided(id, now, seen, true));
    Then(s3, Note(true), rest, end, m);
    Then(s2, Decide, [Note(true)] + rest, end, m);
    Then(s1, Look, [Decide] + ([Note(true)] + rest), end, m);
    Then(s, Arrive(id, now), [Look] + ([Decide] + ([Note(true)] + rest)), end, m);
    assert Noting(id, now) + rest == [Arrive(id, now)] + ([Look] + ([Decide] + ([Note(true)] + rest)));
  }

  /** The first job reads the clock in the last nanosecond of a second, and is then held up. */
  function Reading(m: Limits): int {
    (m.ttl + 1) * SECOND - 1
  }

  /** A first dispatch at 0, and its job with this reading. */
  function HeldUp(id: Id, m: Limits): Sender {
    Sender(Reading(m), map[id := StateRow(Received, m.ttl)], {}, Idle, [Job(id, Ready(Reading(m)))],
      map[id := Dispatched(0, 0)], {}, {})
  }

  lemma FirstDispatch(id: Id, m: Limits, rest: seq<Step>, end: Sender)
    requires Reaches(HeldUp(id, m), rest, end, m)
    ensures Reaches(START, Noting(id, 0) + ([Dispatch(0)] + ([ReadClock(0, Reading(m))] + rest)), end, m)
  {
    var s1 := AfterNoting(START, id, 0, m);
    assert LeaseAt(0, m.ttl) == m.ttl;
    var s2 := Apply(s1, Dispatch(0), m);
    assert s2.jobs == [Job(id, Waiting)] && s2.last == map[id := Dispatched(0, 0)];
    assert Apply(s2, ReadClock(0, Reading(m)), m) == HeldUp(id, m);
    Then(s2, ReadClock(0, Reading(m)), rest, end, m);
    Then(s1, Dispatch(0), [ReadClock(0, Reading(m))] + rest, end, m);
    NotingRun(START, id, 0, [Dispatch(0)] + ([ReadClock(0, Reading(m))] + rest), end, m);
  }

  /** A second arrival as late as the job's write may come, and the write after the arrival's own. */
  function Overwritten(id: Id, m: Limits): Sender {
    var second := Reading(m) + m.jobDelay;
    Sender(second, map[id := StateRow(Executing, 2 * m.ttl)], {}, Noted(id, second, true), [Job(id, Running)],
           map[id := Dispatched(0, 0)], {}, {})
  }

  lemma SecondArrival(id: Id, m: Limits, rest: seq<Step>, end: Sender)
    requires Reaches(Overwritten(id, m), rest, end, m)
    ensures var second := Reading(m) + m.jobDelay;
            Reaches(HeldUp(id, m), Noting(id, second) + ([MarkExecuting(0, second, true)] + rest), end, m)
  {
    var second := Reading(m) + m.jobDelay;
    var s1 := AfterNoting(HeldUp(id, m), id, second, m);
    assert LeaseAt(Reading(m), m.ttl) == 2 * m.ttl;
    assert s1.states[id := StateRow(Executing, 2 * m.ttl)] == map[id := StateRow(Executing, 2 * m.ttl)];
    assert Apply(s1, MarkExecuting(0, second, true), m) == Overwritten(id, m);
    Then(s1, MarkExecuting(0, second, true), rest, end, m);
    NotingRun(HeldUp(id, m), id, second, [MarkExecuting(0, second, true)] + rest, end, m);
  }

  /** Its request is handed over as late as may be. */
  function WrittenLate(id: Id, m: Limits): Sender {
    var second := Reading(m) + m.jobDelay;
    Sender(second + m.handlerDelay, map[id := StateRow(Executing, 2 * m.ttl)], {}, Idle,
           [Job(id, Running), Job(id, Waiting)], map[id := Dispatched(second, second + m.handlerDelay)], {}, {})
  }

  lemma SecondDispatch(id: Id, m: Limits, rest: seq<Step>, end: Sender)
    requires Reaches(WrittenLate(id, m), rest, end, m)
    ensures Reaches(Overwritten(id, m), [Dispatch(Reading(m) + m.jobDelay + m.handlerDelay)] + rest, end, m)
  {
    var at := Reading(m) + m.jobDelay + m.handlerDelay;
    assert Apply(Overwritten(id, m), Dispatch(at), m) == WrittenLate(id, m);
    Then(Overwritten(id, m), Dispatch(at), rest, end, m);
  }

  /** A third dispatch is possible one nanosecond after the bound. */
  lemma SharpBound(id: Id, m: Limits) returns (steps: seq<Step>, s: Sender, at: int)
    requires 0 < m.ttl && m.jobDelay + m.handlerDelay <= (m.ttl - 1) * SECOND
    ensures Reaches(START, steps, s, m) && Enabled(s, Dispatch(at), m) && s.phase.dispatch && s.phase.id in s.last
    ensures at - s.last[s.phase.id].moment == (m.ttl - 1) * SECOND - m.jobDelay - m.handlerDelay + 1
    ensures s.phase.now - s.last[s.phase.id].reading == (m.ttl - 1) * SECOND - m.jobDelay + 1
  {
    at := 2 * m.ttl * SECOND;
    s := AfterNoting(WrittenLate(id, m), id, at, m);
    NotingRun(WrittenLate(id, m), id, at, [], s, m);
    steps := Noting(id, at) + [];
    SecondDispatch(id, m, steps, s);
    var second := Reading(m) + m.jobDelay;
    steps := [Dispatch(second + m.handlerDelay)] + steps;
    SecondArrival(id, m, steps, s);
    steps := Noting(id, second) + ([MarkExecuting(0, second, true)] + steps);
    FirstDispatch(id, m, steps, s);
    steps := Noting(id, 0) + ([Dispatch(0)] + ([ReadClock(0, Reading(m))] + steps));
  }
}
