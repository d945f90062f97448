/**
  Results from the sender's pending table to the listener's result table: the chunking loop, the
  outbox, the dropping connection, the gap repair, the reassembly and the cumulative ack together, with
  HTTP polls running beside them.
 */
module EndToEnd {
  import opened Wrappers
  import opened Models
  import opened Chunking
  import opened OutboxLog
  import opened ListenerInbound
  import opened Streams
  import opened ProtocolFuture
  import P = Protocol
  import PP = ProtocolPrefix
  import S = SenderStore

  /** What a repair still has to queue: a small result, the rest of a large one, or a state or receipt. */
  datatype Work = Small(res: RelayResult) | Cut(stream: Stream) | Other(entry: Entry)

  /** The flush holds its lock from the reset until everything is queued again. */
  datatype Repair = Quiet | Wiped | Refilling(todo: seq<Work>)

  /**
    `jobs` are the chunking loops of the dispatcher. `answered` are the ids in poll responses on their
    way back; `pushed` every id ever pushed.
   */
  datatype System = System(
    net: P.Net, listener: Listener, rows: seq<S.PendingRow>, jobs: map<Id, Stream>, repair: Repair,
    answered: set<Id>, pushed: set<Id>)

  const INIT := System(P.START, Listener(map[], {}), [], map[], Quiet, {}, {})

  datatype Step =
    | PushResult(res: RelayResult)
    | Lease(max: nat, now: int, until: int)    // a poll leases results
    | GiveBack(results: seq<RelayResult>)
    | QueueWhole(small: RelayResult)           // a result below the chunk size
    | StartChunks(planned: Planned)            // a result above it
    | QueueChunk(id: Id)                       // one round of the chunking loop
    | Abandon(id: Id)                          // the process dies inside the loop
    | QueueOther(entry: Entry)                 // request states, receipts
    | Wire(step: P.Step)
    | Wipe                                     // ErrWSOutboxGap: ResetWSOutbox
    | Refill(batch: nat, at: int, lease: int, chunkSize: int, others: seq<Entry>) // LeaseResults and the listings
    | RefillNext                               // one entry of the repair is queued
    | RefillEnd
    | RefillFails                              // an error ends the session
    | PollStored(polled: RelayResult)          // a poll reaches the listener
    | PollAnswered(id: Id)                     // its response reaches the sender

  ghost predicate IsOther(e: Entry) {
    !e.body.Result? && !e.body.ResultChunk?
  }

  function WorkFor(w: World, chunkSize: int, res: RelayResult): Work {
    if NeedsChunking(w.codec.marshalResult(res), chunkSize) then Cut(Stream(Planned(res, chunkSize), 0)) else Small(res)
  }

  function WorkOf(w: World, chunkSize: int, results: seq<RelayResult>, others: seq<Entry>): (todo: seq<Work>)
    ensures |todo| == |results| + |others|
    ensures forall i :: 0 <= i < |results| ==> todo[i] == WorkFor(w, chunkSize, results[i])
    ensures forall i :: 0 <= i < |others| ==> todo[|results| + i] == Other(others[i])
  {
    seq(|results|, i requires 0 <= i < |results| => WorkFor(w, chunkSize, results[i]))
    + seq(|others|, i requires 0 <= i < |others| => Other(others[i]))
  }

  /** What a repair queues again: the results it could lease. */
  function Again(s: System, batch: nat, at: int): seq<RelayResult> {
    S.LeasedOut(s.rows, batch, at)
  }

  ghost predicate Possible(w: World, s: System, step: Step) {
    match step
    case StartChunks(p) =>
      // at most one loop per request, and JSON round-trips
      p.res.requestId !in s.jobs && TransferOf(w, p).Valid() && InPlan(w, p)
    case QueueChunk(id) => id in s.jobs && Fits(w, s.jobs[id])
    case Abandon(id) => id in s.jobs
    case QueueOther(e) => IsOther(e)
    case Wire(p) =>
      // entries are appended by the steps above, and the lock of a repair keeps sends and acks out
      && !p.Append? && !p.Repair? && P.Enabled(s.net, p)
      && (p.Send? || p.TakeAck? || p.Connect? ==> s.repair.Quiet?)
    case Wipe => s.repair.Quiet? && P.Enabled(s.net, P.Repair)
    case Refill(batch, at, _, chunkSize, others) =>
      && s.repair.Wiped? && (forall i :: 0 <= i < |others| ==> IsOther(others[i]))
      && (forall res :: res in Again(s, batch, at) && WorkFor(w, chunkSize, res).Cut? ==>
            Fits(w, WorkFor(w, chunkSize, res).stream))
    case RefillNext => s.repair.Refilling? && s.repair.todo != []
    case RefillEnd => s.repair == Refilling([])
    case RefillFails => !s.repair.Quiet?
    case PollAnswered(id) => id in s.answered
    case _ => true
  }

  /** The listener once everything on the connection has arrived. */
  function Arrived(w: World, s: System): Listener {
    HandleAll(w.backend, w.codec, s.listener, if s.net.link.Up? then s.net.link.inFlight else [])
  }

  /**
    When a repair does no harm to a loop it meets: the loop's chunks so far have been sent, and it may
    be mixed with what the repair queues for the same result.
   */
  ghost predicate Harmless(w: World, s: System, step: Step) {
    match step
    case Wipe => forall id :: id in s.jobs && Fits(w, s.jobs[id]) ==> Reached(w, Arrived(w, s), s.jobs[id])
    case Refill(batch, at, _, chunkSize, _) =>
      forall res :: res in Again(s, batch, at) ==>
        var work := WorkFor(w, chunkSize, res);
        work.Cut? && Fits(w, work.stream) && res.requestId in s.jobs ==>
          Twins(w, Planned(res, chunkSize), s.jobs[res.requestId].planned)
    case StartChunks(p) =>
      TransferOf(w, p).Valid() && s.repair.Refilling? ==>
        forall i :: 0 <= i < |s.repair.todo| && IsCutOf(s.repair.todo[i], p.res.requestId) ==>
          Twins(w, p, s.repair.todo[i].stream.planned)
    case _ => true
  }

  predicate IsCutOf(k: Work, id: Id) {
    k.Cut? && k.stream.planned.res.requestId == id
  }

  ghost predicate Enabled(w: World, s: System, step: Step) {
    Possible(w, s, step) && Harmless(w, s, step)
  }

  function Queue(s: System, e: Entry): System {
    s.(net := P.Apply(s.net, P.Append(e)))
  }

  /** The loop of one stream after its next chunk. */
  function JobsAfter(w: World, jobs: map<Id, Stream>, id: Id): map<Id, Stream>
    requires id in jobs && 0 < jobs[id].planned.chunkSize
  {
    var j := jobs[id];
    if j.done + 1 < TransferOf(w, j.planned).Count() then jobs[id := j.(done := j.done + 1)] else jobs - {id}
  }

  function TodoAfter(w: World, todo: seq<Work>): seq<Work>
    requires todo != []
  {
    if todo[0].Cut? && 0 < todo[0].stream.planned.chunkSize
       && todo[0].stream.done + 1 < TransferOf(w, todo[0].stream.planned).Count()
    then [Cut(todo[0].stream.(done := todo[0].stream.done + 1))] + todo[1..]
    else todo[1..]
  }

  function WorkEntry(w: World, k: Work): Option<Entry> {
    match k
    case Small(r) => Some(Entry(r.requestId, Result(r)))
    case Other(e) => Some(e)
    case Cut(j) =>
      if 0 < j.planned.chunkSize && j.done < TransferOf(w, j.planned).Count() then Some(NextEntry(w, j)) else None
  }

  function Apply(w: World, s: System, step: Step): System {
    match step
    case PushResult(r) => s.(rows := S.Pushed(s.rows, r), pushed := s.pushed + {r.requestId})
    case Lease(max, now, until) => s.(rows := S.AfterLease(s.rows, max, now, until))
    case GiveBack(results) => s.(rows := S.Marked(s.rows, S.IdsOf(results), None))
    case QueueWhole(r) => Queue(s, Entry(r.requestId, Result(r)))
    case StartChunks(p) => s.(jobs := s.jobs[p.res.requestId := Stream(p, 0)])
    case QueueChunk(id) =>
      if id in s.jobs && 0 < s.jobs[id].planned.chunkSize
         && s.jobs[id].done < TransferOf(w, s.jobs[id].planned).Count() then
        Queue(s, NextEntry(w, s.jobs[id])).(jobs := JobsAfter(w, s.jobs, id))
      else s
    case Abandon(id) => s.(jobs := s.jobs - {id})
    case QueueOther(e) => Queue(s, e)
    case Wipe => s.(net := P.Apply(s.net, P.Repair), repair := Wiped)
    case Refill(batch, at, lease, chunkSize, others) =>
      s.(rows := S.AfterLease(s.rows, batch, at, lease),
         repair := Refilling(WorkOf(w, chunkSize, Again(s, batch, at), others)))
    case RefillNext =>
      if s.repair.Refilling? && s.repair.todo != [] && WorkEntry(w, s.repair.todo[0]).Some? then
        Queue(s, WorkEntry(w, s.repair.todo[0]).value).(repair := Refilling(TodoAfter(w, s.repair.todo)))
      else s
    case RefillEnd => s.(repair := Quiet)
    case RefillFails => s.(repair := Quiet, net := P.Apply(s.net, P.Drop))
    case PollStored(r) =>
      s.(listener := s.listener.(stored := s.listener.stored + {r.requestId}), answered := s.answered + {r.requestId})
    case PollAnswered(id) => s.(rows := S.Dropped(s.rows, {id}))
    case Wire(p) =>
      var net' := P.Apply(s.net, p);
      if p.Receive? && s.net.link.Up? && s.net.link.inFlight != []
         && s.net.link.inFlight[0].seqNo == s.net.link.session + 1 then
        s.(net := net', listener := Handle(w.backend, w.codec, s.listener, s.net.link.inFlight[0].entry))
      else if p.TakeAck? && s.net.link.Up? && s.net.link.acks != [] then
        s.(net := net', rows := S.Dropped(s.rows, ReleasedBy(Upto(s.net.log.stored, s.net.link.acks[0]))))
      else s.(net := net')
  }

  /** The ids handleSenderOutboxAck hands to AckResults. */
  function ReleasedBy(removed: seq<OutMsg>): set<Id> {
    set m, id | m in removed && id in Releases(m.entry) :: id
  }

  ghost predicate Reaches(w: World, start: System, steps: seq<Step>, end: System)
    decreases |steps|
  {
    if steps == [] then start == end
    else Enabled(w, start, steps[0]) && Reaches(w, Apply(w, start, steps[0]), steps[1..], end)
  }

  // ------------------------------------------------------------ the invariant

  /** Where the listener will be once everything still deliverable is handled. */
  function Settled(w: World, s: System): Listener {
    HandleAll(w.backend, w.codec, s.listener, Pending(s.net))
  }

  /** While nothing is missing from the log, the rest of the stream can follow it. */
  ghost predicate StreamInv(w: World, s: System, j: Stream) {
    Fits(w, j) && (Open(s.net) ==> Reached(w, Settled(w, s), j))
  }

  ghost predicate JobInv(w: World, s: System, id: Id)
    requires id in s.jobs
  {
    s.jobs[id].planned.res.requestId == id && StreamInv(w, s, s.jobs[id])
  }

  ghost predicate WorkInv(w: World, s: System, k: Work) {
    match k
    case Small(_) => true
    case Other(e) => IsOther(e)
    case Cut(j) =>
      && StreamInv(w, s, j)
      && (j.planned.res.requestId in s.jobs ==> Twins(w, j.planned, s.jobs[j.planned.res.requestId].planned))
  }

  /** No result is queued twice by one repair. */
  ghost predicate CutOnce(todo: seq<Work>) {
    forall i, k :: 0 <= i < k < |todo| && todo[i].Cut? && todo[k].Cut? ==>
      todo[i].stream.planned.res.requestId != todo[k].stream.planned.res.requestId
  }

  ghost predicate TodoInv(w: World, s: System) {
    s.repair.Refilling? ==>
      CutOnce(s.repair.todo) && forall i :: 0 <= i < |s.repair.todo| ==> WorkInv(w, s, s.repair.todo[i])
  }

  ghost predicate StreamsInv(w: World, s: System) {
    (forall id :: id in s.jobs ==> JobInv(w, s, id)) && TodoInv(w, s)
  }

  ghost predicate StoredInv(w: World, s: System) {
    forall n :: n in s.net.log.stored ==>
      && Conforms(w, s.net.log.stored[n])
      && (n <= s.net.received ==> Releases(s.net.log.stored[n]) <= s.listener.stored)
  }

  /** A message handled but not persisted can be handled again without effect. */
  ghost predicate UnsavedInv(w: World, s: System) {
    s.net.link.Up? && s.net.link.unsaved.Some? ==>
      var e := s.net.link.unsaved.value.entry;
      && Conforms(w, e)
      && Releases(e) <= s.listener.stored
      && Handle(w.backend, w.codec, s.listener, e) == s.listener
  }

  /** Everything deliverable is handled safely, in order. */
  ghost predicate WireInv(w: World, s: System) {
    && P.Inv(s.net)
    && Safe(w.backend, w.codec, s.listener, Pending(s.net))
    && AllConform(w, Pending(s.net)) && Sound(w, s.listener)
    && StoredInv(w, s)
    && UnsavedInv(w, s)
  }

  ghost predicate TableInv(s: System) {
    && S.Unique(s.rows)
    && s.pushed <= S.IdSet(s.rows) + s.listener.stored
    && s.answered <= s.listener.stored
  }

  ghost predicate Inv(w: World, s: System) {
    WireInv(w, s) && StreamsInv(w, s) && TableInv(s)
  }

  lemma InvInit(w: World)
    ensures Inv(w, INIT)
  {
    assert Pending(P.START) == [];
  }

  // ------------------------------------------------------------ queueing

  /** Queueing keeps the wire safe when the entry releases only what it will have stored. */
  lemma QueueKeeps(w: World, s: System, e: Entry)
    requires WireInv(w, s) && Conforms(w, e)
    requires Open(s.net) ==> Releases(e) <= Handle(w.backend, w.codec, Settled(w, s), e).stored
    ensures WireInv(w, Queue(s, e)) && Open(Queue(s, e).net) == Open(s.net)
    ensures Open(s.net) ==> Settled(w, Queue(s, e)) == Handle(w.backend, w.codec, Settled(w, s), e)
  {
    P.InvStep(s.net, P.Append(e));
    AfterAppend(s.net, e);
    HandleAllAppend(w.backend, w.codec, s.listener, Pending(s.net), OutMsg(s.net.log.next + 1, e));
  }

  /** What queueing e leaves of a stream: its chunks are of another transfer, or of a twin. */
  ghost predicate Mixes(w: World, s: System, e: Entry, j: Stream) {
    e.body.ResultChunk? && e.body.resultChunk.transfer == TransferId(j.planned.res.requestId, ResultKind) ==>
      exists k: Stream :: Fits(w, k) && e == NextEntry(w, k) && Twins(w, k.planned, j.planned)
                          && (Open(s.net) ==> Reached(w, Settled(w, s), k))
  }

  lemma StreamKeeps(w: World, s: System, e: Entry, j: Stream)
    requires WireInv(w, s) && StreamInv(w, s, j) && Mixes(w, s, e, j)
    requires Open(Queue(s, e).net) == Open(s.net)
    requires Open(s.net) ==> Settled(w, Queue(s, e)) == Handle(w.backend, w.codec, Settled(w, s), e)
    ensures StreamInv(w, Queue(s, e), j)
  {
    if Open(s.net) {
      if e.body.ResultChunk? && e.body.resultChunk.transfer == TransferId(j.planned.res.requestId, ResultKind) {
        var k: Stream :| Fits(w, k) && e == NextEntry(w, k) && Twins(w, k.planned, j.planned)
            && Reached(w, Settled(w, s), k);
        SoundHandleAll(w, s.listener, Pending(s.net));
        TwinKeeps(w, Settled(w, s), k, j);
      } else {
        OthersKeep(w, Settled(w, s), e, j);
      }
    }
  }

  ghost predicate MixesWithAll(w: World, s: System, e: Entry) {
    && (forall id :: id in s.jobs ==> Mixes(w, s, e, s.jobs[id]))
    && (s.repair.Refilling? ==>
          forall i :: 0 <= i < |s.repair.todo| && s.repair.todo[i].Cut? ==> Mixes(w, s, e, s.repair.todo[i].stream))
  }

  lemma StreamsKeep(w: World, s: System, e: Entry)
    requires WireInv(w, s) && StreamsInv(w, s) && MixesWithAll(w, s, e)
    requires Open(Queue(s, e).net) == Open(s.net)
    requires Open(s.net) ==> Settled(w, Queue(s, e)) == Handle(w.backend, w.codec, Settled(w, s), e)
    ensures StreamsInv(w, Queue(s, e))
  {
    var s' := Queue(s, e);
    forall id | id in s'.jobs ensures JobInv(w, s', id) {
      assert JobInv(w, s, id);
      StreamKeeps(w, s, e, s.jobs[id]);
    }
    if s.repair.Refilling? {
      forall i | 0 <= i < |s.repair.todo| ensures WorkInv(w, s', s.repair.todo[i]) {
        assert WorkInv(w, s, s.repair.todo[i]);
        if s.repair.todo[i].Cut? {
          StreamKeeps(w, s, e, s.repair.todo[i].stream);
        }
      }
    }
  }

  lemma KeepQueuePlain(w: World, s: System, e: Entry)
    requires Inv(w, s) && !e.body.ResultChunk?
    requires e.body.Result? ==> e.refId == e.body.result.requestId
    ensures Inv(w, Queue(s, e))
  {
    QueueKeeps(w, s, e);
    StreamsKeep(w, s, e);
  }

  /** Queueing the next chunk of a stream releases nothing too early, and the stream stays reached. */
  lemma ChunkQueued(w: World, s: System, j: Stream)
    requires WireInv(w, s) && StreamInv(w, s, j)
    ensures Conforms(w, NextEntry(w, j)) && WireInv(w, Queue(s, NextEntry(w, j)))
    ensures var s' := Queue(s, NextEntry(w, j));
            && Open(s'.net) == Open(s.net)
            && (Open(s.net) ==> Settled(w, s') == Handle(w.backend, w.codec, Settled(w, s), NextEntry(w, j)))
            && (j.done + 1 < TransferOf(w, j.planned).Count() ==> StreamInv(w, s', j.(done := j.done + 1)))
  {
    ChunkConforms(w, j.planned, j.done);
    SoundHandleAll(w, s.listener, Pending(s.net));
    if Open(s.net) {
      StreamAdvances(w, Settled(w, s), j);
    }
    QueueKeeps(w, s, NextEntry(w, j));
  }

  /** A stream's chunk mixes with every other one: another id's, or its twin's. */
  lemma ChunkMixes(w: World, s: System, j: Stream, other: Stream)
    requires StreamInv(w, s, j)
    requires j.planned.res.requestId == other.planned.res.requestId ==> Twins(w, j.planned, other.planned)
    ensures Mixes(w, s, NextEntry(w, j), other)
  {
    ChunkConforms(w, j.planned, j.done);
  }

  lemma TwinsBothWays(w: World, p: Planned, q: Planned)
    requires 0 < p.chunkSize && Twins(w, p, q)
    ensures 0 < q.chunkSize && Twins(w, q, p) && Twins(w, p, p)
  {
  }

  /** What queueing one chunk of j settles. */
  ghost predicate Queued(w: World, s: System, j: Stream) {
    && StreamInv(w, s, j)
    && Open(Queue(s, NextEntry(w, j)).net) == Open(s.net)
    && (Open(s.net) ==>
          Settled(w, Queue(s, NextEntry(w, j))) == Handle(w.backend, w.codec, Settled(w, s), NextEntry(w, j)))
  }

  /** A chunk of another id, or of a twin, leaves a loop as good as it was. */
  lemma KeepJobBeside(w: World, s: System, j: Stream, id: Id)
    requires WireInv(w, s) && id in s.jobs && JobInv(w, s, id) && Queued(w, s, j)
    requires j.planned.res.requestId == id ==> Twins(w, j.planned, s.jobs[id].planned)
    ensures JobInv(w, Queue(s, NextEntry(w, j)), id)
  {
    ChunkMixes(w, s, j, s.jobs[id]);
    StreamKeeps(w, s, NextEntry(w, j), s.jobs[id]);
  }

  /** And so the work of a repair. */
  lemma KeepWorkBeside(w: World, s: System, j: Stream, k: Work)
    requires WireInv(w, s) && WorkInv(w, s, k) && Queued(w, s, j)
    requires k.Cut? && j.planned.res.requestId == k.stream.planned.res.requestId ==>
               Twins(w, j.planned, k.stream.planned)
    ensures WorkInv(w, Queue(s, NextEntry(w, j)), k)
  {
    if k.Cut? {
      ChunkMixes(w, s, j, k.stream);
      StreamKeeps(w, s, NextEntry(w, j), k.stream);
    }
  }

  /** Loops may go on or end, if they keep their plans. */
  lemma WithJobs(w: World, s: System, jobs: map<Id, Stream>)
    requires TodoInv(w, s)
    requires forall id :: id in jobs ==> id in s.jobs && jobs[id].planned == s.jobs[id].planned
    requires forall id :: id in jobs ==> jobs[id].planned.res.requestId == id && StreamInv(w, s, jobs[id])
    ensures StreamsInv(w, s.(jobs := jobs))
  {
    var s' := s.(jobs := jobs);
    if s.repair.Refilling? {
      forall i | 0 <= i < |s.repair.todo| ensures WorkInv(w, s', s.repair.todo[i]) {
        assert WorkInv(w, s, s.repair.todo[i]);
      }
    }
  }

  lemma KeepTodoBeside(w: World, s: System, id: Id)
    requires Inv(w, s) && id in s.jobs && Queued(w, s, s.jobs[id])
    ensures TodoInv(w, Queue(s, NextEntry(w, s.jobs[id])))
  {
    var j := s.jobs[id];
    if s.repair.Refilling? {
      forall i | 0 <= i < |s.repair.todo| ensures WorkInv(w, Queue(s, NextEntry(w, j)), s.repair.todo[i]) {
        assert WorkInv(w, s, s.repair.todo[i]) && JobInv(w, s, id);
        if IsCutOf(s.repair.todo[i], id) {
          TwinsBothWays(w, s.repair.todo[i].stream.planned, j.planned);
        }
        KeepWorkBeside(w, s, j, s.repair.todo[i]);
      }
    }
  }

  lemma KeepJobsBeside(w: World, s: System, id: Id)
    requires Inv(w, s) && id in s.jobs && Queued(w, s, s.jobs[id])
    requires var j := s.jobs[id];
             j.done + 1 < TransferOf(w, j.planned).Count() ==>
               StreamInv(w, Queue(s, NextEntry(w, j)), j.(done := j.done + 1))
    ensures StreamsInv(w, Queue(s, NextEntry(w, s.jobs[id])).(jobs := JobsAfter(w, s.jobs, id)))
  {
    var j := s.jobs[id];
    var q, jobs := Queue(s, NextEntry(w, j)), JobsAfter(w, s.jobs, id);
    assert JobInv(w, s, id);
    KeepTodoBeside(w, s, id);
    forall other | other in jobs ensures jobs[other].planned.res.requestId == other && StreamInv(w, q, jobs[other]) {
      if other != id {
        assert JobInv(w, s, other);
        KeepJobBeside(w, s, j, other);
      }
    }
    WithJobs(w, q, jobs);
  }

  lemma KeepQueueChunk(w: World, s: System, id: Id)
    requires Inv(w, s) && Enabled(w, s, QueueChunk(id))
    ensures Inv(w, Apply(w, s, QueueChunk(id)))
  {
    assert JobInv(w, s, id);
    ChunkQueued(w, s, s.jobs[id]);
    KeepJobsBeside(w, s, id);
  }

  // ------------------------------------------------------------ the repair

  lemma KeepWipe(w: World, s: System)
    requires Inv(w, s) && Enabled(w, s, Wipe)
    ensures Inv(w, Apply(w, s, Wipe))
  {
    var s' := Apply(w, s, Wipe);
    P.InvStep(s.net, P.Repair);
    AfterRepair(s.net);
    SafePrefix(w.backend, w.codec, s.listener, Pending(s.net), Pending(s'.net));
    forall id | id in s'.jobs ensures JobInv(w, s', id) {
      assert JobInv(w, s, id);
    }
  }

  lemma LeasedOnce(rows: seq<S.PendingRow>, max: nat, now: int)
    requires S.Unique(rows)
    ensures forall i, k :: 0 <= i < k < |S.LeasedOut(rows, max, now)| ==>
              S.LeasedOut(rows, max, now)[i].requestId != S.LeasedOut(rows, max, now)[k].requestId
  {
    S.FreeOnce(rows, now);
  }

  lemma KeepRefill(w: World, s: System, step: Step)
    requires Inv(w, s) && step.Refill? && Enabled(w, s, step)
    ensures Inv(w, Apply(w, s, step))
  {
    var s', again := Apply(w, s, step), Again(s, step.batch, step.at);
    var todo := WorkOf(w, step.chunkSize, again, step.others);
    LeasedOnce(s.rows, step.batch, step.at);
    S.MarkedIs(s.rows, S.IdsOf(again), Some(step.lease));
    forall i | 0 <= i < |todo| ensures WorkInv(w, s', todo[i]) {
      if i < |again| {
        assert again[i] in again;
      }
    }
    forall id | id in s'.jobs ensures JobInv(w, s', id) {
      assert JobInv(w, s, id);
    }
  }

  lemma KeepRefillNext(w: World, s: System)
    requires Inv(w, s) && Enabled(w, s, RefillNext)
    ensures Inv(w, Apply(w, s, RefillNext))
  {
    var k, rest := s.repair.todo[0], s.repair.todo[1..];
    assert WorkInv(w, s, k);
    if k.Cut? {
      KeepRefillChunk(w, s);
    } else {
      var e := WorkEntry(w, k).value;
      KeepQueuePlain(w, s, e);
      var q, s' := Queue(s, e), Apply(w, s, RefillNext);
      assert s' == q.(repair := Refilling(rest));
      DropFirst(w, q);
    }
  }

  lemma DropFirst(w: World, s: System)
    requires Inv(w, s) && s.repair.Refilling? && s.repair.todo != []
    ensures Inv(w, s.(repair := Refilling(s.repair.todo[1..])))
  {
    var rest, s' := s.repair.todo[1..], s.(repair := Refilling(s.repair.todo[1..]));
    forall i | 0 <= i < |rest| ensures WorkInv(w, s', rest[i]) {
      assert rest[i] == s.repair.todo[i + 1] && WorkInv(w, s, s.repair.todo[i + 1]);
    }
    forall id | id in s'.jobs ensures JobInv(w, s', id) {
      assert JobInv(w, s, id);
    }
  }

  lemma CutOnceAfter(w: World, todo: seq<Work>)
    requires todo != [] && CutOnce(todo)
    ensures CutOnce(TodoAfter(w, todo))
  {
    var todo' := TodoAfter(w, todo);
    var d := |todo| - |todo'|;
    forall i, k | 0 <= i < k < |todo'| && todo'[i].Cut? && todo'[k].Cut?
      ensures todo'[i].stream.planned.res.requestId != todo'[k].stream.planned.res.requestId
    {
      assert todo'[k] == todo[k + d];
      assert todo[i + d].Cut? && todo[i + d].stream.planned == todo'[i].stream.planned;
    }
  }

  /** The work list may be exchanged for another good one. */
  lemma WithTodo(w: World, s: System, todo: seq<Work>)
    requires WireInv(w, s) && TableInv(s) && (forall id :: id in s.jobs ==> JobInv(w, s, id))
    requires CutOnce(todo) && forall i :: 0 <= i < |todo| ==> WorkInv(w, s, todo[i])
    ensures Inv(w, s.(repair := Refilling(todo)))
  {
    var s' := s.(repair := Refilling(todo));
    forall id | id in s'.jobs ensures JobInv(w, s', id) {
      assert JobInv(w, s, id);
    }
    forall i | 0 <= i < |todo| ensures WorkInv(w, s', todo[i]) {
      assert WorkInv(w, s, todo[i]);
    }
  }

  lemma KeepRefillChunk(w: World, s: System)
    requires Inv(w, s) && Enabled(w, s, RefillNext) && s.repair.todo[0].Cut?
    ensures Inv(w, Apply(w, s, RefillNext))
  {
    var j, todo := s.repair.todo[0].stream, s.repair.todo;
    assert WorkInv(w, s, todo[0]);
    var q, todo' := Queue(s, NextEntry(w, j)), TodoAfter(w, todo);
    ChunkQueued(w, s, j);
    CutOnceAfter(w, todo);
    forall id | id in q.jobs ensures JobInv(w, q, id) {
      KeepJobBeside(w, s, j, id);
    }
    forall i | 0 < i < |todo| ensures WorkInv(w, q, todo[i]) {
      assert WorkInv(w, s, todo[i]);
      KeepWorkBeside(w, s, j, todo[i]);
    }
    TodoIsKept(w, q, j, todo);
    WithTodo(w, q, todo');
  }

  lemma TodoIsKept(w: World, q: System, j: Stream, todo: seq<Work>)
    requires todo != [] && todo[0] == Cut(j) && 0 < j.planned.chunkSize
    requires j.done + 1 < TransferOf(w, j.planned).Count() ==> StreamInv(w, q, j.(done := j.done + 1))
    requires j.planned.res.requestId in q.jobs ==> Twins(w, j.planned, q.jobs[j.planned.res.requestId].planned)
    requires forall i :: 0 < i < |todo| ==> WorkInv(w, q, todo[i])
    ensures forall i :: 0 <= i < |TodoAfter(w, todo)| ==> WorkInv(w, q, TodoAfter(w, todo)[i])
  {
    var todo' := TodoAfter(w, todo);
    var d := |todo| - |todo'|;
    forall i | 0 <= i < |todo'| ensures WorkInv(w, q, todo'[i]) {
      if 0 < i + d {
        assert todo'[i] == todo[i + d];
      }
    }
  }

  // ------------------------------------------------------------ the connection

  /** Streams depend on the log and the listener only through what will be settled. */
  lemma SameStreams(w: World, s: System, s': System)
    requires StreamsInv(w, s) && s'.jobs == s.jobs && s'.repair == s.repair
    requires Open(s'.net) ==> Open(s.net) && Settled(w, s') == Settled(w, s)
    ensures StreamsInv(w, s')
  {
    forall id | id in s'.jobs ensures JobInv(w, s', id) {
      assert JobInv(w, s, id);
    }
    if s.repair.Refilling? {
      forall i | 0 <= i < |s.repair.todo| ensures WorkInv(w, s', s.repair.todo[i]) {
        assert WorkInv(w, s, s.repair.todo[i]);
      }
    }
  }

  /** Steps that change neither the log's deliverable part nor the listener. */
  lemma KeepQuiet(w: World, s: System, net: P.Net)
    requires Inv(w, s) && P.Inv(net)
    requires Pending(net) == Pending(s.net) && (Open(net) ==> Open(s.net))
    requires StoredInv(w, s.(net := net)) && UnsavedInv(w, s.(net := net))
    ensures Inv(w, s.(net := net))
  {
    SameStreams(w, s, s.(net := net));
  }

  lemma KeepReceive(w: World, s: System)
    requires Inv(w, s) && Enabled(w, s, Wire(P.Receive))
    ensures Inv(w, Apply(w, s, Wire(P.Receive)))
  {
    var s', m := Apply(w, s, Wire(P.Receive)), s.net.link.inFlight[0];
    P.InOrder(s.net);
    P.InvStep(s.net, P.Receive);
    AfterReceive(s.net);
    assert Pending(s.net)[0] == m && Pending(s.net)[1..] == Pending(s'.net);
    assert Conforms(w, m.entry);
    SoundHandle(w, s.listener, m.entry);
    HandleTwice(w, s.listener, m.entry);
    assert AllConform(w, Pending(s'.net)) by {
      assert forall i :: 0 <= i < |Pending(s'.net)| ==> Pending(s'.net)[i] == Pending(s.net)[i + 1];
    }
    assert Settled(w, s') == Settled(w, s);
    SameStreams(w, s, s');
  }

  lemma KeepSave(w: World, s: System)
    requires Inv(w, s) && Enabled(w, s, Wire(P.Save))
    ensures Inv(w, Apply(w, s, Wire(P.Save)))
  {
    P.InvStep(s.net, P.Save);
    SavedIsStored(w, s);
    KeepQuiet(w, s, P.Apply(s.net, P.Save));
  }

  /** The saved cursor covers one entry more, which was handled. */
  lemma SavedIsStored(w: World, s: System)
    requires P.Inv(s.net) && StoredInv(w, s) && UnsavedInv(w, s) && P.Enabled(s.net, P.Save)
    ensures var s' := s.(net := P.Apply(s.net, P.Save)); StoredInv(w, s') && UnsavedInv(w, s')
    ensures Pending(P.Apply(s.net, P.Save)) == Pending(s.net)
  {
    assert P.LinkInv(s.net) && P.Matches(s.net.log, s.net.link.unsaved.value);
    var m := s.net.link.unsaved.value;
    forall n | n in s.net.log.stored && n <= s.net.received + 1
      ensures Releases(s.net.log.stored[n]) <= s.listener.stored
    {
      if n == m.seqNo {
        assert s.net.log.stored[n] == m.entry;
      }
    }
  }

  /** An ack deletes pending results only for ids the listener has stored. */
  lemma AckDeletesOnlyStored(w: World, s: System)
    requires WireInv(w, s) && P.Enabled(s.net, P.TakeAck)
    ensures ReleasedBy(Upto(s.net.log.stored, s.net.link.acks[0])) <= s.listener.stored
  {
    var removed := Upto(s.net.log.stored, s.net.link.acks[0]);
    UptoMembers(s.net.log.stored, s.net.link.acks[0]);
    assert P.LinkInv(s.net) && s.net.link.acks[0] <= s.net.received;
    forall m, id | m in removed && id in Releases(m.entry) ensures id in s.listener.stored {
      assert m.seqNo in s.net.log.stored;
    }
  }

  lemma KeepTakeAck(w: World, s: System)
    requires Inv(w, s) && Enabled(w, s, Wire(P.TakeAck))
    ensures Inv(w, Apply(w, s, Wire(P.TakeAck)))
  {
    var net', removed := P.Apply(s.net, P.TakeAck), ReleasedBy(Upto(s.net.log.stored, s.net.link.acks[0]));
    var s1, rows := s.(net := net'), S.Dropped(s.rows, removed);
    AckDeletesOnlyStored(w, s);
    KeepAckedNet(w, s);
    KeepRows(w, s1, rows, removed);
    assert Apply(w, s, Wire(P.TakeAck)) == s1.(rows := rows);
  }

  lemma KeepAckedNet(w: World, s: System)
    requires Inv(w, s) && P.Enabled(s.net, P.TakeAck)
    ensures Inv(w, s.(net := P.Apply(s.net, P.TakeAck)))
  {
    var net' := P.Apply(s.net, P.TakeAck);
    P.InvStep(s.net, P.TakeAck);
    AfterTakeAck(s.net);
    assert StoredInv(w, s.(net := net'));
    KeepQuiet(w, s, net');
  }

  /** Deleting rows of ids that are stored. */
  lemma KeepRows(w: World, s: System, rows: seq<S.PendingRow>, gone: set<Id>)
    requires Inv(w, s) && rows == S.Dropped(s.rows, gone) && gone <= s.listener.stored
    ensures Inv(w, s.(rows := rows))
  {
    S.DroppedIs(s.rows, gone);
    S.DroppedIds(s.rows, gone);
    SameStreams(w, s, s.(rows := rows));
  }

  /** A drop replays at most what was pending, and the message that was not persisted. */
  lemma ReplayIsSafe(w: World, s: System)
    requires WireInv(w, s) && s.net.link.Up?
    ensures Safe(w.backend, w.codec, s.listener, Replay(s.net)) && AllConform(w, Replay(s.net))
    ensures HandleAll(w.backend, w.codec, s.listener, Replay(s.net)) == Settled(w, s)
  {
    if s.net.link.unsaved.Some? {
      assert Replay(s.net)[1..] == Pending(s.net);
    } else {
      assert Replay(s.net) == Pending(s.net);
    }
  }

  lemma KeepDrop(w: World, s: System)
    requires Inv(w, s) && s.net.link.Up?
    ensures Inv(w, s.(net := P.Apply(s.net, P.Drop)))
  {
    var s' := s.(net := P.Apply(s.net, P.Drop));
    P.InvStep(s.net, P.Drop);
    AfterDrop(s.net);
    ReplayIsSafe(w, s);
    SafePrefix(w.backend, w.codec, s.listener, Replay(s.net), Pending(s'.net));
    SameStreams(w, s, s');
  }

  lemma LoseKeepsWire(w: World, s: System, number: int)
    requires WireInv(w, s) && number in s.net.log.stored
    ensures WireInv(w, s.(net := P.Apply(s.net, P.Lose(number))))
  {
    var net' := P.Apply(s.net, P.Lose(number));
    P.InvStep(s.net, P.Lose(number));
    AfterLose(s.net, number);
    SafePrefix(w.backend, w.codec, s.listener, Pending(s.net), Pending(net'));
  }

  lemma KeepLose(w: World, s: System, number: int)
    requires Inv(w, s) && Enabled(w, s, Wire(P.Lose(number)))
    ensures Inv(w, Apply(w, s, Wire(P.Lose(number))))
  {
    LoseKeepsWire(w, s, number);
    AfterLose(s.net, number);
    SameStreams(w, s, Apply(w, s, Wire(P.Lose(number))));
  }

  lemma KeepWaste(w: World, s: System)
    requires Inv(w, s)
    ensures Inv(w, s.(net := P.Apply(s.net, P.Waste)))
  {
    P.InvStep(s.net, P.Waste);
    AfterWaste(s.net);
    KeepQuiet(w, s, P.Apply(s.net, P.Waste));
  }

  lemma KeepConnect(w: World, s: System)
    requires Inv(w, s) && s.net.link.Down?
    ensures Inv(w, s.(net := P.Apply(s.net, P.Connect)))
  {
    var net' := P.Apply(s.net, P.Connect);
    P.InvStep(s.net, P.Connect);
    assert Tail(net') == Tail(s.net);
    KeepQuiet(w, s, net');
  }

  lemma KeepSend(w: World, s: System)
    requires Inv(w, s) && P.Enabled(s.net, P.Send)
    ensures Inv(w, s.(net := P.Apply(s.net, P.Send)))
  {
    P.InvStep(s.net, P.Send);
    AfterSend(s.net);
    KeepQuiet(w, s, P.Apply(s.net, P.Send));
  }

  lemma KeepWire(w: World, s: System, p: P.Step)
    requires Inv(w, s) && Enabled(w, s, Wire(p))
    ensures Inv(w, Apply(w, s, Wire(p)))
  {
    match p {
      case Receive => KeepReceive(w, s);
      case Save => KeepSave(w, s);
      case TakeAck => KeepTakeAck(w, s);
      case Drop => KeepDrop(w, s);
      case Lose(number) => KeepLose(w, s, number);
      case Waste => KeepWaste(w, s);
      case Connect => KeepConnect(w, s);
      case Send => KeepSend(w, s);
    }
  }

  // ------------------------------------------------------------ the tables

  lemma KeepPollStored(w: World, s: System, r: RelayResult)
    requires Inv(w, s)
    ensures Inv(w, Apply(w, s, PollStored(r)))
  {
    var s' := Apply(w, s, PollStored(r));
    MoreStored(w.backend, w.codec, s.listener, Pending(s.net), {r.requestId});
    forall id | id in s'.jobs ensures JobInv(w, s', id) {
      assert JobInv(w, s, id);
    }
    if s.repair.Refilling? {
      forall i | 0 <= i < |s.repair.todo| ensures WorkInv(w, s', s.repair.todo[i]) {
        assert WorkInv(w, s, s.repair.todo[i]);
      }
    }
    if s.net.link.Up? && s.net.link.unsaved.Some? {
      var m := s.net.link.unsaved.value;
      MoreStored(w.backend, w.codec, s.listener, [m], {r.requestId});
      assert [m][1..] == [];
    }
  }

  lemma KeepTable(w: World, s: System, step: Step)
    requires Inv(w, s) && Enabled(w, s, step) && (step.PushResult? || step.Lease? || step.GiveBack?)
    ensures Inv(w, Apply(w, s, step))
  {
    match step {
      case PushResult(r) => S.PushedIs(s.rows, r);
      case Lease(max, now, until) => S.MarkedIs(s.rows, S.IdsOf(S.LeasedOut(s.rows, max, now)), Some(until));
      case GiveBack(results) => S.MarkedIs(s.rows, S.IdsOf(results), None);
    }
    SameStreams(w, s, Apply(w, s, step));
  }

  lemma KeepStart(w: World, s: System, p: Planned)
    requires Inv(w, s) && Enabled(w, s, StartChunks(p))
    ensures Inv(w, Apply(w, s, StartChunks(p)))
  {
    var s' := Apply(w, s, StartChunks(p));
    ChunkedTotal(TransferOf(w, p).Payload(), p.chunkSize);
    forall id | id in s'.jobs ensures JobInv(w, s', id) {
      if id != p.res.requestId {
        assert JobInv(w, s, id);
      }
    }
    if s.repair.Refilling? {
      forall i | 0 <= i < |s.repair.todo| ensures WorkInv(w, s', s.repair.todo[i]) {
        assert WorkInv(w, s, s.repair.todo[i]);
        if IsCutOf(s.repair.todo[i], p.res.requestId) {
          TwinsBothWays(w, p, s.repair.todo[i].stream.planned);
        }
      }
    }
  }

  lemma KeepAbandon(w: World, s: System, id: Id)
    requires Inv(w, s)
    ensures Inv(w, s.(jobs := s.jobs - {id}))
  {
    var s' := s.(jobs := s.jobs - {id});
    forall other | other in s'.jobs ensures JobInv(w, s', other) {
      assert JobInv(w, s, other);
    }
    if s.repair.Refilling? {
      forall i | 0 <= i < |s.repair.todo| ensures WorkInv(w, s', s.repair.todo[i]) {
        assert WorkInv(w, s, s.repair.todo[i]);
      }
    }
  }

  lemma KeepRefillOver(w: World, s: System)
    requires Inv(w, s)
    ensures Inv(w, s.(repair := Quiet))
  {
    var s' := s.(repair := Quiet);
    forall id | id in s'.jobs ensures JobInv(w, s', id) {
      assert JobInv(w, s, id);
    }
  }

  lemma KeepRepair(w: World, s: System, step: Step)
    requires Inv(w, s) && Enabled(w, s, step)
    requires step.Wipe? || step.Refill? || step.RefillNext? || step.RefillEnd? || step.RefillFails?
    ensures Inv(w, Apply(w, s, step))
  {
    match step {
      case Wipe => KeepWipe(w, s);
      case Refill(_, _, _, _, _) => KeepRefill(w, s, step);
      case RefillNext => KeepRefillNext(w, s);
      case RefillEnd => KeepRefillOver(w, s);
      case RefillFails =>
        KeepRefillOver(w, s);
        if s.net.link.Up? {
          KeepDrop(w, s.(repair := Quiet));
        } else {
          assert P.Apply(s.net, P.Drop) == s.net;
        }
    }
  }

  lemma KeepLoop(w: World, s: System, step: Step)
    requires Inv(w, s) && Enabled(w, s, step)
    requires step.StartChunks? || step.QueueChunk? || step.Abandon?
    ensures Inv(w, Apply(w, s, step))
  {
    match step {
      case StartChunks(p) => KeepStart(w, s, p);
      case QueueChunk(id) => KeepQueueChunk(w, s, id);
      case Abandon(id) => KeepAbandon(w, s, id);
    }
  }

  lemma KeepPlain(w: World, s: System, step: Step)
    requires Inv(w, s) && Enabled(w, s, step) && (step.QueueWhole? || step.QueueOther?)
    ensures Inv(w, Apply(w, s, step))
  {
    match step {
      case QueueWhole(r) => KeepQueuePlain(w, s, Entry(r.requestId, Result(r)));
      case QueueOther(e) => KeepQueuePlain(w, s, e);
    }
  }

  lemma KeepPoll(w: World, s: System, step: Step)
    requires Inv(w, s) && Enabled(w, s, step) && (step.PollStored? || step.PollAnswered?)
    ensures Inv(w, Apply(w, s, step))
  {
    match step {
      case PollStored(r) => KeepPollStored(w, s, r);
      case PollAnswered(id) => KeepRows(w, s, S.Dropped(s.rows, {id}), {id});
    }
  }

  lemma InvStep(w: World, s: System, step: Step)
    requires Inv(w, s) && Enabled(w, s, step)
    ensures Inv(w, Apply(w, s, step))
  {
    if step.PushResult? || step.Lease? || step.GiveBack? {
      KeepTable(w, s, step);
    } else if step.QueueWhole? || step.QueueOther? {
      KeepPlain(w, s, step);
    } else if step.StartChunks? || step.QueueChunk? || step.Abandon? {
      KeepLoop(w, s, step);
    } else if step.PollStored? || step.PollAnswered? {
      KeepPoll(w, s, step);
    } else if step.Wire? {
      KeepWire(w, s, step.step);
    } else {
      KeepRepair(w, s, step);
    }
  }

  lemma {:induction false} InvRun(w: World, start: System, steps: seq<Step>, end: System)
    requires Inv(w, start) && Reaches(w, start, steps, end)
    ensures Inv(w, end)
    decreases |steps|
  {
    if steps != [] {
      InvStep(w, start, steps[0]);
      InvRun(w, Apply(w, start, steps[0]), steps[1..], end);
    }
  }

  /**
    In every run in which no repair does harm to a loop, with drops, crashes, redeliveries, lost
    entries, gap repairs and lossy polls: a result the sender ever pushed is still pending there or the
    listener has stored a result for its id; and whatever the next ack deletes, the listener has stored.
   */
  lemma NoResultLost(w: World, steps: seq<Step>, end: System)
    requires Reaches(w, INIT, steps, end)
    ensures end.pushed <= S.IdSet(end.rows) + end.listener.stored
    ensures P.Enabled(end.net, P.TakeAck) ==>
              ReleasedBy(Upto(end.net.log.stored, end.net.link.acks[0])) <= end.listener.stored
  {
    InvInit(w);
    InvRun(w, INIT, steps, end);
    if P.Enabled(end.net, P.TakeAck) {
      AckDeletesOnlyStored(w, end);
    }
  }

  // ------------------------------------------------------------ all runs

  ghost predicate Happens(w: World, start: System, steps: seq<Step>, end: System)
    decreases |steps|
  {
    if steps == [] then start == end
    else Possible(w, start, steps[0]) && Happens(w, Apply(w, start, steps[0]), steps[1..], end)
  }

  predicate LeavesGap(step: Step) {
    step.Wire? && (step.step.Waste? || step.step.Lose?)
  }

  lemma WholeStaysWhole(w: World, s: System, step: Step)
    requires PP.Whole(s.net) && s.repair.Quiet? && Possible(w, s, step) && !LeavesGap(step)
    ensures !step.Wipe? && Enabled(w, s, step)
    ensures PP.Whole(Apply(w, s, step).net) && Apply(w, s, step).repair.Quiet?
  {
    match step {
      case QueueWhole(r) => PP.WholeStep(s.net, P.Append(Entry(r.requestId, Result(r))));
      case QueueOther(e) => PP.WholeStep(s.net, P.Append(e));
      case QueueChunk(id) => PP.WholeStep(s.net, P.Append(NextEntry(w, s.jobs[id])));
      case Wire(p) => PP.WholeStep(s.net, p);
      case Wipe => PP.NoRepair(s.net);
      case _ =>
    }
  }

  lemma {:induction false} WholeRunsAreReached(w: World, start: System, steps: seq<Step>, end: System)
    requires PP.Whole(start.net) && start.repair.Quiet? && Happens(w, start, steps, end)
    requires forall i :: 0 <= i < |steps| ==> !LeavesGap(steps[i])
    ensures Reaches(w, start, steps, end)
    decreases |steps|
  {
    if steps != [] {
      WholeStaysWhole(w, start, steps[0]);
      assert forall i :: 0 <= i < |steps| - 1 ==> steps[1..][i] == steps[i + 1];
      WholeRunsAreReached(w, Apply(w, start, steps[0]), steps[1..], end);
    }
  }

  /**
    When every number handed out gets its entry and keeps it until it is acknowledged, nothing has to
    be asked of repairs: none happens, and no result is lost.
   */
  lemma NoResultLostWithoutGaps(w: World, steps: seq<Step>, end: System)
    requires Happens(w, INIT, steps, end)
    requires forall i :: 0 <= i < |steps| ==> !LeavesGap(steps[i])
    ensures end.pushed <= S.IdSet(end.rows) + end.listener.stored
  {
    WholeRunsAreReached(w, INIT, steps, end);
    NoResultLost(w, steps, end);
  }
}
