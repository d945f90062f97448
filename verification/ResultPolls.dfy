/** Results over lossy HTTP polls, and their release by websocket acks: internal/poller/poller.go and websocket.go. */
module ResultPolls {
  import opened Wrappers
  import opened Models
  import opened SenderStore
  import OutboxLog
  import opened Outbox
  import opened Reassembly
  import ListenerInbound
  import L = RequestLedger
  import Q = RequestQueue
  import EndToEnd

  // ------------------------------------------------------------ one cycle, as the sender sees it

  /**
    How the exchange ended: never sent or cancelled; refused or cut off; garbled, or its
    acknowledgements could not be written; or answered, and the rest of the answer was processed or not.
   */
  datatype Exchange = NotSent | Failed | Garbled | Answered(acks: seq<Id>, processed: bool)

  function AfterCycle(rows: seq<PendingRow>, max: nat, now: int, until: int, x: Exchange): seq<PendingRow> {
    var leased := AfterLease(rows, max, now, until);
    match x
    case Failed => Marked(leased, IdsOf(LeasedOut(rows, max, now)), None)
    case Answered(acks, _) => Dropped(leased, AsSet(acks))
    case _ => leased
  }

  /** AckResults is called only with something to acknowledge, by a poll and by an outbox ack. */
  method AckIfAny(store: Store, acks: seq<Id>)
    requires store.Valid()
    modifies store, store.chunks`chunkReceipts, store.chunks`inboundChunks
    ensures store.Valid()
    ensures store.pendingResults == Dropped(old(store.pendingResults), AsSet(acks))
    ensures store.requestStates == old(store.requestStates) - AsSet(acks)
    ensures store.chunks.chunkReceipts == old(store.chunks.chunkReceipts) - Transfers(AsSet(acks))
    ensures store.chunks.inboundChunks == old(store.chunks.inboundChunks) - Transfers(AsSet(acks))
  {
    if |acks| > 0 {
      store.AckResults(acks);
    } else {
      DroppedNone(store.pendingResults);
      assert AsSet(acks) == {} && Transfers({}) == {};
      NothingMinus(store.requestStates);
      NothingMinus(store.chunks.chunkReceipts);
      NothingMinus(store.chunks.inboundChunks);
    }
  }

  /** The exchange itself is I/O; `x` is what it came to. Only a failed request gives its results back. */
  method DoPollCycleHTTP(store: Store, max: nat, now: int, ttl: nat, x: Exchange)
    returns (sent: seq<RelayResult>, ok: bool)
    requires store.Valid()
    modifies store, store.chunks`chunkReceipts, store.chunks`inboundChunks
    ensures store.Valid() && sent == LeasedOut(old(store.pendingResults), max, now) 
    ensures ok == (x.Answered? && x.processed)
    ensures store.pendingResults == AfterCycle(old(store.pendingResults), max, now, now + ttl, x)
    ensures var gone := if x.Answered? then AsSet(x.acks) else {};
            && store.requestStates == old(store.requestStates) - gone
            && store.chunks.chunkReceipts == old(store.chunks.chunkReceipts) - Transfers(gone)
            && store.chunks.inboundChunks == old(store.chunks.inboundChunks) - Transfers(gone)
  {
    sent := store.LeaseResults(max, now, now + ttl);
    NothingMinus(store.requestStates);
    NothingMinus(store.chunks.chunkReceipts);
    NothingMinus(store.chunks.inboundChunks);
    assert Transfers({}) == {};
    match x {
      case NotSent => ok := false;
      case Failed => store.RePushResults(sent); ok := false;
      case Garbled => ok := false;
      case Answered(acks, processed) => AckIfAny(store, acks); ok := processed;
    }
  }

  /** The names of the receipts that an ack covers. */
  function ReceiptsIn(removed: seq<OutMsg>): set<string> {
    set m | m in removed && m.entry.body.Receipt? && m.entry.refId != "" :: m.entry.refId
  }

  /** handleSenderOutboxAck: an ack of the outbox deletes the results whose last entry it covers, and the receipts. */
  method HandleSenderOutboxAck(outbox: SqliteOutbox, store: Store, ackSeq: int)
    requires outbox.Valid() && store.Valid()
    modifies outbox, store, store.chunks`chunkReceipts, store.chunks`inboundChunks
    ensures outbox.Valid() && store.Valid()
    ensures outbox.Abs() == OutboxLog.AckThrough(old(outbox.Abs()), ackSeq)
    ensures var removed := OutboxLog.Upto(old(outbox.Abs()).stored, ackSeq);
            var released := EndToEnd.ReleasedBy(removed);
            && store.pendingResults == Dropped(old(store.pendingResults), released)
            && store.requestStates == old(store.requestStates) - released
            && store.chunks.chunkReceipts ==
               WithoutNames(old(store.chunks.chunkReceipts), ReceiptsIn(removed)) - Transfers(released)
            && store.chunks.inboundChunks == old(store.chunks.inboundChunks) - Transfers(released)
  {
    ghost var receipts := store.chunks.chunkReceipts;
    var acked := outbox.AckWSOutboxThrough(ackSeq);
    var resultIds: seq<Id> := [];
    assert acked[..|acked|] == acked;
    for i := 0 to |acked|
      modifies store.chunks`chunkReceipts
      invariant AsSet(resultIds) == EndToEnd.ReleasedBy(acked[..i])
      invariant store.chunks.chunkReceipts == WithoutNames(receipts, ReceiptsIn(acked[..i]))
    {
      assert acked[..i + 1] == acked[..i] + [acked[i]];
      ReleasedOneMore(acked[..i], acked[i]);
      var e := acked[i].entry;
      if e.body.Result? || e.body.ResultChunk? {
        if e.refId != "" {
          assert AsSet(resultIds + [e.refId]) == AsSet(resultIds) + {e.refId};
          resultIds := resultIds + [e.refId];
        }
      } else if e.body.Receipt? {
        if e.refId != "" {
          store.chunks.DeleteChunkReceipt(e.refId);
        }
      }
    }
    AckIfAny(store, resultIds);
  }

  lemma NothingMinus<K, V>(m: map<K, V>)
    ensures m - {} == m
  {
  }

  lemma ReleasedOneMore(msgs: seq<OutMsg>, m: OutMsg)
    ensures EndToEnd.ReleasedBy(msgs + [m]) == EndToEnd.ReleasedBy(msgs) + ListenerInbound.Releases(m.entry)
    ensures ReceiptsIn(msgs + [m]) ==
            ReceiptsIn(msgs) + (if m.entry.body.Receipt? && m.entry.refId != "" then {m.entry.refId} else {})
  {
    forall id | id in ListenerInbound.Releases(m.entry) ensures id in EndToEnd.ReleasedBy(msgs + [m]) {
      assert m in msgs + [m];
    }
    forall id | id in EndToEnd.ReleasedBy(msgs) ensures id in EndToEnd.ReleasedBy(msgs + [m]) {
      var k :| k in msgs && id in ListenerInbound.Releases(k.entry);
      assert k in msgs + [m];
    }
  }

  // ------------------------------------------------------------ the whole system

  /**
    `onTheWay` are the result lists of requests sent and perhaps still travelling, `answers` the lists
    of acknowledged ids; either may arrive late, more than once, or never.
   */
  datatype System = System(
    rows: seq<PendingRow>, onTheWay: seq<seq<RelayResult>>, stored: set<Id>, answers: seq<seq<Id>>, pushed: set<Id>)

  const START := System([], [], {}, [], {})

  datatype Step =
    | Push(res: RelayResult)
    | BeginPoll(max: nat, now: int, ttl: nat)
    | Handle(request: nat, failing: set<Id>)
    | GiveBack(results: seq<RelayResult>)
    | TakeAnswer(answer: nat)

  ghost predicate Enabled(s: System, step: Step) {
    match step
    case Handle(i, _) => i < |s.onTheWay|
    case TakeAnswer(i) => i < |s.answers|
    case _ => true
  }

  /** processPollPayload: each result that could be stored is acknowledged. */
  function StoredOf(results: seq<RelayResult>, failing: set<Id>): seq<Id> {
    if results == [] then []
    else
      var id := results[|results| - 1].requestId;
      StoredOf(results[..|results| - 1], failing) + (if id in failing then [] else [id])
  }

  /** The listener's store after these results. */
  function StoreEach(l: L.Ledger, ids: seq<Id>, now: int, ttl: nat): L.Ledger {
    if ids == [] then l else L.StoreResult(StoreEach(l, ids[..|ids| - 1], now, ttl), ids[|ids| - 1], now, ttl)
  }

  /** The result loop of processPollPayload; storing may fail for some, which are then not acknowledged. */
  method StorePolledResults(q: Q.SqliteQueue, results: seq<RelayResult>, failing: set<Id>, now: int, ttl: nat,
                            ghost l: L.Ledger)
    returns (ackResultIds: seq<Id>)
    requires q.Is(l)
    modifies q
    ensures ackResultIds == StoredOf(results, failing)
    ensures q.Is(StoreEach(l, ackResultIds, now, ttl))
  {
    ackResultIds := [];
    assert results[..|results|] == results;
    for i := 0 to |results|
      invariant ackResultIds == StoredOf(results[..i], failing)
      invariant q.Is(StoreEach(l, ackResultIds, now, ttl))
    {
      assert results[..i + 1][..i] == results[..i];
      var id := results[i].requestId;
      if id !in failing {
        q.StoreResult(id, now, ttl, StoreEach(l, ackResultIds, now, ttl));
        assert (ackResultIds + [id])[..|ackResultIds|] == ackResultIds;
        ackResultIds := ackResultIds + [id];
      }
    }
  }

  /** What a poll answer acknowledges has a stored result, is completed, and is out of every queue. */
  lemma {:induction false} AnsweredIsStored(l: L.Ledger, ids: seq<Id>, now: int, ttl: nat, id: Id, p: L.Peer)
    requires id in ids
    ensures var l' := StoreEach(l, ids, now, ttl);
            && id in l'.results && l'.results[id] == now + ttl
            && id !in L.Queue(l', p) && (id in l'.rows ==> l'.rows[id].status == Completed)
  {
    var init, last := ids[..|ids| - 1], ids[|ids| - 1];
    var before := StoreEach(l, init, now, ttl);
    assert ids == init + [last];
    L.WithoutIs(L.Queue(before, p), {last});
    if id != last {
      AnsweredIsStored(l, init, now, ttl, id, p);
    }
  }

  function Apply(s: System, step: Step): System
    requires Enabled(s, step)
  {
    match step
    case Push(res) => s.(rows := Pushed(s.rows, res), pushed := s.pushed + {res.requestId})
    case BeginPoll(max, now, ttl) =>
      s.(rows := AfterLease(s.rows, max, now, now + ttl), onTheWay := s.onTheWay + [LeasedOut(s.rows, max, now)])
    case Handle(i, failing) =>
      var acks := StoredOf(s.onTheWay[i], failing);
      s.(stored := s.stored + AsSet(acks), answers := s.answers + [acks])
    case GiveBack(results) => s.(rows := Marked(s.rows, IdsOf(results), None))
    case TakeAnswer(i) => s.(rows := Dropped(s.rows, AsSet(s.answers[i])))
  }

  ghost predicate Reaches(s: System, steps: seq<Step>, end: System)
    decreases |steps|
  {
    if steps == [] then s == end else Enabled(s, steps[0]) && Reaches(Apply(s, steps[0]), steps[1..], end)
  }

  /** Nothing pushed is lost, nothing is acknowledged that was not stored, nothing is invented. */
  ghost predicate Inv(s: System) {
    && Unique(s.rows)
    && (forall id :: id in s.pushed ==> id in IdSet(s.rows) || id in s.stored)
    && (forall i :: 0 <= i < |s.answers| ==> AsSet(s.answers[i]) <= s.stored)
    && IdSet(s.rows) <= s.pushed
    && (forall i :: 0 <= i < |s.onTheWay| ==> IdsOf(s.onTheWay[i]) <= s.pushed)
    && s.stored <= s.pushed
  }

  lemma {:induction false} StoredAre(results: seq<RelayResult>, failing: set<Id>)
    ensures AsSet(StoredOf(results, failing)) == IdsOf(results) - failing
  {
    if results != [] {
      var init, last := results[..|results| - 1], results[|results| - 1];
      StoredAre(init, failing);
      assert results == init + [last];
      var before := StoredOf(init, failing);
      assert AsSet(before + [last.requestId]) == AsSet(before) + {last.requestId};
      assert IdsOf(results) == IdsOf(init) + {last.requestId};
    }
  }

  lemma LeasedAreRows(rows: seq<PendingRow>, max: nat, now: int)
    ensures IdsOf(LeasedOut(rows, max, now)) <= IdSet(rows)
  {
    FreeAre(rows, now);
    assert forall res :: res in LeasedOut(rows, max, now) ==> res in FreeResults(rows, now);
  }

  lemma InvStep(s: System, step: Step)
    requires Inv(s) && Enabled(s, step)
    ensures Inv(Apply(s, step))
  {
    match step {
      case Push(res) => PushedIs(s.rows, res);
      case BeginPoll(max, now, ttl) =>
        MarkedIs(s.rows, IdsOf(LeasedOut(s.rows, max, now)), Some(now + ttl));
        LeasedAreRows(s.rows, max, now);
      case Handle(i, failing) => StoredAre(s.onTheWay[i], failing);
      case GiveBack(results) => MarkedIs(s.rows, IdsOf(results), None);
      case TakeAnswer(i) =>
        DroppedIs(s.rows, AsSet(s.answers[i]));
        DroppedIds(s.rows, AsSet(s.answers[i]));
    }
  }

  lemma {:induction false} InvRun(s: System, steps: seq<Step>, end: System)
    requires Inv(s) && Reaches(s, steps, end)
    ensures Inv(end)
    decreases |steps|
  {
    if steps != [] {
      InvStep(s, steps[0]);
      InvRun(Apply(s, steps[0]), steps[1..], end);
    }
  }

  /**
    Whatever is lost, delayed, repeated or given back: a result that was pushed is still pending, or a
    result for its id has been stored by the listener; and no id is stored or pending that was not pushed.
   */
  lemma NoResultLost(steps: seq<Step>, end: System)
    requires Reaches(START, steps, end)
    ensures forall id :: id in end.pushed ==> id in IdSet(end.rows) || id in end.stored
    ensures IdSet(end.rows) + end.stored == end.pushed
  {
    InvRun(START, steps, end);
  }

  // ------------------------------------------------------------ one undisturbed round

  /**
    A request that gets through and is answered clears exactly the results it carried and the listener
    could store. The carried ones that failed stay, leased; all others stay as they were.
   */
  lemma RoundClears(rows: seq<PendingRow>, max: nat, now: int, until: int, failing: set<Id>)
    requires Unique(rows)
    ensures var sent := IdsOf(LeasedOut(rows, max, now));
            var after := AfterCycle(rows, max, now, until,
                  Answered(StoredOf(LeasedOut(rows, max, now), failing), true));
            && IdSet(after) == IdSet(rows) - (sent - failing)
            && (forall r :: r in after <==>
                  exists r0 :: r0 in rows && r0.result.requestId !in sent - failing
                               && r == if r0.result.requestId in sent then r0.(lease := Some(until)) else r0)
  {
    var sent := IdsOf(LeasedOut(rows, max, now));
    var leased := AfterLease(rows, max, now, until);
    var after := AfterCycle(rows, max, now, until, Answered(StoredOf(LeasedOut(rows, max, now), failing), true));
    StoredAre(LeasedOut(rows, max, now), failing);
    MarkedIs(rows, sent, Some(until));
    DroppedIs(leased, sent - failing);
    DroppedIds(leased, sent - failing);
    forall r | r in after
      ensures exists r0 :: r0 in rows && r0.result.requestId !in sent - failing
                           && r == if r0.result.requestId in sent then r0.(lease := Some(until)) else r0
    {
      var i :| 0 <= i < |leased| && leased[i] == r;
      assert rows[i] in rows;
    }
    forall r0 | r0 in rows && r0.result.requestId !in sent - failing
      ensures (if r0.result.requestId in sent then r0.(lease := Some(until)) else r0) in after
    {
      var i :| 0 <= i < |rows| && rows[i] == r0;
      assert leased[i] in leased;
    }
  }

  // ------------------------------------------------------------ a lease holds

  /** Every row of this id, if there is one, is leased at least until then. */
  ghost predicate Held(rows: seq<PendingRow>, id: Id, until: int) {
    forall r :: r in rows && r.result.requestId == id ==> r.lease.Some? && r.lease.value >= until
  }

  ghost predicate Releases(step: Step, id: Id) {
    (step.Push? && step.res.requestId == id) || (step.GiveBack? && id in IdsOf(step.results))
  }

  lemma HeldStep(s: System, step: Step, id: Id, until: int)
    requires Held(s.rows, id, until) && Enabled(s, step) && !Releases(step, id)
    ensures Held(Apply(s, step).rows, id, until)
    ensures step.BeginPoll? && step.now < until ==> id !in IdsOf(LeasedOut(s.rows, step.max, step.now))
  {
    match step {
      case Push(res) => PushedIs(s.rows, res);
      case BeginPoll(max, now, ttl) =>
        FreeAre(s.rows, now);
        assert forall res :: res in LeasedOut(s.rows, max, now) ==> res in FreeResults(s.rows, now);
        HeldMarked(s.rows, IdsOf(LeasedOut(s.rows, max, now)), Some(now + ttl), id, until);
      case Handle(_, _) =>
      case GiveBack(results) => HeldMarked(s.rows, IdsOf(results), None, id, until);
      case TakeAnswer(i) => DroppedIs(s.rows, AsSet(s.answers[i]));
    }
  }

  lemma HeldMarked(rows: seq<PendingRow>, ids: set<Id>, lease: Option<int>, id: Id, until: int)
    requires Held(rows, id, until)
    requires id in ids ==> lease.Some? && lease.value >= until
    ensures Held(Marked(rows, ids, lease), id, until)
  {
    var after := Marked(rows, ids, lease);
    forall r | r in after && r.result.requestId == id ensures r.lease.Some? && r.lease.value >= until {
      var i :| 0 <= i < |after| && after[i] == r;
      assert rows[i] in rows;
    }
  }

  /** A poll of the run that leases this id before then. */
  ghost predicate LeasesEarly(s: System, steps: seq<Step>, id: Id, until: int)
    decreases |steps|
  {
    steps != [] && Enabled(s, steps[0]) &&
    ((steps[0].BeginPoll? && steps[0].now < until && id in IdsOf(LeasedOut(s.rows, steps[0].max, steps[0].now)))
     || LeasesEarly(Apply(s, steps[0]), steps[1..], id, until))
  }

  lemma {:induction false} HeldRun(s: System, steps: seq<Step>, end: System, id: Id, until: int)
    requires Held(s.rows, id, until) && Reaches(s, steps, end)
    requires forall step :: step in steps ==> !Releases(step, id)
    ensures Held(end.rows, id, until) && !LeasesEarly(s, steps, id, until)
    decreases |steps|
  {
    if steps != [] {
      HeldStep(s, steps[0], id, until);
      HeldRun(Apply(s, steps[0]), steps[1..], end, id, until);
    }
  }

  /** A leased result is not leased again until its lease ends, unless it is given back or pushed again. */
  lemma LeasedOnce(s: System, max: nat, now: int, ttl: nat, steps: seq<Step>, end: System, id: Id)
    requires id in IdsOf(LeasedOut(s.rows, max, now))
    requires Reaches(Apply(s, BeginPoll(max, now, ttl)), steps, end)
    requires forall step :: step in steps ==> !Releases(step, id)
    ensures !LeasesEarly(Apply(s, BeginPoll(max, now, ttl)), steps, id, now + ttl)
  {
    var after := AfterLease(s.rows, max, now, now + ttl);
    forall r | r in after && r.result.requestId == id ensures r.lease.Some? && r.lease.value >= now + ttl {
      var i :| 0 <= i < |after| && after[i] == r;
    }
    HeldRun(Apply(s, BeginPoll(max, now, ttl)), steps, end, id, now + ttl);
  }
}
