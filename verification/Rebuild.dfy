/**
  What a gap repair queues again: rebuildListenerWSOutbox of internal/server/handlers.go and
  rebuildSenderWSOutbox of internal/poller/websocket.go.
 */
module Rebuild {
  import opened Wrappers
  import opened Models
  import opened Chunking
  import L = RequestLedger
  import Q = RequestQueue
  import opened PollPayload
  import OutboxLog
  import opened Outbox
  import opened WsSession
  import S = SenderStore

  function Decimal(n: nat): string {
    var digit := ['0' + (n % 10) as char];
    if n < 10 then digit else Decimal(n / 10) + digit
  }

  function OfferEntry(o: Offer): seq<Entry> {
    match o
    case Whole(req) => [Entry(req.id, PushRequest(req))]
    case Part(chunk) =>
      [Entry(TransferName(chunk.transfer) + ":"
        + (if chunk.index < 0 then "-" + Decimal(-chunk.index) else Decimal(chunk.index)),
             PushChunk(chunk))]
    case _ => []
  }

  function Entries(v: View, ids: seq<Id>): seq<Entry> {
    if ids == [] then [] else Entries(v, ids[..|ids| - 1]) + OfferEntry(Offered(v, ids[|ids| - 1]))
  }

  /** Unlike a poll, a repair also repeats the active requests that go in one piece. */
  function Repeated(v: View, p: L.Peer, t1: int): seq<Id> {
    PutIn(v, ActiveNow(v, p, t1), true)
  }

  function TopUp(v: View, p: L.Peer, t1: int, t2: int): seq<Id> {
    L.LeasedBy(v.ledger, p, v.cfg.batch - |Repeated(v, p, t1)|, t2)
  }

  function Restored(v: View, p: L.Peer, t1: int, t2: int): seq<Id> {
    Repeated(v, p, t1) + PutIn(v, TopUp(v, p, t1, t2), true)
  }

  method AppendRequest(outbox: SqliteOutbox, q: Q.SqliteQueue, codec: Codec, chunkSize: int, id: Id, remaining: nat)
    returns (ok: bool, left: nat)
    requires outbox.Valid() && id in q.requests && 0 < remaining
    modifies outbox
    ensures outbox.Valid()
    ensures var o := OfferOf(codec, chunkSize, q.requests[id].req, Cursor(q.chunkCursors, id));
            && ok == !o.Refused?
            && outbox.Abs() == AppendAll(old(outbox.Abs()), OfferEntry(o))
            && left == remaining - |OfferEntry(o)|
  {
    ok, left := true, remaining;
    ghost var log := outbox.Abs();
    AppendOne(log, OfferEntry(OfferOf(codec, chunkSize, q.requests[id].req, Cursor(q.chunkCursors, id))));
    var req := q.requests[id].req;
    if !NeedsChunking(codec.marshalRequest(req), chunkSize) {
      var _ := outbox.AppendWSOutbox(Entry(req.id, PushRequest(req)));
      left := remaining - 1;
      return;
    }
    var nextIndex := 0;
    if id in q.chunkCursors {
      nextIndex := q.chunkCursors[id];
    }
    var chunk := RequestChunkAt(codec, req, chunkSize, nextIndex);
    if chunk.Err? {
      ok := chunk.error.OutOfRange?;
      return;
    }
    var _ := outbox.AppendWSOutbox(OfferEntry(Part(chunk.value))[0]);
    left := remaining - 1;
  }

  lemma AppendOne(l: OutboxLog.Log, es: seq<Entry>)
    requires |es| <= 1
    ensures AppendAll(l, es) == if es == [] then l else OutboxLog.Append(l, es[0])
  {
    if es != [] {
      assert AppendAll(l, es[..0]) == l;
    }
  }

  lemma EntriesStep(v: View, before: seq<Id>, ids: seq<Id>, i: nat)
    requires i < |ids|
    ensures Entries(v, before + PutIn(v, ids[..i + 1], true)) ==
            Entries(v, before + PutIn(v, ids[..i], true)) + OfferEntry(Offered(v, ids[i]))
    ensures |PutIn(v, ids[..i + 1], true)| == |PutIn(v, ids[..i], true)| + |OfferEntry(Offered(v, ids[i]))|
  {
    SentStep(v, ids, i, true);
    var sent := before + PutIn(v, ids[..i], true);
    if Sends(v, ids[i], true) {
      assert (sent + [ids[i]])[..|sent|] == sent;
      assert before + (PutIn(v, ids[..i], true) + [ids[i]]) == sent + [ids[i]];
    } else {
      assert PutIn(v, ids[..i + 1], true) == PutIn(v, ids[..i], true);
      assert Entries(v, sent) + [] == Entries(v, sent);
    }
  }

  /** One of the two loops: it stops at the first chunk size error. */
  method AppendRequests(
    outbox: SqliteOutbox, q: Q.SqliteQueue, v: View, ids: seq<Id>, room: nat, ghost l0: OutboxLog.Log,
    ghost before: seq<Id>)
    returns (ok: bool, left: nat)
    requires outbox.Valid() && outbox.Abs() == AppendAll(l0, Entries(v, before))
    requires |ids| <= room && q.chunkCursors == v.ledger.cursors && SameRequests(q.requests, v.ledger.rows)
    requires forall id :: id in ids ==> id in v.ledger.rows
    modifies outbox
    ensures outbox.Valid() && ok == !RefusesOne(v, ids)
    ensures ok ==> left == room - |PutIn(v, ids, true)|
    ensures ok ==> outbox.Abs() == AppendAll(l0, Entries(v, before + PutIn(v, ids, true)))
  {
    ok, left := true, room;
    assert ids[..|ids|] == ids && before + [] == before;
    var i := 0;
    while i < |ids| && 0 < left
      invariant outbox.Valid() && ok && i <= |ids| && left == room - |PutIn(v, ids[..i], true)|
      invariant outbox.Abs() == AppendAll(l0, Entries(v, before + PutIn(v, ids[..i], true)))
      invariant !RefusesOne(v, ids[..i])
    {
      var id := ids[i];
      EntriesStep(v, before, ids, i);
      RefusesMore(v, ids, i);
      ok, left := AppendRequest(outbox, q, v.codec, v.cfg.chunkSize, id, left);
      AppendAllMore(l0, Entries(v, before + PutIn(v, ids[..i], true)), OfferEntry(Offered(v, id)));
      if !ok {
        return;
      }
      i := i + 1;
    }
  }

  /** First the requests already leased, then as many more as fit. */
  method RepeatActive(outbox: SqliteOutbox, q: Q.SqliteQueue, p: L.Peer, v: View, t1: int)
    returns (ok: bool, remaining: nat)
    requires outbox.Valid() && q.Is(v.ledger)
    modifies outbox
    ensures outbox.Valid() && ok == !RefusesOne(v, ActiveNow(v, p, t1))
    ensures ok ==> remaining == v.cfg.batch - |Repeated(v, p, t1)|
                   && outbox.Abs() == AppendAll(old(outbox.Abs()), Entries(v, Repeated(v, p, t1)))
  {
    ghost var l := v.ledger;
    var active := q.ListActiveLeasedRequests(p, v.cfg.batch, t1, l);
    ActiveAre(L.Queue(l, p), l.rows, t1);
    assert forall id :: id in active ==> id in L.ActiveIds(L.Queue(l, p), l.rows, t1);
    ok, remaining := AppendRequests(outbox, q, v, active, v.cfg.batch, outbox.Abs(), []);
    assert [] + Repeated(v, p, t1) == Repeated(v, p, t1);
  }

  method LeaseAndAppend(
    outbox: SqliteOutbox, q: Q.SqliteQueue, p: L.Peer, v: View, t2: int, room: nat, ghost l0: OutboxLog.Log,
    ghost before: seq<Id>)
    returns (ok: bool)
    requires outbox.Valid() && q.Is(v.ledger) && outbox.Abs() == AppendAll(l0, Entries(v, before))
    modifies q`requests, outbox
    ensures outbox.Valid() && ok == !RefusesOne(v, L.LeasedBy(v.ledger, p, room, t2))
    ensures ok ==> outbox.Abs() == AppendAll(l0, Entries(v, before + PutIn(v, L.LeasedBy(v.ledger, p, room, t2), true)))
    ensures q.Is(L.Lease(v.ledger, p, room, t2, v.cfg.leaseTTL))
  {
    LeaseAll(v.ledger, p, room, t2);
    var leased := q.LeaseRequests(p, room, t2, v.cfg.leaseTTL, v.ledger);
    var left;
    ok, left := AppendRequests(outbox, q, v, leased, room, l0, before);
  }

  method RebuildListenerWSOutbox(outbox: SqliteOutbox, q: Q.SqliteQueue, p: L.Peer, v: View, t1: int, t2: int,
                                 afterSeq: nat)
    returns (ok: bool)
    requires outbox.Valid() && q.Is(v.ledger)
    modifies q`requests, outbox
    ensures outbox.Valid()
    ensures ok <==> !RefusesOne(v, ActiveNow(v, p, t1)) && !RefusesOne(v, TopUp(v, p, t1, t2))
    ensures ok ==>
              var emptied := OutboxLog.Reset(old(outbox.Abs()), afterSeq);
              outbox.Abs() == AppendAll(emptied, Entries(v, Restored(v, p, t1, t2)))
    ensures q.Is(if RefusesOne(v, ActiveNow(v, p, t1)) then v.ledger
                 else L.Lease(v.ledger, p, v.cfg.batch - |Repeated(v, p, t1)|, t2, v.cfg.leaseTTL))
  {
    ghost var l0 := OutboxLog.Reset(outbox.Abs(), afterSeq);
    outbox.ResetWSOutbox(afterSeq);
    var remaining;
    ok, remaining := RepeatActive(outbox, q, p, v, t1);
    if !ok {
      return;
    }
    if remaining < 1 {
      NoRoomNoLease(v.ledger, p, t2, v.cfg.leaseTTL);
      assert Restored(v, p, t1, t2) == Repeated(v, p, t1);
      return;
    }
    ok := LeaseAndAppend(outbox, q, p, v, t2, remaining, l0, Repeated(v, p, t1));
  }

  lemma {:induction false} OneEntryEach(v: View, ids: seq<Id>)
    requires forall id :: id in ids ==> Sends(v, id, true)
    ensures |Entries(v, ids)| == |ids|
  {
    if ids != [] {
      assert ids[|ids| - 1] in ids;
      OneEntryEach(v, ids[..|ids| - 1]);
    }
  }

  /**
    A repair of the listener's outbox queues at most a batch of entries, one for each request it
    restores, and every request it finds leased or leases now is restored unless its transfer is over.
   */
  lemma RepairRestores(v: View, p: L.Peer, t1: int, t2: int)
    requires 0 < v.cfg.chunkSize
    ensures |Entries(v, Restored(v, p, t1, t2))| == |Restored(v, p, t1, t2)| <= v.cfg.batch
    ensures forall id :: id in ActiveNow(v, p, t1) || id in TopUp(v, p, t1, t2) ==>
              (id in Restored(v, p, t1, t2) <==> !Offered(v, id).PastTheEnd?)
  {
    SentAre(v, ActiveNow(v, p, t1), true);
    SentAre(v, TopUp(v, p, t1, t2), true);
    LeaseAll(v.ledger, p, v.cfg.batch - |Repeated(v, p, t1)|, t2);
    OneEntryEach(v, Restored(v, p, t1, t2));
  }

  /** None is queued twice, under the same condition as in a poll; here whole requests go on too. */
  lemma RepairedOnce(v: View, p: L.Peer, t1: int, t2: int)
    requires L.Clean(v.ledger)
    ensures L.Distinct(Restored(v, p, t1, t2)) <==> !exists k: nat :: TwiceAt(v, p, t1, t2, true, k)
    ensures t2 <= t1 ==> L.Distinct(Restored(v, p, t1, t2))
  {
    OnceIff(v, p, t1, t2, true);
  }

  // ------------------------------------------------------------ the sender's side

  function ResultsEntries(codec: Codec, results: seq<RelayResult>, chunkSize: int): seq<Entry>
    requires 0 < chunkSize
  {
    if results == [] then []
    else ResultsEntries(codec, results[..|results| - 1], chunkSize)
         + ResultEntries(codec, results[|results| - 1], chunkSize)
  }

  function StateEntries(states: seq<SyncState>): seq<Entry> {
    if states == [] then []
    else StateEntries(states[..|states| - 1])
         + [Entry(states[|states| - 1].requestId, RequestState(states[|states| - 1]))]
  }

  function ReceiptEntries(receipts: seq<ChunkReceipt>): seq<Entry> {
    if receipts == [] then []
    else
      var r := receipts[|receipts| - 1];
      ReceiptEntries(receipts[..|receipts| - 1]) + [Entry(TransferName(r.transfer), Receipt(r))]
  }

  /** `states` and `receipts` are the two tables as listed. */
  method RebuildSenderWSOutbox(
    outbox: SqliteOutbox, store: S.Store, codec: Codec, max: nat, now: int, ttl: nat, chunkSize: int,
    states: seq<SyncState>, receipts: seq<ChunkReceipt>, afterSeq: nat)
    requires outbox.Valid() && store.Valid() && 0 < chunkSize
    modifies outbox, store`pendingResults
    ensures outbox.Valid() && store.Valid()
    ensures store.pendingResults == S.AfterLease(old(store.pendingResults), max, now, now + ttl)
    ensures outbox.Abs() == AppendAll(OutboxLog.Reset(old(outbox.Abs()), afterSeq),
                                      ResultsEntries(codec, S.LeasedOut(old(store.pendingResults), max, now), chunkSize)
                                      + StateEntries(states) + ReceiptEntries(receipts))
  {
    ghost var l0 := OutboxLog.Reset(outbox.Abs(), afterSeq);
    outbox.ResetWSOutbox(afterSeq);
    var results := store.LeaseResults(max, now, now + ttl);
    QueueResults(outbox, codec, results, chunkSize);
    QueueStates(outbox, states);
    QueueReceipts(outbox, receipts);
    AppendThree(l0, ResultsEntries(codec, results, chunkSize), StateEntries(states), ReceiptEntries(receipts));
  }

  lemma AppendThree(l: OutboxLog.Log, a: seq<Entry>, b: seq<Entry>, c: seq<Entry>)
    ensures AppendAll(AppendAll(AppendAll(l, a), b), c) == AppendAll(l, a + b + c)
  {
    AppendAllMore(l, a, b);
    AppendAllMore(l, a + b, c);
  }

  method QueueResults(outbox: SqliteOutbox, codec: Codec, results: seq<RelayResult>, chunkSize: int)
    requires outbox.Valid() && 0 < chunkSize
    modifies outbox
    ensures outbox.Valid() && outbox.Abs() == AppendAll(old(outbox.Abs()), ResultsEntries(codec, results, chunkSize))
  {
    ghost var l := outbox.Abs();
    assert results[..|results|] == results;
    for i := 0 to |results|
      invariant outbox.Valid() && outbox.Abs() == AppendAll(l, ResultsEntries(codec, results[..i], chunkSize))
    {
      assert results[..i + 1][..i] == results[..i];
      AppendAllMore(l, ResultsEntries(codec, results[..i], chunkSize), ResultEntries(codec, results[i], chunkSize));
      QueueSenderResultWS(outbox, codec, results[i], chunkSize);
    }
  }

  method QueueStates(outbox: SqliteOutbox, states: seq<SyncState>)
    requires outbox.Valid()
    modifies outbox
    ensures outbox.Valid() && outbox.Abs() == AppendAll(old(outbox.Abs()), StateEntries(states))
  {
    ghost var l := outbox.Abs();
    assert states[..|states|] == states;
    for i := 0 to |states|
      invariant outbox.Valid() && outbox.Abs() == AppendAll(l, StateEntries(states[..i]))
    {
      assert states[..i + 1][..i] == states[..i];
      AppendLast(l, StateEntries(states[..i]), Entry(states[i].requestId, RequestState(states[i])));
      var _ := outbox.AppendWSOutbox(Entry(states[i].requestId, RequestState(states[i])));
    }
  }

  method QueueReceipts(outbox: SqliteOutbox, receipts: seq<ChunkReceipt>)
    requires outbox.Valid()
    modifies outbox
    ensures outbox.Valid() && outbox.Abs() == AppendAll(old(outbox.Abs()), ReceiptEntries(receipts))
  {
    ghost var l := outbox.Abs();
    assert receipts[..|receipts|] == receipts;
    for i := 0 to |receipts|
      invariant outbox.Valid() && outbox.Abs() == AppendAll(l, ReceiptEntries(receipts[..i]))
    {
      assert receipts[..i + 1][..i] == receipts[..i];
      AppendLast(l, ReceiptEntries(receipts[..i]), Entry(TransferName(receipts[i].transfer), Receipt(receipts[i])));
      var _ := outbox.AppendWSOutbox(Entry(TransferName(receipts[i].transfer), Receipt(receipts[i])));
    }
  }

  lemma AppendLast(l: OutboxLog.Log, es: seq<Entry>, e: Entry)
    ensures AppendAll(l, es + [e]) == OutboxLog.Append(AppendAll(l, es), e)
  {
    assert (es + [e])[..|es|] == es;
  }
}
