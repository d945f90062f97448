/** A run of the whole system in which a gap repair meets a loop and the result is lost for good. */
module LosingRun {
  import opened Wrappers
  import opened Models
  import opened Chunking
  import opened Reassembly
  import opened OutboxLog
  import opened ListenerInbound
  import opened Streams
  import opened ProtocolFuture
  import P = Protocol
  import RT = ResultTransfer
  import S = SenderStore
  import opened EndToEnd

  /** A result of two chunks, and a small one that became pending before it. */
  ghost predicate Case(w: World, p: Planned, first: RelayResult) {
    && TransferOf(w, p).Valid() && InPlan(w, p) && TransferOf(w, p).Count() == 2
    && p.res.requestId != "" && first.requestId != p.res.requestId
    && !NeedsChunking(w.codec.marshalResult(first), p.chunkSize)
  }

  lemma Next(w: World, s: System, step: Step, rest: seq<Step>, end: System)
    requires Possible(w, s, step) && Happens(w, Apply(w, s, step), rest, end)
    ensures Happens(w, s, [step] + rest, end)
  {
    assert ([step] + rest)[1..] == rest;
  }

  function FirstEntry(first: RelayResult): Entry {
    Entry(first.requestId, Result(first))
  }

  function Rows(p: Planned, first: RelayResult, lease: Option<int>): seq<S.PendingRow> {
    [S.PendingRow(first, lease), S.PendingRow(p.res, None)]
  }

  // ------------------------------------------------------------ up to the gap

  /** The small result is queued under number 1, chunk 0 under number 2, and the loop goes on. */
  function Half(w: World, p: Planned, first: RelayResult): System
    requires 0 < p.chunkSize && 0 < TransferOf(w, p).Count()
  {
    var e0 := ChunkEntry(w, p, 0);
    System(P.Net(Log(map[1 := FirstEntry(first), 2 := e0], 2, 0), 0, P.Down, [], [FirstEntry(first), e0], 0),
           Listener(map[], {}), Rows(p, first, None), map[p.res.requestId := Stream(p, 1)], Quiet, {},
           {first.requestId, p.res.requestId})
  }

  /** Both results are pending, and the small one is queued. */
  function Both(p: Planned, first: RelayResult): System {
    System(P.Net(Log(map[1 := FirstEntry(first)], 1, 0), 0, P.Down, [], [FirstEntry(first)], 0),
           Listener(map[], {}), Rows(p, first, None), map[], Quiet, {}, {first.requestId, p.res.requestId})
  }

  lemma BothArePending(w: World, p: Planned, first: RelayResult, rest: seq<Step>, end: System)
    returns (steps: seq<Step>)
    requires Case(w, p, first) && Happens(w, Both(p, first), rest, end)
    ensures Happens(w, INIT, steps, end)
  {
    var s1 := Apply(w, INIT, PushResult(first));
    assert S.IdSet([S.PendingRow(first, None)]) == {first.requestId};
    var s2 := Apply(w, s1, QueueWhole(first));
    assert Apply(w, s2, PushResult(p.res)) == Both(p, first);
    Next(w, s2, PushResult(p.res), rest, end);
    Next(w, s1, QueueWhole(first), [PushResult(p.res)] + rest, end);
    steps := [QueueWhole(first)] + ([PushResult(p.res)] + rest);
    Next(w, INIT, PushResult(first), steps, end);
    steps := [PushResult(first)] + steps;
  }

  lemma HalfIsQueued(w: World, p: Planned, first: RelayResult, rest: seq<Step>, end: System)
    requires Case(w, p, first) && Happens(w, Half(w, p, first), rest, end)
    ensures Happens(w, Both(p, first), [StartChunks(p)] + ([QueueChunk(p.res.requestId)] + rest), end)
  {
    var s1 := Apply(w, Both(p, first), StartChunks(p));
    assert Apply(w, s1, QueueChunk(p.res.requestId)) == Half(w, p, first);
    Next(w, s1, QueueChunk(p.res.requestId), rest, end);
    Next(w, Both(p, first), StartChunks(p), [QueueChunk(p.res.requestId)] + rest, end);
  }

  // ------------------------------------------------------------ the repair

  /** The outbox was emptied, and with a batch of one the repair could only lease the older result. */
  function Emptied(w: World, p: Planned, first: RelayResult, lease: int): System
    requires 0 < p.chunkSize && 0 < TransferOf(w, p).Count()
  {
    var h := Half(w, p, first);
    h.(net := h.net.(log := Log(map[], 0, 0), link := P.Up(0, [], [], 0, None)),
       rows := Rows(p, first, Some(lease)), repair := Refilling([Small(first)]))
  }

  lemma FirstIsLeased(p: Planned, first: RelayResult, now: int, lease: int)
    requires first.requestId != p.res.requestId
    ensures S.LeasedOut(Rows(p, first, None), 1, now) == [first]
    ensures S.AfterLease(Rows(p, first, None), 1, now, lease) == Rows(p, first, Some(lease))
  {
    var rows := Rows(p, first, None);
    assert rows[..1] == [rows[0]] && [rows[0]][..0] == [];
    assert S.FreeResults([rows[0]], now) == [first];
    assert S.FreeResults(rows, now) == [first, p.res];
    assert S.IdsOf([first]) == {first.requestId};
  }

  /** Connected, and the payload of number 1 is gone. */
  function Gapped(w: World, p: Planned, first: RelayResult): System
    requires 0 < p.chunkSize && 0 < TransferOf(w, p).Count()
  {
    var h := Half(w, p, first);
    h.(net := h.net.(log := Log(map[2 := ChunkEntry(w, p, 0)], 2, 0), link := P.Up(0, [], [], 0, None)))
  }

  lemma IsGapped(w: World, p: Planned, first: RelayResult, rest: seq<Step>, end: System)
    requires 0 < p.chunkSize && 0 < TransferOf(w, p).Count()
    requires Happens(w, Gapped(w, p, first), rest, end)
    ensures Happens(w, Half(w, p, first), [Wire(P.Connect)] + ([Wire(P.Lose(1))] + rest), end)
  {
    var s1 := Apply(w, Half(w, p, first), Wire(P.Connect));
    assert s1.net.log.stored - {1} == map[2 := ChunkEntry(w, p, 0)];
    assert Apply(w, s1, Wire(P.Lose(1))) == Gapped(w, p, first);
    Next(w, s1, Wire(P.Lose(1)), rest, end);
    Next(w, Half(w, p, first), Wire(P.Connect), [Wire(P.Lose(1))] + rest, end);
  }

  lemma GapIsSeen(w: World, p: Planned, first: RelayResult)
    requires 0 < p.chunkSize && 0 < TransferOf(w, p).Count()
    ensures Possible(w, Gapped(w, p, first), Wipe)
  {
    var stored := Gapped(w, p, first).net.log.stored;
    assert 2 in stored && 1 !in stored;
    assert StoredAbove(stored, 0) && OutboxLog.Run(stored, 1, BATCH) == [];
  }

  lemma IsEmptied(w: World, p: Planned, first: RelayResult, now: int, lease: int, rest: seq<Step>, end: System)
    returns (steps: seq<Step>)
    requires Case(w, p, first) && Happens(w, Emptied(w, p, first, lease), rest, end)
    ensures Happens(w, Gapped(w, p, first), steps, end)
  {
    var s1, refill := Apply(w, Gapped(w, p, first), Wipe), Refill(1, now, lease, p.chunkSize, []);
    GapIsSeen(w, p, first);
    FirstIsLeased(p, first, now, lease);
    assert WorkOf(w, p.chunkSize, [first], []) == [Small(first)];
    assert Apply(w, s1, refill) == Emptied(w, p, first, lease);
    Next(w, s1, refill, rest, end);
    Next(w, Gapped(w, p, first), Wipe, [refill] + rest, end);
    steps := [Wipe] + ([refill] + rest);
  }

  // ------------------------------------------------------------ the last chunk alone

  /** The loop queued its last chunk before the repair queued the small result, and both are done. */
  function Refilled(w: World, p: Planned, first: RelayResult, lease: int): System
    requires 0 < p.chunkSize && TransferOf(w, p).Count() == 2
  {
    var s, e1 := Emptied(w, p, first, lease), ChunkEntry(w, p, 1);
    s.(net := s.net.(log := Log(map[1 := e1, 2 := FirstEntry(first)], 2, 0),
                     appended := s.net.appended + [e1] + [FirstEntry(first)]),
       jobs := map[], repair := Quiet)
  }

  /** The loop is done, the repair not yet. */
  function LoopDone(w: World, p: Planned, first: RelayResult, lease: int): System
    requires 0 < p.chunkSize && TransferOf(w, p).Count() == 2
  {
    var s, e1 := Emptied(w, p, first, lease), ChunkEntry(w, p, 1);
    s.(net := s.net.(log := Log(map[1 := e1], 1, 0), appended := s.net.appended + [e1]), jobs := map[])
  }

  lemma LoopEnds(w: World, p: Planned, first: RelayResult, lease: int, rest: seq<Step>, end: System)
    requires Case(w, p, first) && Happens(w, LoopDone(w, p, first, lease), rest, end)
    ensures Happens(w, Emptied(w, p, first, lease), [QueueChunk(p.res.requestId)] + rest, end)
  {
    assert Apply(w, Emptied(w, p, first, lease), QueueChunk(p.res.requestId)) == LoopDone(w, p, first, lease);
    Next(w, Emptied(w, p, first, lease), QueueChunk(p.res.requestId), rest, end);
  }

  lemma IsRefilled(w: World, p: Planned, first: RelayResult, lease: int, rest: seq<Step>, end: System)
    requires Case(w, p, first) && Happens(w, Refilled(w, p, first, lease), rest, end)
    ensures Happens(w, LoopDone(w, p, first, lease), [RefillNext] + ([RefillEnd] + rest), end)
  {
    var s2 := Apply(w, LoopDone(w, p, first, lease), RefillNext);
    assert s2.repair == Refilling([]);
    assert s2.net.log.stored == map[1 := ChunkEntry(w, p, 1), 2 := FirstEntry(first)];
    assert Apply(w, s2, RefillEnd) == Refilled(w, p, first, lease);
    Next(w, s2, RefillEnd, rest, end);
    Next(w, LoopDone(w, p, first, lease), RefillNext, [RefillEnd] + rest, end);
  }

  /** The last chunk alone is discarded, yet its ack names the result. */
  lemma StrayLastChunk(w: World, p: Planned, l: Listener)
    requires TransferOf(w, p).Valid() && p.res.requestId != "" && TransferId(p.res.requestId, ResultKind) !in l.partial
    ensures 1 < TransferOf(w, p).Count()
    ensures var e := ChunkEntry(w, p, TransferOf(w, p).Count() - 1);
            && Handle(w.backend, w.codec, l, e).stored == l.stored
            && Releases(e) == {p.res.requestId}
  {
    var x := TransferOf(w, p);
    ChunkedTotal(x.Payload(), p.chunkSize);
    RT.HonestStep(w.backend, x, None, x.Count() - 1);
    ChunkContents(w.codec, TransferId(p.res.requestId, ResultKind), x.Payload(), p.chunkSize, x.Count() - 1);
  }

  /** Nothing is left of the result: no row, no loop, no entry, and the listener does not have it. */
  ghost predicate LostForGood(s: System, id: Id) {
    && id in s.pushed && id !in S.IdSet(s.rows) && id !in s.listener.stored && id !in s.jobs && s.repair.Quiet?
    && forall n :: n in s.net.log.stored ==>
         var body := s.net.log.stored[n].body;
         && (body.Result? ==> body.result.requestId != id)
         && (body.ResultChunk? ==> body.resultChunk.transfer != TransferId(id, ResultKind))
  }

  /** The last chunk was handled, its number persisted and acknowledged. */
  function Discarded(w: World, p: Planned, first: RelayResult, lease: int, partial: map<TransferId, Assembly>): System
    requires 0 < p.chunkSize && TransferOf(w, p).Count() == 2
  {
    var s, e1 := Refilled(w, p, first, lease), ChunkEntry(w, p, 1);
    s.(net := s.net.(received := 1, link := P.Up(1, [], [1], 1, None), history := [OutMsg(1, e1)]),
       listener := Listener(partial, {}))
  }

  /** The last chunk was handled, its number not persisted yet. */
  function Handled(w: World, p: Planned, first: RelayResult, lease: int, partial: map<TransferId, Assembly>): System
    requires 0 < p.chunkSize && TransferOf(w, p).Count() == 2
  {
    var s, m := Refilled(w, p, first, lease), OutMsg(1, ChunkEntry(w, p, 1));
    s.(net := s.net.(link := P.Up(1, [], [], 0, Some(m)), history := [m]), listener := Listener(partial, {}))
  }

  function Flying(w: World, p: Planned, first: RelayResult, lease: int): System
    requires 0 < p.chunkSize && TransferOf(w, p).Count() == 2
  {
    var s := Refilled(w, p, first, lease);
    s.(net := s.net.(link := P.Up(1, [OutMsg(1, ChunkEntry(w, p, 1))], [], 0, None)))
  }

  lemma StrayIsSent(w: World, p: Planned, first: RelayResult, lease: int, rest: seq<Step>, end: System)
    requires Case(w, p, first) && Happens(w, Flying(w, p, first, lease), rest, end)
    ensures Happens(w, Refilled(w, p, first, lease), [Wire(P.Send)] + rest, end)
  {
    var s := Apply(w, Refilled(w, p, first, lease), Wire(P.Send));
    assert s.net.link == Flying(w, p, first, lease).net.link;
    assert s == Flying(w, p, first, lease);
    Next(w, Refilled(w, p, first, lease), Wire(P.Send), rest, end);
  }

  lemma StrayIsHandled(
    w: World, p: Planned, first: RelayResult, lease: int, partial: map<TransferId, Assembly>, rest: seq<Step>,
    end: System)
    requires Case(w, p, first)
             && partial == Handle(w.backend, w.codec, Listener(map[], {}), ChunkEntry(w, p, 1)).partial
    requires Happens(w, Handled(w, p, first, lease, partial), rest, end)
    ensures Happens(w, Flying(w, p, first, lease), [Wire(P.Receive)] + rest, end)
  {
    var s0, m := Flying(w, p, first, lease), OutMsg(1, ChunkEntry(w, p, 1));
    StrayLastChunk(w, p, s0.listener);
    var s := Apply(w, s0, Wire(P.Receive));
    assert s.net.link == P.Up(1, [], [], 0, Some(m)) && s.net.history == [m];
    assert s.listener == Listener(partial, {});
    assert s == Handled(w, p, first, lease, partial);
    Next(w, s0, Wire(P.Receive), rest, end);
  }

  lemma StrayIsSaved(
    w: World, p: Planned, first: RelayResult, lease: int, partial: map<TransferId, Assembly>, rest: seq<Step>,
    end: System)
    requires Case(w, p, first) && Happens(w, Discarded(w, p, first, lease, partial), rest, end)
    ensures Happens(w, Handled(w, p, first, lease, partial), [Wire(P.Save)] + rest, end)
  {
    var s := Apply(w, Handled(w, p, first, lease, partial), Wire(P.Save));
    assert s.net.link == P.Up(1, [], [1], 1, None);
    assert s == Discarded(w, p, first, lease, partial);
    Next(w, Handled(w, p, first, lease, partial), Wire(P.Save), rest, end);
  }

  lemma OneIsReleased(w: World, p: Planned, first: RelayResult, stored: map<int, Entry>)
    requires Case(w, p, first) && stored == map[1 := ChunkEntry(w, p, 1), 2 := FirstEntry(first)]
    ensures ReleasedBy(Upto(stored, 1)) == {p.res.requestId} && Kept(stored, 1) == map[2 := FirstEntry(first)]
  {
    var m := OutMsg(1, ChunkEntry(w, p, 1));
    assert Upto(stored, 0) == [];
    assert Upto(stored, 1) == [m];
    assert Releases(m.entry) == {p.res.requestId} && m in [m];
    assert p.res.requestId in ReleasedBy([m]);
  }

  lemma AckLoses(w: World, p: Planned, first: RelayResult, lease: int, partial: map<TransferId, Assembly>)
    returns (end: System)
    requires Case(w, p, first)
    ensures Happens(w, Discarded(w, p, first, lease, partial), [Wire(P.TakeAck)], end)
            && LostForGood(end, p.res.requestId)
  {
    var s := Discarded(w, p, first, lease, partial);
    end := Apply(w, s, Wire(P.TakeAck));
    OneIsReleased(w, p, first, s.net.log.stored);
    S.DroppedIds(s.rows, {p.res.requestId});
    assert [Wire(P.TakeAck)][1..] == [];
  }

  lemma StrayIsAcked(w: World, p: Planned, first: RelayResult, lease: int) returns (steps: seq<Step>, end: System)
    requires Case(w, p, first)
    ensures Happens(w, Refilled(w, p, first, lease), steps, end) && LostForGood(end, p.res.requestId)
  {
    var partial := Handle(w.backend, w.codec, Listener(map[], {}), ChunkEntry(w, p, 1)).partial;
    end := AckLoses(w, p, first, lease, partial);
    StrayIsSaved(w, p, first, lease, partial, [Wire(P.TakeAck)], end);
    StrayIsHandled(w, p, first, lease, partial, [Wire(P.Save)] + [Wire(P.TakeAck)], end);
    StrayIsSent(w, p, first, lease, [Wire(P.Receive)] + ([Wire(P.Save)] + [Wire(P.TakeAck)]), end);
    steps := [Wire(P.Send)] + ([Wire(P.Receive)] + ([Wire(P.Save)] + [Wire(P.TakeAck)]));
  }

  /**
    A pending result ahead of it fills the batch, the payload of the first entry is lost, and the repair
    comes between the two chunks of the result: the result is lost for good.
   */
  lemma RepairMayLose(w: World, p: Planned, first: RelayResult, now: int, lease: int)
    returns (steps: seq<Step>, end: System)
    requires Case(w, p, first)
    ensures Happens(w, INIT, steps, end) && LostForGood(end, p.res.requestId)
  {
    steps, end := StrayIsAcked(w, p, first, lease);
    IsRefilled(w, p, first, lease, steps, end);
    LoopEnds(w, p, first, lease, [RefillNext] + ([RefillEnd] + steps), end);
    steps := [QueueChunk(p.res.requestId)] + ([RefillNext] + ([RefillEnd] + steps));
    steps := IsEmptied(w, p, first, now, lease, steps, end);
    IsGapped(w, p, first, steps, end);
    steps := [Wire(P.Connect)] + ([Wire(P.Lose(1))] + steps);
    HalfIsQueued(w, p, first, steps, end);
    steps := BothArePending(w, p, first, [StartChunks(p)] + ([QueueChunk(p.res.requestId)] + steps), end);
  }
}
