/** The sender's pending results and request states: internal/store/sqlite.go, with times in whole seconds. */
module SenderStore {
  import opened Wrappers
  import opened Models
  import opened Reassembly

  /** A row of pending_results; `lease` is None while its delivery status is pending. */
  datatype PendingRow = PendingRow(result: RelayResult, lease: Option<int>)

  /** A row of sender_request_states; a lease of 0 is no lease. */
  datatype StateRow = StateRow(status: Status, leaseUntil: int)

  function IdSet(rows: seq<PendingRow>): set<Id> {
    set r | r in rows :: r.result.requestId
  }

  function IdsOf(results: seq<RelayResult>): set<Id> {
    set r | r in results :: r.requestId
  }

  /** The request id is the unique key. */
  ghost predicate Unique(rows: seq<PendingRow>) {
    forall i, j :: 0 <= i < j < |rows| ==> rows[i].result.requestId != rows[j].result.requestId
  }

  /** UPDATE ... SET lease WHERE request_id in ids. */
  function Marked(rows: seq<PendingRow>, ids: set<Id>, lease: Option<int>): (after: seq<PendingRow>)
    ensures |after| == |rows|
    ensures forall i :: 0 <= i < |rows| ==> after[i].result == rows[i].result
  {
    seq(|rows|, i requires 0 <= i < |rows| =>
      if rows[i].result.requestId in ids then rows[i].(lease := lease) else rows[i])
  }

  /** DELETE ... WHERE request_id in ids. */
  function Dropped(rows: seq<PendingRow>, ids: set<Id>): seq<PendingRow> {
    if rows == [] then []
    else
      var last := rows[|rows| - 1];
      Dropped(rows[..|rows| - 1], ids) + (if last.result.requestId in ids then [] else [last])
  }

  /** INSERT ... ON CONFLICT: a result pushed again takes its old place. */
  function Pushed(rows: seq<PendingRow>, res: RelayResult): seq<PendingRow> {
    if res.requestId in IdSet(rows) then
      seq(|rows|, i requires 0 <= i < |rows| =>
        if rows[i].result.requestId == res.requestId then PendingRow(res, None) else rows[i])
    else rows + [PendingRow(res, None)]
  }

  predicate Free(row: PendingRow, now: int) {
    row.lease.None? || row.lease.value <= now
  }

  function FreeResults(rows: seq<PendingRow>, now: int): (free: seq<RelayResult>)
    ensures |free| <= |rows|
  {
    if rows == [] then []
    else
      var last := rows[|rows| - 1];
      FreeResults(rows[..|rows| - 1], now) + (if Free(last, now) then [last.result] else [])
  }

  /** What LeaseResults returns, and the table after it. */
  function LeasedOut(rows: seq<PendingRow>, max: nat, now: int): seq<RelayResult> {
    Take(FreeResults(rows, now), max)
  }

  function AfterLease(rows: seq<PendingRow>, max: nat, now: int, until: int): seq<PendingRow> {
    Marked(rows, IdsOf(LeasedOut(rows, max, now)), Some(until))
  }

  // ------------------------------------------------------------ table facts

  lemma MarkedMore(rows: seq<PendingRow>, ids: set<Id>, id: Id, lease: Option<int>)
    ensures Marked(Marked(rows, ids, lease), {id}, lease) == Marked(rows, ids + {id}, lease)
  {
  }

  lemma MarkedNone(rows: seq<PendingRow>, lease: Option<int>)
    ensures Marked(rows, {}, lease) == rows
  {
  }

  lemma {:induction false} DroppedMore(rows: seq<PendingRow>, ids: set<Id>, id: Id)
    ensures Dropped(Dropped(rows, ids), {id}) == Dropped(rows, ids + {id})
  {
    if rows != [] {
      var init, last := rows[..|rows| - 1], rows[|rows| - 1];
      DroppedMore(init, ids, id);
      if last.result.requestId in ids {
        assert Dropped(rows, ids) == Dropped(init, ids);
      } else {
        assert Dropped(rows, ids)[..|Dropped(init, ids)|] == Dropped(init, ids);
      }
    }
  }

  lemma {:induction false} DroppedNone(rows: seq<PendingRow>)
    ensures Dropped(rows, {}) == rows
  {
    if rows != [] {
      DroppedNone(rows[..|rows| - 1]);
    }
  }

  lemma {:induction false} DroppedIs(rows: seq<PendingRow>, ids: set<Id>)
    ensures forall r :: r in Dropped(rows, ids) <==> r in rows && r.result.requestId !in ids
    ensures Unique(rows) ==> Unique(Dropped(rows, ids))
  {
    if rows != [] {
      var init, last := rows[..|rows| - 1], rows[|rows| - 1];
      DroppedIs(init, ids);
      assert rows == init + [last];
      assert forall r :: r in init ==> r in rows;
      if Unique(rows) {
        assert forall r :: r in init ==> r.result.requestId != last.result.requestId;
      }
    }
  }

  lemma DroppedIds(rows: seq<PendingRow>, ids: set<Id>)
    ensures IdSet(Dropped(rows, ids)) == IdSet(rows) - ids
  {
    DroppedIs(rows, ids);
    forall id | id in IdSet(rows) - ids ensures id in IdSet(Dropped(rows, ids)) {
      var r :| r in rows && r.result.requestId == id;
      assert r in Dropped(rows, ids);
    }
  }

  /** No id is free twice. */
  lemma {:induction false} FreeOnce(rows: seq<PendingRow>, now: int)
    requires Unique(rows)
    ensures forall i, k :: 0 <= i < k < |FreeResults(rows, now)| ==>
              FreeResults(rows, now)[i].requestId != FreeResults(rows, now)[k].requestId
  {
    if rows != [] {
      var init, last := rows[..|rows| - 1], rows[|rows| - 1];
      FreeOnce(init, now);
      FreeAre(init, now);
      forall i | 0 <= i < |FreeResults(init, now)|
        ensures FreeResults(init, now)[i].requestId != last.result.requestId
      {
        assert FreeResults(init, now)[i] in FreeResults(init, now);
      }
    }
  }

  lemma {:induction false} FreeAre(rows: seq<PendingRow>, now: int)
    ensures forall res :: res in FreeResults(rows, now) <==> exists r :: r in rows && r.result == res && Free(r, now)
    ensures IdsOf(FreeResults(rows, now)) == set r | r in rows && Free(r, now) :: r.result.requestId
  {
    if rows != [] {
      var init, last := rows[..|rows| - 1], rows[|rows| - 1];
      FreeAre(init, now);
      assert rows == init + [last];
    }
  }

  lemma PushedIs(rows: seq<PendingRow>, res: RelayResult)
    ensures IdSet(Pushed(rows, res)) == IdSet(rows) + {res.requestId}
    ensures Unique(rows) ==> Unique(Pushed(rows, res))
    ensures forall r :: r in Pushed(rows, res) ==>
              if r.result.requestId == res.requestId then r == PendingRow(res, None) else r in rows
  {
    var after, id := Pushed(rows, res), res.requestId;
    if id in IdSet(rows) {
      forall x | x in IdSet(rows) ensures x in IdSet(after) {
        var i :| 0 <= i < |rows| && rows[i].result.requestId == x;
        assert after[i] in after && after[i].result.requestId == x;
      }
      forall x | x in IdSet(after) ensures x in IdSet(rows) {
        var i :| 0 <= i < |after| && after[i].result.requestId == x;
        assert rows[i] in rows && rows[i].result.requestId == x;
      }
    } else {
      assert forall r :: r in rows ==> r.result.requestId in IdSet(rows);
      assert PendingRow(res, None) in after;
      assert forall r :: r in rows ==> r in after;
    }
  }

  lemma MarkedIs(rows: seq<PendingRow>, ids: set<Id>, lease: Option<int>)
    ensures IdSet(Marked(rows, ids, lease)) == IdSet(rows)
    ensures Unique(rows) ==> Unique(Marked(rows, ids, lease))
  {
    var after := Marked(rows, ids, lease);
    forall x | x in IdSet(rows) ensures x in IdSet(after) {
      var i :| 0 <= i < |rows| && rows[i].result.requestId == x;
      assert after[i] in after;
    }
    forall x | x in IdSet(after) ensures x in IdSet(rows) {
      var i :| 0 <= i < |after| && after[i].result.requestId == x;
      assert rows[i] in rows;
    }
  }

  // ------------------------------------------------------------ the store

  /** The transfers by which these requests came. */
  function Transfers(ids: set<Id>): set<TransferId> {
    set id | id in ids :: TransferId(id, RequestKind)
  }

  class Store {
    const chunks: SqliteChunks
    var pendingResults: seq<PendingRow>
    var requestStates: map<Id, StateRow>

    ghost predicate Valid()
      reads this
    {
      Unique(pendingResults)
    }

    constructor (chunks: SqliteChunks)
      ensures Valid() && this.chunks == chunks && pendingResults == [] && requestStates == map[]
    {
      this.chunks, pendingResults, requestStates := chunks, [], map[];
    }

    method PushResult(res: RelayResult)
      requires Valid()
      modifies this`pendingResults
      ensures Valid() && pendingResults == Pushed(old(pendingResults), res)
    {
      PushedIs(pendingResults, res);
      pendingResults := Pushed(pendingResults, res);
    }

    method LeaseResults(max: nat, now: int, until: int) returns (leased: seq<RelayResult>)
      requires Valid()
      modifies this`pendingResults
      ensures Valid() && leased == LeasedOut(old(pendingResults), max, now)
      ensures pendingResults == AfterLease(old(pendingResults), max, now, until)
    {
      leased := LeasedOut(pendingResults, max, now);
      ghost var rows := pendingResults;
      MarkedIs(rows, IdsOf(leased), Some(until));
      MarkedNone(rows, Some(until));
      assert leased[..|leased|] == leased;
      for i := 0 to |leased|
        invariant pendingResults == Marked(rows, IdsOf(leased[..i]), Some(until))
      {
        assert leased[..i + 1] == leased[..i] + [leased[i]];
        assert IdsOf(leased[..i + 1]) == IdsOf(leased[..i]) + {leased[i].requestId};
        MarkedMore(rows, IdsOf(leased[..i]), leased[i].requestId, Some(until));
        pendingResults := Marked(pendingResults, {leased[i].requestId}, Some(until));
      }
    }

    /** The update is guarded by the leased status; a pending row has no lease to take back. */
    method RePushResults(results: seq<RelayResult>)
      requires Valid()
      modifies this`pendingResults
      ensures Valid() && pendingResults == Marked(old(pendingResults), IdsOf(results), None)
    {
      ghost var rows := pendingResults;
      MarkedIs(rows, IdsOf(results), None);
      MarkedNone(rows, None);
      assert results[..|results|] == results;
      for i := 0 to |results|
        invariant pendingResults == Marked(rows, IdsOf(results[..i]), None)
      {
        assert results[..i + 1] == results[..i] + [results[i]];
        assert IdsOf(results[..i + 1]) == IdsOf(results[..i]) + {results[i].requestId};
        MarkedMore(rows, IdsOf(results[..i]), results[i].requestId, None);
        pendingResults := Marked(pendingResults, {results[i].requestId}, None);
      }
    }

    /** Deletes the results and everything else the store keeps about their requests. */
    method AckResults(ids: seq<Id>)
      requires Valid()
      modifies this, chunks`chunkReceipts, chunks`inboundChunks
      ensures Valid()
      ensures pendingResults == Dropped(old(pendingResults), AsSet(ids))
      ensures requestStates == old(requestStates) - AsSet(ids)
      ensures chunks.chunkReceipts == old(chunks.chunkReceipts) - Transfers(AsSet(ids))
      ensures chunks.inboundChunks == old(chunks.inboundChunks) - Transfers(AsSet(ids))
    {
      ghost var rows, states, receipts, partial :=
        pendingResults, requestStates, chunks.chunkReceipts, chunks.inboundChunks;
      DroppedIs(rows, AsSet(ids));
      DroppedNone(rows);
      assert ids[..|ids|] == ids && AsSet(ids[..0]) == {};
      for i := 0 to |ids|
        invariant pendingResults == Dropped(rows, AsSet(ids[..i]))
        invariant requestStates == states - AsSet(ids[..i])
        invariant chunks.chunkReceipts == receipts - Transfers(AsSet(ids[..i]))
        invariant chunks.inboundChunks == partial - Transfers(AsSet(ids[..i]))
      {
        assert AsSet(ids[..i + 1]) == AsSet(ids[..i]) + {ids[i]};
        assert Transfers(AsSet(ids[..i + 1])) == Transfers(AsSet(ids[..i])) + {TransferId(ids[i], RequestKind)};
        DroppedMore(rows, AsSet(ids[..i]), ids[i]);
        pendingResults := Dropped(pendingResults, {ids[i]});
        requestStates := requestStates - {ids[i]};
        chunks.chunkReceipts := chunks.chunkReceipts - {TransferId(ids[i], RequestKind)};
        chunks.inboundChunks := chunks.inboundChunks - {TransferId(ids[i], RequestKind)};
      }
    }

    method ResultPending(id: Id) returns (pending: bool)
      ensures pending == (id in IdSet(pendingResults))
    {
      pending := exists r :: r in pendingResults && r.result.requestId == id;
    }

    method StoreSenderRequestState(id: Id, state: StateRow)
      modifies this`requestStates
      ensures requestStates == old(requestStates)[id := state]
    {
      requestStates := requestStates[id := state];
    }

    method GetSenderRequestState(id: Id) returns (state: Option<StateRow>)
      ensures state == Get(requestStates, id)
    {
      state := Get(requestStates, id);
    }
  }
}
