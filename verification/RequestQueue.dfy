/**
  The request queue of internal/store/sqlite.go and of internal/store/queue.go, runtime_redis.go and
  results.go. `Is(l)` says that the stored tables, or lists and hashes, represent ledger l.
 */
module RequestQueue {
  import opened Wrappers
  import opened Models
  import opened RequestLedger

  // ------------------------------------------------------------ shared facts

  lemma MarkMore(rows: map<Id, Row>, ids: seq<Id>, id: Id, until: int)
    requires id in rows
    ensures Mark(rows, ids + [id], until) ==
            Mark(rows, ids, until)[id := rows[id].(status := Leased, leaseUntil := until)]
  {
  }

  lemma FailMore(rows: map<Id, Row>, ids: seq<Id>, id: Id)
    requires id in rows && id !in ids
    ensures Fail(rows, ids + [id]) == Fail(rows, ids)[id := rows[id].(status := Failed)]
  {
  }

  lemma TakeMembers(q: seq<Id>, rows: map<Id, Row>, now: int, n: nat)
    ensures forall id :: id in Take(EligibleIds(q, rows, now), n) ==> id in q && Eligible(rows, now, id)
  {
    EligibleAre(q, rows, now);
  }

  lemma PrefixStep(q: seq<Id>, i: nat)
    requires i < |q|
    ensures q[..i + 1] == q[..i] + [q[i]] && q[..i + 1][..i] == q[..i]
  {
  }

  /** Scanning stops early only when the batch is full, and then the rest adds nothing. */
  lemma {:induction false} EligiblePrefix(q: seq<Id>, rows: map<Id, Row>, now: int, i: nat)
    requires i <= |q|
    ensures EligibleIds(q[..i], rows, now) <= EligibleIds(q, rows, now)
    decreases |q|
  {
    if i == |q| {
      assert q[..i] == q;
    } else {
      EligiblePrefix(q[..|q| - 1], rows, now, i);
      assert q[..|q| - 1][..i] == q[..i];
    }
  }

  lemma {:induction false} ActivePrefix(q: seq<Id>, rows: map<Id, Row>, now: int, i: nat)
    requires i <= |q|
    ensures ActiveIds(q[..i], rows, now) <= ActiveIds(q, rows, now)
    decreases |q|
  {
    if i == |q| {
      assert q[..i] == q;
    } else {
      ActivePrefix(q[..|q| - 1], rows, now, i);
      assert q[..|q| - 1][..i] == q[..i];
    }
  }

  lemma TakePrefix(a: seq<Id>, b: seq<Id>, n: nat)
    requires a <= b && (|a| == n || a == b)
    ensures Take(b, n) == Take(a, n)
  {
  }

  // ------------------------------------------------------------ SQLite

  datatype QueueRow = QueueRow(peer: Peer, id: Id)

  /** SELECT request_id ... WHERE peer_id = ? ORDER BY seq. */
  function QueueOf(rows: seq<QueueRow>, p: Peer): seq<Id> {
    if rows == [] then []
    else QueueOf(rows[..|rows| - 1], p) + (if rows[|rows| - 1].peer == p then [rows[|rows| - 1].id] else [])
  }

  /** DELETE ... WHERE request_id in ids. */
  function Deleted(rows: seq<QueueRow>, ids: set<Id>): seq<QueueRow> {
    if rows == [] then []
    else Deleted(rows[..|rows| - 1], ids) + (if rows[|rows| - 1].id in ids then [] else [rows[|rows| - 1]])
  }

  /** JOIN requests ... WHERE status != completed. */
  function Unfinished(q: seq<Id>, rows: map<Id, Row>): seq<Id> {
    if q == [] then []
    else
      var id := q[|q| - 1];
      Unfinished(q[..|q| - 1], rows) + (if id in rows && rows[id].status != Completed then [id] else [])
  }

  lemma {:induction false} QueueOfDeleted(rows: seq<QueueRow>, ids: set<Id>, p: Peer)
    ensures QueueOf(Deleted(rows, ids), p) == Without(QueueOf(rows, p), ids)
  {
    if rows != [] {
      var init, last := rows[..|rows| - 1], rows[|rows| - 1];
      QueueOfDeleted(init, ids, p);
      if last.id in ids {
        assert Deleted(rows, ids) == Deleted(init, ids);
      } else {
        QueueOfAppend(Deleted(init, ids), last, p);
      }
      if last.peer == p {
        WithoutAppend(QueueOf(init, p), last.id, ids);
      } else {
        assert QueueOf(rows, p) == QueueOf(init, p);
      }
    }
  }

  lemma QueueOfAppend(rows: seq<QueueRow>, row: QueueRow, p: Peer)
    ensures QueueOf(rows + [row], p) == QueueOf(rows, p) + (if row.peer == p then [row.id] else [])
  {
    assert (rows + [row])[..|rows|] == rows;
  }

  lemma {:induction false} AllUnfinished(q: seq<Id>, rows: map<Id, Row>)
    requires forall id :: id in q ==> id in rows && rows[id].status != Completed
    ensures Unfinished(q, rows) == q
  {
    if q != [] {
      assert q == q[..|q| - 1] + [q[|q| - 1]];
      AllUnfinished(q[..|q| - 1], rows);
    }
  }

  /** The queue table, read per peer, holds the ledger's queues. */
  ghost predicate Tabled(rows: seq<QueueRow>, l: Ledger) {
    forall p :: QueueOf(rows, p) == Queue(l, p)
  }

  lemma InOneQueue(l: Ledger, p: Peer, q: Peer)
    requires Clean(l) && p != q
    ensures forall id :: id in ClearableIds(Queue(l, p), l.rows) ==> id !in Queue(l, q)
  {
    ClearableIs(Queue(l, p), l.rows);
    forall id | id in Queue(l, p) ensures id !in Queue(l, q) {
      assert l.rows[id].peer == p;
    }
  }

  lemma TabledClear(rows: seq<QueueRow>, l: Ledger, p: Peer)
    requires Tabled(rows, l) && Clean(l)
    ensures Tabled(Deleted(rows, AsSet(ClearableIds(Queue(l, p), l.rows))), ClearQueue(l, p))
  {
    var ids := AsSet(ClearableIds(Queue(l, p), l.rows));
    forall q ensures QueueOf(Deleted(rows, ids), q) == Queue(ClearQueue(l, p), q) {
      assert QueueOf(rows, q) == Queue(l, q);
      QueueOfDeleted(rows, ids, q);
      if q != p {
        InOneQueue(l, p, q);
        WithoutOthers(Queue(l, q), ids);
      }
    }
  }

  lemma TabledStore(rows: seq<QueueRow>, l: Ledger, id: Id, now: int, ttl: nat)
    requires Tabled(rows, l)
    ensures Tabled(Deleted(rows, {id}), RequestLedger.StoreResult(l, id, now, ttl))
  {
    forall p ensures QueueOf(Deleted(rows, {id}), p) == Queue(RequestLedger.StoreResult(l, id, now, ttl), p) {
      assert QueueOf(rows, p) == Queue(l, p);
      QueueOfDeleted(rows, {id}, p);
    }
  }

  lemma TabledEnqueue(rows: seq<QueueRow>, l: Ledger, p: Peer, req: RelayRequest)
    requires Tabled(rows, l)
    ensures Tabled(rows + [QueueRow(p, req.id)], Enqueue(l, p, req))
  {
    forall q ensures QueueOf(rows + [QueueRow(p, req.id)], q) == Queue(Enqueue(l, p, req), q) {
      assert QueueOf(rows, q) == Queue(l, q);
      QueueOfAppend(rows, QueueRow(p, req.id), q);
    }
  }

  lemma {:induction false} DeleteNone(rows: seq<QueueRow>)
    ensures Deleted(rows, AsSet([])) == rows
  {
    if rows != [] {
      var init, last := rows[..|rows| - 1], rows[|rows| - 1];
      DeleteNone(init);
      assert last.id !in AsSet([]);
      assert rows == init + [last];
    }
  }

  lemma {:induction false} DeleteMore(rows: seq<QueueRow>, ids: set<Id>, id: Id)
    ensures Deleted(Deleted(rows, ids), {id}) == Deleted(rows, ids + {id})
  {
    if rows != [] {
      var init, last := rows[..|rows| - 1], rows[|rows| - 1];
      DeleteMore(init, ids, id);
      if last.id in ids {
        assert Deleted(rows, ids) == Deleted(init, ids);
      } else {
        assert Deleted(rows, ids)[..|Deleted(init, ids)|] == Deleted(init, ids);
      }
    }
  }

  lemma {:induction false} ClearableDistinct(q: seq<Id>, rows: map<Id, Row>)
    ensures forall id :: id in ClearableIds(q, rows) ==> id in q && id in rows && rows[id].status == Queued
    ensures Distinct(q) ==> Distinct(ClearableIds(q, rows))
  {
    ClearableIs(q, rows);
    if q != [] && Distinct(q) {
      var init, last := q[..|q| - 1], q[|q| - 1];
      ClearableDistinct(init, rows);
      assert last !in init;
      if last in rows && rows[last].status == Queued {
        DistinctAppend(ClearableIds(init, rows), last);
      }
    }
  }

  lemma MinusMore(cursors: map<Id, int>, ids: set<Id>, id: Id)
    ensures cursors - ids - {id} == cursors - (ids + {id})
  {
  }

  datatype Tables = Tables(queue: seq<QueueRow>, requests: map<Id, Row>, cursors: map<Id, int>)

  /** The three statements of a clear, for each of the ids. */
  function ClearAll(t: Tables, ids: seq<Id>): Tables {
    if ids == [] then t
    else
      var before, id := ClearAll(t, ids[..|ids| - 1]), ids[|ids| - 1];
      Tables(Deleted(before.queue, {id}),
             if id in before.requests then before.requests[id := before.requests[id].(status := Failed)]
             else before.requests,
             before.cursors - {id})
  }

  lemma {:induction false} ClearAllIs(t: Tables, ids: seq<Id>)
    requires Distinct(ids) && forall id :: id in ids ==> id in t.requests
    ensures ClearAll(t, ids) == Tables(Deleted(t.queue, AsSet(ids)), Fail(t.requests, ids), t.cursors - AsSet(ids))
  {
    if ids == [] {
      DeleteNone(t.queue);
    } else {
      var init, last := ids[..|ids| - 1], ids[|ids| - 1];
      assert ids == init + [last];
      ClearAllIs(t, init);
      DeleteMore(t.queue, AsSet(init), last);
      MinusMore(t.cursors, AsSet(init), last);
      FailMore(t.requests, init, last);
      assert AsSet(ids) == AsSet(init) + {last};
    }
  }

  lemma ClearMeets(l: Ledger, p: Peer, t: Tables)
    requires Clean(l) && Tabled(t.queue, l) && t.requests == l.rows && t.cursors == l.cursors
    ensures var ids, l' := ClearableIds(Queue(l, p), l.rows), ClearQueue(l, p);
            var end := ClearAll(t, ids);
            Tabled(end.queue, l') && end.requests == l'.rows && end.cursors == l'.cursors
  {
    ClearableDistinct(Queue(l, p), l.rows);
    ClearAllIs(t, ClearableIds(Queue(l, p), l.rows));
    TabledClear(t.queue, l, p);
  }

  class SqliteQueue {
    var requestQueue: seq<QueueRow>
    var requests: map<Id, Row>
    var results: map<Id, int>
    var chunkCursors: map<Id, int>

    ghost predicate Is(l: Ledger)
      reads this
    {
      && requests == l.rows && results == l.results && chunkCursors == l.cursors
      && Tabled(requestQueue, l)
    }

    constructor ()
      ensures Is(EMPTY_LEDGER)
    {
      requestQueue, requests, results, chunkCursors := [], map[], map[], map[];
    }

    method EnqueueRequest(p: Peer, req: RelayRequest, ghost l: Ledger)
      requires Is(l)
      modifies this
      ensures Is(Enqueue(l, p, req))
    {
      TabledEnqueue(requestQueue, l, p, req);
      requests := requests[req.id := Row(p, Queued, 0, req)];
      requestQueue := requestQueue + [QueueRow(p, req.id)];
    }

    method LeaseRequests(p: Peer, batchSize: nat, now: int, ttl: nat, ghost l: Ledger) returns (leased: seq<Id>)
      requires Is(l)
      modifies this`requests
      ensures leased == LeasedBy(l, p, batchSize, now) && Is(Lease(l, p, batchSize, now, ttl))
    {
      var selected := Take(EligibleIds(QueueOf(requestQueue, p), requests, now), batchSize);
      TakeMembers(QueueOf(requestQueue, p), requests, now, batchSize);
      assert selected[..|selected|] == selected;
      leased := [];
      for i := 0 to |selected|
        invariant leased == selected[..i]
        invariant requests == Mark(l.rows, leased, now + ttl)
      {
        assert selected[i] in selected;
        PrefixStep(selected, i);
        MarkMore(l.rows, leased, selected[i], now + ttl);
        leased := leased + [selected[i]];
        requests := requests[selected[i] := requests[selected[i]].(status := Leased, leaseUntil := now + ttl)];
      }
    }

    method ListActiveLeasedRequests(p: Peer, batchSize: nat, now: int, ghost l: Ledger) returns (active: seq<Id>)
      requires Is(l)
      ensures active == Take(ActiveIds(Queue(l, p), l.rows, now), batchSize)
    {
      active := Take(ActiveIds(QueueOf(requestQueue, p), requests, now), batchSize);
    }

    method ApplyRequestStates(states: seq<SyncState>, now: int, ghost l: Ledger)
      requires Is(l)
      modifies this`requests
      ensures Is(ApplyStates(l, states, now))
    {
      assert states[..|states|] == states;
      for i := 0 to |states|
        invariant requests == ApplyStates(l, states[..i], now).rows
        invariant ApplyStates(l, states[..i], now) == l.(rows := requests)
      {
        assert states[..i + 1][..i] == states[..i];
        var status := states[i].status;
        if status == Completed && !(states[i].requestId in results && results[states[i].requestId] > now) {
          status := Executing;
        }
        var leaseUntil := now;
        if states[i].leaseUntil.Some? {
          leaseUntil := states[i].leaseUntil.value;
        }
        if states[i].requestId in requests {
          requests := requests[states[i].requestId :=
            requests[states[i].requestId].(status := status, leaseUntil := leaseUntil)];
        }
      }
    }

    method StoreResult(id: Id, now: int, ttl: nat, ghost l: Ledger)
      requires Is(l)
      modifies this
      ensures Is(RequestLedger.StoreResult(l, id, now, ttl))
    {
      TabledStore(requestQueue, l, id, now, ttl);
      results := results[id := now + ttl];
      if id in requests {
        requests := requests[id := requests[id].(status := Completed)];
      }
      requestQueue := Deleted(requestQueue, {id});
      chunkCursors := chunkCursors - {id};
    }

    method ClearEach(ids: seq<Id>)
      modifies this`requestQueue, this`requests, this`chunkCursors
      ensures Tables(requestQueue, requests, chunkCursors) ==
                ClearAll(old(Tables(requestQueue, requests, chunkCursors)), ids)
    {
      ghost var start := Tables(requestQueue, requests, chunkCursors);
      assert ids[..|ids|] == ids;
      for i := 0 to |ids|
        invariant Tables(requestQueue, requests, chunkCursors) == ClearAll(start, ids[..i])
      {
        var id := ids[i];
        assert ids[..i + 1][..i] == ids[..i];
        requestQueue := Deleted(requestQueue, {id});
        if id in requests {
          requests := requests[id := requests[id].(status := Failed)];
        }
        chunkCursors := chunkCursors - {id};
      }
    }

    method ClearPeerQueue(p: Peer, ghost l: Ledger) returns (cleared: nat)
      requires Is(l) && Clean(l)
      modifies this`requestQueue, this`requests, this`chunkCursors
      ensures cleared == |ClearableIds(Queue(l, p), l.rows)| && Is(ClearQueue(l, p))
    {
      var ids := ClearableIds(QueueOf(requestQueue, p), requests);
      ClearMeets(l, p, Tables(requestQueue, requests, chunkCursors));
      ClearEach(ids);
      cleared := |ids|;
    }

    method QueueLength(p: Peer, ghost l: Ledger) returns (n: nat)
      requires Is(l)
      ensures n == |Unfinished(Queue(l, p), l.rows)|
      ensures Clean(l) ==> n == |Queue(l, p)|
    {
      n := |Unfinished(QueueOf(requestQueue, p), requests)|;
      if Clean(l) {
        AllUnfinished(Queue(l, p), l.rows);
      }
    }
  }

  // ------------------------------------------------------------ Redis

  /** A request hash; StoreResult for an unknown id leaves one with a status and nothing else. */
  datatype Hash = Hash(peer: Option<Peer>, status: Status, leaseUntil: int, req: Option<RelayRequest>)

  /** The hashes that hold a whole request. */
  function WholeRows(requests: map<Id, Hash>): map<Id, Row> {
    map id | id in requests && requests[id].peer.Some? && requests[id].req.Some? ::
      Row(requests[id].peer.value, requests[id].status, requests[id].leaseUntil, requests[id].req.value)
  }

  function ListOf(queues: map<Peer, seq<Id>>, p: Peer): seq<Id> {
    if p in queues then queues[p] else []
  }

  /** LREM key 0 id, for each of the ids: every occurrence goes. */
  function LRem(queues: map<Peer, seq<Id>>, p: Peer, ids: set<Id>): map<Peer, seq<Id>> {
    if p in queues then queues[p := Without(queues[p], ids)] else queues
  }

  lemma LRemMore(queues: map<Peer, seq<Id>>, p: Peer, ids: set<Id>, id: Id)
    ensures LRem(LRem(queues, p, ids), p, {id}) == LRem(queues, p, ids + {id})
  {
    WithoutTwice(ListOf(queues, p), ids, {id});
  }

  lemma LRemOthers(queues: map<Peer, seq<Id>>, p: Peer, ids: set<Id>)
    requires forall id :: id in ids ==> id !in ListOf(queues, p)
    ensures LRem(queues, p, ids) == queues
  {
    WithoutOthers(ListOf(queues, p), ids);
  }

  /** The lists hold the ledger's queues; an empty list and a missing one are the same. */
  ghost predicate Mirror(queues: map<Peer, seq<Id>>, l: Ledger) {
    forall p :: ListOf(queues, p) == Queue(l, p)
  }

  lemma MirrorEnqueue(queues: map<Peer, seq<Id>>, l: Ledger, p: Peer, req: RelayRequest)
    requires Mirror(queues, l)
    ensures Mirror(queues[p := ListOf(queues, p) + [req.id]], Enqueue(l, p, req))
  {
    var after, l' := queues[p := ListOf(queues, p) + [req.id]], Enqueue(l, p, req);
    forall q ensures ListOf(after, q) == Queue(l', q) {
      assert ListOf(queues, q) == Queue(l, q);
    }
  }

  lemma MirrorClear(queues: map<Peer, seq<Id>>, l: Ledger, p: Peer)
    requires Mirror(queues, l)
    ensures Mirror(LRem(queues, p, AsSet(ClearableIds(Queue(l, p), l.rows))), ClearQueue(l, p))
  {
    var ids := AsSet(ClearableIds(Queue(l, p), l.rows));
    forall q ensures ListOf(LRem(queues, p, ids), q) == Queue(ClearQueue(l, p), q) {
      assert ListOf(queues, q) == Queue(l, q);
    }
  }

  /** Redis looks the peer up in the request; SQLite deletes by id. */
  lemma MirrorStore(queues: map<Peer, seq<Id>>, l: Ledger, id: Id, now: int, ttl: nat)
    requires Mirror(queues, l) && Clean(l)
    ensures Mirror(if id in l.rows then LRem(queues, l.rows[id].peer, {id}) else queues,
                   RequestLedger.StoreResult(l, id, now, ttl))
  {
    var after := if id in l.rows then LRem(queues, l.rows[id].peer, {id}) else queues;
    var l' := RequestLedger.StoreResult(l, id, now, ttl);
    forall q ensures ListOf(after, q) == Queue(l', q) {
      assert ListOf(queues, q) == Queue(l, q);
      if !(id in l.rows && l.rows[id].peer == q) {
        WithoutOthers(Queue(l, q), {id});
      }
    }
  }

  /** A request hash has its peer exactly when it has its data. */
  ghost predicate Paired(requests: map<Id, Hash>) {
    forall id :: id in requests ==> (requests[id].peer.Some? <==> requests[id].req.Some?)
  }

  /** Rewriting status and lease of a hash rewrites its row, if it is a whole one. */
  lemma Rewrite(requests: map<Id, Hash>, id: Id, status: Status, leaseUntil: int)
    requires Paired(requests) && id in requests
    ensures var after := requests[id := requests[id].(status := status, leaseUntil := leaseUntil)];
            var rows := WholeRows(requests);
            && Paired(after)
            && (id in rows <==> requests[id].req.Some?)
            && WholeRows(after) ==
               if id in rows then rows[id := rows[id].(status := status, leaseUntil := leaseUntil)] else rows
  {
  }

  /** What a loop over the list works on: the stored state, and the ids it has picked so far. */
  datatype Loop = Loop(queues: map<Peer, seq<Id>>, requests: map<Id, Hash>, cursors: map<Id, int>, picked: seq<Id>)

  predicate Drops(at: Loop, id: Id) {
    id !in at.requests || at.requests[id].status == Completed
  }

  predicate Takes(at: Loop, id: Id, now: int) {
    !Drops(at, id) && at.requests[id].leaseUntil <= now && at.requests[id].req.Some?
  }

  function LeaseStep(at: Loop, p: Peer, id: Id, now: int, until: int): Loop {
    if Drops(at, id) then at.(queues := LRem(at.queues, p, {id}))
    else if Takes(at, id, now) then
      at.(requests := at.requests[id := at.requests[id].(status := Leased, leaseUntil := until)],
          picked := at.picked + [id])
    else at
  }

  /** The rest of the lease loop. */
  function LeaseLoop(at: Loop, p: Peer, rest: seq<Id>, batch: nat, now: int, until: int): Loop
    decreases |rest|
  {
    if rest == [] || |at.picked| >= batch then at
    else LeaseLoop(LeaseStep(at, p, rest[0], now, until), p, rest[1..], batch, now, until)
  }

  /** After i list entries: the eligible ones among them are marked, the dead ones dropped from the list. */
  ghost predicate Leasing(l: Ledger, p: Peer, start: Loop, i: nat, now: int, until: int, dead: set<Id>, at: Loop)
    requires i <= |Queue(l, p)|
  {
    && at.picked == EligibleIds(Queue(l, p)[..i], l.rows, now)
    && Paired(at.requests) && WholeRows(at.requests) == Mark(l.rows, at.picked, until)
    && at.queues == LRem(start.queues, p, dead) && at.cursors == start.cursors
    && forall id :: id in dead ==> id !in l.rows || l.rows[id].status == Completed
  }

  /** One turn of the lease loop. */
  lemma LeaseTurn(l: Ledger, p: Peer, start: Loop, i: nat, now: int, until: int,
                  dead: set<Id>, at: Loop, dead': set<Id>, at': Loop)
    requires Distinct(Queue(l, p)) && i < |Queue(l, p)|
    requires Leasing(l, p, start, i, now, until, dead, at)
    requires dead' == if Drops(at, Queue(l, p)[i]) then dead + {Queue(l, p)[i]} else dead
    requires at' == LeaseStep(at, p, Queue(l, p)[i], now, until)
    ensures Leasing(l, p, start, i + 1, now, until, dead', at') && |at'.picked| <= |at.picked| + 1
  {
    var ids, id, requests := Queue(l, p), Queue(l, p)[i], at.requests;
    PrefixStep(ids, i);
    EligibleAre(ids[..i], l.rows, now);
    assert id !in ids[..i];
    assert id in l.rows ==> id in WholeRows(requests) && WholeRows(requests)[id] == l.rows[id];
    LRemMore(start.queues, p, dead, id);
    if id in requests {
      Rewrite(requests, id, Leased, until);
      if requests[id].req.Some? {
        MarkMore(l.rows, at.picked, id, until);
      }
    }
  }

  /** The ledger's lease, in the stored state. */
  ghost predicate Leases(l: Ledger, p: Peer, batch: nat, now: int, ttl: nat, start: Loop, end: Loop) {
    && end.picked == LeasedBy(l, p, batch, now) && end.cursors == start.cursors
    && Paired(end.requests) && WholeRows(end.requests) == Lease(l, p, batch, now, ttl).rows
    && (Clean(l) ==> Mirror(end.queues, Lease(l, p, batch, now, ttl)))
  }

  /** The loop may stop as soon as the batch is full. */
  lemma LeaseEnds(l: Ledger, p: Peer, batch: nat, start: Loop, i: nat, now: int, ttl: nat, dead: set<Id>, at: Loop)
    requires i <= |Queue(l, p)| && (|at.picked| == batch || (i == |Queue(l, p)| && |at.picked| <= batch))
    requires Mirror(start.queues, l) && Leasing(l, p, start, i, now, now + ttl, dead, at)
    ensures Leases(l, p, batch, now, ttl, start, at)
  {
    var ids := Queue(l, p);
    assert ids[..|ids|] == ids;
    EligiblePrefix(ids, l.rows, now, i);
    TakePrefix(EligibleIds(ids[..i], l.rows, now), EligibleIds(ids, l.rows, now), batch);
    if Clean(l) {
      assert ListOf(start.queues, p) == ids;
      LRemOthers(start.queues, p, dead);
      MirrorSame(start.queues, l, Lease(l, p, batch, now, ttl));
    }
  }

  lemma {:induction false} LeaseLoopMeets(
    l: Ledger, p: Peer, batch: nat, start: Loop, i: nat, now: int, ttl: nat, dead: set<Id>, at: Loop, end: Loop)
    requires i <= |Queue(l, p)| && |at.picked| <= batch && Distinct(Queue(l, p))
    requires Mirror(start.queues, l) && Leasing(l, p, start, i, now, now + ttl, dead, at)
    requires end == LeaseLoop(at, p, Queue(l, p)[i..], batch, now, now + ttl)
    ensures Leases(l, p, batch, now, ttl, start, end)
    decreases |Queue(l, p)| - i
  {
    var ids := Queue(l, p);
    if i == |ids| || |at.picked| >= batch {
      LeaseEnds(l, p, batch, start, i, now, ttl, dead, at);
    } else {
      var next := LeaseStep(at, p, ids[i], now, now + ttl);
      var dead' := if Drops(at, ids[i]) then dead + {ids[i]} else dead;
      LeaseTurn(l, p, start, i, now, now + ttl, dead, at, dead', next);
      LeaseLoopUnfolds(at, p, ids, i, batch, now, now + ttl);
      LeaseLoopMeets(l, p, batch, start, i + 1, now, ttl, dead', next, end);
    }
  }

  lemma LeaseLoopUnfolds(at: Loop, p: Peer, ids: seq<Id>, i: nat, batch: nat, now: int, until: int)
    requires i < |ids| && |at.picked| < batch
    ensures LeaseLoop(at, p, ids[i..], batch, now, until) ==
            LeaseLoop(LeaseStep(at, p, ids[i], now, until), p, ids[i + 1..], batch, now, until)
  {
    assert ids[i..][1..] == ids[i + 1..];
  }

  lemma LeaseMeets(l: Ledger, p: Peer, batch: nat, now: int, ttl: nat, start: Loop)
    requires Distinct(Queue(l, p)) && Mirror(start.queues, l)
    requires Paired(start.requests) && WholeRows(start.requests) == l.rows && start.picked == []
    ensures Leases(l, p, batch, now, ttl, start, LeaseLoop(start, p, Queue(l, p), batch, now, now + ttl))
  {
    assert Queue(l, p)[0..] == Queue(l, p);
    LRemOthers(start.queues, p, {});
    LeaseLoopMeets(l, p, batch, start, 0, now, ttl, {}, start, LeaseLoop(start, p, Queue(l, p), batch, now, now + ttl));
  }

  lemma MirrorSame(queues: map<Peer, seq<Id>>, l: Ledger, l': Ledger)
    requires Mirror(queues, l) && l'.queues == l.queues
    ensures Mirror(queues, l')
  {
    forall p ensures ListOf(queues, p) == Queue(l', p) {
      assert ListOf(queues, p) == Queue(l, p);
    }
  }

  function ClearStep(at: Loop, p: Peer, id: Id): Loop {
    if id in at.requests && at.requests[id].status == Queued then
      Loop(LRem(at.queues, p, {id}), at.requests[id := at.requests[id].(status := Failed)], at.cursors - {id},
        at.picked + [id])
    else at
  }

  /** The rest of the clear loop. */
  function ClearLoop(at: Loop, p: Peer, rest: seq<Id>): Loop
    decreases |rest|
  {
    if rest == [] then at else ClearLoop(ClearStep(at, p, rest[0]), p, rest[1..])
  }

  /** After i list entries of a clear: the ones still queued are failed, out of the list, their cursors gone. */
  ghost predicate Clearing(l: Ledger, p: Peer, start: Loop, i: nat, at: Loop)
    requires i <= |Queue(l, p)|
  {
    && at.picked == ClearableIds(Queue(l, p)[..i], l.rows)
    && Paired(at.requests) && WholeRows(at.requests) == Fail(l.rows, at.picked)
    && at.queues == LRem(start.queues, p, AsSet(at.picked))
    && at.cursors == start.cursors - AsSet(at.picked)
  }

  /** One turn of the clear loop. */
  lemma ClearTurn(l: Ledger, p: Peer, start: Loop, i: nat, at: Loop)
    requires Distinct(Queue(l, p)) && i < |Queue(l, p)| && Queue(l, p)[i] in l.rows
    requires Clearing(l, p, start, i, at)
    ensures Clearing(l, p, start, i + 1, ClearStep(at, p, Queue(l, p)[i]))
  {
    var ids, id := Queue(l, p), Queue(l, p)[i];
    var done := at.picked;
    PrefixStep(ids, i);
    ClearableIs(ids[..i], l.rows);
    assert id !in ids[..i];
    assert id in WholeRows(at.requests) && WholeRows(at.requests)[id] == l.rows[id];
    if at.requests[id].status == Queued {
      Rewrite(at.requests, id, Failed, at.requests[id].leaseUntil);
      FailMore(l.rows, done, id);
      LRemMore(start.queues, p, AsSet(done), id);
      MinusMore(start.cursors, AsSet(done), id);
      assert AsSet(done + [id]) == AsSet(done) + {id};
    } else {
      assert ClearableIds(ids[..i + 1], l.rows) == done;
    }
  }

  lemma {:induction false} ClearLoopMeets(l: Ledger, p: Peer, start: Loop, i: nat, at: Loop)
    requires Distinct(Queue(l, p)) && (forall id :: id in Queue(l, p) ==> id in l.rows)
    requires i <= |Queue(l, p)| && Clearing(l, p, start, i, at)
    ensures Clearing(l, p, start, |Queue(l, p)|, ClearLoop(at, p, Queue(l, p)[i..]))
    decreases |Queue(l, p)| - i
  {
    if i < |Queue(l, p)| {
      ClearTurn(l, p, start, i, at);
      assert Queue(l, p)[i..][1..] == Queue(l, p)[i + 1..];
      ClearLoopMeets(l, p, start, i + 1, ClearStep(at, p, Queue(l, p)[i]));
    }
  }

  lemma ClearLoopEnds(l: Ledger, p: Peer, start: Loop)
    requires Clean(l) && Mirror(start.queues, l) && Paired(start.requests) && WholeRows(start.requests) == l.rows
    requires start.picked == [] && start.cursors == l.cursors
    ensures var end := ClearLoop(start, p, Queue(l, p));
            && |end.picked| == |ClearableIds(Queue(l, p), l.rows)|
            && Paired(end.requests) && WholeRows(end.requests) == ClearQueue(l, p).rows
            && Mirror(end.queues, ClearQueue(l, p)) && end.cursors == ClearQueue(l, p).cursors
  {
    var ids := Queue(l, p);
    assert Distinct(ids);
    assert ids[0..] == ids && ids[..|ids|] == ids;
    LRemOthers(start.queues, p, AsSet([]));
    assert WholeRows(start.requests) == Fail(l.rows, []);
    ClearLoopMeets(l, p, start, 0, start);
    MirrorClear(start.queues, l, p);
  }

  class RedisQueue {
    var queues: map<Peer, seq<Id>>
    var requests: map<Id, Hash>
    var results: map<Id, int>
    var chunkCursors: map<Id, int>

    ghost predicate Is(l: Ledger)
      reads this
    {
      && Paired(requests)
      && WholeRows(requests) == l.rows && results == l.results && chunkCursors == l.cursors
      && Mirror(queues, l)
    }

    constructor ()
      ensures Is(EMPTY_LEDGER)
    {
      queues, requests, results, chunkCursors := map[], map[], map[], map[];
    }

    method EnqueueRequest(p: Peer, req: RelayRequest, ghost l: Ledger)
      requires Is(l)
      modifies this
      ensures Is(Enqueue(l, p, req))
    {
      MirrorEnqueue(queues, l, p, req);
      queues := queues[p := ListOf(queues, p) + [req.id]];
      requests := requests[req.id := Hash(Some(p), Queued, 0, Some(req))];
      assert WholeRows(requests) == Enqueue(l, p, req).rows;
    }

    /** Ids without a live request are dropped from the list as they are met; a clean ledger has none. */
    method LeaseRequests(p: Peer, batchSize: nat, now: int, ttl: nat, ghost l: Ledger) returns (leased: seq<Id>)
      requires Is(l) && Distinct(Queue(l, p))
      modifies this`queues, this`requests
      ensures leased == LeasedBy(l, p, batchSize, now)
      ensures Paired(requests) && WholeRows(requests) == Lease(l, p, batchSize, now, ttl).rows
      ensures Clean(l) ==> Mirror(queues, Lease(l, p, batchSize, now, ttl))
    {
      var ids := ListOf(queues, p);
      leased := [];
      ghost var start := Loop(queues, requests, chunkCursors, []);
      ghost var at, until := start, now + ttl;
      LeaseMeets(l, p, batchSize, now, ttl, start);
      assert ids[0..] == ids;
      var i := 0;
      while i < |ids| && |leased| < batchSize
        invariant i <= |ids|
        invariant at == Loop(queues, requests, chunkCursors, leased)
        invariant LeaseLoop(start, p, ids[0..], batchSize, now, until) ==
                    LeaseLoop(at, p, ids[i..], batchSize, now, until)
      {
        var id := ids[i];
        assert ids[i..][0] == id && ids[i..][1..] == ids[i + 1..];
        at := LeaseStep(at, p, id, now, until);
        i := i + 1;
        if id !in requests || requests[id].status == Completed {
          queues := LRem(queues, p, {id});
        } else if requests[id].leaseUntil <= now && requests[id].req.Some? {
          requests := requests[id := requests[id].(status := Leased, leaseUntil := now + ttl)];
          leased := leased + [id];
        }
      }
    }

    method ListActiveLeasedRequests(p: Peer, batchSize: nat, now: int, ghost l: Ledger) returns (active: seq<Id>)
      requires Is(l)
      ensures active == Take(ActiveIds(Queue(l, p), l.rows, now), batchSize)
    {
      var ids := ListOf(queues, p);
      active := [];
      assert ids[..|ids|] == ids;
      var i := 0;
      while i < |ids| && |active| < batchSize
        invariant i <= |ids| && |active| <= batchSize
        invariant active == ActiveIds(ids[..i], l.rows, now)
      {
        PrefixStep(ids, i);
        var id := ids[i];
        i := i + 1;
        if id in requests && requests[id].req.Some? && requests[id].status == Leased && requests[id].leaseUntil > now {
          active := active + [id];
        }
      }
      ActivePrefix(ids, l.rows, now, i);
      TakePrefix(ActiveIds(ids[..i], l.rows, now), ActiveIds(ids, l.rows, now), batchSize);
    }

    method ApplyRequestStates(states: seq<SyncState>, now: int, ghost l: Ledger)
      requires Is(l)
      modifies this`requests
      ensures Is(ApplyStates(l, states, now))
    {
      assert states[..|states|] == states;
      for i := 0 to |states|
        invariant Paired(requests)
        invariant ApplyStates(l, states[..i], now) == l.(rows := WholeRows(requests))
      {
        assert states[..i + 1][..i] == states[..i];
        var id := states[i].requestId;
        if id in requests {
          var status := states[i].status;
          if status == Completed && !(id in results && results[id] > now) {
            status := Executing;
          }
          var leaseUntil := now;
          if states[i].leaseUntil.Some? {
            leaseUntil := states[i].leaseUntil.value;
          }
          Rewrite(requests, id, status, leaseUntil);
          requests := requests[id := requests[id].(status := status, leaseUntil := leaseUntil)];
        }
      }
    }

    method StoreResult(id: Id, now: int, ttl: nat, ghost l: Ledger)
      requires Is(l) && Clean(l)
      modifies this
      ensures Is(RequestLedger.StoreResult(l, id, now, ttl))
    {
      MirrorStore(queues, l, id, now, ttl);
      results := results[id := now + ttl];
      if id in requests {
        Rewrite(requests, id, Completed, requests[id].leaseUntil);
        requests := requests[id := requests[id].(status := Completed)];
      } else {
        requests := requests[id := Hash(None, Completed, 0, None)];
      }
      if requests[id].peer.Some? {
        queues := LRem(queues, requests[id].peer.value, {id});
      }
      chunkCursors := chunkCursors - {id};
    }

    method ClearPeerQueue(p: Peer, ghost l: Ledger) returns (cleared: nat)
      requires Is(l) && Clean(l)
      modifies this
      ensures cleared == |ClearableIds(Queue(l, p), l.rows)| && Is(ClearQueue(l, p))
    {
      var ids := ListOf(queues, p);
      cleared := 0;
      ghost var start := Loop(queues, requests, chunkCursors, []);
      ghost var at := start;
      ClearLoopEnds(l, p, start);
      assert ids[0..] == ids;
      for i := 0 to |ids|
        invariant results == l.results
        invariant Loop(queues, requests, chunkCursors, at.picked) == at && cleared == |at.picked|
        invariant ClearLoop(start, p, ids[0..]) == ClearLoop(at, p, ids[i..])
      {
        assert ids[i..][0] == ids[i] && ids[i..][1..] == ids[i + 1..];
        at := ClearStep(at, p, ids[i]);
        if ids[i] in requests && requests[ids[i]].status == Queued {
          queues := LRem(queues, p, {ids[i]});
          requests := requests[ids[i] := requests[ids[i]].(status := Failed)];
          chunkCursors := chunkCursors - {ids[i]};
          cleared := cleared + 1;
        }
      }
    }

    /** The raw list length; on a clean ledger it is what SQLite counts. */
    method QueueLength(p: Peer, ghost l: Ledger) returns (n: nat)
      requires Is(l)
      ensures n == |Queue(l, p)|
    {
      n := |ListOf(queues, p)|;
    }
  }
}
