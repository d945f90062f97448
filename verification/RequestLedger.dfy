/** The listener's request queue as both backends promise it, and what holds over all its runs. */
module RequestLedger {
  import opened Wrappers
  import opened Models
  import opened Chunking

  type Peer = string

  datatype Row = Row(peer: Peer, status: Status, leaseUntil: int, req: RelayRequest)

  /** Queues per peer, request rows, stored results with their expiry, and request chunk cursors. */
  datatype Ledger = Ledger(queues: map<Peer, seq<Id>>, rows: map<Id, Row>, results: map<Id, int>, cursors: map<Id, int>)

  const EMPTY_LEDGER := Ledger(map[], map[], map[], map[])

  function Queue(l: Ledger, p: Peer): seq<Id> {
    if p in l.queues then l.queues[p] else []
  }

  /** The queue with these ids removed; LREM and DELETE remove every occurrence. */
  function Without(q: seq<Id>, drop: set<Id>): seq<Id> {
    if q == [] then []
    else Without(q[..|q| - 1], drop) + (if q[|q| - 1] in drop then [] else [q[|q| - 1]])
  }

  predicate Eligible(rows: map<Id, Row>, now: int, id: Id) {
    id in rows && rows[id].status != Completed && rows[id].leaseUntil <= now
  }

  /** The queued requests that may be leased, oldest first. */
  function EligibleIds(q: seq<Id>, rows: map<Id, Row>, now: int): (ids: seq<Id>)
    ensures |ids| <= |q|
  {
    if q == [] then []
    else EligibleIds(q[..|q| - 1], rows, now) + (if Eligible(rows, now, q[|q| - 1]) then [q[|q| - 1]] else [])
  }

  function Mark(rows: map<Id, Row>, ids: seq<Id>, until: int): map<Id, Row> {
    map id | id in rows :: if id in ids then rows[id].(status := Leased, leaseUntil := until) else rows[id]
  }

  function LeasedBy(l: Ledger, p: Peer, batch: nat, now: int): seq<Id> {
    Take(EligibleIds(Queue(l, p), l.rows, now), batch)
  }

  function Lease(l: Ledger, p: Peer, batch: nat, now: int, ttl: nat): Ledger {
    l.(rows := Mark(l.rows, LeasedBy(l, p, batch, now), now + ttl))
  }

  predicate Active(rows: map<Id, Row>, now: int, id: Id) {
    id in rows && rows[id].status == Leased && rows[id].leaseUntil > now
  }

  function ActiveIds(q: seq<Id>, rows: map<Id, Row>, now: int): seq<Id> {
    if q == [] then []
    else ActiveIds(q[..|q| - 1], rows, now) + (if Active(rows, now, q[|q| - 1]) then [q[|q| - 1]] else [])
  }

  function Enqueue(l: Ledger, p: Peer, req: RelayRequest): Ledger {
    l.(queues := l.queues[p := Queue(l, p) + [req.id]], rows := l.rows[req.id := Row(p, Queued, 0, req)])
  }

  predicate HasResult(l: Ledger, id: Id, now: int) {
    id in l.results && l.results[id] > now
  }

  /** A reported completion is believed only if its result is here. */
  function Believed(l: Ledger, s: SyncState, now: int): Status {
    if s.status == Completed && !HasResult(l, s.requestId, now) then Executing else s.status
  }

  function ApplyState(l: Ledger, s: SyncState, now: int): Ledger {
    if s.requestId !in l.rows then l
    else
      var lease := if s.leaseUntil.Some? then s.leaseUntil.value else now;
      l.(rows := l.rows[s.requestId := l.rows[s.requestId].(status := Believed(l, s, now), leaseUntil := lease)])
  }

  function ApplyStates(l: Ledger, ss: seq<SyncState>, now: int): Ledger {
    if ss == [] then l else ApplyState(ApplyStates(l, ss[..|ss| - 1], now), ss[|ss| - 1], now)
  }

  function StoreResult(l: Ledger, id: Id, now: int, ttl: nat): Ledger {
    Ledger(
      map p | p in l.queues :: Without(l.queues[p], {id}),
      if id in l.rows then l.rows[id := l.rows[id].(status := Completed)] else l.rows,
      l.results[id := now + ttl],
      l.cursors - {id})
  }

  /** The queued requests nobody has been given yet. */
  function ClearableIds(q: seq<Id>, rows: map<Id, Row>): (ids: seq<Id>)
    ensures |ids| <= |q|
  {
    if q == [] then []
    else
      var id := q[|q| - 1];
      ClearableIds(q[..|q| - 1], rows) + (if id in rows && rows[id].status == Queued then [id] else [])
  }

  function Fail(rows: map<Id, Row>, ids: seq<Id>): map<Id, Row> {
    map id | id in rows :: if id in ids then rows[id].(status := Failed) else rows[id]
  }

  function ClearQueue(l: Ledger, p: Peer): Ledger {
    var ids := ClearableIds(Queue(l, p), l.rows);
    l.(queues := if p in l.queues then l.queues[p := Without(l.queues[p], AsSet(ids))] else l.queues,
       rows := Fail(l.rows, ids),
       cursors := l.cursors - AsSet(ids))
  }

  // ------------------------------------------------------------ what every operation keeps

  ghost predicate Distinct(q: seq<Id>) {
    forall i, j :: 0 <= i < j < |q| ==> q[i] != q[j]
  }

  /** A queued request is in its peer's queue once, is known, is not completed and has no result. */
  ghost predicate Clean(l: Ledger) {
    && (forall p :: p in l.queues ==> Distinct(l.queues[p]))
    && (forall p, id :: p in l.queues && id in l.queues[p] ==>
          id in l.rows && l.rows[id].peer == p && l.rows[id].status != Completed && id !in l.results)
  }

  datatype Op =
    | DoEnqueue(peer: Peer, req: RelayRequest)
    | DoLease(peer: Peer, batch: nat, now: int, ttl: nat)
    | DoApply(states: seq<SyncState>, now: int)
    | DoStore(id: Id, now: int, ttl: nat)
    | DoClear(peer: Peer)

  function Do(l: Ledger, op: Op): Ledger {
    match op
    case DoEnqueue(p, req) => Enqueue(l, p, req)
    case DoLease(p, batch, now, ttl) => Lease(l, p, batch, now, ttl)
    case DoApply(ss, now) => ApplyStates(l, ss, now)
    case DoStore(id, now, ttl) => StoreResult(l, id, now, ttl)
    case DoClear(p) => ClearQueue(l, p)
  }

  function DoAll(ops: seq<Op>): Ledger {
    if ops == [] then EMPTY_LEDGER else Do(DoAll(ops[..|ops| - 1]), ops[|ops| - 1])
  }

  /** Request ids are random and never reused. */
  ghost predicate Fresh(l: Ledger, op: Op) {
    op.DoEnqueue? ==> op.req.id !in l.rows && op.req.id !in l.results
  }

  ghost predicate FreshIds(ops: seq<Op>) {
    ops != [] ==> FreshIds(ops[..|ops| - 1]) && Fresh(DoAll(ops[..|ops| - 1]), ops[|ops| - 1])
  }

  lemma DistinctAppend(q: seq<Id>, id: Id)
    requires Distinct(q) && id !in q
    ensures Distinct(q + [id])
  {
  }

  lemma {:induction false} WithoutIs(q: seq<Id>, drop: set<Id>)
    ensures forall x :: x in Without(q, drop) <==> x in q && x !in drop
    ensures Distinct(q) ==> Distinct(Without(q, drop))
  {
    if q != [] {
      var init, last := q[..|q| - 1], q[|q| - 1];
      WithoutIs(init, drop);
      assert q == init + [last];
      if Distinct(q) && last !in drop {
        assert last !in init;
        DistinctAppend(Without(init, drop), last);
      }
    }
  }

  lemma CleanApplyState(l: Ledger, s: SyncState, now: int)
    requires Clean(l)
    ensures Clean(ApplyState(l, s, now))
    ensures ApplyState(l, s, now).queues == l.queues && ApplyState(l, s, now).results == l.results
  {
  }

  lemma {:induction false} CleanApply(l: Ledger, ss: seq<SyncState>, now: int)
    requires Clean(l)
    ensures Clean(ApplyStates(l, ss, now))
    ensures ApplyStates(l, ss, now).queues == l.queues && ApplyStates(l, ss, now).results == l.results
  {
    if ss != [] {
      CleanApply(l, ss[..|ss| - 1], now);
      CleanApplyState(ApplyStates(l, ss[..|ss| - 1], now), ss[|ss| - 1], now);
    }
  }

  lemma CleanStore(l: Ledger, id: Id, now: int, ttl: nat)
    requires Clean(l)
    ensures Clean(StoreResult(l, id, now, ttl))
  {
    forall p | p in l.queues
      ensures forall x :: x in Without(l.queues[p], {id}) <==> x in l.queues[p] && x != id
      ensures Distinct(Without(l.queues[p], {id}))
    {
      WithoutIs(l.queues[p], {id});
    }
  }

  lemma CleanClear(l: Ledger, p: Peer)
    requires Clean(l)
    ensures Clean(ClearQueue(l, p))
  {
    var ids := ClearableIds(Queue(l, p), l.rows);
    WithoutIs(Queue(l, p), AsSet(ids));
  }

  lemma CleanDo(l: Ledger, op: Op)
    requires Clean(l) && Fresh(l, op)
    ensures Clean(Do(l, op))
  {
    match op {
      case DoEnqueue(p, req) =>
      case DoLease(p, batch, now, ttl) =>
      case DoApply(ss, now) => CleanApply(l, ss, now);
      case DoStore(id, now, ttl) => CleanStore(l, id, now, ttl);
      case DoClear(p) => CleanClear(l, p);
    }
  }

  // ------------------------------------------------------------ the queue is the filtered history

  function EnqueuedFor(ops: seq<Op>, p: Peer): seq<Id> {
    if ops == [] then []
    else
      var before, op := EnqueuedFor(ops[..|ops| - 1], p), ops[|ops| - 1];
      if op.DoEnqueue? && op.peer == p then before + [op.req.id] else before
  }

  /** Requests that were cleared, or got a result, at some point of the run. */
  function Gone(ops: seq<Op>): set<Id> {
    if ops == [] then {}
    else
      var before, l := Gone(ops[..|ops| - 1]), DoAll(ops[..|ops| - 1]);
      match ops[|ops| - 1]
      case DoStore(id, _, _) => before + {id}
      case DoClear(p) => before + (set id | id in ClearableIds(Queue(l, p), l.rows))
      case _ => before
  }

  lemma WithoutAppend(q: seq<Id>, id: Id, drop: set<Id>)
    ensures Without(q + [id], drop) == Without(q, drop) + (if id in drop then [] else [id])
  {
    assert (q + [id])[..|q|] == q;
  }

  lemma {:induction false} WithoutTwice(q: seq<Id>, a: set<Id>, b: set<Id>)
    ensures Without(Without(q, a), b) == Without(q, a + b)
  {
    if q != [] {
      var init, last := q[..|q| - 1], q[|q| - 1];
      WithoutTwice(init, a, b);
      if last in a {
        assert Without(q, a) == Without(init, a);
      } else {
        assert Without(q, a)[..|Without(init, a)|] == Without(init, a);
      }
    }
  }

  lemma {:induction false} WithoutOthers(q: seq<Id>, drop: set<Id>)
    requires forall id :: id in q ==> id !in drop
    ensures Without(q, drop) == q
  {
    if q != [] {
      var init, last := q[..|q| - 1], q[|q| - 1];
      assert q == init + [last];
      WithoutOthers(init, drop);
    }
  }

  /** Ids that left a queue, or never were in one, have rows or results; so a fresh id is not among them. */
  ghost predicate Recorded(l: Ledger, gone: set<Id>) {
    && (forall id :: id in gone ==> id in l.rows || id in l.results)
    && (forall id :: id in l.results ==> id in gone)
  }

  /** Every queue is its history without what is gone. */
  ghost predicate Explained(ops: seq<Op>) {
    && Clean(DoAll(ops)) && Recorded(DoAll(ops), Gone(ops))
    && forall p :: Queue(DoAll(ops), p) == Without(EnqueuedFor(ops, p), Gone(ops))
                   && (forall id :: id in EnqueuedFor(ops, p) ==>
                        id in DoAll(ops).rows && DoAll(ops).rows[id].peer == p)
  }

  lemma {:induction false} ApplyKeepsPeers(l: Ledger, ss: seq<SyncState>, now: int)
    ensures var l' := ApplyStates(l, ss, now);
            l'.rows.Keys == l.rows.Keys && l'.cursors == l.cursors
            && forall id :: id in l.rows ==> l'.rows[id].peer == l.rows[id].peer && l'.rows[id].req == l.rows[id].req
  {
    if ss != [] {
      ApplyKeepsPeers(l, ss[..|ss| - 1], now);
    }
  }

  lemma {:induction false} ClearableIs(q: seq<Id>, rows: map<Id, Row>)
    ensures forall id :: id in ClearableIds(q, rows) <==> id in q && id in rows && rows[id].status == Queued
  {
    if q != [] {
      ClearableIs(q[..|q| - 1], rows);
      assert q == q[..|q| - 1] + [q[|q| - 1]];
    }
  }

  /** What one operation does to one peer's queue. */
  lemma QueueAfter(l: Ledger, op: Op, p: Peer)
    requires Clean(l) && Fresh(l, op)
    ensures Queue(Do(l, op), p) ==
            match op
            case DoEnqueue(peer, req) => if peer == p then Queue(l, p) + [req.id] else Queue(l, p)
            case DoStore(id, _, _) => Without(Queue(l, p), {id})
            case DoClear(peer) =>
              if peer == p then Without(Queue(l, p), AsSet(ClearableIds(Queue(l, p), l.rows))) else Queue(l, p)
            case _ => Queue(l, p)
    ensures forall id :: id in l.rows ==>
              id in Do(l, op).rows && (op.DoEnqueue? || Do(l, op).rows[id].peer == l.rows[id].peer)
  {
    match op {
      case DoApply(ss, now) => CleanApply(l, ss, now); ApplyKeepsPeers(l, ss, now);
      case _ =>
    }
  }

  lemma {:induction false} ExplainedRun(ops: seq<Op>)
    requires FreshIds(ops)
    ensures Explained(ops)
  {
    if ops == [] {
    } else {
      var rest, op := ops[..|ops| - 1], ops[|ops| - 1];
      var l := DoAll(rest);
      ExplainedRun(rest);
      CleanDo(l, op);
      RecordedDo(l, op, Gone(rest));
      forall p
        ensures Queue(DoAll(ops), p) == Without(EnqueuedFor(ops, p), Gone(ops))
        ensures forall id :: id in EnqueuedFor(ops, p) ==> id in DoAll(ops).rows && DoAll(ops).rows[id].peer == p
      {
        ExplainedStep(ops, p);
      }
    }
  }

  /** The ids an operation makes go away. */
  function Leaving(l: Ledger, op: Op): set<Id> {
    match op
    case DoStore(id, _, _) => {id}
    case DoClear(p) => AsSet(ClearableIds(Queue(l, p), l.rows))
    case _ => {}
  }

  lemma RecordedDo(l: Ledger, op: Op, gone: set<Id>)
    requires Clean(l) && Recorded(l, gone)
    ensures Recorded(Do(l, op), gone + Leaving(l, op))
  {
    match op {
      case DoApply(ss, now) => CleanApply(l, ss, now); ApplyKeepsPeers(l, ss, now);
      case DoClear(p) => ClearableIs(Queue(l, p), l.rows);
      case _ =>
    }
  }

  lemma ExplainedStep(ops: seq<Op>, p: Peer)
    requires ops != [] && FreshIds(ops) && Explained(ops[..|ops| - 1])
    ensures Queue(DoAll(ops), p) == Without(EnqueuedFor(ops, p), Gone(ops))
    ensures forall id :: id in EnqueuedFor(ops, p) ==> id in DoAll(ops).rows && DoAll(ops).rows[id].peer == p
  {
    var rest, op := ops[..|ops| - 1], ops[|ops| - 1];
    var l, hist, gone := DoAll(rest), EnqueuedFor(rest, p), Gone(rest);
    QueueAfter(l, op, p);
    assert Queue(l, p) == Without(hist, gone);
    match op {
      case DoEnqueue(peer, req) =>
        assert req.id !in gone;
        if peer == p {
          assert EnqueuedFor(ops, p)[..|hist|] == hist;
        }
      case DoStore(id, now, ttl) =>
        WithoutTwice(hist, gone, {id});
      case DoClear(peer) =>
        var ids := ClearableIds(Queue(l, peer), l.rows);
        assert Gone(ops) == gone + AsSet(ids);
        WithoutTwice(hist, gone, AsSet(ids));
        if peer != p {
          ClearableIs(Queue(l, peer), l.rows);
          WithoutIs(hist, gone);
          WithoutOthers(Queue(l, p), AsSet(ids));
        }
      case DoLease(_, _, _, _) =>
      case DoApply(_, _) =>
    }
  }

  lemma {:induction false} EligibleAre(q: seq<Id>, rows: map<Id, Row>, now: int)
    ensures forall id :: id in EligibleIds(q, rows, now) <==> id in q && Eligible(rows, now, id)
    ensures Distinct(q) ==> Distinct(EligibleIds(q, rows, now))
  {
    if q != [] {
      var init, last := q[..|q| - 1], q[|q| - 1];
      EligibleAre(init, rows, now);
      assert q == init + [last];
      if Distinct(q) {
        assert last !in init;
        DistinctAppend(EligibleIds(init, rows, now), last);
      }
    }
  }

  /** A request is among the first n eligible ones iff it is eligible and fewer than n are before it. */
  lemma {:induction false} EligibleAt(q: seq<Id>, rows: map<Id, Row>, now: int, k: nat, n: nat)
    requires Distinct(q) && k < |q|
    ensures q[k] in Take(EligibleIds(q, rows, now), n) <==>
            Eligible(rows, now, q[k]) && |EligibleIds(q[..k], rows, now)| < n
    decreases |q|
  {
    var init, last := q[..|q| - 1], q[|q| - 1];
    var before := EligibleIds(init, rows, now);
    assert last !in before by { EligibleAre(init, rows, now); }
    InTake(before, last, n, q[k]);
    assert EligibleIds(q, rows, now) == before + [last] || EligibleIds(q, rows, now) == before;
    if k == |q| - 1 {
      assert q[..k] == init;
    } else {
      EligibleAt(init, rows, now, k, n);
      assert init[..k] == q[..k] && init[k] == q[k] != last;
    }
  }

  /**
    In every run with fresh ids, whatever states and results arrive in whatever order: a peer's queue
    is everything enqueued for it, in order and once each, without what was cleared or got a result;
    and nothing completed is in it.
   */
  lemma QueueIsFilteredHistory(ops: seq<Op>, p: Peer)
    requires FreshIds(ops)
    ensures Queue(DoAll(ops), p) == Without(EnqueuedFor(ops, p), Gone(ops)) && Distinct(Queue(DoAll(ops), p))
    ensures forall id :: id in DoAll(ops).rows && DoAll(ops).rows[id].status == Completed ==>
              id !in Queue(DoAll(ops), p)
  {
    ExplainedRun(ops);
    CleanQueue(DoAll(ops), p);
  }

  lemma CleanQueue(l: Ledger, p: Peer)
    requires Clean(l)
    ensures Distinct(Queue(l, p))
    ensures forall id :: id in l.rows && l.rows[id].status == Completed ==> id !in Queue(l, p)
  {
  }

  /** And a request that was cleared or got a result is never leased again. */
  lemma NeverLeasedAgain(ops: seq<Op>, p: Peer, batch: nat, now: int, id: Id)
    requires FreshIds(ops) && id in LeasedBy(DoAll(ops), p, batch, now)
    ensures id in EnqueuedFor(ops, p) && id !in Gone(ops) && id !in DoAll(ops).results
  {
    QueueIsFilteredHistory(ops, p);
    ExplainedRun(ops);
    LeasedIsQueued(DoAll(ops), p, batch, now, id);
    WithoutIs(EnqueuedFor(ops, p), Gone(ops));
  }

  lemma LeasedIsQueued(l: Ledger, p: Peer, batch: nat, now: int, id: Id)
    requires Clean(l) && id in LeasedBy(l, p, batch, now)
    ensures id in Queue(l, p) && id in l.rows && id !in l.results
  {
    EligibleAre(Queue(l, p), l.rows, now);
    assert id in EligibleIds(Queue(l, p), l.rows, now);
  }

  // ------------------------------------------------------------ leasing in batches

  /** The ids of k leases at one instant, one batch after the other. */
  function LeaseRounds(l: Ledger, p: Peer, batch: nat, now: int, ttl: nat, k: nat): seq<Id>
    decreases k
  {
    if k == 0 then []
    else LeasedBy(l, p, batch, now) + LeaseRounds(Lease(l, p, batch, now, ttl), p, batch, now, ttl, k - 1)
  }

  /** A positive lease takes the leased ids, and no others, out of the eligible ones. */
  lemma {:induction false} LeaseTakes(q: seq<Id>, rows: map<Id, Row>, ids: seq<Id>, now: int, until: int)
    requires now < until
    ensures EligibleIds(q, Mark(rows, ids, until), now) == Without(EligibleIds(q, rows, now), AsSet(ids))
  {
    if q != [] {
      var init, last := q[..|q| - 1], q[|q| - 1];
      LeaseTakes(init, rows, ids, now, until);
      assert Eligible(Mark(rows, ids, until), now, last) <==> Eligible(rows, now, last) && last !in AsSet(ids);
      if Eligible(rows, now, last) {
        WithoutAppend(EligibleIds(init, rows, now), last, AsSet(ids));
      } else {
        assert EligibleIds(q, rows, now) == EligibleIds(init, rows, now);
      }
    }
  }

  lemma {:induction false} WithoutFirst(ids: seq<Id>, n: nat)
    requires Distinct(ids) && n <= |ids|
    ensures Without(ids, AsSet(ids[..n])) == ids[n..]
    decreases |ids|
  {
    if |ids| == n {
      assert ids[..n] == ids;
      WithoutAllOfThem(ids, AsSet(ids));
    } else {
      var init, last := ids[..|ids| - 1], ids[|ids| - 1];
      assert init[..n] == ids[..n];
      WithoutFirst(init, n);
      assert last !in ids[..n];
      assert ids[n..] == init[n..] + [last];
    }
  }

  lemma {:induction false} WithoutAllOfThem(ids: seq<Id>, drop: set<Id>)
    requires forall id :: id in ids ==> id in drop
    ensures Without(ids, drop) == []
  {
    if ids != [] {
      WithoutAllOfThem(ids[..|ids| - 1], drop);
    }
  }

  lemma LeaseAdvances(q: seq<Id>, rows: map<Id, Row>, batch: nat, now: int, ttl: nat)
    requires Distinct(q) && 0 < ttl
    ensures var ids := EligibleIds(q, rows, now);
            EligibleIds(q, Mark(rows, Take(ids, batch), now + ttl), now) == ids[|Take(ids, batch)|..]
  {
    var ids := EligibleIds(q, rows, now);
    assert Distinct(ids) by { EligibleAre(q, rows, now); }
    LeaseTakes(q, rows, Take(ids, batch), now, now + ttl);
    WithoutTaken(ids, batch);
  }

  lemma WithoutTaken(ids: seq<Id>, n: nat)
    requires Distinct(ids)
    ensures Without(ids, AsSet(Take(ids, n))) == ids[|Take(ids, n)|..]
  {
    assert Take(ids, n) == ids[..|Take(ids, n)|];
    WithoutFirst(ids, |Take(ids, n)|);
  }

  /** k batches' worth of ids. */
  function Rounds(k: nat, batch: nat): nat
    decreases k
  {
    if k == 0 then 0 else batch + Rounds(k - 1, batch)
  }

  lemma {:induction false} RoundsIs(k: nat, batch: nat)
    ensures Rounds(k, batch) == k * batch
    decreases k
  {
    if k > 0 {
      RoundsIs(k - 1, batch);
      assert (k - 1) * batch == k * batch - batch;
    }
  }

  lemma {:induction false} LeaseRoundsTake(l: Ledger, p: Peer, batch: nat, now: int, ttl: nat, k: nat)
    requires Distinct(Queue(l, p)) && 0 < ttl
    ensures LeaseRounds(l, p, batch, now, ttl, k) == Take(EligibleIds(Queue(l, p), l.rows, now), Rounds(k, batch))
    decreases k
  {
    if k > 0 {
      var l', ids := Lease(l, p, batch, now, ttl), EligibleIds(Queue(l, p), l.rows, now);
      assert Queue(l', p) == Queue(l, p);
      LeaseAdvances(Queue(l, p), l.rows, batch, now, ttl);
      LeaseRoundsTake(l', p, batch, now, ttl, k - 1);
      TakeMore(ids, batch, Rounds(k - 1, batch));
    }
  }

  /**
    Leasing again and again at one instant hands out the eligible queue in order, each request once,
    a batch at a time, until after ceil(n / batch) rounds nothing is left.
   */
  lemma LeaseRoundsDrain(l: Ledger, p: Peer, batch: nat, now: int, ttl: nat, k: nat)
    requires Clean(l) && 0 < ttl && 0 < batch
    ensures 0 <= k * batch
    ensures LeaseRounds(l, p, batch, now, ttl, k) == Take(EligibleIds(Queue(l, p), l.rows, now), k * batch)
  {
    RoundsIs(k, batch);
    assert Distinct(Queue(l, p));
    LeaseRoundsTake(l, p, batch, now, ttl, k);
  }

  /** So it is drained exactly from the round on that covers its length. */
  lemma DrainedIff(l: Ledger, p: Peer, batch: nat, now: int, ttl: nat, k: nat)
    requires Clean(l) && 0 < ttl && 0 < batch
    ensures var n := |EligibleIds(Queue(l, p), l.rows, now)|;
            LeaseRounds(l, p, batch, now, ttl, k) == EligibleIds(Queue(l, p), l.rows, now)
            <==> k >= (n + batch - 1) / batch
  {
    LeaseRoundsDrain(l, p, batch, now, ttl, k);
    RoundsCover(|EligibleIds(Queue(l, p), l.rows, now)|, batch, k);
  }

  lemma RoundsCover(n: nat, batch: nat, k: nat)
    requires 0 < batch
    ensures k * batch >= n <==> k >= (n + batch - 1) / batch
  {
    var r := (n + batch - 1) / batch;
    assert r * batch <= n + batch - 1 < r * batch + batch;
    if k >= r {
      assert k * batch >= r * batch by { MulOrder(r, k, batch); }
    } else {
      assert (k + 1) * batch <= r * batch by { MulOrder(k + 1, r, batch); }
      assert (k + 1) * batch == k * batch + batch;
    }
  }

  lemma TakeMore(ids: seq<Id>, a: nat, b: nat)
    ensures Take(ids, a) + Take(ids[|Take(ids, a)|..], b) == Take(ids, a + b)
  {
  }

  /** A lease touches nothing but the requests it hands out; leases still running stay as they are. */
  lemma LeaseTouchesOnlyEligible(l: Ledger, p: Peer, batch: nat, now: int, ttl: nat, id: Id)
    requires id in l.rows
    ensures id in Lease(l, p, batch, now, ttl).rows
    ensures Lease(l, p, batch, now, ttl).rows[id] != l.rows[id] ==>
              id in Queue(l, p) && l.rows[id].leaseUntil <= now && l.rows[id].status != Completed
  {
    EligibleAre(Queue(l, p), l.rows, now);
  }
}
