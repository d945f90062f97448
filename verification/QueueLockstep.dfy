/** The two request queues answer every sequence of calls alike, from the empty store on. */
module QueueLockstep {
  import opened Wrappers
  import opened Models
  import L = RequestLedger
  import opened RequestQueue

  datatype Call =
    | Change(op: L.Op)
    | ListActive(peer: L.Peer, batch: nat, now: int)
    | Length(peer: L.Peer)

  datatype Answer = Done | Handed(ids: seq<Id>) | Active(ids: seq<Id>) | Count(n: nat)

  ghost function After(l: L.Ledger, c: Call): L.Ledger {
    if c.Change? then L.Do(l, c.op) else l
  }

  ghost function AnswerOf(l: L.Ledger, c: Call): Answer {
    match c
    case Change(DoLease(p, batch, now, _)) => Handed(L.LeasedBy(l, p, batch, now))
    case Change(DoClear(p)) => Count(|L.ClearableIds(L.Queue(l, p), l.rows)|)
    case Change(_) => Done
    case ListActive(p, batch, now) => Active(Take(L.ActiveIds(L.Queue(l, p), l.rows, now), batch))
    case Length(p) => Count(|L.Queue(l, p)|)
  }

  ghost predicate Fresh(l: L.Ledger, c: Call) {
    c.Change? ==> L.Fresh(l, c.op)
  }

  method CallSqlite(q: SqliteQueue, c: Call, ghost l: L.Ledger) returns (a: Answer)
    requires q.Is(l) && L.Clean(l)
    modifies q
    ensures q.Is(After(l, c)) && a == AnswerOf(l, c)
  {
    match c {
      case Change(DoEnqueue(p, req)) => q.EnqueueRequest(p, req, l); return Done;
      case Change(DoLease(p, batch, now, ttl)) => var ids := q.LeaseRequests(p, batch, now, ttl, l); return Handed(ids);
      case Change(DoApply(ss, now)) => q.ApplyRequestStates(ss, now, l); return Done;
      case Change(DoStore(id, now, ttl)) => q.StoreResult(id, now, ttl, l); return Done;
      case Change(DoClear(p)) => var n := q.ClearPeerQueue(p, l); return Count(n);
      case ListActive(p, batch, now) => var ids := q.ListActiveLeasedRequests(p, batch, now, l); return Active(ids);
      case Length(p) => var n := q.QueueLength(p, l); return Count(n);
    }
  }

  method CallRedis(r: RedisQueue, c: Call, ghost l: L.Ledger) returns (a: Answer)
    requires r.Is(l) && L.Clean(l)
    modifies r
    ensures r.Is(After(l, c)) && a == AnswerOf(l, c)
  {
    match c {
      case Change(DoEnqueue(p, req)) => r.EnqueueRequest(p, req, l); return Done;
      case Change(DoLease(p, batch, now, ttl)) =>
        assert L.Distinct(L.Queue(l, p));
        var ids := r.LeaseRequests(p, batch, now, ttl, l);
        return Handed(ids);
      case Change(DoApply(ss, now)) => r.ApplyRequestStates(ss, now, l); L.ApplyKeepsPeers(l, ss, now); return Done;
      case Change(DoStore(id, now, ttl)) => r.StoreResult(id, now, ttl, l); return Done;
      case Change(DoClear(p)) => var n := r.ClearPeerQueue(p, l); return Count(n);
      case ListActive(p, batch, now) => var ids := r.ListActiveLeasedRequests(p, batch, now, l); return Active(ids);
      case Length(p) => var n := r.QueueLength(p, l); return Count(n);
    }
  }

  /** The state that the calls lead to. */
  ghost function AfterAll(l: L.Ledger, calls: seq<Call>): L.Ledger {
    if calls == [] then l else After(AfterAll(l, calls[..|calls| - 1]), calls[|calls| - 1])
  }

  ghost function Answers(l: L.Ledger, calls: seq<Call>): seq<Answer> {
    if calls == [] then []
    else Answers(l, calls[..|calls| - 1]) + [AnswerOf(AfterAll(l, calls[..|calls| - 1]), calls[|calls| - 1])]
  }

  /** No id is enqueued twice, nor after a result came for it. */
  ghost predicate AllFresh(l: L.Ledger, calls: seq<Call>) {
    calls != [] ==> AllFresh(l, calls[..|calls| - 1]) && Fresh(AfterAll(l, calls[..|calls| - 1]), calls[|calls| - 1])
  }

  lemma {:induction false} FreshPrefix(l: L.Ledger, calls: seq<Call>, i: nat)
    requires AllFresh(l, calls) && i < |calls|
    ensures Fresh(AfterAll(l, calls[..i]), calls[i])
    decreases |calls|
  {
    if i < |calls| - 1 {
      FreshPrefix(l, calls[..|calls| - 1], i);
      assert calls[..|calls| - 1][..i] == calls[..i];
    }
  }

  ghost predicate Joined(r: RedisQueue, q: SqliteQueue, l: L.Ledger)
    reads r, q
  {
    r.Is(l) && q.Is(l) && L.Clean(l)
  }

  method CallBoth(r: RedisQueue, q: SqliteQueue, c: Call, ghost l: L.Ledger) returns (a: Answer, b: Answer)
    requires Joined(r, q, l) && Fresh(l, c)
    modifies r, q
    ensures Joined(r, q, After(l, c)) && a == b == AnswerOf(l, c)
  {
    a := CallRedis(r, c, l);
    b := CallSqlite(q, c, l);
    if c.Change? {
      L.CleanDo(l, c.op);
    }
  }

  /**
    Redis counts the raw list and drops dead ids while it leases; SQLite joins the tables and leaves
    completed rows out of the count. No sequence of calls can tell them apart.
   */
  method Drive(calls: seq<Call>) returns (fromRedis: seq<Answer>, fromSqlite: seq<Answer>)
    requires AllFresh(L.EMPTY_LEDGER, calls)
    ensures fromRedis == fromSqlite == Answers(L.EMPTY_LEDGER, calls)
  {
    var r := new RedisQueue();
    var q := new SqliteQueue();
    fromRedis, fromSqlite := [], [];
    assert calls[..|calls|] == calls;
    for i := 0 to |calls|
      invariant Joined(r, q, AfterAll(L.EMPTY_LEDGER, calls[..i]))
      invariant fromRedis == fromSqlite == Answers(L.EMPTY_LEDGER, calls[..i])
    {
      assert calls[..i + 1][..i] == calls[..i];
      FreshPrefix(L.EMPTY_LEDGER, calls, i);
      var a, b := CallBoth(r, q, calls[i], AfterAll(L.EMPTY_LEDGER, calls[..i]));
      fromRedis, fromSqlite := fromRedis + [a], fromSqlite + [b];
    }
  }
}
