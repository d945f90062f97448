/** What one poll response carries: nextOutboundPayload of internal/server/handlers.go. */
module PollPayload {
  import opened Wrappers
  import opened Models
  import opened Chunking
  import opened RequestLedger
  import opened RequestQueue

  datatype Config = Config(batch: nat, chunkSize: int, leaseTTL: nat)

  datatype Payload = Payload(requests: seq<RelayRequest>, chunks: seq<TransportChunk>)

  /** The listener's store as a poll finds it. */
  datatype View = View(codec: Codec, cfg: Config, ledger: Ledger)

  /** How a request goes out: in one piece, as the chunk at its cursor, or not at all. */
  datatype Offer = Whole(req: RelayRequest) | Part(chunk: TransportChunk) | PastTheEnd | Refused

  function Cursor(cursors: map<Id, int>, id: Id): int {
    if id in cursors then cursors[id] else 0
  }

  function OfferOf(codec: Codec, chunkSize: int, req: RelayRequest, cursor: int): Offer {
    if !NeedsChunking(codec.marshalRequest(req), chunkSize) then Whole(req)
    else
      match RequestChunkAt(codec, req, chunkSize, cursor)
      case Ok(chunk) => Part(chunk)
      case Err(OutOfRange) => PastTheEnd
      case Err(BadChunkSize) => Refused
  }

  function Offered(v: View, id: Id): Offer {
    if id in v.ledger.rows then OfferOf(v.codec, v.cfg.chunkSize, v.ledger.rows[id].req, Cursor(v.ledger.cursors, id))
    else PastTheEnd
  }

  predicate Sends(v: View, id: Id, wholes: bool) {
    Offered(v, id).Part? || (wholes && Offered(v, id).Whole?)
  }

  function PutIn(v: View, ids: seq<Id>, wholes: bool): (r: seq<Id>)
    ensures |r| <= |ids|
  {
    if ids == [] then []
    else
      var id := ids[|ids| - 1];
      PutIn(v, ids[..|ids| - 1], wholes) + (if Sends(v, id, wholes) then [id] else [])
  }

  function WholesOf(v: View, ids: seq<Id>): seq<RelayRequest> {
    if ids == [] then []
    else
      var o := Offered(v, ids[|ids| - 1]);
      WholesOf(v, ids[..|ids| - 1]) + (if o.Whole? then [o.req] else [])
  }

  function PartsOf(v: View, ids: seq<Id>): seq<TransportChunk> {
    if ids == [] then []
    else
      var o := Offered(v, ids[|ids| - 1]);
      PartsOf(v, ids[..|ids| - 1]) + (if o.Part? then [o.chunk] else [])
  }

  function ActiveNow(v: View, p: Peer, t1: int): seq<Id> {
    Take(ActiveIds(Queue(v.ledger, p), v.ledger.rows, t1), v.cfg.batch)
  }

  /** Requests already leased that go on: only chunked ones, a whole request was sent when it was leased. */
  function Continued(v: View, p: Peer, t1: int): seq<Id> {
    PutIn(v, ActiveNow(v, p, t1), false)
  }

  /** What is left of the batch is leased, at a clock reading of its own. */
  function NewlyLeased(v: View, p: Peer, t1: int, t2: int): seq<Id> {
    LeasedBy(v.ledger, p, v.cfg.batch - |Continued(v, p, t1)|, t2)
  }

  /** The ids a response carries, in the order they are put in. */
  function Carried(v: View, p: Peer, t1: int, t2: int): seq<Id> {
    Continued(v, p, t1) + PutIn(v, NewlyLeased(v, p, t1, t2), true)
  }

  ghost predicate RefusesOne(v: View, ids: seq<Id>) {
    exists id :: id in ids && Offered(v, id).Refused?
  }

  function LedgerAfter(v: View, p: Peer, t1: int, t2: int): Ledger {
    Lease(v.ledger, p, v.cfg.batch - |Continued(v, p, t1)|, t2, v.cfg.leaseTTL)
  }

  // ------------------------------------------------------------ the handler

  lemma SentStep(v: View, ids: seq<Id>, i: nat, wholes: bool)
    requires i < |ids|
    ensures ids[..i + 1][..i] == ids[..i]
    ensures PutIn(v, ids[..i + 1], wholes) ==
              PutIn(v, ids[..i], wholes) + (if Sends(v, ids[i], wholes) then [ids[i]] else [])
  {
    assert ids[..i + 1][..i] == ids[..i];
  }

  function PayloadOf(v: View, ids: seq<Id>): Payload {
    Payload(WholesOf(v, ids), PartsOf(v, ids))
  }

  function With(so: Payload, o: Offer): Payload {
    match o
    case Whole(req) => so.(requests := so.requests + [req])
    case Part(chunk) => so.(chunks := so.chunks + [chunk])
    case _ => so
  }

  /** Putting in what request i offers, where the loop puts it in at all. */
  lemma PayloadStep(v: View, before: seq<Id>, ids: seq<Id>, i: nat, wholes: bool)
    requires i < |ids|
    ensures var o, now := Offered(v, ids[i]), PayloadOf(v, before + PutIn(v, ids[..i], wholes));
            PayloadOf(v, before + PutIn(v, ids[..i + 1], wholes)) == if o.Whole? && !wholes then now else With(now, o)
    ensures |PutIn(v, ids[..i + 1], wholes)| ==
              |PutIn(v, ids[..i], wholes)| + (if Sends(v, ids[i], wholes) then 1 else 0)
  {
    SentStep(v, ids, i, wholes);
    var sent := before + PutIn(v, ids[..i], wholes);
    if Sends(v, ids[i], wholes) {
      assert (sent + [ids[i]])[..|sent|] == sent;
      assert before + (PutIn(v, ids[..i], wholes) + [ids[i]]) == sent + [ids[i]];
    } else {
      assert PutIn(v, ids[..i + 1], wholes) == PutIn(v, ids[..i], wholes);
    }
  }

  lemma RefusesMore(v: View, ids: seq<Id>, i: nat)
    requires i < |ids|
    ensures RefusesOne(v, ids[..i + 1]) <==> RefusesOne(v, ids[..i]) || Offered(v, ids[i]).Refused?
    ensures Offered(v, ids[i]).Refused? ==> RefusesOne(v, ids)
  {
    assert ids[..i + 1] == ids[..i] + [ids[i]];
    assert ids[i] in ids && ids[i] in ids[..i + 1];
    assert forall id :: id in ids[..i] ==> id in ids[..i + 1];
  }

  lemma LeaseAll(l: Ledger, p: Peer, n: nat, now: int)
    ensures |LeasedBy(l, p, n, now)| <= n
    ensures forall id :: id in LeasedBy(l, p, n, now) ==> id in Queue(l, p) && Eligible(l.rows, now, id)
  {
    TakeMembers(Queue(l, p), l.rows, now, n);
  }

  lemma {:induction false} ActiveAre(q: seq<Id>, rows: map<Id, Row>, now: int)
    ensures forall id :: id in ActiveIds(q, rows, now) <==> id in q && Active(rows, now, id)
    ensures Distinct(q) ==> Distinct(ActiveIds(q, rows, now))
  {
    if q != [] {
      var init, last := q[..|q| - 1], q[|q| - 1];
      ActiveAre(init, rows, now);
      assert q == init + [last];
      if Distinct(q) {
        assert last !in init;
        DistinctAppend(ActiveIds(init, rows, now), last);
      }
    }
  }

  lemma {:induction false} ActiveAt(q: seq<Id>, rows: map<Id, Row>, now: int, k: nat, n: nat)
    requires Distinct(q) && k < |q|
    ensures q[k] in Take(ActiveIds(q, rows, now), n) <==> Active(rows, now, q[k]) && |ActiveIds(q[..k], rows, now)| < n
    decreases |q|
  {
    var init, last := q[..|q| - 1], q[|q| - 1];
    var before := ActiveIds(init, rows, now);
    assert last !in before by { ActiveAre(init, rows, now); }
    InTake(before, last, n, q[k]);
    assert ActiveIds(q, rows, now) == before + [last] || ActiveIds(q, rows, now) == before;
    if k == |q| - 1 {
      assert q[..k] == init;
    } else {
      ActiveAt(init, rows, now, k, n);
      assert init[..k] == q[..k] && init[k] == q[k] != last;
    }
  }

  /** appendPayload: puts one request in, if it fits. `false` is the chunk size error. */
  method AppendPayload(q: SqliteQueue, codec: Codec, chunkSize: int, id: Id, so: Payload, remaining: nat)
    returns (ok: bool, payload: Payload, left: nat)
    requires id in q.requests && 0 < remaining
    ensures var o := OfferOf(codec, chunkSize, q.requests[id].req, Cursor(q.chunkCursors, id));
            && ok == !o.Refused?
            && payload == With(so, o)
            && left == if o.Whole? || o.Part? then remaining - 1 else remaining
  {
    ok, payload, left := true, so, remaining;
    var req := q.requests[id].req;
    if !NeedsChunking(codec.marshalRequest(req), chunkSize) {
      payload, left := so.(requests := so.requests + [req]), remaining - 1;
      return;
    }
    var nextIndex := 0;
    if id in q.chunkCursors {
      nextIndex := q.chunkCursors[id];
    }
    var chunk := RequestChunkAt(codec, req, chunkSize, nextIndex);
    if chunk.Ok? {
      payload, left := so.(chunks := so.chunks + [chunk.value]), remaining - 1;
    } else {
      ok := chunk.error.OutOfRange?;
    }
  }

  /** One of the two loops of the handler: the ids, and whether requests in one piece are put in. */
  method AppendEach(q: SqliteQueue, v: View, ids: seq<Id>, wholes: bool, so: Payload, room: nat, ghost before: seq<Id>)
    returns (ok: bool, payload: Payload, left: nat)
    requires |ids| <= room && q.chunkCursors == v.ledger.cursors && SameRequests(q.requests, v.ledger.rows)
    requires forall id :: id in ids ==> id in v.ledger.rows
    requires so == PayloadOf(v, before)
    ensures ok == !RefusesOne(v, ids)
    ensures ok ==> left == room - |PutIn(v, ids, wholes)| && payload == PayloadOf(v, before + PutIn(v, ids, wholes))
  {
    ok, payload, left := true, so, room;
    assert ids[..|ids|] == ids && before + [] == before;
    var i := 0;
    while i < |ids| && 0 < left
      invariant i <= |ids| && left == room - |PutIn(v, ids[..i], wholes)|
      invariant payload == PayloadOf(v, before + PutIn(v, ids[..i], wholes)) && ok
      invariant !RefusesOne(v, ids[..i])
    {
      var id := ids[i];
      PayloadStep(v, before, ids, i, wholes);
      RefusesMore(v, ids, i);
      if wholes || NeedsChunking(v.codec.marshalRequest(q.requests[id].req), v.cfg.chunkSize) {
        ok, payload, left := AppendPayload(q, v.codec, v.cfg.chunkSize, id, payload, left);
        if !ok {
          return;
        }
      }
      i := i + 1;
    }
  }

  ghost predicate SameRequests(requests: map<Id, Row>, rows: map<Id, Row>) {
    forall id :: id in rows ==> id in requests && requests[id].req == rows[id].req
  }

  /** First the chunked requests already leased, then as many more as fit. */
  method ContinueActive(q: SqliteQueue, p: Peer, v: View, t1: int) returns (ok: bool, payload: Payload, remaining: nat)
    requires q.Is(v.ledger)
    ensures ok == !RefusesOne(v, ActiveNow(v, p, t1))
    ensures ok ==> remaining == v.cfg.batch - |Continued(v, p, t1)| && payload == PayloadOf(v, Continued(v, p, t1))
  {
    ghost var l := v.ledger;
    var active := q.ListActiveLeasedRequests(p, v.cfg.batch, t1, l);
    ActiveAre(Queue(l, p), l.rows, t1);
    assert forall id :: id in active ==> id in ActiveIds(Queue(l, p), l.rows, t1);
    ok, payload, remaining := AppendEach(q, v, active, false, Payload([], []), v.cfg.batch, []);
    assert [] + Continued(v, p, t1) == Continued(v, p, t1);
  }

  method LeaseAndAppend(q: SqliteQueue, p: Peer, v: View, t2: int, room: nat, so: Payload, ghost before: seq<Id>)
    returns (ok: bool, payload: Payload)
    requires q.Is(v.ledger) && so == PayloadOf(v, before)
    modifies q`requests
    ensures ok == !RefusesOne(v, LeasedBy(v.ledger, p, room, t2))
    ensures ok ==> payload == PayloadOf(v, before + PutIn(v, LeasedBy(v.ledger, p, room, t2), true))
    ensures q.Is(Lease(v.ledger, p, room, t2, v.cfg.leaseTTL))
  {
    LeaseAll(v.ledger, p, room, t2);
    var leased := q.LeaseRequests(p, room, t2, v.cfg.leaseTTL, v.ledger);
    var left;
    ok, payload, left := AppendEach(q, v, leased, true, so, room, before);
  }

  method NextOutboundPayload(q: SqliteQueue, p: Peer, v: View, t1: int, t2: int)
    returns (r: Result<Payload, ChunkError>)
    requires q.Is(v.ledger)
    modifies q`requests
    ensures r.Err? <==> RefusesOne(v, ActiveNow(v, p, t1)) || RefusesOne(v, NewlyLeased(v, p, t1, t2))
    ensures r.Ok? ==> r.value == PayloadOf(v, Carried(v, p, t1, t2))
    ensures q.Is(if RefusesOne(v, ActiveNow(v, p, t1)) then v.ledger else LedgerAfter(v, p, t1, t2))
  {
    var ok, payload, remaining := ContinueActive(q, p, v, t1);
    if !ok {
      return Err(BadChunkSize);
    }
    if remaining < 1 {
      NoRoomNoLease(v.ledger, p, t2, v.cfg.leaseTTL);
      assert Carried(v, p, t1, t2) == Continued(v, p, t1);
      return Ok(payload);
    }
    ok, payload := LeaseAndAppend(q, p, v, t2, remaining, payload, Continued(v, p, t1));
    if !ok {
      return Err(BadChunkSize);
    }
    r := Ok(payload);
  }

  lemma NoRoomNoLease(l: Ledger, p: Peer, now: int, ttl: nat)
    ensures Lease(l, p, 0, now, ttl) == l && LeasedBy(l, p, 0, now) == []
  {
    assert Mark(l.rows, [], now + ttl) == l.rows;
  }

  // ------------------------------------------------------------ what a response is good for

  lemma {:induction false} SentAre(v: View, ids: seq<Id>, wholes: bool)
    ensures forall id :: id in PutIn(v, ids, wholes) <==> id in ids && Sends(v, id, wholes)
    ensures Distinct(ids) ==> Distinct(PutIn(v, ids, wholes))
  {
    if ids != [] {
      var init, last := ids[..|ids| - 1], ids[|ids| - 1];
      SentAre(v, init, wholes);
      assert ids == init + [last];
      if Distinct(ids) {
        assert last !in init;
        DistinctAppend(PutIn(v, init, wholes), last);
      }
    }
  }

  lemma {:induction false} OneItemEach(v: View, ids: seq<Id>)
    requires forall id :: id in ids ==> Sends(v, id, true)
    ensures |WholesOf(v, ids)| + |PartsOf(v, ids)| == |ids|
  {
    if ids != [] {
      assert ids[|ids| - 1] in ids;
      OneItemEach(v, ids[..|ids| - 1]);
    }
  }

  /** A response carries at most a batch of requests and chunks, one item for each id it carries. */
  lemma AtMostABatch(v: View, p: Peer, t1: int, t2: int)
    ensures var ids := Carried(v, p, t1, t2);
            |WholesOf(v, ids)| + |PartsOf(v, ids)| == |ids| <= v.cfg.batch
  {
    SentAre(v, ActiveNow(v, p, t1), false);
    SentAre(v, NewlyLeased(v, p, t1, t2), true);
    LeaseAll(v.ledger, p, v.cfg.batch - |Continued(v, p, t1)|, t2);
    OneItemEach(v, Carried(v, p, t1, t2));
  }

  /** When the chunk index at the cursor exists, and a positive chunk size never fails. */
  lemma WhatIsOffered(v: View, id: Id)
    requires id in v.ledger.rows && 0 < v.cfg.chunkSize
    ensures var data, at := v.codec.marshalRequest(v.ledger.rows[id].req), Cursor(v.ledger.cursors, id);
            && (Offered(v, id).Whole? <==> |data| <= v.cfg.chunkSize)
            && (Offered(v, id).Part? <==> |data| > v.cfg.chunkSize && 0 <= at < Total(|data|, v.cfg.chunkSize))
            && !Offered(v, id).Refused?
  {
  }

  /**
    What is leased is carried, except for exactly the requests in chunks whose cursor lies outside the
    transfer; and whole requests are carried only when they are leased.
   */
  lemma LeasedIsCarried(v: View, p: Peer, t1: int, t2: int, id: Id)
    requires id in NewlyLeased(v, p, t1, t2) && 0 < v.cfg.chunkSize
    ensures id in v.ledger.rows
    ensures var data, at := v.codec.marshalRequest(v.ledger.rows[id].req), Cursor(v.ledger.cursors, id);
            id !in Carried(v, p, t1, t2) <==> |data| > v.cfg.chunkSize && !(0 <= at < Total(|data|, v.cfg.chunkSize))
  {
    LeaseAll(v.ledger, p, v.cfg.batch - |Continued(v, p, t1)|, t2);
    SentAre(v, ActiveNow(v, p, t1), false);
    SentAre(v, NewlyLeased(v, p, t1, t2), true);
    WhatIsOffered(v, id);
  }

  lemma WholeOnlyWhenLeased(v: View, p: Peer, t1: int, t2: int, id: Id)
    requires id in Carried(v, p, t1, t2) && Offered(v, id).Whole?
    ensures id in NewlyLeased(v, p, t1, t2)
    ensures var after := LedgerAfter(v, p, t1, t2).rows[id];
            after.status == Leased && after.leaseUntil == t2 + v.cfg.leaseTTL
  {
    SentAre(v, ActiveNow(v, p, t1), false);
    SentAre(v, NewlyLeased(v, p, t1, t2), true);
    LeaseAll(v.ledger, p, v.cfg.batch - |Continued(v, p, t1)|, t2);
  }

  /**
    Position k of the queue holds a request among the first batch of active ones at t1, which goes out
    again; its lease runs out by t2, and fewer eligible requests are before it than there is room for.
   */
  ghost predicate TwiceAt(v: View, p: Peer, t1: int, t2: int, wholes: bool, k: nat) {
    var q, rows := Queue(v.ledger, p), v.ledger.rows;
    && k < |q|
    && Active(rows, t1, q[k]) && |ActiveIds(q[..k], rows, t1)| < v.cfg.batch && Sends(v, q[k], wholes)
    && rows[q[k]].leaseUntil <= t2
    && |EligibleIds(q[..k], rows, t2)| < v.cfg.batch - |PutIn(v, ActiveNow(v, p, t1), wholes)|
  }

  /** The requests that go on, and the ones leased into the room that is left. */
  function BothHalves(v: View, p: Peer, t1: int, t2: int, wholes: bool): seq<Id> {
    var going := PutIn(v, ActiveNow(v, p, t1), wholes);
    going + PutIn(v, LeasedBy(v.ledger, p, v.cfg.batch - |going|, t2), true)
  }

  lemma InBothHalves(v: View, p: Peer, t1: int, t2: int, wholes: bool, k: nat)
    requires Distinct(Queue(v.ledger, p)) && k < |Queue(v.ledger, p)|
    ensures var id, going := Queue(v.ledger, p)[k], PutIn(v, ActiveNow(v, p, t1), wholes);
            id in going && id in PutIn(v, LeasedBy(v.ledger, p, v.cfg.batch - |going|, t2), true)
            <==> TwiceAt(v, p, t1, t2, wholes, k)
  {
    var going := PutIn(v, ActiveNow(v, p, t1), wholes);
    SentAre(v, ActiveNow(v, p, t1), wholes);
    SentAre(v, LeasedBy(v.ledger, p, v.cfg.batch - |going|, t2), true);
    ActiveAt(Queue(v.ledger, p), v.ledger.rows, t1, k, v.cfg.batch);
    EligibleAt(Queue(v.ledger, p), v.ledger.rows, t2, k, v.cfg.batch - |going|);
  }

  lemma HalvesAreDistinct(v: View, p: Peer, t1: int, t2: int, wholes: bool)
    requires Distinct(Queue(v.ledger, p))
    ensures var going := PutIn(v, ActiveNow(v, p, t1), wholes);
            var leased := PutIn(v, LeasedBy(v.ledger, p, v.cfg.batch - |going|, t2), true);
            && Distinct(going) && Distinct(leased)
            && forall id :: id in going ==> id in Queue(v.ledger, p)
  {
    var going := PutIn(v, ActiveNow(v, p, t1), wholes);
    ActiveAre(Queue(v.ledger, p), v.ledger.rows, t1);
    EligibleAre(Queue(v.ledger, p), v.ledger.rows, t2);
    SentAre(v, ActiveNow(v, p, t1), wholes);
    SentAre(v, LeasedBy(v.ledger, p, v.cfg.batch - |going|, t2), true);
  }

  lemma OnceIff(v: View, p: Peer, t1: int, t2: int, wholes: bool)
    requires Clean(v.ledger)
    ensures Distinct(BothHalves(v, p, t1, t2, wholes)) <==> !exists k: nat :: TwiceAt(v, p, t1, t2, wholes, k)
  {
    var q, going := Queue(v.ledger, p), PutIn(v, ActiveNow(v, p, t1), wholes);
    var leased := PutIn(v, LeasedBy(v.ledger, p, v.cfg.batch - |going|, t2), true);
    CleanQueue(v.ledger, p);
    HalvesAreDistinct(v, p, t1, t2, wholes);
    DistinctConcat(going, leased);
    forall id | id in going && id in leased ensures exists k: nat :: TwiceAt(v, p, t1, t2, wholes, k) {
      var k :| 0 <= k < |q| && q[k] == id;
      InBothHalves(v, p, t1, t2, wholes, k);
    }
    forall k: nat | TwiceAt(v, p, t1, t2, wholes, k) ensures q[k] in going && q[k] in leased {
      InBothHalves(v, p, t1, t2, wholes, k);
    }
  }

  /**
    No response carries an id twice, unless a request that goes on at the first clock reading has a
    lease that runs out by the second, and a place among the eligible that the batch reaches; then it
    does. At one reading it never does.
   */
  lemma NoIdTwice(v: View, p: Peer, t1: int, t2: int)
    requires Clean(v.ledger)
    ensures Distinct(Carried(v, p, t1, t2)) <==> !exists k: nat :: TwiceAt(v, p, t1, t2, false, k)
    ensures t2 <= t1 ==> Distinct(Carried(v, p, t1, t2))
  {
    OnceIff(v, p, t1, t2, false);
  }

  /** It does happen: one chunked request whose lease ends with the second that begins between the readings. */
  lemma CarriedTwice(codec: Codec, req: RelayRequest)
    requires |codec.marshalRequest(req)| > 1
    ensures var l := Ledger(map["peer" := [req.id]], map[req.id := Row("peer", Leased, 10, req)], map[], map[]);
            Clean(l) && Carried(View(codec, Config(2, 1, 60), l), "peer", 9, 10) == [req.id, req.id]
  {
    var l := Ledger(map["peer" := [req.id]], map[req.id := Row("peer", Leased, 10, req)], map[], map[]);
    var v, ids := View(codec, Config(2, 1, 60), l), [req.id];
    CutTotal(|codec.marshalRequest(req)|, 1);
    assert ids[..0] == [] && Queue(l, "peer") == ids;
    assert ActiveIds(ids, l.rows, 9) == [] + ids && EligibleIds(ids, l.rows, 10) == [] + ids;
    assert ActiveNow(v, "peer", 9) == ids;
    assert Offered(v, req.id).Part?;
    assert PutIn(v, ids, false) == [] + ids && PutIn(v, ids, true) == [] + ids;
    assert NewlyLeased(v, "peer", 9, 10) == ids;
  }

  lemma DistinctConcat(a: seq<Id>, b: seq<Id>)
    requires Distinct(a) && Distinct(b)
    ensures Distinct(a + b) <==> forall id :: id in a ==> id !in b
  {
    forall id | id in a && id in b ensures !Distinct(a + b) {
      var i :| 0 <= i < |a| && a[i] == id;
      var j :| 0 <= j < |b| && b[j] == id;
      assert (a + b)[i] == (a + b)[|a| + j];
    }
    if forall id :: id in a ==> id !in b {
      forall i, j | 0 <= i < j < |a + b| ensures (a + b)[i] != (a + b)[j] {
        assert i < |a| ==> a[i] in a;
        assert j >= |a| ==> b[j - |a|] in b;
      }
    }
  }
}
