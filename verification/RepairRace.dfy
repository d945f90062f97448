/**
  A gap repair that meets the loop of queueSenderResultWS: the flush holds its lock, the loop does not,
  so their entries are queued in any order. When that can release a result the listener does not have.
 */
module RepairRace {
  import opened Wrappers
  import opened Models
  import opened Chunking
  import opened Reassembly
  import opened OutboxLog
  import opened ListenerInbound
  import opened Streams
  import RT = ResultTransfer
  import P = Protocol
  import PP = ProtocolPrefix
  import RB = Rebuild
  import S = SenderStore
  import WS = WsSession
  import opened EndToEnd

  /** The chunks from k on, in order. */
  function From(w: World, p: Planned, k: nat): seq<Entry>
    requires 0 < p.chunkSize
    decreases if k < TransferOf(w, p).Count() then TransferOf(w, p).Count() - k else 0
  {
    if k < TransferOf(w, p).Count() then [ChunkEntry(w, p, k)] + From(w, p, k + 1) else []
  }

  /** es is a and b, each in its order, in any mixture. */
  ghost predicate Merge(es: seq<Entry>, a: seq<Entry>, b: seq<Entry>)
    decreases |es|
  {
    if es == [] then a == [] && b == []
    else
      || (a != [] && es[0] == a[0] && Merge(es[1..], a[1..], b))
      || (b != [] && es[0] == b[0] && Merge(es[1..], a, b[1..]))
  }

  /** Handled in this order, every entry leaves stored what its acknowledgement releases. */
  ghost predicate SafeOrder(w: World, l: Listener, es: seq<Entry>)
    decreases |es|
  {
    es != [] ==>
      var l' := Handle(w.backend, w.codec, l, es[0]);
      Releases(es[0]) <= l'.stored && SafeOrder(w, l', es[1..])
  }

  lemma {:induction false} SafeOrderIsSafe(w: World, l: Listener, es: seq<Entry>, from: int)
    ensures SafeOrder(w, l, es) <==> Safe(w.backend, w.codec, l, PP.Numbered(es, from))
    decreases |es|
  {
    if es != [] {
      assert PP.Numbered(es, from)[1..] == PP.Numbered(es[1..], from + 1);
      SafeOrderIsSafe(w, Handle(w.backend, w.codec, l, es[0]), es[1..], from + 1);
    }
  }

  // ------------------------------------------------------------ orders that are safe

  lemma StepSafe(w: World, l: Listener, p: Planned, k: nat)
    requires Fits(w, Stream(p, k)) && Sound(w, l) && Reached(w, l, Stream(p, k))
    ensures var l' := Handle(w.backend, w.codec, l, ChunkEntry(w, p, k));
            && Sound(w, l') && Releases(ChunkEntry(w, p, k)) <= l'.stored
            && (k + 1 < TransferOf(w, p).Count() ==> Reached(w, l', Stream(p, k + 1)))
  {
    ChunkConforms(w, p, k);
    SoundHandle(w, l, ChunkEntry(w, p, k));
    StreamAdvances(w, l, Stream(p, k));
  }

  /** Two streams from r and from d on, both reached and allowed to mix. */
  ghost predicate Mixable(w: World, l: Listener, p: Planned, r: nat, d: nat) {
    var x := TransferOf(w, p);
    && x.Valid() && InPlan(w, p) && Sound(w, l) && r <= x.Count() && d <= x.Count()
    && (r < x.Count() ==> Reached(w, l, Stream(p, r)))
    && (d < x.Count() ==> Reached(w, l, Stream(p, d)))
    && (r < x.Count() && d < x.Count() ==> Twins(w, p, p))
  }

  lemma MixableStep(w: World, l: Listener, p: Planned, r: nat, d: nat)
    requires Mixable(w, l, p, r, d) && r < TransferOf(w, p).Count()
    ensures var l' := Handle(w.backend, w.codec, l, ChunkEntry(w, p, r));
            Mixable(w, l', p, r + 1, d) && Releases(ChunkEntry(w, p, r)) <= l'.stored
  {
    StepSafe(w, l, p, r);
    if d < TransferOf(w, p).Count() {
      TwinKeeps(w, l, Stream(p, r), Stream(p, d));
    }
  }

  lemma MixableSwap(w: World, l: Listener, p: Planned, r: nat, d: nat)
    requires Mixable(w, l, p, r, d)
    ensures Mixable(w, l, p, d, r)
  {
  }

  lemma {:induction false} MixedSafely(w: World, l: Listener, p: Planned, r: nat, d: nat, es: seq<Entry>)
    requires Mixable(w, l, p, r, d) && Merge(es, From(w, p, r), From(w, p, d))
    ensures SafeOrder(w, l, es)
    decreases |es|
  {
    if es != [] {
      var a, b, l' := From(w, p, r), From(w, p, d), Handle(w.backend, w.codec, l, es[0]);
      if a != [] && es[0] == a[0] && Merge(es[1..], a[1..], b) {
        MixableStep(w, l, p, r, d);
        assert a[1..] == From(w, p, r + 1);
        MixedSafely(w, l', p, r + 1, d, es[1..]);
      } else {
        MixableSwap(w, l, p, r, d);
        MixableStep(w, l, p, d, r);
        MixableSwap(w, l', p, d + 1, r);
        assert b[1..] == From(w, p, d + 1);
        MixedSafely(w, l', p, r, d + 1, es[1..]);
      }
    }
  }

  // ------------------------------------------------------------ orders that are not

  /** What is assembled for this transfer is a prefix of it, and its result is not stored. */
  ghost predicate Waiting(w: World, l: Listener, p: Planned)
    requires 0 < p.chunkSize
  {
    && RT.Honest(TransferOf(w, p), Get(l.partial, TransferId(p.res.requestId, ResultKind)))
    && p.res.requestId !in l.stored
  }

  function Assembled(l: Listener, p: Planned): int {
    NextIndex(Get(l.partial, TransferId(p.res.requestId, ResultKind)))
  }

  /** One chunk, not the last in turn. */
  lemma WaitingStep(w: World, l: Listener, p: Planned, k: nat)
    requires TransferOf(w, p).Valid() && Waiting(w, l, p) && k < TransferOf(w, p).Count()
    requires k == TransferOf(w, p).Count() - 1 ==> 0 < k && Assembled(l, p) < k
    ensures var l' := Handle(w.backend, w.codec, l, ChunkEntry(w, p, k));
            && Waiting(w, l', p)
            && (0 < k && Assembled(l, p) < k ==> Assembled(l', p) == 0)
            && (k == 0 && w.backend.Redis? ==> Assembled(l', p) == 1)
  {
    var x, t := TransferOf(w, p), TransferId(p.res.requestId, ResultKind);
    ChunkContents(w.codec, t, x.Payload(), p.chunkSize, k);
    RT.HonestStep(w.backend, x, Get(l.partial, t), k);
  }

  /** Once a chunk is missing, the rest is discarded, and the last chunk releases the result all the same. */
  lemma {:induction false} RestUnsafe(w: World, l: Listener, p: Planned, k: nat, rest: seq<Entry>)
    requires TransferOf(w, p).Valid() && p.res.requestId != "" && Waiting(w, l, p)
    requires 0 < k < TransferOf(w, p).Count() && Assembled(l, p) < k
    ensures !SafeOrder(w, l, From(w, p, k) + rest)
    decreases TransferOf(w, p).Count() - k
  {
    var es, l' := From(w, p, k) + rest, Handle(w.backend, w.codec, l, ChunkEntry(w, p, k));
    assert es[0] == ChunkEntry(w, p, k) && es[1..] == From(w, p, k + 1) + rest;
    WaitingStep(w, l, p, k);
    if k + 1 < TransferOf(w, p).Count() {
      RestUnsafe(w, l', p, k + 1, rest);
    }
  }

  lemma MergeSkip(a: seq<Entry>, b: seq<Entry>, es: seq<Entry>, e: Entry)
    requires Merge(es, a, b)
    ensures Merge([e] + es, [e] + a, b) && Merge([e] + es, a, [e] + b)
  {
    assert ([e] + es)[1..] == es && ([e] + a)[1..] == a && ([e] + b)[1..] == b;
  }

  lemma {:induction false} MergeOne(a: seq<Entry>)
    ensures Merge(a, a, [])
    decreases |a|
  {
    if a != [] {
      MergeOne(a[1..]);
    }
  }

  lemma {:induction false} MergeAfter(a: seq<Entry>, b: seq<Entry>)
    ensures Merge(b + a, a, b)
    decreases |b|
  {
    if b == [] {
      assert b + a == a;
      MergeOne(a);
    } else {
      MergeAfter(a, b[1..]);
      assert (b + a)[1..] == b[1..] + a;
    }
  }

  /** The loop first: what it queued before the repair is gone, so its rest is discarded. */
  lemma LoopFirst(w: World, l: Listener, p: Planned, d: nat, again: seq<Entry>) returns (es: seq<Entry>)
    requires TransferOf(w, p).Valid() && p.res.requestId != "" && Waiting(w, l, p)
    requires 0 < d < TransferOf(w, p).Count() && Assembled(l, p) < d
    ensures Merge(es, again, From(w, p, d)) && !SafeOrder(w, l, es)
  {
    es := From(w, p, d) + again;
    MergeAfter(again, From(w, p, d));
    RestUnsafe(w, l, p, d, again);
  }

  /** On Redis, chunk 0 queued again after the loop's chunk 1 makes its chunk 2 come out of turn. */
  lemma RestartBetween(w: World, l: Listener, p: Planned, d: nat) returns (es: seq<Entry>)
    requires TransferOf(w, p).Valid() && p.res.requestId != "" && Waiting(w, l, p) && w.backend.Redis?
    requires d < TransferOf(w, p).Count() && 2 < TransferOf(w, p).Count()
    ensures Merge(es, From(w, p, 0), From(w, p, d)) && !SafeOrder(w, l, es)
    decreases if d < 2 then 2 - d else 0
  {
    if d < 2 {
      WaitingStep(w, l, p, d);
      var rest := RestartBetween(w, Handle(w.backend, w.codec, l, ChunkEntry(w, p, d)), p, d + 1);
      es := [ChunkEntry(w, p, d)] + rest;
      MergeSkip(From(w, p, 0), From(w, p, d + 1), rest, ChunkEntry(w, p, d));
      assert es[1..] == rest;
    } else {
      var e0, rest := ChunkEntry(w, p, 0), From(w, p, d) + From(w, p, 1);
      WaitingStep(w, l, p, 0);
      MergeAfter(From(w, p, 1), From(w, p, d));
      MergeSkip(From(w, p, 1), From(w, p, d), rest, e0);
      RestUnsafe(w, Handle(w.backend, w.codec, l, e0), p, d, From(w, p, 1));
      es := [e0] + rest;
      assert es[1..] == rest;
    }
  }

  /** However these entries and the loop's remaining ones are mixed, every ack finds its results stored. */
  ghost predicate AllOrdersSafe(w: World, l: Listener, p: Planned, d: nat, again: seq<Entry>)
    requires 0 < p.chunkSize
  {
    forall es :: Merge(es, again, From(w, p, d)) ==> SafeOrder(w, l, es)
  }

  /**
    A loop with chunks d, d + 1, ... still to queue, and a repair that queues the result again or does
    not, before a listener that waits for this result: every order they can be queued in is safe iff
    the listener has what the loop queued before, and a repeated result on Redis has only two chunks.
   */
  lemma MixedSafelyIff(w: World, l: Listener, p: Planned, d: nat, again: bool)
    requires TransferOf(w, p).Valid() && InPlan(w, p) && Sound(w, l) && Waiting(w, l, p)
    requires d < TransferOf(w, p).Count() && p.res.requestId != ""
    ensures AllOrdersSafe(w, l, p, d, if again then From(w, p, 0) else [])
            <==> d <= Assembled(l, p) && (again && w.backend.Redis? ==> TransferOf(w, p).Count() == 2)
  {
    var n := TransferOf(w, p).Count();
    ChunkedTotal(TransferOf(w, p).Payload(), p.chunkSize);
    var r := if again then 0 else n;
    assert From(w, p, n) == [];
    if d > Assembled(l, p) {
      var es := LoopFirst(w, l, p, d, From(w, p, r));
    } else if again && w.backend.Redis? && n != 2 {
      var es := RestartBetween(w, l, p, d);
    } else {
      assert Mixable(w, l, p, r, d);
      forall es | Merge(es, From(w, p, r), From(w, p, d)) ensures SafeOrder(w, l, es) {
        MixedSafely(w, l, p, r, d, es);
      }
    }
  }

  // ------------------------------------------------------------ what the sender can see

  predicate OfTransfer(t: TransferId, e: Entry) {
    e.body.ResultChunk? && e.body.resultChunk.transfer == t
  }

  function ChunksIn(t: TransferId, msgs: seq<OutMsg>): seq<Entry> {
    if msgs == [] then []
    else
      var last := msgs[|msgs| - 1].entry;
      ChunksIn(t, msgs[..|msgs| - 1]) + (if OfTransfer(t, last) then [last] else [])
  }

  function FirstEntries(w: World, p: Planned, d: nat): seq<Entry>
    requires 0 < p.chunkSize && d <= TransferOf(w, p).Count()
  {
    seq(d, i requires 0 <= i < d => ChunkEntry(w, p, i))
  }

  /** Of all that was queued since the loop began, only the loop's chunks are of its transfer: 0, 1, ..., d - 1. */
  ghost predicate QueuedBy(w: World, p: Planned, d: nat, msgs: seq<OutMsg>) {
    && TransferOf(w, p).Valid() && d < TransferOf(w, p).Count()
    && ChunksIn(TransferId(p.res.requestId, ResultKind), msgs) == FirstEntries(w, p, d)
  }

  lemma {:induction false} ChunksJoin(t: TransferId, a: seq<OutMsg>, b: seq<OutMsg>)
    ensures ChunksIn(t, a + b) == ChunksIn(t, a) + ChunksIn(t, b)
  {
    if b == [] {
      assert a + b == a;
    } else {
      ChunksJoin(t, a, b[..|b| - 1]);
      assert (a + b)[..|a + b| - 1] == a + b[..|b| - 1];
    }
  }

  lemma {:induction false} NoChunksIff(t: TransferId, msgs: seq<OutMsg>)
    ensures ChunksIn(t, msgs) == [] <==> forall i :: 0 <= i < |msgs| ==> !OfTransfer(t, msgs[i].entry)
  {
    if msgs != [] {
      NoChunksIff(t, msgs[..|msgs| - 1]);
      assert forall i :: 0 <= i < |msgs| - 1 ==> msgs[..|msgs| - 1][i] == msgs[i];
    }
  }

  lemma {:induction false} HandleAllLast(b: Backend, codec: Codec, l: Listener, msgs: seq<OutMsg>)
    requires msgs != []
    ensures HandleAll(b, codec, l, msgs) ==
            Handle(b, codec, HandleAll(b, codec, l, msgs[..|msgs| - 1]), msgs[|msgs| - 1].entry)
  {
    assert msgs == msgs[..|msgs| - 1] + [msgs[|msgs| - 1]];
    HandleAllAppend(b, codec, l, msgs[..|msgs| - 1], msgs[|msgs| - 1]);
  }

  /** A chunk of the transfer that was queued last is chunk d - 1. */
  lemma LastQueued(w: World, p: Planned, d: nat, msgs: seq<OutMsg>)
    requires QueuedBy(w, p, d, msgs) && msgs != []
    requires OfTransfer(TransferId(p.res.requestId, ResultKind), msgs[|msgs| - 1].entry)
    ensures 0 < d && msgs[|msgs| - 1].entry == ChunkEntry(w, p, d - 1) && QueuedBy(w, p, d - 1, msgs[..|msgs| - 1])
  {
    var t, init := TransferId(p.res.requestId, ResultKind), msgs[..|msgs| - 1];
    var all := ChunksIn(t, init) + [msgs[|msgs| - 1].entry];
    assert ChunksIn(t, msgs) == all == FirstEntries(w, p, d);
    assert |all| == d && all[d - 1] == msgs[|msgs| - 1].entry;
    assert ChunksIn(t, init) == all[..d - 1] == FirstEntries(w, p, d - 1);
  }

  /** A listener that began with nothing of the transfer has assembled exactly the chunks it was sent. */
  lemma {:induction false} SentSoFar(w: World, l: Listener, p: Planned, d: nat, msgs: seq<OutMsg>)
    requires QueuedBy(w, p, d, msgs) && TransferId(p.res.requestId, ResultKind) !in l.partial
    ensures Holds(w, HandleAll(w.backend, w.codec, l, msgs), p, d)
  {
    if msgs != [] {
      var init, last := msgs[..|msgs| - 1], msgs[|msgs| - 1].entry;
      HandleAllLast(w.backend, w.codec, l, msgs);
      if OfTransfer(TransferId(p.res.requestId, ResultKind), last) {
        LastQueued(w, p, d, msgs);
        SentSoFar(w, l, p, d - 1, init);
        ChunkAfter(w, HandleAll(w.backend, w.codec, l, init), p, d - 1);
      } else {
        SentSoFar(w, l, p, d, init);
        OtherAfter(w, HandleAll(w.backend, w.codec, l, init), p, d, last);
      }
    }
  }

  /** Exactly the first k chunks of the transfer are assembled. */
  ghost predicate Holds(w: World, l: Listener, p: Planned, k: nat) {
    && 0 < p.chunkSize && Assembled(l, p) == k
    && RT.Honest(TransferOf(w, p), Get(l.partial, TransferId(p.res.requestId, ResultKind)))
  }

  lemma OtherAfter(w: World, l: Listener, p: Planned, k: nat, e: Entry)
    requires Holds(w, l, p, k) && !OfTransfer(TransferId(p.res.requestId, ResultKind), e)
    ensures Holds(w, Handle(w.backend, w.codec, l, e), p, k)
  {
  }

  lemma ChunkAfter(w: World, l: Listener, p: Planned, k: nat)
    requires TransferOf(w, p).Valid() && k + 1 < TransferOf(w, p).Count() && Holds(w, l, p, k)
    ensures Holds(w, Handle(w.backend, w.codec, l, ChunkEntry(w, p, k)), p, k + 1)
  {
    var x, t := TransferOf(w, p), TransferId(p.res.requestId, ResultKind);
    var c, a := x.ChunkOf(k), Get(l.partial, t);
    assert c.transfer == t by {
      ChunkContents(w.codec, t, x.Payload(), p.chunkSize, k);
    }
    ChunkGoesOn(w.backend, x, a, k);
    var step := AcceptResult(w.backend, w.codec, a, c);
    assert Handle(w.backend, w.codec, l, ChunkEntry(w, p, k)).partial == Put(l.partial, t, step.state);
  }

  /** The chunk in turn, when it is not the last. */
  lemma ChunkGoesOn(b: Backend, x: RT.Transfer, a: Option<Assembly>, k: nat)
    requires x.Valid() && k + 1 < x.Count() && RT.Honest(x, a) && NextIndex(a) == k
    ensures var state := AcceptResult(b, x.codec, a, x.ChunkOf(k)).state;
            NextIndex(state) == k + 1 && RT.Honest(x, state)
  {
    RT.HonestStep(b, x, a, k);
  }

  /** Row i is leased iff it is free and fewer than max rows before it are. */
  lemma {:induction false} LeasedIff(rows: seq<S.PendingRow>, i: nat, max: nat, now: int)
    requires S.Unique(rows) && i < |rows|
    ensures rows[i].result in S.LeasedOut(rows, max, now) <==>
            S.Free(rows[i], now) && |S.FreeResults(rows[..i], now)| < max
    decreases |rows|
  {
    var init, last := rows[..|rows| - 1], rows[|rows| - 1];
    NotFreeTwice(rows, now);
    var before := S.FreeResults(init, now);
    InTake(before, last.result, max, rows[i].result);
    assert S.FreeResults(rows, now) == if S.Free(last, now) then before + [last.result] else before;
    if i == |rows| - 1 {
      assert rows[..i] == init;
    } else {
      LeasedIff(init, i, max, now);
      assert init[..i] == rows[..i] && init[i] == rows[i];
      assert last.result != rows[i].result;
    }
  }

  lemma NotFreeTwice(rows: seq<S.PendingRow>, now: int)
    requires S.Unique(rows) && rows != []
    ensures rows[|rows| - 1].result !in S.FreeResults(rows[..|rows| - 1], now)
  {
    var init, last := rows[..|rows| - 1], rows[|rows| - 1];
    S.FreeAre(init, now);
    forall r | r in init ensures r.result != last.result {
      var k :| 0 <= k < |init| && init[k] == r;
      assert rows[k] == r;
    }
  }

  /** Every chunk of the transfer was queued under a number that is on the connection already. */
  ghost predicate AllSent(t: TransferId, msgs: seq<OutMsg>, lastSent: int) {
    forall i :: 0 <= i < |msgs| && OfTransfer(t, msgs[i].entry) ==> msgs[i].seqNo <= lastSent
  }

  /** The repair queues the result again iff it can lease it. */
  function Requeued(w: World, p: Planned, rows: seq<S.PendingRow>, batch: nat, now: int): seq<Entry>
    requires 0 < p.chunkSize
  {
    if p.res in S.LeasedOut(rows, batch, now) then From(w, p, 0) else []
  }

  /** What was sent holds the first c chunks, and all d of them iff none is left behind. */
  lemma SplitQueued(w: World, p: Planned, d: nat, sent: seq<OutMsg>, unsent: seq<OutMsg>) returns (c: nat)
    requires QueuedBy(w, p, d, sent + unsent)
    ensures c <= d && QueuedBy(w, p, c, sent)
    ensures c == d <==> forall i :: 0 <= i < |unsent| ==>
              !OfTransfer(TransferId(p.res.requestId, ResultKind), unsent[i].entry)
  {
    var t := TransferId(p.res.requestId, ResultKind);
    ChunksJoin(t, sent, unsent);
    NoChunksIff(t, unsent);
    c := |ChunksIn(t, sent)|;
    assert ChunksIn(t, sent) == FirstEntries(w, p, d)[..c] == FirstEntries(w, p, c);
  }

  lemma AllSentIff(t: TransferId, msgs: seq<OutMsg>, base: int, k: nat)
    requires k <= |msgs| && forall i :: 0 <= i < |msgs| ==> msgs[i].seqNo == base + 1 + i
    ensures AllSent(t, msgs, base + k) <==> forall i :: 0 <= i < |msgs[k..]| ==> !OfTransfer(t, msgs[k..][i].entry)
  {
    assert forall i :: 0 <= i < |msgs| - k ==> msgs[k..][i] == msgs[k + i];
    forall i | k <= i < |msgs| ensures msgs[i] == msgs[k..][i - k] {
    }
  }

  lemma SentIff(w: World, l: Listener, p: Planned, d: nat, msgs: seq<OutMsg>, base: int, k: nat)
    requires QueuedBy(w, p, d, msgs) && TransferId(p.res.requestId, ResultKind) !in l.partial
    requires k <= |msgs| && forall i :: 0 <= i < |msgs| ==> msgs[i].seqNo == base + 1 + i
    ensures var l0 := HandleAll(w.backend, w.codec, l, msgs[..k]);
            && RT.Honest(TransferOf(w, p), Get(l0.partial, TransferId(p.res.requestId, ResultKind)))
            && (d <= Assembled(l0, p) <==> AllSent(TransferId(p.res.requestId, ResultKind), msgs, base + k))
  {
    assert msgs == msgs[..k] + msgs[k..];
    var c := SplitQueued(w, p, d, msgs[..k], msgs[k..]);
    SentSoFar(w, l, p, c, msgs[..k]);
    AllSentIff(TransferId(p.res.requestId, ResultKind), msgs, base, k);
  }

  /**
    The exact condition, over what the sender has before the repair: `msgs` were queued since the loop
    began, those up to lastSentSeq are on the connection, and the result is row i of the pending table.
    However loop and repair take turns, no ack releases the result too early, iff every chunk queued so
    far was sent, and the result either is not leased by the repair, or goes to an SQLite listener, or
    has two chunks.
   */
  lemma RepairMeetsLoop(
    w: World, l: Listener, p: Planned, d: nat, msgs: seq<OutMsg>, base: int, lastSent: int,
    rows: seq<S.PendingRow>, i: nat, batch: nat, now: int)
    requires QueuedBy(w, p, d, msgs) && InPlan(w, p) && p.res.requestId != ""
    requires (forall k :: 0 <= k < |msgs| ==> msgs[k].seqNo == base + 1 + k) && base <= lastSent <= base + |msgs|
    requires Sound(w, l) && TransferId(p.res.requestId, ResultKind) !in l.partial
    requires AllConform(w, msgs) && p.res.requestId !in HandleAll(w.backend, w.codec, l, msgs[..lastSent - base]).stored
    requires S.Unique(rows) && i < |rows| && rows[i].result == p.res
    ensures AllOrdersSafe(w, HandleAll(w.backend, w.codec, l, msgs[..lastSent - base]), p, d,
              Requeued(w, p, rows, batch, now))
            <==> && AllSent(TransferId(p.res.requestId, ResultKind), msgs, lastSent)
                 && (w.backend.Redis? && S.Free(rows[i], now) && |S.FreeResults(rows[..i], now)| < batch ==>
                       TransferOf(w, p).Count() == 2)
  {
    var sent := msgs[..lastSent - base];
    SentIff(w, l, p, d, msgs, base, lastSent - base);
    LeasedIff(rows, i, batch, now);
    assert forall k :: 0 <= k < |sent| ==> sent[k] == msgs[k];
    SoundHandleAll(w, l, sent);
    MixedSafelyIff(w, HandleAll(w.backend, w.codec, l, sent), p, d, p.res in S.LeasedOut(rows, batch, now));
  }

  // ------------------------------------------------------------ the steps of a refill are the code's

  function EntriesOfWork(w: World, k: Work): seq<Entry> {
    match k
    case Small(r) => [Entry(r.requestId, Result(r))]
    case Other(e) => [e]
    case Cut(j) => if 0 < j.planned.chunkSize then From(w, j.planned, j.done) else []
  }

  /** Everything a repair still has to queue, in order. */
  function EntriesOfTodo(w: World, todo: seq<Work>): seq<Entry> {
    if todo == [] then [] else EntriesOfWork(w, todo[0]) + EntriesOfTodo(w, todo[1..])
  }

  /** One RefillNext queues the first of them and leaves the others. */
  lemma RefillNextQueues(w: World, todo: seq<Work>)
    requires todo != [] && (todo[0].Cut? ==> Fits(w, todo[0].stream))
    ensures WorkEntry(w, todo[0]).Some?
    ensures EntriesOfTodo(w, todo) == [WorkEntry(w, todo[0]).value] + EntriesOfTodo(w, TodoAfter(w, todo))
  {
    if todo[0].Cut? {
      var j := todo[0].stream;
      var rest := From(w, j.planned, j.done + 1);
      assert From(w, j.planned, j.done) == [NextEntry(w, j)] + rest;
      if j.done + 1 < TransferOf(w, j.planned).Count() {
        assert TodoAfter(w, todo)[1..] == todo[1..];
      }
    }
  }

  lemma {:induction false} FromIs(w: World, p: Planned, k: nat)
    requires 0 < p.chunkSize && k <= TransferOf(w, p).Count()
    ensures |From(w, p, k)| == TransferOf(w, p).Count() - k
    ensures forall i :: 0 <= i < |From(w, p, k)| ==> From(w, p, k)[i] == ChunkEntry(w, p, k + i)
    decreases TransferOf(w, p).Count() - k
  {
    if k < TransferOf(w, p).Count() {
      FromIs(w, p, k + 1);
    }
  }

  lemma {:induction false} ChunkEntriesAre(w: World, p: Planned, k: nat)
    requires 0 < p.chunkSize && k <= TransferOf(w, p).Count()
    ensures forall i :: 0 <= i < k ==> WS.ChunkEntries(w.codec, p.res, p.chunkSize, k)[i] == ChunkEntry(w, p, i)
  {
    if k > 0 {
      ChunkEntriesAre(w, p, k - 1);
    }
  }

  lemma ResultIsWork(w: World, res: RelayResult, chunkSize: int)
    requires 0 < chunkSize
    ensures WS.ResultEntries(w.codec, res, chunkSize) == EntriesOfWork(w, WorkFor(w, chunkSize, res))
  {
    var p := Planned(res, chunkSize);
    if NeedsChunking(w.codec.marshalResult(res), chunkSize) {
      ChunkedTotal(w.codec.marshalResult(res), chunkSize);
      FromIs(w, p, 0);
      ChunkEntriesAre(w, p, TransferOf(w, p).Count());
    }
  }

  lemma {:induction false} TodoJoin(w: World, a: seq<Work>, b: seq<Work>)
    ensures EntriesOfTodo(w, a + b) == EntriesOfTodo(w, a) + EntriesOfTodo(w, b)
    decreases |a|
  {
    if a == [] {
      assert a + b == b;
    } else {
      var rest := a[1..] + b;
      TodoJoin(w, a[1..], b);
      TodoFirst(w, a[0], rest);
      TodoFirst(w, a[0], a[1..]);
      assert a + b == [a[0]] + rest && a == [a[0]] + a[1..];
      Regroup(EntriesOfWork(w, a[0]), EntriesOfTodo(w, a[1..]), EntriesOfTodo(w, b));
    }
  }

  lemma TodoFirst(w: World, k: Work, rest: seq<Work>)
    ensures EntriesOfTodo(w, [k] + rest) == EntriesOfWork(w, k) + EntriesOfTodo(w, rest)
  {
    assert ([k] + rest)[1..] == rest;
  }

  lemma {:induction false} OthersAreQueued(w: World, others: seq<Entry>)
    ensures EntriesOfTodo(w, seq(|others|, i requires 0 <= i < |others| => Other(others[i]))) == others
  {
    if others != [] {
      OthersAreQueued(w, others[1..]);
      var todo := seq(|others|, i requires 0 <= i < |others| => Other(others[i]));
      assert todo[1..] == seq(|others[1..]|, i requires 0 <= i < |others[1..]| => Other(others[1..][i]));
    }
  }

  lemma {:induction false} ResultsAreQueued(w: World, chunkSize: int, results: seq<RelayResult>)
    requires 0 < chunkSize
    ensures EntriesOfTodo(w, seq(|results|, i requires 0 <= i < |results| => WorkFor(w, chunkSize, results[i]))) ==
            RB.ResultsEntries(w.codec, results, chunkSize)
  {
    if results != [] {
      var init, last := results[..|results| - 1], results[|results| - 1];
      var todo := seq(|results|, i requires 0 <= i < |results| => WorkFor(w, chunkSize, results[i]));
      ResultsAreQueued(w, chunkSize, init);
      assert todo == seq(|init|, i requires 0 <= i < |init| => WorkFor(w, chunkSize, init[i]))
             + [WorkFor(w, chunkSize, last)];
      TodoJoin(w, todo[..|init|], [WorkFor(w, chunkSize, last)]);
      ResultIsWork(w, last, chunkSize);
      assert [WorkFor(w, chunkSize, last)][1..] == [];
    }
  }

  /** The work of a refill is what rebuildSenderWSOutbox queues: the leased results, then states and receipts. */
  lemma RefillIsRebuild(w: World, chunkSize: int, results: seq<RelayResult>, others: seq<Entry>)
    requires 0 < chunkSize
    ensures EntriesOfTodo(w, WorkOf(w, chunkSize, results, others)) ==
              RB.ResultsEntries(w.codec, results, chunkSize) + others
  {
    TodoJoin(w, seq(|results|, i requires 0 <= i < |results| => WorkFor(w, chunkSize, results[i])),
             seq(|others|, i requires 0 <= i < |others| => Other(others[i])));
    ResultsAreQueued(w, chunkSize, results);
    OthersAreQueued(w, others);
  }
}
