/** The session loops of internal/poller/websocket.go and internal/server/websocket.go over an outbox. */
module WsSession {
  import opened Wrappers
  import opened Models
  import opened Chunking
  import opened OutboxLog
  import opened Outbox
  import opened ProtocolPrefix
  import RT = ResultTransfer

  function AppendAll(l: Log, es: seq<Entry>): Log {
    if es == [] then l else Append(AppendAll(l, es[..|es| - 1]), es[|es| - 1])
  }

  /** Appending after a reset fills exactly the numbers that follow. */
  lemma {:induction false} AppendAllReset(l: Log, at: nat, es: seq<Entry>)
    requires l.Valid()
    ensures var l' := AppendAll(Reset(l, at), es);
            && l'.next == at + |es| && l'.received == l.received && l'.Valid()
            && (forall s :: s in l'.stored <==> at < s <= at + |es|)
            && (forall s :: at < s <= at + |es| ==> l'.stored[s] == es[s - at - 1])
  {
    if es != [] {
      AppendAllReset(l, at, es[..|es| - 1]);
    }
  }

  lemma {:induction false} AppendAllMore(l: Log, a: seq<Entry>, b: seq<Entry>)
    ensures AppendAll(l, a + b) == AppendAll(AppendAll(l, a), b)
  {
    if b == [] {
      assert a + b == a;
    } else {
      AppendAllMore(l, a, b[..|b| - 1]);
      assert (a + b)[..|a + b| - 1] == a + b[..|b| - 1];
    }
  }

  // ------------------------------------------------------------ queueing a result

  /** The entries of one result: itself, or its chunks with the request's name on the last one only. */
  function ResultEntries(codec: Codec, res: RelayResult, chunkSize: int): (es: seq<Entry>)
    requires 0 < chunkSize
  {
    var data := codec.marshalResult(res);
    if !NeedsChunking(data, chunkSize) then [Entry(res.requestId, Result(res))]
    else ChunkEntries(codec, res, chunkSize, Total(|data|, chunkSize))
  }

  function ChunkEntries(codec: Codec, res: RelayResult, chunkSize: int, k: nat): (es: seq<Entry>)
    requires 0 < chunkSize && k <= Total(|codec.marshalResult(res)|, chunkSize)
    ensures |es| == k
  {
    if k == 0 then []
    else
      var total := Total(|codec.marshalResult(res)|, chunkSize);
      ChunkEntries(codec, res, chunkSize, k - 1)
      + [Entry(if k == total then res.requestId else "",
               ResultChunk(RT.Transfer(codec, res, chunkSize).ChunkOf(k - 1)))]
  }

  /** One ack reports the result: exactly one of its entries, the last, names it. */
  lemma {:induction false} OneEntryNamesTheResult(codec: Codec, res: RelayResult, chunkSize: int)
    requires 0 < chunkSize && res.requestId != ""
    ensures var es := ResultEntries(codec, res, chunkSize);
            && es != []
            && (forall i :: 0 <= i < |es| ==> (es[i].refId == res.requestId <==> i == |es| - 1))
            && (forall i :: 0 <= i < |es| - 1 ==> es[i].refId == "")
  {
    var data := codec.marshalResult(res);
    if NeedsChunking(data, chunkSize) {
      ChunkedTotal(data, chunkSize);
      OnlyLastNamed(codec, res, chunkSize, Total(|data|, chunkSize));
    }
  }

  lemma {:induction false} OnlyLastNamed(codec: Codec, res: RelayResult, chunkSize: int, k: nat)
    requires 0 < chunkSize && k <= Total(|codec.marshalResult(res)|, chunkSize)
    ensures forall i :: 0 <= i < k ==>
              ChunkEntries(codec, res, chunkSize, k)[i].refId ==
              if i == Total(|codec.marshalResult(res)|, chunkSize) - 1 then res.requestId else ""
  {
    if k > 0 {
      OnlyLastNamed(codec, res, chunkSize, k - 1);
    }
  }

  method QueueSenderResultWS(outbox: SqliteOutbox, codec: Codec, res: RelayResult, chunkSize: int)
    requires outbox.Valid() && 0 < chunkSize
    modifies outbox
    ensures outbox.Valid()
    ensures outbox.Abs() == AppendAll(old(outbox.Abs()), ResultEntries(codec, res, chunkSize))
  {
    var data := codec.marshalResult(res);
    ghost var before := outbox.Abs();
    if |data| <= chunkSize {
      var _ := outbox.AppendWSOutbox(Entry(res.requestId, Result(res)));
      assert AppendAll(before, [Entry(res.requestId, Result(res))]) ==
             Append(AppendAll(before, []), Entry(res.requestId, Result(res)));
      return;
    }
    ChunkedTotal(data, chunkSize);
    var total := (|data| + chunkSize - 1) / chunkSize;
    for i := 0 to total
      invariant outbox.Valid()
      invariant outbox.Abs() == AppendAll(before, ChunkEntries(codec, res, chunkSize, i))
    {
      ChunkContents(codec, TransferId(res.requestId, ResultKind), data, chunkSize, i);
      var chunk := ResultChunkAt(codec, res, chunkSize, i);
      var refId := "";
      if i == total - 1 {
        refId := res.requestId;
      }
      AppendAllStep(before, codec, res, chunkSize, i + 1);
      var _ := outbox.AppendWSOutbox(Entry(refId, ResultChunk(chunk.value)));
    }
  }

  lemma AppendAllStep(l: Log, codec: Codec, res: RelayResult, chunkSize: int, k: nat)
    requires 0 < chunkSize && 0 < k <= Total(|codec.marshalResult(res)|, chunkSize)
    ensures AppendAll(l, ChunkEntries(codec, res, chunkSize, k)) ==
            Append(AppendAll(l, ChunkEntries(codec, res, chunkSize, k - 1)),
              ChunkEntries(codec, res, chunkSize, k)[k - 1])
  {
    assert ChunkEntries(codec, res, chunkSize, k)[..k - 1] == ChunkEntries(codec, res, chunkSize, k - 1);
  }

  // ------------------------------------------------------------ what a flush should send

  /** Every entry is stored under a number already handed out. */
  ghost predicate Allocated(l: Log) {
    l.Valid() && forall s :: s in l.stored ==> s <= l.next
  }

  /** The stored entries that follow `after` without a gap. */
  function Following(l: Log, after: int): seq<OutMsg> {
    OutboxLog.Run(l.stored, after + 1, if after < l.next then l.next - after else 0)
  }

  /** Something is stored beyond the first gap after `after`. */
  ghost predicate Broken(l: Log, after: int) {
    StoredAbove(l.stored, after + |Following(l, after)|)
  }

  /** How much of an entry run a flush sends before it notices a gap behind it: whole batches. */
  function SentBeforeRepair(l: Log, after: int): (k: nat)
    ensures k <= |Following(l, after)|
  {
    |Following(l, after)| / BATCH * BATCH
  }

  /** What a flush that is not cut short writes, for any stored contents and any rebuilt entries. */
  ghost function Flushed(l: Log, after: int, rebuilt: seq<Entry>): seq<OutMsg> {
    var run := Following(l, after);
    if Broken(l, after) then
      run[..SentBeforeRepair(l, after)] + Numbered(rebuilt, after + SentBeforeRepair(l, after) + 1)
    else run
  }

  /** The outbox after that. */
  ghost function FlushedLog(l: Log, after: int, rebuilt: seq<Entry>): Log {
    if Broken(l, after) then AppendAll(Reset(l, after + SentBeforeRepair(l, after)), rebuilt) else l
  }

  lemma FollowingShape(l: Log, after: int)
    requires Allocated(l)
    ensures var run := Following(l, after);
            && Consecutive(l.stored, after + 1, run)
            && after + 1 + |run| !in l.stored
            && (after < l.next ==> after + |run| <= l.next)
            && (after >= l.next ==> !Broken(l, after))
  {
    RunShape(l.stored, after + 1, if after < l.next then l.next - after else 0);
  }

  /** Skipping k of the following entries leaves the others. */
  lemma FollowingDrop(l: Log, after: int, k: nat)
    requires Allocated(l) && k <= |Following(l, after)|
    ensures Following(l, after + k) == Following(l, after)[k..]
    ensures Broken(l, after + k) == Broken(l, after)
  {
    var run := Following(l, after);
    FollowingShape(l, after);
    forall i | 0 <= i < |run| - k
      ensures run[k..][i].seqNo == after + k + 1 + i && run[k..][i].seqNo in l.stored
              && run[k..][i].entry == l.stored[run[k..][i].seqNo]
    {
      assert run[k..][i] == run[k + i];
    }
    RunIs(l.stored, after + k + 1, if after + k < l.next then l.next - after - k else 0, run[k..]);
  }

  /** A page is as much of the following entries as fits, and a gap means that they end inside it. */
  lemma PageOfFollowing(l: Log, after: int)
    requires Allocated(l)
    ensures var run := Following(l, after);
            List(l, after, BATCH) ==
            if |run| >= BATCH then Listed(run[..BATCH]) else if Broken(l, after) then Gap else Listed(run)
  {
    var run := Following(l, after);
    FollowingShape(l, after);
    if |run| >= BATCH {
      RunIs(l.stored, after + 1, BATCH, run[..BATCH]);
    } else {
      RunIs(l.stored, after + 1, BATCH, run);
    }
  }

  lemma ListedNumbers(l: Log, after: int, msgs: seq<OutMsg>)
    requires List(l, after, BATCH) == Listed(msgs)
    ensures forall i :: 0 <= i < |msgs| ==> msgs[i].seqNo == after + 1 + i
  {
    RunShape(l.stored, after + 1, BATCH);
  }

  /** How a flush that has sent this many messages can have repaired: after the whole batches, or not at all. */
  ghost predicate RepairedInTime(l: Log, after: int, repairs: nat, sent: int) {
    if repairs == 0 then Broken(l, after) ==> sent <= SentBeforeRepair(l, after)
    else Broken(l, after) && SentBeforeRepair(l, after) <= sent
  }

  /** Sending a listed batch leaves the rest of the same flush to be done. */
  lemma BatchSent(l: Log, after: int, rebuilt: seq<Entry>, msgs: seq<OutMsg>)
    requires Allocated(l) && after < l.next && List(l, after, BATCH) == Listed(msgs)
    ensures after + |msgs| <= l.next
    ensures Broken(l, after + |msgs|) == Broken(l, after)
    ensures Flushed(l, after, rebuilt) == msgs + Flushed(l, after + |msgs|, rebuilt)
    ensures FlushedLog(l, after, rebuilt) == FlushedLog(l, after + |msgs|, rebuilt)
    ensures Broken(l, after) ==> SentBeforeRepair(l, after) == |msgs| + SentBeforeRepair(l, after + |msgs|)
    ensures forall i :: 0 <= i < |msgs| ==> msgs[i].seqNo == after + 1 + i
  {
    var run, k := Following(l, after), |msgs|;
    FollowingShape(l, after);
    PageOfFollowing(l, after);
    FollowingDrop(l, after, k);
    assert msgs == run[..k];
    if Broken(l, after) {
      BatchesAdd(|run|);
      TakeInTwo(run, k, SentBeforeRepair(l, after));
    }
  }

  lemma BatchesAdd(n: nat)
    requires n >= BATCH
    ensures n / BATCH * BATCH == BATCH + (n - BATCH) / BATCH * BATCH
  {
  }

  lemma TakeInTwo(run: seq<OutMsg>, k: nat, m: nat)
    requires k <= m <= |run|
    ensures run[..m] == run[..k] + run[k..][..m - k]
  {
  }

  /** A reported gap means the flush is exactly at the number it repairs from. */
  lemma GapFound(l: Log, after: int, rebuilt: seq<Entry>)
    requires Allocated(l) && 0 <= after < l.next && List(l, after, BATCH) == Gap
    ensures Broken(l, after) && SentBeforeRepair(l, after) == 0
    ensures FlushedLog(l, after, rebuilt) == AppendAll(Reset(l, after), rebuilt)
    ensures Flushed(l, after, rebuilt) == Numbered(rebuilt, after + 1)
  {
    PageOfFollowing(l, after);
    var run := Following(l, after);
    assert |run| < BATCH && SentBeforeRepair(l, after) == 0;
    assert run[..0] == [];
    assert Flushed(l, after, rebuilt) == [] + Numbered(rebuilt, after + 1);
  }

  /** The rebuilt outbox holds exactly the numbers after the repair point, and flushes all of them. */
  lemma Rebuilt(l: Log, after: nat, rebuilt: seq<Entry>)
    requires l.Valid()
    ensures var l' := AppendAll(Reset(l, after), rebuilt);
            && Allocated(l') && !Broken(l', after)
            && l'.next == after + |rebuilt| && (forall s :: s in l'.stored <==> after < s <= l'.next)
            && Flushed(l', after, rebuilt) == Numbered(rebuilt, after + 1)
  {
    AppendAllReset(l, after, rebuilt);
    RebuiltFollows(l, after, rebuilt, AppendAll(Reset(l, after), rebuilt));
  }

  /** Its entries are what follows the repair point. */
  lemma RebuiltFollows(l: Log, after: nat, rebuilt: seq<Entry>, l': Log)
    requires l.Valid() && l' == AppendAll(Reset(l, after), rebuilt)
    ensures Allocated(l') && Following(l', after) == Numbered(rebuilt, after + 1)
  {
    AppendAllReset(l, after, rebuilt);
    RunIs(l'.stored, after + 1, |rebuilt|, Numbered(rebuilt, after + 1));
  }

  /** An empty page, or a counter already reached, means there is nothing left to send. */
  lemma NothingLeft(l: Log, after: int, rebuilt: seq<Entry>)
    requires Allocated(l) && (l.next <= after || List(l, after, BATCH) == Listed([]))
    ensures Flushed(l, after, rebuilt) == [] && FlushedLog(l, after, rebuilt) == l
    ensures !Broken(l, after) && !StoredAbove(l.stored, after)
  {
    FollowingShape(l, after);
    PageOfFollowing(l, after);
  }

  /** A flush that began at l0 and a0 has reached outbox l and number `at`, and goes on as one from there would. */
  ghost predicate Flushing(l0: Log, a0: int, rebuilt: seq<Entry>, l: Log, at: int, repairs: nat) {
    && a0 <= at <= a0 + |Flushed(l0, a0, rebuilt)|
    && Flushed(l0, a0, rebuilt)[at - a0..] == Flushed(l, at, rebuilt)
    && FlushedLog(l, at, rebuilt) == FlushedLog(l0, a0, rebuilt)
    && (repairs == 0 ==> l == l0 && Broken(l, at) == Broken(l0, a0))
    && (repairs == 0 && Broken(l, at) ==> SentBeforeRepair(l0, a0) == at - a0 + SentBeforeRepair(l, at))
    && (repairs == 1 ==> Broken(l0, a0) && l == FlushedLog(l0, a0, rebuilt) && !Broken(l, at))
    && (repairs == 1 ==> SentBeforeRepair(l0, a0) <= at - a0)
    && repairs <= 1
  }

  datatype Outcome = Done | Repaired | Sent | Broke

  /** How one turn of the flush loop ended, and what it wrote. */
  datatype Turn = Turn(outcome: Outcome, sent: seq<OutMsg>)

  ghost predicate TurnOf(l: Log, at: int, rebuilt: seq<Entry>, turn: Turn, l': Log, at': int) {
    if l.next <= at || List(l, at, BATCH) == Listed([]) then turn == Turn(Done, []) && l' == l && at' == at
    else if List(l, at, BATCH) == Gap then
      turn == Turn(Repaired, []) && l' == AppendAll(Reset(l, at), rebuilt) && at' == at
    else
      var msgs := List(l, at, BATCH).msgs;
      && (turn.outcome.Sent? || turn.outcome.Broke?) && l' == l
      && at <= at' <= at + |msgs| && turn.sent == msgs[..at' - at]
      && (turn.outcome.Sent? ==> at' == at + |msgs|)
  }

  /** Where a flush that began at l0, a0 and w0 stands after a turn that ended with this outcome. */
  ghost predicate OnCourse(l0: Log, a0: int, w0: seq<OutMsg>, rebuilt: seq<Entry>,
                           l: Log, at: int, w: seq<OutMsg>, repairs: nat, outcome: Outcome)
  {
    && Allocated(l) && repairs <= 1
    && a0 <= at <= a0 + |Flushed(l0, a0, rebuilt)| && w == w0 + Flushed(l0, a0, rebuilt)[..at - a0]
    && l == (if repairs == 1 then FlushedLog(l0, a0, rebuilt) else l0)
    && RepairedInTime(l0, a0, repairs, at - a0)
    && (outcome.Sent? || outcome.Repaired? ==> Flushing(l0, a0, rebuilt, l, at, repairs))
    && (outcome.Done? ==>
          && at == a0 + |Flushed(l0, a0, rebuilt)|
          && (repairs == 1 <==> Broken(l0, a0)) && !StoredAbove(l.stored, at))
  }

  lemma CourseStarts(l0: Log, a0: int, w0: seq<OutMsg>, rebuilt: seq<Entry>)
    requires Allocated(l0)
    ensures OnCourse(l0, a0, w0, rebuilt, l0, a0, w0, 0, Sent)
  {
    assert Flushed(l0, a0, rebuilt)[..0] == [] && w0 + [] == w0;
  }

  /** A turn keeps the flush on its course, and every turn that asks for another makes progress. */
  lemma TurnKeeps(l0: Log, a0: int, w0: seq<OutMsg>, rebuilt: seq<Entry>,
                  l: Log, at: nat, w: seq<OutMsg>, repairs: nat, outcome: Outcome, turn: Turn, l': Log, at': int)
    requires OnCourse(l0, a0, w0, rebuilt, l, at, w, repairs, outcome) && (outcome.Sent? || outcome.Repaired?)
    requires TurnOf(l, at, rebuilt, turn, l', at')
    ensures OnCourse(l0, a0, w0, rebuilt, l', at', w + turn.sent,
                     if turn.outcome.Repaired? then repairs + 1 else repairs, turn.outcome)
    ensures turn.outcome.Sent? ==> at < at' && at < l.next && l' == l
  {
    if l.next <= at || List(l, at, BATCH) == Listed([]) {
      TurnDone(l0, a0, w0, rebuilt, l, at, w, repairs, outcome);
      assert w + [] == w;
    } else if List(l, at, BATCH) == Gap {
      TurnRepaired(l0, a0, w0, rebuilt, l, at, w, repairs, outcome);
      assert w + [] == w;
    } else {
      TurnSent(l0, a0, w0, rebuilt, l, at, w, repairs, outcome, turn, at');
    }
  }

  lemma TurnDone(l0: Log, a0: int, w0: seq<OutMsg>, rebuilt: seq<Entry>,
                 l: Log, at: nat, w: seq<OutMsg>, repairs: nat, outcome: Outcome)
    requires OnCourse(l0, a0, w0, rebuilt, l, at, w, repairs, outcome) && (outcome.Sent? || outcome.Repaired?)
    requires l.next <= at || List(l, at, BATCH) == Listed([])
    ensures OnCourse(l0, a0, w0, rebuilt, l, at, w, repairs, Done)
  {
    NothingLeft(l, at, rebuilt);
  }

  lemma TurnRepaired(l0: Log, a0: int, w0: seq<OutMsg>, rebuilt: seq<Entry>,
                     l: Log, at: nat, w: seq<OutMsg>, repairs: nat, outcome: Outcome)
    requires OnCourse(l0, a0, w0, rebuilt, l, at, w, repairs, outcome) && (outcome.Sent? || outcome.Repaired?)
    requires at < l.next && List(l, at, BATCH) == Gap
    ensures OnCourse(l0, a0, w0, rebuilt, AppendAll(Reset(l, at), rebuilt), at, w, repairs + 1, Repaired)
  {
    FlushingRepair(l0, a0, rebuilt, l, at, repairs);
  }

  lemma TurnSent(l0: Log, a0: int, w0: seq<OutMsg>, rebuilt: seq<Entry>,
                 l: Log, at: nat, w: seq<OutMsg>, repairs: nat, outcome: Outcome, turn: Turn, at': int)
    requires OnCourse(l0, a0, w0, rebuilt, l, at, w, repairs, outcome) && (outcome.Sent? || outcome.Repaired?)
    requires at < l.next && List(l, at, BATCH).Listed? && TurnOf(l, at, rebuilt, turn, l, at')
    requires turn.outcome.Sent? || turn.outcome.Broke?
    ensures OnCourse(l0, a0, w0, rebuilt, l, at', w + turn.sent, repairs, turn.outcome)
  {
    FlushingBatch(l0, a0, rebuilt, l, at, repairs, List(l, at, BATCH).msgs);
    Regroup(w0, Flushed(l0, a0, rebuilt)[..at - a0], turn.sent);
  }

  lemma FlushingBatch(l0: Log, a0: int, rebuilt: seq<Entry>, l: Log, at: int, repairs: nat, msgs: seq<OutMsg>)
    requires Flushing(l0, a0, rebuilt, l, at, repairs)
    requires Allocated(l) && at < l.next && List(l, at, BATCH) == Listed(msgs)
    ensures Flushing(l0, a0, rebuilt, l, at + |msgs|, repairs)
    ensures forall i :: 0 <= i < |msgs| ==> msgs[i].seqNo == at + 1 + i
    ensures forall j :: 0 <= j <= |msgs| ==>
              at - a0 + j <= |Flushed(l0, a0, rebuilt)|
              && Flushed(l0, a0, rebuilt)[..at - a0] + msgs[..j] == Flushed(l0, a0, rebuilt)[..at - a0 + j]
  {
    BatchSent(l, at, rebuilt, msgs);
    SplitAll(Flushed(l0, a0, rebuilt), at - a0, msgs, Flushed(l, at + |msgs|, rebuilt));
  }

  lemma FlushingRepair(l0: Log, a0: int, rebuilt: seq<Entry>, l: Log, at: nat, repairs: nat)
    requires Flushing(l0, a0, rebuilt, l, at, repairs)
    requires Allocated(l) && at < l.next && List(l, at, BATCH) == Gap
    ensures repairs == 0 && Allocated(AppendAll(Reset(l, at), rebuilt))
    ensures Flushing(l0, a0, rebuilt, AppendAll(Reset(l, at), rebuilt), at, 1)
  {
    GapFound(l, at, rebuilt);
    Rebuilt(l, at, rebuilt);
  }

  // ------------------------------------------------------------ the session

  /** `wire` is what went out on the connection, which takes `writable` more messages before it breaks. */
  class Session {
    const outbox: SqliteOutbox
    var lastSentSeq: int
    var lastReceivedSeq: int
    var wire: seq<OutMsg>
    var acks: seq<int>
    var handled: seq<OutMsg>
    var writable: nat

    ghost predicate Valid()
      reads this, outbox
    {
      outbox.Valid() && Allocated(outbox.Abs()) && 0 <= lastSentSeq
    }

    /** The handshake: send after the peer's cursor, receive after our own. */
    constructor (outbox: SqliteOutbox, peerLastReceivedSeq: nat, writable: nat)
      requires outbox.Valid() && Allocated(outbox.Abs())
      ensures Valid() && this.outbox == outbox
      ensures lastSentSeq == peerLastReceivedSeq && lastReceivedSeq == outbox.Abs().received
      ensures wire == [] && acks == [] && handled == [] && this.writable == writable
    {
      this.outbox := outbox;
      lastSentSeq, wire, acks, handled, this.writable := peerLastReceivedSeq, [], [], [], writable;
      lastReceivedSeq := 0;
      new;
      var state := outbox.GetWSSequenceState();
      if state.Some? {
        lastReceivedSeq := state.value.received;
      }
    }

    method WriteJSON(m: OutMsg) returns (ok: bool)
      modifies this`wire, this`writable
      ensures ok == (old(writable) > 0)
      ensures wire == old(wire) + (if ok then [m] else [])
    {
      ok := writable > 0;
      if ok {
        wire, writable := wire + [m], writable - 1;
      }
    }

    method Rebuild(rebuilt: seq<Entry>)
      requires Valid()
      modifies outbox
      ensures outbox.Valid() && outbox.Abs() == AppendAll(Reset(old(outbox.Abs()), lastSentSeq), rebuilt)
    {
      ghost var emptied := Reset(outbox.Abs(), lastSentSeq);
      outbox.ResetWSOutbox(lastSentSeq);
      for i := 0 to |rebuilt|
        invariant outbox.Valid() && outbox.Abs() == AppendAll(emptied, rebuilt[..i])
      {
        assert rebuilt[..i + 1][..i] == rebuilt[..i];
        var _ := outbox.AppendWSOutbox(rebuilt[i]);
      }
      assert rebuilt[..|rebuilt|] == rebuilt;
    }

    /** Writes listed entries until the connection breaks. */
    method SendEntries(entries: seq<OutMsg>) returns (ok: bool)
      requires forall i :: 0 <= i < |entries| ==> entries[i].seqNo == lastSentSeq + 1 + i
      modifies this`wire, this`writable, this`lastSentSeq
      ensures old(lastSentSeq) <= lastSentSeq <= old(lastSentSeq) + |entries|
      ensures wire == old(wire) + entries[..lastSentSeq - old(lastSentSeq)]
      ensures ok ==> lastSentSeq == old(lastSentSeq) + |entries|
    {
      ghost var start := lastSentSeq;
      for i := 0 to |entries|
        invariant lastSentSeq == start + i && wire == old(wire) + entries[..i]
      {
        ok := WriteJSON(entries[i]);
        if !ok {
          return;
        }
        assert entries[..i + 1] == entries[..i] + [entries[i]];
        lastSentSeq := entries[i].seqNo;
      }
      ok := true;
    }

    /** One turn of the loop of flushOutbox. */
    method FlushTurn(rebuilt: seq<Entry>) returns (turn: Turn)
      requires Valid()
      modifies this`wire, this`writable, this`lastSentSeq, outbox
      ensures outbox.Valid() && 0 <= lastSentSeq
      ensures TurnOf(old(outbox.Abs()), old(lastSentSeq), rebuilt, turn, outbox.Abs(), lastSentSeq)
      ensures wire == old(wire) + turn.sent
    {
      var state := outbox.GetWSSequenceState();
      if state.None? || state.value.next <= lastSentSeq {
        return Turn(Done, []);
      }
      var page := outbox.ListWSOutbox(lastSentSeq, BATCH);
      if page.Gap? {
        Rebuild(rebuilt);
        return Turn(Repaired, []);
      }
      if page.msgs == [] {
        return Turn(Done, []);
      }
      ListedNumbers(outbox.Abs(), lastSentSeq, page.msgs);
      var before := lastSentSeq;
      var ok := SendEntries(page.msgs);
      return Turn(if ok then Sent else Broke, page.msgs[..lastSentSeq - before]);
    }

    /**
      flushOutbox. `rebuilt` is what the durable tables would have the repair queue. Whatever is
      stored: at most one repair; the messages are numbered from lastSentSeq + 1 without hole or
      repeat and are exactly those of `Flushed`, or a prefix if the connection broke; and when it
      did not break, nothing above lastSentSeq is left.
     */
    method FlushOutbox(rebuilt: seq<Entry>) returns (ok: bool, repairs: nat)
      requires Valid()
      modifies this`wire, this`writable, this`lastSentSeq, outbox
      ensures Valid() && repairs <= 1
      ensures outbox.Abs() ==
              if repairs == 1 then FlushedLog(old(outbox.Abs()), old(lastSentSeq), rebuilt) else old(outbox.Abs())
      ensures RepairedInTime(old(outbox.Abs()), old(lastSentSeq), repairs, lastSentSeq - old(lastSentSeq))
      ensures var sent := lastSentSeq - old(lastSentSeq);
              && 0 <= sent <= |Flushed(old(outbox.Abs()), old(lastSentSeq), rebuilt)|
              && wire == old(wire) + Flushed(old(outbox.Abs()), old(lastSentSeq), rebuilt)[..sent]
              && (ok ==> sent == |Flushed(old(outbox.Abs()), old(lastSentSeq), rebuilt)|)
      ensures ok ==> (repairs == 1 <==> Broken(old(outbox.Abs()), old(lastSentSeq)))
                     && !StoredAbove(outbox.Abs().stored, lastSentSeq)
    {
      ghost var l0, a0, w0 := outbox.Abs(), lastSentSeq, wire;
      var outcome := Sent;
      repairs := 0;
      CourseStarts(l0, a0, w0, rebuilt);
      while outcome.Sent? || outcome.Repaired?
        invariant outbox.Valid() && 0 <= lastSentSeq
        invariant OnCourse(l0, a0, w0, rebuilt, outbox.Abs(), lastSentSeq, wire, repairs, outcome)
        decreases outcome.Sent? || outcome.Repaired?, 1 - repairs, outbox.Abs().next - lastSentSeq
      {
        ghost var l, at, w, r := outbox.Abs(), lastSentSeq, wire, repairs;
        var turn := FlushTurn(rebuilt);
        TurnKeeps(l0, a0, w0, rebuilt, l, at, w, r, outcome, turn, outbox.Abs(), lastSentSeq);
        outcome := turn.outcome;
        if outcome.Repaired? {
          repairs := repairs + 1;
        }
      }
      ok := outcome.Done?;
    }

    /**
      One turn of the receive loop; `accepts` is whether handleInbound succeeds, `persists` whether the
      cursor can be written after it.
     */
    method Receive(m: OutMsg, accepts: bool, persists: bool) returns (keep: bool)
      requires Valid()
      modifies this`lastReceivedSeq, this`acks, this`handled, outbox
      ensures Valid()
      ensures m.seqNo <= 0 ==>
                keep == accepts && handled == old(handled) + (if accepts then [m] else []) && acks == old(acks)
      ensures 0 < m.seqNo <= old(lastReceivedSeq) ==>
                keep && acks == old(acks) + [old(lastReceivedSeq)] && handled == old(handled)
      ensures 0 < m.seqNo && m.seqNo > old(lastReceivedSeq) + 1 ==>
                !keep && acks == old(acks) && handled == old(handled)
      ensures 0 < m.seqNo == old(lastReceivedSeq) + 1 ==>
                && keep == (accepts && persists)
                && handled == old(handled) + (if accepts then [m] else [])
                && acks == old(acks) + (if keep then [m.seqNo] else [])
                && (keep ==> lastReceivedSeq == m.seqNo && outbox.Abs() == SetReceived(old(outbox.Abs()), m.seqNo))
      ensures !(keep && 0 < m.seqNo == old(lastReceivedSeq) + 1) ==>
                lastReceivedSeq == old(lastReceivedSeq) && outbox.Abs() == old(outbox.Abs())
    {
      if m.seqNo > 0 {
        if m.seqNo <= lastReceivedSeq {
          acks := acks + [lastReceivedSeq];
          return true;
        }
        if m.seqNo != lastReceivedSeq + 1 {
          return false;
        }
      }
      if !accepts {
        return false;
      }
      handled := handled + [m];
      if m.seqNo > 0 {
        if !persists {
          return false;
        }
        outbox.SetWSLastReceivedSeq(m.seqNo);
        lastReceivedSeq := m.seqNo;
        acks := acks + [m.seqNo];
      }
      return true;
    }
  }

  lemma SplitAll(all: seq<OutMsg>, k: nat, msgs: seq<OutMsg>, rest: seq<OutMsg>)
    requires k <= |all| && all[k..] == msgs + rest
    ensures forall j :: 0 <= j <= |msgs| ==> all[..k] + msgs[..j] == all[..k + j]
    ensures all[k + |msgs|..] == rest
  {
    forall j | 0 <= j <= |msgs| ensures all[..k] + msgs[..j] == all[..k + j] {
      assert all[k..][..j] == msgs[..j];
    }
  }
}
