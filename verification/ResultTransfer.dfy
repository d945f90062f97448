/** A chunked result: the sender streams all chunks at once, the listener's reassembly answers nothing. */
module ResultTransfer {
  import opened Wrappers
  import opened Models
  import opened Chunking
  import opened Reassembly

  /** Two deliveries of the same chunk leave the state one delivery leaves, whatever was stored. */
  lemma RedisRedeliveryHarmless(codec: Codec, a: Option<Assembly>, c: TransportChunk)
    ensures var once := AcceptResult(Redis, codec, a, c).state;
            AcceptResult(Redis, codec, once, c).state == once
  {
  }

  /**
    On SQLite this fails in exactly one case: a conflicting chunk 0, which the first delivery
    spends on deleting the old state and the second one starts a new transfer with.
   */
  lemma SqliteRedeliveryHarmless(codec: Codec, a: Option<Assembly>, c: TransportChunk)
    requires Stored(a)
    ensures var once := AcceptResult(Sqlite, codec, a, c).state;
            AcceptResult(Sqlite, codec, once, c).state == once
            <==> !(a.Some? && Conflicts(Sqlite, a.value, c) && c.index == 0 && c.payload.Some? && 1 < c.total)
  {
  }

  // ------------------------------------------------------------ one transfer

  /** One result cut with one chunk size; only payloads above the chunk size are chunked. */
  datatype Transfer = Transfer(codec: Codec, res: RelayResult, chunkSize: int) {
    ghost predicate Valid() {
      && 0 < chunkSize && NeedsChunking(Payload(), chunkSize)
      && codec.parseResult(Payload()) == Some(res)
    }

    function Payload(): Bytes {
      codec.marshalResult(res)
    }

    function Count(): int
      requires 0 < chunkSize
    {
      Total(|Payload()|, chunkSize)
    }

    function ChunkOf(i: nat): TransportChunk
      requires 0 < chunkSize && i < Count()
    {
      Chunk(codec, TransferId(res.requestId, ResultKind), Payload(), chunkSize, i)
    }
  }

  predicate Honest(x: Transfer, a: Option<Assembly>)
    requires 0 < x.chunkSize
  {
    a.Some? ==> HoldsPrefix(x.codec, x.Payload(), x.chunkSize, a.value)
  }

  /** What one chunk of the transfer does to an honest state. */
  lemma HonestStep(b: Backend, x: Transfer, a: Option<Assembly>, i: nat)
    requires x.Valid() && Honest(x, a) && i < x.Count()
    ensures x.Count() >= 2
    ensures var next := NextIndex(Restarted(b, a, x.ChunkOf(i)));
            var step := AcceptResult(b, x.codec, a, x.ChunkOf(i));
            && Honest(x, step.state)
            && (i < next ==> step.state == a)
            && (i > next ==> step.state == None)
            && (i == next ==> NextIndex(step.state) == (if next + 1 < x.Count() then next + 1 else 0))
            && step.result == (if i == next == x.Count() - 1 then Some(x.res) else None)
  {
    var data, a' := x.Payload(), Restarted(b, a, x.ChunkOf(i));
    ChunkedTotal(data, x.chunkSize);
    ChunkContents(x.codec, TransferId(x.res.requestId, ResultKind), data, x.chunkSize, i);
    if i == NextIndex(a') {
      PrefixGrows(data, x.chunkSize, i);
      assert Data(a') == data[..Cut(|data|, x.chunkSize, i)];
    }
  }

  // ------------------------------------------------------------ a whole run over any stored state

  function Feed(b: Backend, x: Transfer, a: Option<Assembly>, k: nat): Option<Assembly>
    requires 0 < x.chunkSize && k <= x.Count()
  {
    if k == 0 then a else AcceptResult(b, x.codec, Feed(b, x, a, k - 1), x.ChunkOf(k - 1)).state
  }

  /** What the last chunk of a run over chunks 0, 1, ... yields, starting from stored state a. */
  function RunYields(b: Backend, x: Transfer, a: Option<Assembly>): Option<RelayResult>
    requires 0 < x.chunkSize && 0 < x.Count()
  {
    AcceptResult(b, x.codec, Feed(b, x, a, x.Count() - 1), x.ChunkOf(x.Count() - 1)).result
  }

  lemma {:induction false} FeedFromNothing(b: Backend, x: Transfer, a: Option<Assembly>, k: nat)
    requires x.Valid() && k < x.Count()
    requires a.None? || (b.Redis? && 0 < k)
    ensures Honest(x, Feed(b, x, a, k)) && NextIndex(Feed(b, x, a, k)) == k
  {
    ChunkedTotal(x.Payload(), x.chunkSize);
    if k == 1 {
      ChunkContents(x.codec, TransferId(x.res.requestId, ResultKind), x.Payload(), x.chunkSize, 0);
      assert Feed(b, x, a, 0) == a;
      if b.Redis? {
        assert Restarted(b, a, x.ChunkOf(0)) == Restarted(b, None, x.ChunkOf(0));
      }
      HonestStep(b, x, None, 0);
    } else if k > 1 {
      ChunkContents(x.codec, TransferId(x.res.requestId, ResultKind), x.Payload(), x.chunkSize, k - 1);
      FeedFromNothing(b, x, a, k - 1);
      HonestStep(b, x, Feed(b, x, a, k - 1), k - 1);
    }
  }

  /** Redis: a complete run yields the result whatever an earlier transfer left behind. */
  lemma RedisRunYields(x: Transfer, a: Option<Assembly>)
    requires x.Valid()
    ensures 0 < x.Count() && RunYields(Redis, x, a) == Some(x.res)
  {
    ChunkedTotal(x.Payload(), x.chunkSize);
    ChunkContents(x.codec, TransferId(x.res.requestId, ResultKind), x.Payload(), x.chunkSize, x.Count() - 1);
    FeedFromNothing(Redis, x, a, x.Count() - 1);
    HonestStep(Redis, x, Feed(Redis, x, a, x.Count() - 1), x.Count() - 1);
  }

  /** The bytes left behind plus the chunks still missing from them. */
  function Patched(x: Transfer, a: Assembly): Bytes
    requires 0 < x.chunkSize && 0 <= a.nextIndex
  {
    CutOrder(|x.Payload()|, x.chunkSize, a.nextIndex);
    a.data + x.Payload()[Cut(|x.Payload()|, x.chunkSize, a.nextIndex)..]
  }

  /**
    SQLite: a complete run yields something exactly when nothing was left behind, or what was left
    has the run's checksum and total and is completed by the chunks it lacks. So a result whose
    bytes or chunk size changed after a partial transfer is lost although its last chunk is acked.
   */
  lemma SqliteRunYields(x: Transfer, a: Option<Assembly>)
    requires x.Valid() && Stored(a)
    ensures 0 < x.Count()
    ensures RunYields(Sqlite, x, a).Some? <==>
            || a.None?
            || (&& a.value.checksum == x.codec.sha(x.Payload()) && a.value.total == x.Count()
                && |Patched(x, a.value)| == |x.Payload()|
                && x.codec.sha(Patched(x, a.value)) == x.codec.sha(x.Payload())
                && x.codec.parseResult(Patched(x, a.value)).Some?)
  {
    ChunkedTotal(x.Payload(), x.chunkSize);
    var n := x.Count();
    ChunkContents(x.codec, TransferId(x.res.requestId, ResultKind), x.Payload(), x.chunkSize, n - 1);
    ChunkContents(x.codec, TransferId(x.res.requestId, ResultKind), x.Payload(), x.chunkSize, 0);
    if a.None? {
      FeedFromNothing(Sqlite, x, a, n - 1);
      HonestStep(Sqlite, x, Feed(Sqlite, x, a, n - 1), n - 1);
    } else if Conflicts(Sqlite, a.value, x.ChunkOf(0)) {
      FeedConflict(x, a, n - 1);
    } else {
      FeedPatch(x, a.value, n - 1);
      var left := Feed(Sqlite, x, a, n - 1).value;
      PatchGrows(x, a.value, n - 1);
      assert left.data + Piece(x.Payload(), x.chunkSize, n - 1) == Patched(x, a.value);
    }
  }

  /**
    The case met in practice: one chunk of a transfer arrived, then the result was cut anew with other
    bytes or another count. SQLite never yields it, Redis does.
   */
  lemma SqliteLosesRecutResult(x: Transfer, y: Transfer)
    requires x.Valid() && y.Valid() && x.res.requestId == y.res.requestId
    requires x.codec.sha(x.Payload()) != y.codec.sha(y.Payload()) || x.Count() != y.Count()
    ensures 1 < x.Count() && 0 < y.Count()
    ensures RunYields(Sqlite, y, Feed(Sqlite, x, None, 1)) == None
    ensures RunYields(Redis, y, Feed(Redis, x, None, 1)) == Some(y.res)
  {
    ChunkedTotal(x.Payload(), x.chunkSize);
    FeedFromNothing(Sqlite, x, None, 1);
    SqliteRunYields(y, Feed(Sqlite, x, None, 1));
    RedisRunYields(y, Feed(Redis, x, None, 1));
  }

  /** The first chunk of a conflicting run only deletes the old state, and every later one is out of order. */
  lemma {:induction false} FeedConflict(x: Transfer, a: Option<Assembly>, k: nat)
    requires x.Valid() && a.Some? && 0 < k < x.Count() && Conflicts(Sqlite, a.value, x.ChunkOf(0))
    ensures Feed(Sqlite, x, a, k) == None
  {
    ChunkContents(x.codec, TransferId(x.res.requestId, ResultKind), x.Payload(), x.chunkSize, k - 1);
    ChunkContents(x.codec, TransferId(x.res.requestId, ResultKind), x.Payload(), x.chunkSize, 0);
    if k == 1 {
      assert Feed(Sqlite, x, a, 0) == a;
    } else {
      FeedConflict(x, a, k - 1);
    }
  }

  /** One chunk over a matching state is ignored or appended. */
  lemma PatchStep(x: Transfer, s: Assembly, i: nat)
    requires x.Valid() && i + 1 < x.Count() && 0 <= s.nextIndex && i <= s.nextIndex
    requires s.checksum == x.codec.sha(x.Payload()) && s.total == x.Count()
    ensures var state := AcceptResult(Sqlite, x.codec, Some(s), x.ChunkOf(i)).state;
            if i < s.nextIndex then state == Some(s)
            else
              && state.Some? && state.value.nextIndex == i + 1 && state.value.total == s.total
              && state.value.checksum == s.checksum && state.value.data == s.data + Piece(x.Payload(), x.chunkSize, i)
  {
    ChunkContents(x.codec, TransferId(x.res.requestId, ResultKind), x.Payload(), x.chunkSize, i);
  }

  /** A run over a matching state ignores the chunks it has and appends the ones it lacks. */
  lemma {:induction false} FeedPatch(x: Transfer, a: Assembly, k: nat)
    requires x.Valid() && Stored(Some(a)) && k < x.Count()
    requires a.checksum == x.codec.sha(x.Payload()) && a.total == x.Count()
    ensures Cut(|x.Payload()|, x.chunkSize, a.nextIndex) <= |x.Payload()|
    ensures var s := Feed(Sqlite, x, Some(a), k);
            && s.Some? && s.value.total == a.total && s.value.checksum == a.checksum
            && (k <= a.nextIndex ==> s.value.nextIndex == a.nextIndex && s.value.data == a.data)
            && (k >= a.nextIndex ==>
                  && s.value.nextIndex == k
                  && Cut(|x.Payload()|, x.chunkSize, a.nextIndex) <= Cut(|x.Payload()|, x.chunkSize, k) <= |x.Payload()|
                  && s.value.data == a.data + x.Payload()[Cut(|x.Payload()|, x.chunkSize, a.nextIndex)
                                                          ..Cut(|x.Payload()|, x.chunkSize, k)])
  {
    CutOrder(|x.Payload()|, x.chunkSize, a.nextIndex);
    if k == 0 {
    } else {
      FeedPatch(x, a, k - 1);
      PatchStep(x, Feed(Sqlite, x, Some(a), k - 1).value, k - 1);
      if k > a.nextIndex {
        PatchGrows(x, a, k - 1);
      }
    }
  }

  lemma PatchGrows(x: Transfer, a: Assembly, i: nat)
    requires x.Valid() && 0 <= a.nextIndex <= i < x.Count()
    requires Cut(|x.Payload()|, x.chunkSize, a.nextIndex) <= Cut(|x.Payload()|, x.chunkSize, i) <= |x.Payload()|
    ensures Cut(|x.Payload()|, x.chunkSize, i) <= Cut(|x.Payload()|, x.chunkSize, i + 1) <= |x.Payload()|
    ensures var lo := Cut(|x.Payload()|, x.chunkSize, a.nextIndex);
            var grown := (a.data + x.Payload()[lo..Cut(|x.Payload()|, x.chunkSize, i)])
                + Piece(x.Payload(), x.chunkSize, i);
            && grown == a.data + x.Payload()[lo..Cut(|x.Payload()|, x.chunkSize, i + 1)]
            && (i + 1 == x.Count() ==> grown == Patched(x, a))
  {
    var data := x.Payload();
    CutOrder(|data|, x.chunkSize, i);
    CutTotal(|data|, x.chunkSize);
    SliceJoin(data, Cut(|data|, x.chunkSize, a.nextIndex), Cut(|data|, x.chunkSize, i),
      Cut(|data|, x.chunkSize, i + 1));
    assert data[Cut(|data|, x.chunkSize, a.nextIndex)..] == data[Cut(|data|, x.chunkSize, a.nextIndex)..|data|];
  }

  lemma SliceJoin(data: Bytes, a: nat, b: nat, c: nat)
    requires a <= b <= c <= |data|
    ensures forall left: Bytes :: (left + data[a..b]) + data[b..c] == left + data[a..c]
  {
    assert data[a..b] + data[b..c] == data[a..c];
    forall left: Bytes ensures (left + data[a..b]) + data[b..c] == left + data[a..c] {
      assert (left + data[a..b]) + data[b..c] == left + (data[a..b] + data[b..c]);
    }
  }

  // ------------------------------------------------------------ the two backends agree

  /** Contiguous runs, each starting at chunk 0; the last chunk of a run may be redelivered at any point. */
  ghost predicate RunsOf(x: Transfer, stream: seq<nat>)
    requires 0 < x.chunkSize
  {
    && (forall k :: 0 <= k < |stream| ==> stream[k] < x.Count())
    && (forall k :: 0 <= k < |stream| ==> ContinuesAt(stream, k))
  }

  predicate ContinuesAt(stream: seq<nat>, k: nat)
    requires k < |stream|
  {
    stream[k] == 0 || (k > 0 && (stream[k] == stream[k - 1] || stream[k] == stream[k - 1] + 1))
  }

  lemma RunsOfPrefix(x: Transfer, stream: seq<nat>, m: nat)
    requires 0 < x.chunkSize && RunsOf(x, stream) && m <= |stream|
    ensures RunsOf(x, stream[..m])
  {
    forall k | 0 <= k < m
      ensures ContinuesAt(stream[..m], k)
    {
      assert ContinuesAt(stream, k);
    }
  }

  function StateAfter(b: Backend, x: Transfer, stream: seq<nat>): Option<Assembly>
    requires 0 < x.chunkSize && forall k :: 0 <= k < |stream| ==> stream[k] < x.Count()
  {
    if stream == [] then None
    else AcceptResult(b, x.codec, StateAfter(b, x, stream[..|stream| - 1]), x.ChunkOf(stream[|stream| - 1])).state
  }

  function YieldAt(b: Backend, x: Transfer, stream: seq<nat>): Option<RelayResult>
    requires 0 < x.chunkSize && stream != [] && forall k :: 0 <= k < |stream| ==> stream[k] < x.Count()
  {
    AcceptResult(b, x.codec, StateAfter(b, x, stream[..|stream| - 1]), x.ChunkOf(stream[|stream| - 1])).result
  }

  /**
    The state after a stream that ended with chunk `last` (-1: an empty stream). Redis is exactly
    where the current run is; SQLite may be further, but never behind.
   */
  ghost predicate UpTo(x: Transfer, a: Option<Assembly>, last: int)
    requires 0 < x.chunkSize
  {
    && Honest(x, a)
    && (last == x.Count() - 1 ==> a == None)
    && (0 <= last < x.Count() - 1 ==> NextIndex(a) > last)
  }

  lemma RunStep(b: Backend, x: Transfer, a: Option<Assembly>, last: int, i: nat)
    requires x.Valid() && UpTo(x, a, last) && i < x.Count()
    requires i == 0 || (0 <= last && (i == last || i == last + 1))
    ensures var step := AcceptResult(b, x.codec, a, x.ChunkOf(i));
            && UpTo(x, step.state, i)
            && step.result == if i == x.Count() - 1 && last != i then Some(x.res) else None
  {
    HonestStep(b, x, a, i);
    ChunkContents(x.codec, TransferId(x.res.requestId, ResultKind), x.Payload(), x.chunkSize, i);
  }

  function Last(stream: seq<nat>): int {
    if stream == [] then -1 else stream[|stream| - 1]
  }

  lemma {:induction false} RunProgress(b: Backend, x: Transfer, stream: seq<nat>)
    requires x.Valid() && RunsOf(x, stream)
    ensures UpTo(x, StateAfter(b, x, stream), Last(stream))
    ensures stream != [] ==>
              YieldAt(b, x, stream) ==
              if Last(stream) == x.Count() - 1 && Last(stream[..|stream| - 1]) != Last(stream) then Some(x.res)
              else None
  {
    if stream == [] {
      ChunkedTotal(x.Payload(), x.chunkSize);
    } else {
      var rest := stream[..|stream| - 1];
      RunsOfPrefix(x, stream, |stream| - 1);
      RunProgress(b, x, rest);
      var m := |stream| - 1;
      assert ContinuesAt(stream, m);
      RunStep(b, x, StateAfter(b, x, rest), Last(rest), stream[m]);
    }
  }

  /** Restart-at-chunk-0 and ignore-duplicates yield the same results at the same points. */
  lemma SameYields(x: Transfer, stream: seq<nat>)
    requires x.Valid() && RunsOf(x, stream)
    ensures forall k :: 0 < k <= |stream| ==> YieldAt(Redis, x, stream[..k]) == YieldAt(Sqlite, x, stream[..k])
  {
    forall k | 0 < k <= |stream|
      ensures YieldAt(Redis, x, stream[..k]) == YieldAt(Sqlite, x, stream[..k])
    {
      RunsOfPrefix(x, stream, k);
      RunProgress(Redis, x, stream[..k]);
      RunProgress(Sqlite, x, stream[..k]);
    }
  }
}
