/** internal/transport/chunks.go: slicing a payload into numbered chunks. */
module Chunking {
  import opened Wrappers
  import opened Models

  datatype ChunkError = BadChunkSize | OutOfRange

  function Total(size: nat, chunkSize: int): int
    requires 0 < chunkSize
  {
    var total := (size + chunkSize - 1) / chunkSize;
    if total == 0 then 1 else total
  }

  /** One body for RequestChunkAt and ResultChunkAt, which differ only in `transfer`. */
  function ChunkAt(codec: Codec, transfer: TransferId, data: Bytes, chunkSize: int, index: int)
    : (r: Result<TransportChunk, ChunkError>)
  {
    if chunkSize < 1 then Err(BadChunkSize)
    else
      var total := Total(|data|, chunkSize);
      if index < 0 || index >= total then Err(OutOfRange)
      else
        CutBounds(|data|, chunkSize, index);
        var start := index * chunkSize;
        var end := if start + chunkSize > |data| then |data| else start + chunkSize;
        Ok(TransportChunk(transfer, transfer.requestId, index, total,
                          Some(data[start..end]), codec.sha(data), |data|))
  }

  function RequestChunkAt(codec: Codec, req: RelayRequest, chunkSize: int, index: int)
    : Result<TransportChunk, ChunkError>
  {
    ChunkAt(codec, TransferId(req.id, RequestKind), codec.marshalRequest(req), chunkSize, index)
  }

  function ResultChunkAt(codec: Codec, res: RelayResult, chunkSize: int, index: int)
    : Result<TransportChunk, ChunkError>
  {
    ChunkAt(codec, TransferId(res.requestId, ResultKind), codec.marshalResult(res), chunkSize, index)
  }

  predicate NeedsChunking(data: Bytes, chunkSize: int) {
    |data| > chunkSize
  }

  // ------------------------------------------------------------ cut points

  /** How many bytes the first k chunks hold. */
  function Cut(size: nat, chunkSize: int, k: nat): nat
    requires 0 < chunkSize
  {
    if k * chunkSize <= size then k * chunkSize else size
  }

  /** The bytes of chunk i, cut out of the payload. */
  function Piece(data: Bytes, chunkSize: int, i: nat): Bytes
    requires 0 < chunkSize
  {
    CutOrder(|data|, chunkSize, i);
    data[Cut(|data|, chunkSize, i)..Cut(|data|, chunkSize, i + 1)]
  }

  lemma CutOrder(size: nat, chunkSize: int, k: nat)
    requires 0 < chunkSize
    ensures (k + 1) * chunkSize == k * chunkSize + chunkSize
    ensures Cut(size, chunkSize, k) <= Cut(size, chunkSize, k + 1) <= size
  {
  }

  lemma CutBounds(size: nat, chunkSize: int, k: int)
    requires 0 < chunkSize && 0 <= k < Total(size, chunkSize)
    ensures 0 <= k * chunkSize <= size
    ensures size > 0 ==> k * chunkSize < size
  {
    var total := (size + chunkSize - 1) / chunkSize;
    if size == 0 {
      assert total == 0;
    } else {
      assert total * chunkSize <= size + chunkSize - 1;
      assert k * chunkSize <= (total - 1) * chunkSize by {
        MulOrder(k, total - 1, chunkSize);
      }
    }
  }

  lemma MulOrder(a: int, b: int, c: int)
    requires a <= b && 0 <= c
    ensures a * c <= b * c
  {
  }

  lemma CutTotal(size: nat, chunkSize: int)
    requires 0 < chunkSize
    ensures Total(size, chunkSize) >= 1
    ensures Cut(size, chunkSize, Total(size, chunkSize)) == size
  {
    var total := (size + chunkSize - 1) / chunkSize;
    assert size + chunkSize - 1 < (total + 1) * chunkSize;
    assert (total + 1) * chunkSize == total * chunkSize + chunkSize;
  }

  // ------------------------------------------------------------ split and join

  /** The chunk at an index that is in range. */
  function Chunk(codec: Codec, transfer: TransferId, data: Bytes, chunkSize: int, i: nat): TransportChunk
    requires 0 < chunkSize && i < Total(|data|, chunkSize)
  {
    ChunkAt(codec, transfer, data, chunkSize, i).value
  }

  /** Chunks 0..k-1 in order: what a chunking loop has produced after k rounds. */
  function FirstChunks(codec: Codec, transfer: TransferId, data: Bytes, chunkSize: int, k: nat)
    : (cs: seq<TransportChunk>)
    requires 0 < chunkSize && k <= Total(|data|, chunkSize)
    ensures |cs| == k
    ensures forall i :: 0 <= i < k ==> cs[i] == Chunk(codec, transfer, data, chunkSize, i)
  {
    if k == 0 then []
    else FirstChunks(codec, transfer, data, chunkSize, k - 1) + [Chunk(codec, transfer, data, chunkSize, k - 1)]
  }

  function Join(chunks: seq<TransportChunk>): Bytes {
    if chunks == [] then []
    else Join(chunks[..|chunks| - 1])
         + (if chunks[|chunks| - 1].payload.Some? then chunks[|chunks| - 1].payload.value else [])
  }

  /** A chunk is produced exactly for the indices below the total, and carries its piece. */
  lemma ChunkContents(codec: Codec, transfer: TransferId, data: Bytes, chunkSize: int, index: int)
    ensures ChunkAt(codec, transfer, data, chunkSize, index).Ok? <==>
            0 < chunkSize && 0 <= index < Total(|data|, chunkSize)
    ensures 0 < chunkSize && 0 <= index < Total(|data|, chunkSize) ==>
              var c := ChunkAt(codec, transfer, data, chunkSize, index).value;
              && c.payload == Some(Piece(data, chunkSize, index))
              && c.index == index && c.total == Total(|data|, chunkSize)
              && c.checksum == codec.sha(data) && c.totalSize == |data| && c.transfer == transfer
  {
    if 0 < chunkSize && 0 <= index < Total(|data|, chunkSize) {
      CutBounds(|data|, chunkSize, index);
      CutOrder(|data|, chunkSize, index);
    }
  }

  /** Every chunk but the last is full; the last one is not empty unless the payload is. */
  lemma ChunkSizes(data: Bytes, chunkSize: int, i: nat)
    requires 0 < chunkSize && i < Total(|data|, chunkSize)
    ensures i + 1 < Total(|data|, chunkSize) ==> |Piece(data, chunkSize, i)| == chunkSize
    ensures |Piece(data, chunkSize, i)| <= chunkSize
    ensures data != [] ==> |Piece(data, chunkSize, i)| > 0
  {
    CutOrder(|data|, chunkSize, i);
    CutBounds(|data|, chunkSize, i);
    if i + 1 < Total(|data|, chunkSize) {
      CutBounds(|data|, chunkSize, i + 1);
    }
  }

  lemma TakeThenSlice(data: Bytes, a: nat, b: nat)
    requires a <= b <= |data|
    ensures data[..a] + data[a..b] == data[..b]
  {
  }

  /** Appending piece k to the first k pieces gives the first k + 1 pieces. */
  lemma CutStep(data: Bytes, chunkSize: int, k: nat)
    requires 0 < chunkSize
    ensures Cut(|data|, chunkSize, k) <= Cut(|data|, chunkSize, k + 1) <= |data|
    ensures data[..Cut(|data|, chunkSize, k)] + Piece(data, chunkSize, k) == data[..Cut(|data|, chunkSize, k + 1)]
  {
    CutOrder(|data|, chunkSize, k);
    TakeThenSlice(data, Cut(|data|, chunkSize, k), Cut(|data|, chunkSize, k + 1));
  }

  /** This chunk carries what lies between cut i and the next one. */
  predicate Carries(c: TransportChunk, data: Bytes, cuts: seq<nat>, i: nat) {
    i + 1 < |cuts| && cuts[i] <= cuts[i + 1] <= |data| && c.payload == Some(data[cuts[i]..cuts[i + 1]])
  }

  /** Chunks that carry the slices between consecutive cuts join to what lies before the last cut. */
  lemma {:induction false} JoinCuts(chunks: seq<TransportChunk>, data: Bytes, cuts: seq<nat>)
    requires |cuts| == |chunks| + 1 && cuts[0] == 0
    requires forall i :: 0 <= i < |chunks| ==> Carries(chunks[i], data, cuts, i)
    ensures cuts[|chunks|] <= |data| && Join(chunks) == data[..cuts[|chunks|]]
  {
    if chunks != [] {
      var n := |chunks| - 1;
      assert chunks == chunks[..n] + [chunks[n]];
      assert forall i :: 0 <= i < n ==>
               Carries(chunks[i], data, cuts, i) && Carries(chunks[..n][i], data, cuts[..n + 1], i);
      JoinCuts(chunks[..n], data, cuts[..n + 1]);
      JoinLast(chunks[..n], chunks[n]);
      TakeThenSlice(data, cuts[n], cuts[n + 1]);
    }
  }

  lemma JoinFirst(codec: Codec, transfer: TransferId, data: Bytes, chunkSize: int, k: nat)
    requires 0 < chunkSize && k <= Total(|data|, chunkSize)
    ensures Join(FirstChunks(codec, transfer, data, chunkSize, k)) == data[..Cut(|data|, chunkSize, k)]
  {
    var chunks := FirstChunks(codec, transfer, data, chunkSize, k);
    var cuts := seq(k + 1, i requires 0 <= i <= k => Cut(|data|, chunkSize, i));
    forall i | 0 <= i < k ensures Carries(chunks[i], data, cuts, i) {
      CutOrder(|data|, chunkSize, i);
      ChunkContents(codec, transfer, data, chunkSize, i);
    }
    JoinCuts(chunks, data, cuts);
  }

  lemma JoinLast(chunks: seq<TransportChunk>, c: TransportChunk)
    requires c.payload.Some?
    ensures Join(chunks + [c]) == Join(chunks) + c.payload.value
  {
    assert (chunks + [c])[..|chunks|] == chunks;
  }

  /** Split, then join: the chunks of a payload concatenate to the payload. */
  lemma JoinSplit(codec: Codec, transfer: TransferId, data: Bytes, chunkSize: int)
    requires 0 < chunkSize
    ensures Total(|data|, chunkSize) >= 1
    ensures Join(FirstChunks(codec, transfer, data, chunkSize, Total(|data|, chunkSize))) == data
  {
    CutTotal(|data|, chunkSize);
    JoinFirst(codec, transfer, data, chunkSize, Total(|data|, chunkSize));
    assert data[..|data|] == data;
  }

  /** A payload longer than the chunk size takes at least two chunks. */
  lemma ChunkedTotal(data: Bytes, chunkSize: int)
    requires 0 < chunkSize && NeedsChunking(data, chunkSize)
    ensures Total(|data|, chunkSize) >= 2
  {
    CutTotal(|data|, chunkSize);
  }
}
