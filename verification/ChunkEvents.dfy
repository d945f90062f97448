/** The chunk handlers of internal/server/handlers.go over the stores. */
module ChunkEvents {
  import opened Wrappers
  import opened Models
  import opened Chunking
  import opened Reassembly
  import L = RequestLedger
  import Q = RequestQueue
  import OutboxLog
  import opened Outbox
  import PollPayload
  import opened Rebuild
  import RT = RequestTransfer

  function CursorAt(cursors: map<TransferId, int>, id: Id): int {
    var t := TransferId(id, RequestKind);
    if t in cursors then cursors[t] else 0
  }

  /** The outbox after queueNextChunkEvent: the chunk at the cursor, if the transfer has one there. */
  function WithNextChunk(l: OutboxLog.Log, codec: Codec, req: RelayRequest, chunkSize: int, cursor: int)
    : OutboxLog.Log
  {
    var chunk := RequestChunkAt(codec, req, chunkSize, cursor);
    if chunk.Ok? then OutboxLog.Append(l, OfferEntry(PollPayload.Part(chunk.value))[0]) else l
  }

  method QueueNextChunkEvent(outbox: SqliteOutbox, chunks: SqliteChunks, codec: Codec, chunkSize: int,
                             req: RelayRequest)
    returns (ok: bool)
    requires outbox.Valid()
    modifies outbox
    ensures outbox.Valid()
    ensures ok == (RequestChunkAt(codec, req, chunkSize, CursorAt(chunks.chunkCursors, req.id)) != Err(BadChunkSize))
    ensures outbox.Abs() ==
            WithNextChunk(old(outbox.Abs()), codec, req, chunkSize, CursorAt(chunks.chunkCursors, req.id))
  {
    var nextIndex := 0;
    if TransferId(req.id, RequestKind) in chunks.chunkCursors {
      nextIndex := chunks.chunkCursors[TransferId(req.id, RequestKind)];
    }
    var chunk := RequestChunkAt(codec, req, chunkSize, nextIndex);
    if chunk.Err? {
      return chunk.error.OutOfRange?;
    }
    var _ := outbox.AppendWSOutbox(OfferEntry(PollPayload.Part(chunk.value))[0]);
    return true;
  }

  /** `req` is what GetRequest finds under the receipt's request id. A completed receipt asks for nothing more. */
  method ApplySenderChunkReceiptWS(
    outbox: SqliteOutbox, chunks: SqliteChunks, codec: Codec, chunkSize: int, req: Option<RelayRequest>,
    receipt: ChunkReceipt)
    returns (ok: bool)
    requires outbox.Valid()
    modifies outbox, chunks`chunkCursors
    ensures outbox.Valid() && chunks.chunkCursors == old(chunks.chunkCursors)[receipt.transfer := CursorAfter(receipt)]
    ensures outbox.Abs() == if receipt.completed || req.None? then old(outbox.Abs())
                            else WithNextChunk(old(outbox.Abs()), codec, req.value, chunkSize,
                                               CursorAt(chunks.chunkCursors, req.value.id))
    ensures 0 < chunkSize ==> ok
  {
    chunks.ApplyChunkReceipt(receipt);
    if receipt.completed || req.None? {
      return true;
    }
    ok := QueueNextChunkEvent(outbox, chunks, codec, chunkSize, req.value);
  }

  /** A result chunk that fails to assemble is dropped and reported as handled. */
  method ApplySenderResultChunkWS(
    chunks: SqliteChunks, q: Q.SqliteQueue, codec: Codec, chunk: TransportChunk, now: int, ttl: nat, ghost l: L.Ledger)
    requires 0 < ttl && q.Is(l)
    modifies chunks`inboundChunks, q
    ensures var step := AcceptResult(Sqlite, codec, Visible(old(chunks.inboundChunks), chunk.transfer, now), chunk);
            && Rewritten(old(chunks.inboundChunks), chunks.inboundChunks, chunk.transfer, now, step.state, now + ttl)
            && q.Is(if step.result.Some? then L.StoreResult(l, step.result.value.requestId, now, ttl) else l)
  {
    var result, failed := chunks.StoreInboundResultChunk(codec, chunk, now, ttl);
    if failed || result.None? {
      return;
    }
    q.StoreResult(result.value.requestId, now, ttl, l);
  }

  /** The transfer as the two stores hold it at this instant. */
  ghost function LoopOf(x: RT.Transfer, listener: SqliteChunks, sender: SqliteChunks, released: seq<RelayRequest>,
                        now: int)
    : RT.Loop
    reads listener, sender
  {
    RT.Loop(CursorAt(listener.chunkCursors, x.req.id),
            Visible(sender.inboundChunks, TransferId(x.req.id, RequestKind), now), released)
  }

  /** One exchange that loses nothing: the chunk at the cursor goes out, its receipt comes back. */
  method Exchange(x: RT.Transfer, listener: SqliteChunks, sender: SqliteChunks, released: seq<RelayRequest>, now: int,
                  ttl: nat)
    returns (after: seq<RelayRequest>)
    requires x.backend.Sqlite? && 0 < ttl && listener != sender
    modifies listener`chunkCursors, sender`inboundChunks, sender`chunkReceipts
    ensures LoopOf(x, listener, sender, after, now) == RT.Round(x, old(LoopOf(x, listener, sender, released, now)))
  {
    after := released;
    var nextIndex := 0;
    if TransferId(x.req.id, RequestKind) in listener.chunkCursors {
      nextIndex := listener.chunkCursors[TransferId(x.req.id, RequestKind)];
    }
    var chunk := RequestChunkAt(x.codec, x.req, x.chunkSize, nextIndex);
    if chunk.Err? {
      return;
    }
    var receipt, request := sender.StoreInboundChunk(x.codec, chunk.value, now, ttl);
    listener.ApplyChunkReceipt(receipt);
    if request.Some? {
      after := released + [request.value];
    }
  }
}
