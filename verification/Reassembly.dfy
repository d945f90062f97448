/** The two reassembly machines of internal/store/redis_chunks.go and internal/store/sqlite_chunks.go. */
module Reassembly {
  import opened Wrappers
  import opened Models
  import opened Chunking

  datatype Assembly = Assembly(
    requestId: Id, nextIndex: int, total: int, checksum: string, totalSize: int, data: Bytes)

  /** Redis skips the comparison when the stored checksum is the empty string. */
  predicate Conflicts(b: Backend, a: Assembly, c: TransportChunk) {
    ((b.Sqlite? || a.checksum != "") && a.checksum != c.checksum) || a.total != c.total
  }

  function NextIndex(a: Option<Assembly>): int {
    if a.Some? then a.value.nextIndex else 0
  }

  function Data(a: Option<Assembly>): Bytes {
    if a.Some? then a.value.data else []
  }

  function Extend(a: Option<Assembly>, c: TransportChunk, piece: Bytes): Assembly {
    Assembly(c.requestId, NextIndex(a) + 1, c.total, c.checksum, c.totalSize, Data(a) + piece)
  }

  /** The reassembled bytes have the announced size and checksum. */
  predicate Intact(codec: Codec, data: Bytes, c: TransportChunk) {
    |data| == c.totalSize && codec.sha(data) == c.checksum
  }

  /** The assembly holds the first nextIndex chunks, at least one and not all, of this very payload. */
  predicate HoldsPrefix(codec: Codec, data: Bytes, chunkSize: int, a: Assembly)
    requires 0 < chunkSize
  {
    && 0 < a.nextIndex < Total(|data|, chunkSize) == a.total
    && a.checksum == codec.sha(data)
    && Cut(|data|, chunkSize, a.nextIndex) <= |data|
    && a.data == data[..Cut(|data|, chunkSize, a.nextIndex)]
  }

  /** What every stored row satisfies: it is written only while chunks are still missing. */
  ghost predicate Stored(a: Option<Assembly>) {
    a.Some? ==> 0 < a.value.nextIndex < a.value.total
  }

  /** Appending the piece an honest assembly waits for lengthens its prefix; the last piece completes it. */
  lemma PrefixGrows(data: Bytes, chunkSize: int, i: nat)
    requires 0 < chunkSize && i < Total(|data|, chunkSize)
    ensures Cut(|data|, chunkSize, 0) == 0
    ensures Cut(|data|, chunkSize, i) <= Cut(|data|, chunkSize, i + 1) <= |data|
    ensures data[..Cut(|data|, chunkSize, i)] + Piece(data, chunkSize, i) == data[..Cut(|data|, chunkSize, i + 1)]
    ensures i + 1 == Total(|data|, chunkSize) ==>
              data[..Cut(|data|, chunkSize, i)] + Piece(data, chunkSize, i) == data
  {
    CutStep(data, chunkSize, i);
    CutTotal(|data|, chunkSize);
    assert data[..|data|] == data;
  }

  // ------------------------------------------------------------ request chunks

  datatype RequestStep = RequestStep(state: Option<Assembly>, receipt: ChunkReceipt, request: Option<RelayRequest>)

  function ResetStep(c: TransportChunk): RequestStep {
    RequestStep(None, ChunkReceipt(c.transfer, c.requestId, 0, false, true), None)
  }

  function AcceptRequest(b: Backend, codec: Codec, a: Option<Assembly>, c: TransportChunk): RequestStep {
    var next := NextIndex(a);
    if a.Some? && Conflicts(b, a.value, c) then ResetStep(c)
    else if c.index < next then
      RequestStep(a, ChunkReceipt(c.transfer, c.requestId, next, next >= c.total, false), None)
    else if c.index > next || c.payload.None? then ResetStep(c)
    else
      var grown := Extend(a, c, c.payload.value);
      var receipt := ChunkReceipt(c.transfer, c.requestId, next + 1, next + 1 >= c.total, false);
      if next + 1 < c.total then RequestStep(Some(grown), receipt, None)
      else if !Intact(codec, grown.data, c) || codec.parseRequest(grown.data).None? then ResetStep(c)
      else RequestStep(None, receipt, codec.parseRequest(grown.data))
  }

  // ------------------------------------------------------------ result chunks

  datatype ResultStep = ResultStep(state: Option<Assembly>, result: Option<RelayResult>, failed: bool)

  /** Redis discards the stored state when chunk 0 arrives; SQLite does not. */
  function Restarted(b: Backend, a: Option<Assembly>, c: TransportChunk): Option<Assembly> {
    if b.Redis? && c.index == 0 then None else a
  }

  function AcceptResult(b: Backend, codec: Codec, stored: Option<Assembly>, c: TransportChunk): ResultStep {
    var a := Restarted(b, stored, c);
    var next := NextIndex(a);
    if a.Some? && Conflicts(b, a.value, c) then ResultStep(None, None, true)
    else if c.index < next then ResultStep(a, None, false)
    else if c.index > next then ResultStep(None, None, true)
    else if c.payload.None? then ResultStep(a, None, true)
    else
      var grown := Extend(a, c, c.payload.value);
      if next + 1 < c.total then ResultStep(Some(grown), None, false)
      else if !Intact(codec, grown.data, c) || codec.parseResult(grown.data).None? then ResultStep(None, None, true)
      else ResultStep(None, codec.parseResult(grown.data), false)
  }

  /** What ApplyChunkReceipt writes into the cursor. */
  function CursorAfter(r: ChunkReceipt): int {
    if r.reset then 0 else r.nextIndex
  }

  // ------------------------------------------------------------ the stores

  /** A stored assembly and the second at which it expires. */
  datatype Row = Row(assembly: Assembly, expiresAt: int)

  predicate Unexpired(rows: map<TransferId, Row>, t: TransferId, now: int) {
    t in rows && rows[t].expiresAt > now
  }

  function Visible(rows: map<TransferId, Row>, t: TransferId, now: int): Option<Assembly> {
    if Unexpired(rows, t, now) then Some(rows[t].assembly) else None
  }

  /** Only transfer t changed, it now reads as `state`, and a changed state lives until `deadline`. */
  ghost predicate Rewritten(
    before: map<TransferId, Row>, after: map<TransferId, Row>, t: TransferId, now: int, state: Option<Assembly>,
    deadline: int)
  {
    && after - {t} == before - {t}
    && Visible(after, t, now) == state
    && (state.Some? && state != Visible(before, t, now) ==> t in after && after[t].expiresAt == deadline)
  }

  function WithoutNames(receipts: map<TransferId, ChunkReceipt>, names: set<string>): map<TransferId, ChunkReceipt> {
    map t | t in receipts && TransferName(t) !in names :: receipts[t]
  }

  class SqliteChunks {
    var inboundChunks: map<TransferId, Row>
    var chunkReceipts: map<TransferId, ChunkReceipt>
    var chunkCursors: map<TransferId, int>

    constructor ()
      ensures inboundChunks == map[] && chunkReceipts == map[] && chunkCursors == map[]
    {
      inboundChunks, chunkReceipts, chunkCursors := map[], map[], map[];
    }

    method ResetInboundChunk(chunk: TransportChunk) returns (receipt: ChunkReceipt)
      modifies this`inboundChunks, this`chunkReceipts
      ensures receipt == ResetStep(chunk).receipt
      ensures inboundChunks == old(inboundChunks) - {chunk.transfer}
      ensures chunkReceipts == old(chunkReceipts)[chunk.transfer := receipt]
    {
      inboundChunks := inboundChunks - {chunk.transfer};
      receipt := ChunkReceipt(chunk.transfer, chunk.requestId, 0, false, true);
      chunkReceipts := chunkReceipts[chunk.transfer := receipt];
    }

    method StoreInboundChunk(codec: Codec, chunk: TransportChunk, now: int, ttl: nat)
      returns (receipt: ChunkReceipt, request: Option<RelayRequest>)
      requires 0 < ttl
      modifies this`inboundChunks, this`chunkReceipts
      ensures var step := AcceptRequest(Sqlite, codec, Visible(old(inboundChunks), chunk.transfer, now), chunk);
              && receipt == step.receipt && request == step.request
              && Rewritten(old(inboundChunks), inboundChunks, chunk.transfer, now, step.state, now + ttl)
              && chunkReceipts == old(chunkReceipts)[chunk.transfer := step.receipt]
    {
      request := None;
      var nextIndex, data := 0, [];
      if Unexpired(inboundChunks, chunk.transfer, now) {
        var row := inboundChunks[chunk.transfer].assembly;
        nextIndex, data := row.nextIndex, row.data;
        if row.checksum != chunk.checksum || row.total != chunk.total {
          receipt := ResetInboundChunk(chunk);
          return;
        }
      }
      if chunk.index < nextIndex {
        receipt := ChunkReceipt(chunk.transfer, chunk.requestId, nextIndex, nextIndex >= chunk.total, false);
        chunkReceipts := chunkReceipts[chunk.transfer := receipt];
        return;
      }
      if chunk.index > nextIndex || chunk.payload.None? {
        receipt := ResetInboundChunk(chunk);
        return;
      }
      data := data + chunk.payload.value;
      nextIndex := nextIndex + 1;
      var grown := Assembly(chunk.requestId, nextIndex, chunk.total, chunk.checksum, chunk.totalSize, data);
      receipt := ChunkReceipt(chunk.transfer, chunk.requestId, nextIndex, nextIndex >= chunk.total, false);
      if nextIndex < chunk.total {
        inboundChunks := inboundChunks[chunk.transfer := Row(grown, now + ttl)];
        chunkReceipts := chunkReceipts[chunk.transfer := receipt];
        return;
      }
      if |data| != chunk.totalSize || codec.sha(data) != chunk.checksum {
        receipt := ResetInboundChunk(chunk);
        return;
      }
      request := codec.parseRequest(data);
      if request.None? {
        receipt := ResetInboundChunk(chunk);
        return;
      }
      inboundChunks := inboundChunks - {chunk.transfer};
      chunkReceipts := chunkReceipts[chunk.transfer := receipt];
    }

    method StoreInboundResultChunk(codec: Codec, chunk: TransportChunk, now: int, ttl: nat)
      returns (result: Option<RelayResult>, failed: bool)
      requires 0 < ttl
      modifies this`inboundChunks
      ensures var step := AcceptResult(Sqlite, codec, Visible(old(inboundChunks), chunk.transfer, now), chunk);
              && result == step.result && failed == step.failed
              && Rewritten(old(inboundChunks), inboundChunks, chunk.transfer, now, step.state, now + ttl)
    {
      result, failed := None, false;
      var nextIndex, data := 0, [];
      if Unexpired(inboundChunks, chunk.transfer, now) {
        var row := inboundChunks[chunk.transfer].assembly;
        nextIndex, data := row.nextIndex, row.data;
        if row.checksum != chunk.checksum || row.total != chunk.total {
          inboundChunks := inboundChunks - {chunk.transfer};
          failed := true;
          return;
        }
      }
      if chunk.index < nextIndex {
        return;
      }
      if chunk.index > nextIndex {
        inboundChunks := inboundChunks - {chunk.transfer};
        failed := true;
        return;
      }
      if chunk.payload.None? {
        failed := true;
        return;
      }
      data := data + chunk.payload.value;
      nextIndex := nextIndex + 1;
      if nextIndex < chunk.total {
        var grown := Assembly(chunk.requestId, nextIndex, chunk.total, chunk.checksum, chunk.totalSize, data);
        inboundChunks := inboundChunks[chunk.transfer := Row(grown, now + ttl)];
        return;
      }
      inboundChunks := inboundChunks - {chunk.transfer};
      if |data| != chunk.totalSize || codec.sha(data) != chunk.checksum {
        failed := true;
        return;
      }
      result := codec.parseResult(data);
      failed := result.None?;
    }

    method DeleteChunkReceipt(name: string)
      modifies this`chunkReceipts
      ensures chunkReceipts == WithoutNames(old(chunkReceipts), {name})
    {
      chunkReceipts := WithoutNames(chunkReceipts, {name});
    }

    method ApplyChunkReceipt(receipt: ChunkReceipt)
      modifies this`chunkCursors
      ensures chunkCursors == old(chunkCursors)[receipt.transfer := CursorAfter(receipt)]
    {
      var nextIndex := receipt.nextIndex;
      if receipt.reset {
        nextIndex := 0;
      }
      chunkCursors := chunkCursors[receipt.transfer := nextIndex];
    }
  }

  class RedisChunks {
    var inboundChunks: map<TransferId, Row>
    var chunkReceipts: map<TransferId, ChunkReceipt>
    var chunkCursors: map<TransferId, int>

    constructor ()
      ensures inboundChunks == map[] && chunkReceipts == map[] && chunkCursors == map[]
    {
      inboundChunks, chunkReceipts, chunkCursors := map[], map[], map[];
    }

    method ResetInboundChunk(chunk: TransportChunk) returns (receipt: ChunkReceipt)
      modifies this`inboundChunks, this`chunkReceipts
      ensures receipt == ResetStep(chunk).receipt
      ensures inboundChunks == old(inboundChunks) - {chunk.transfer}
      ensures chunkReceipts == old(chunkReceipts)[chunk.transfer := receipt]
    {
      inboundChunks := inboundChunks - {chunk.transfer};
      receipt := ChunkReceipt(chunk.transfer, chunk.requestId, 0, false, true);
      chunkReceipts := chunkReceipts[chunk.transfer := receipt];
    }

    /** Redis refuses a chunk that names no request; SQLite accepts it. */
    method StoreInboundChunk(codec: Codec, chunk: TransportChunk, now: int, ttl: nat)
      returns (accepted: bool, receipt: ChunkReceipt, request: Option<RelayRequest>)
      requires 0 < ttl
      modifies this`inboundChunks, this`chunkReceipts
      ensures accepted == (chunk.transfer.requestId != "" && chunk.requestId != "")
      ensures !accepted ==> inboundChunks == old(inboundChunks) && chunkReceipts == old(chunkReceipts)
      ensures accepted ==>
                var step := AcceptRequest(Redis, codec, Visible(old(inboundChunks), chunk.transfer, now), chunk);
                && receipt == step.receipt && request == step.request
                && Rewritten(old(inboundChunks), inboundChunks, chunk.transfer, now, step.state, now + ttl)
                && chunkReceipts == old(chunkReceipts)[chunk.transfer := step.receipt]
    {
      request := None;
      receipt := ChunkReceipt(chunk.transfer, chunk.requestId, 0, false, false);
      accepted := chunk.transfer.requestId != "" && chunk.requestId != "";
      if !accepted {
        return;
      }
      var nextIndex, data := 0, [];
      if Unexpired(inboundChunks, chunk.transfer, now) {
        var state := inboundChunks[chunk.transfer].assembly;
        nextIndex, data := state.nextIndex, state.data;
        if (state.checksum != "" && state.checksum != chunk.checksum) || state.total != chunk.total {
          receipt := ResetInboundChunk(chunk);
          return;
        }
      }
      if chunk.index < nextIndex {
        receipt := ChunkReceipt(chunk.transfer, chunk.requestId, nextIndex, nextIndex >= chunk.total, false);
        chunkReceipts := chunkReceipts[chunk.transfer := receipt];
        return;
      }
      if chunk.index > nextIndex || chunk.payload.None? {
        receipt := ResetInboundChunk(chunk);
        return;
      }
      data := data + chunk.payload.value;
      nextIndex := nextIndex + 1;
      receipt := ChunkReceipt(chunk.transfer, chunk.requestId, nextIndex, nextIndex >= chunk.total, false);
      if nextIndex < chunk.total {
        var grown := Assembly(chunk.requestId, nextIndex, chunk.total, chunk.checksum, chunk.totalSize, data);
        inboundChunks := inboundChunks[chunk.transfer := Row(grown, now + ttl)];
        chunkReceipts := chunkReceipts[chunk.transfer := receipt];
        return;
      }
      if |data| != chunk.totalSize || codec.sha(data) != chunk.checksum {
        receipt := ResetInboundChunk(chunk);
        return;
      }
      request := codec.parseRequest(data);
      if request.None? {
        receipt := ResetInboundChunk(chunk);
        return;
      }
      inboundChunks := inboundChunks - {chunk.transfer};
      chunkReceipts := chunkReceipts[chunk.transfer := receipt];
    }

    method StoreInboundResultChunk(codec: Codec, chunk: TransportChunk, now: int, ttl: nat)
      returns (result: Option<RelayResult>, failed: bool)
      requires 0 < ttl
      modifies this`inboundChunks
      ensures var step := AcceptResult(Redis, codec, Visible(old(inboundChunks), chunk.transfer, now), chunk);
              && result == step.result && failed == step.failed
              && Rewritten(old(inboundChunks), inboundChunks, chunk.transfer, now, step.state, now + ttl)
    {
      result, failed := None, false;
      if chunk.index == 0 {
        inboundChunks := inboundChunks - {chunk.transfer};
      }
      var nextIndex, data := 0, [];
      if Unexpired(inboundChunks, chunk.transfer, now) {
        var state := inboundChunks[chunk.transfer].assembly;
        nextIndex, data := state.nextIndex, state.data;
        if (state.checksum != "" && state.checksum != chunk.checksum) || state.total != chunk.total {
          inboundChunks := inboundChunks - {chunk.transfer};
          failed := true;
          return;
        }
      }
      if chunk.index < nextIndex {
        return;
      }
      if chunk.index > nextIndex {
        inboundChunks := inboundChunks - {chunk.transfer};
        failed := true;
        return;
      }
      if chunk.payload.None? {
        failed := true;
        return;
      }
      data := data + chunk.payload.value;
      nextIndex := nextIndex + 1;
      if nextIndex < chunk.total {
        var grown := Assembly(chunk.requestId, nextIndex, chunk.total, chunk.checksum, chunk.totalSize, data);
        inboundChunks := inboundChunks[chunk.transfer := Row(grown, now + ttl)];
        return;
      }
      inboundChunks := inboundChunks - {chunk.transfer};
      if |data| != chunk.totalSize || codec.sha(data) != chunk.checksum {
        failed := true;
        return;
      }
      result := codec.parseResult(data);
      failed := result.None?;
    }

    method ApplyChunkReceipt(receipt: ChunkReceipt)
      modifies this`chunkCursors
      ensures chunkCursors == old(chunkCursors)[receipt.transfer := CursorAfter(receipt)]
    {
      var nextIndex := receipt.nextIndex;
      if receipt.reset {
        nextIndex := 0;
      }
      chunkCursors := chunkCursors[receipt.transfer := nextIndex];
    }
  }
}
