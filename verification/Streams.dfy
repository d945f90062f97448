/** Streams of result chunks on their way to a listener, and what the next chunk of one does to it and to others. */
module Streams {
  import opened Wrappers
  import opened Models
  import opened Chunking
  import opened Reassembly
  import opened ListenerInbound
  import RT = ResultTransfer

  /** The loop of queueSenderResultWS over one result, after its first `done` chunks. */
  datatype Stream = Stream(planned: Planned, done: nat)

  /** The entry for chunk i: only the last one names the request. */
  function ChunkEntry(w: World, p: Planned, i: nat): Entry
    requires 0 < p.chunkSize && i < TransferOf(w, p).Count()
  {
    Entry(if i == TransferOf(w, p).Count() - 1 then p.res.requestId else "", ResultChunk(TransferOf(w, p).ChunkOf(i)))
  }

  ghost predicate Fits(w: World, j: Stream) {
    TransferOf(w, j.planned).Valid() && InPlan(w, j.planned) && j.done < TransferOf(w, j.planned).Count()
  }

  function NextEntry(w: World, j: Stream): Entry
    requires 0 < j.planned.chunkSize && j.done < TransferOf(w, j.planned).Count()
  {
    ChunkEntry(w, j.planned, j.done)
  }

  /** The listener holds at least the first k chunks of this transfer. */
  ghost predicate Ahead(w: World, l: Listener, p: Planned, k: nat)
    requires 0 < p.chunkSize
  {
    var a := Get(l.partial, TransferId(p.res.requestId, ResultKind));
    a.Some? && RT.Honest(TransferOf(w, p), a) && k <= a.value.nextIndex
  }

  /** A listener to which the rest of the stream can go: it holds what went before, or the result. */
  ghost predicate Reached(w: World, l: Listener, j: Stream)
    requires 0 < j.planned.chunkSize
  {
    0 < j.done ==> j.planned.res.requestId in l.stored || Ahead(w, l, j.planned, j.done)
  }

  /** Two streams of one id that may be mixed. On Redis a chunk 0 undoes what the other stream achieved beyond it. */
  ghost predicate Twins(w: World, p: Planned, q: Planned)
    requires 0 < p.chunkSize
  {
    p == q && (w.backend.Sqlite? || TransferOf(w, p).Count() == 2)
  }

  lemma ChunkConforms(w: World, p: Planned, i: nat)
    requires TransferOf(w, p).Valid() && InPlan(w, p) && i < TransferOf(w, p).Count()
    ensures Conforms(w, ChunkEntry(w, p, i))
    ensures TransferOf(w, p).ChunkOf(i).transfer == TransferId(p.res.requestId, ResultKind)
  {
    ChunkContents(w.codec, TransferId(p.res.requestId, ResultKind), TransferOf(w, p).Payload(), p.chunkSize, i);
    if w.backend.Sqlite? {
      assert ChunkOfPlan(w, TransferOf(w, p).ChunkOf(i), p, i);
    }
  }

  /** On SQLite, and on Redis after chunk 0, what is assembled for an id is a prefix of its plan. */
  lemma HonestUnlessFirst(w: World, l: Listener, j: Stream)
    requires Fits(w, j) && Sound(w, l)
    requires 0 < j.done ==> Ahead(w, l, j.planned, j.done)
    ensures var a := Get(l.partial, TransferId(j.planned.res.requestId, ResultKind));
            RT.Honest(TransferOf(w, j.planned), a) || (w.backend.Redis? && j.done == 0)
  {
    var t := TransferId(j.planned.res.requestId, ResultKind);
    assert Get(l.partial, t).Some? ==> t in l.partial;
  }

  /** The next chunk of a stream, when the listener holds the earlier ones. */
  lemma ChunkAdvances(w: World, l: Listener, j: Stream)
    requires Fits(w, j) && Sound(w, l)
    requires 0 < j.done ==> Ahead(w, l, j.planned, j.done)
    ensures var l' := Handle(w.backend, w.codec, l, NextEntry(w, j));
            if j.done + 1 < TransferOf(w, j.planned).Count() then Ahead(w, l', j.planned, j.done + 1)
            else j.planned.res.requestId in l'.stored
  {
    var x, k := TransferOf(w, j.planned), j.done;
    var t := TransferId(j.planned.res.requestId, ResultKind);
    var a := Get(l.partial, t);
    ChunkContents(w.codec, t, x.Payload(), j.planned.chunkSize, k);
    HonestUnlessFirst(w, l, j);
    if k == 0 && w.backend.Redis? {
      RT.HonestStep(w.backend, x, None, 0);
      assert AcceptResult(Redis, w.codec, a, x.ChunkOf(0)) == AcceptResult(Redis, w.codec, None, x.ChunkOf(0));
    } else {
      RT.HonestStep(w.backend, x, a, k);
    }
  }

  /** So a stream stays reached as it is queued, and ends with the result stored. */
  lemma StreamAdvances(w: World, l: Listener, j: Stream)
    requires Fits(w, j) && Sound(w, l) && Reached(w, l, j)
    ensures var l' := Handle(w.backend, w.codec, l, NextEntry(w, j));
            if j.done + 1 < TransferOf(w, j.planned).Count() then Reached(w, l', j.(done := j.done + 1))
            else j.planned.res.requestId in l'.stored
  {
    if j.planned.res.requestId !in l.stored {
      ChunkAdvances(w, l, j);
    }
  }

  /** The next chunk of a stream leaves its twin reached. */
  lemma TwinKeeps(w: World, l: Listener, j: Stream, other: Stream)
    requires Fits(w, j) && Fits(w, other) && Twins(w, j.planned, other.planned)
    requires Sound(w, l) && Reached(w, l, j) && Reached(w, l, other)
    ensures Reached(w, Handle(w.backend, w.codec, l, NextEntry(w, j)), other)
  {
    var x, k := TransferOf(w, j.planned), j.done;
    var t := TransferId(j.planned.res.requestId, ResultKind);
    if j.planned.res.requestId !in l.stored && 0 < other.done {
      ChunkContents(w.codec, t, x.Payload(), j.planned.chunkSize, k);
      RT.HonestStep(w.backend, x, Get(l.partial, t), k);
    }
  }

  /** An entry of another transfer leaves a stream reached. */
  lemma OthersKeep(w: World, l: Listener, e: Entry, j: Stream)
    requires 0 < j.planned.chunkSize && Reached(w, l, j)
    requires e.body.ResultChunk? ==> e.body.resultChunk.transfer != TransferId(j.planned.res.requestId, ResultKind)
    ensures Reached(w, Handle(w.backend, w.codec, l, e), j)
  {
  }
}
