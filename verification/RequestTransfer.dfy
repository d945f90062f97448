/**
  A chunked request: the listener sends the chunk its cursor names, the sender's reassembly answers
  with a receipt, and the receipt moves the cursor.
 */
module RequestTransfer {
  import opened Wrappers
  import opened Models
  import opened Chunking
  import opened Reassembly

  /** One request being transferred with one chunk size. */
  datatype Transfer = Transfer(backend: Backend, codec: Codec, req: RelayRequest, chunkSize: int) {
    ghost predicate Valid() {
      0 < chunkSize && codec.parseRequest(codec.marshalRequest(req)) == Some(req)
    }

    function Payload(): Bytes {
      codec.marshalRequest(req)
    }

    function Count(): int
      requires 0 < chunkSize
    {
      Total(|Payload()|, chunkSize)
    }

    function ChunkOf(i: nat): TransportChunk
      requires 0 < chunkSize && i < Count()
    {
      Chunk(codec, TransferId(req.id, RequestKind), Payload(), chunkSize, i)
    }

    function Accept(a: Option<Assembly>, i: nat): RequestStep
      requires 0 < chunkSize && i < Count()
    {
      AcceptRequest(backend, codec, a, ChunkOf(i))
    }
  }

  /** The buffer is missing, or holds the first nextIndex chunks of this very payload. */
  predicate Honest(x: Transfer, a: Option<Assembly>)
    requires 0 < x.chunkSize
  {
    a.Some? ==> HoldsPrefix(x.codec, x.Payload(), x.chunkSize, a.value)
  }

  /** What one chunk does to an honest buffer: ignored, appended, released or reset. */
  lemma HonestStep(x: Transfer, a: Option<Assembly>, i: nat)
    requires x.Valid() && Honest(x, a) && i < x.Count()
    ensures var next, step := NextIndex(a), x.Accept(a, i);
            && Honest(x, step.state)
            && (i < next ==>
                  && step.state == a && !step.receipt.reset
                  && step.receipt.nextIndex == next && !step.receipt.completed)
            && (i > next ==> step.state == None && step.receipt.reset)
            && (i == next ==> NextIndex(step.state) == (if next + 1 < x.Count() then next + 1 else 0)
                              && !step.receipt.reset && step.receipt.nextIndex == next + 1
                              && (step.receipt.completed <==> next + 1 == x.Count()))
            && step.request == (if i == next == x.Count() - 1 then Some(x.req) else None)
  {
    var data, next := x.Payload(), NextIndex(a);
    ChunkContents(x.codec, TransferId(x.req.id, RequestKind), data, x.chunkSize, i);
    if i == next {
      PrefixGrows(data, x.chunkSize, i);
      assert Data(a) == data[..Cut(|data|, x.chunkSize, i)];
    }
  }

  // ------------------------------------------------------------ any delivery order

  /** A chunk arrives (in any order, any number of times), or the buffer is deleted. */
  datatype Event = Arrive(index: nat) | Forget

  ghost predicate InRange(x: Transfer, events: seq<Event>)
    requires 0 < x.chunkSize
  {
    forall k :: 0 <= k < |events| && events[k].Arrive? ==> events[k].index < x.Count()
  }

  function BufferAfter(x: Transfer, events: seq<Event>): Option<Assembly>
    requires 0 < x.chunkSize
    requires forall k :: 0 <= k < |events| && events[k].Arrive? ==> events[k].index < x.Count()
  {
    if events == [] then None
    else
      var before := BufferAfter(x, events[..|events| - 1]);
      match events[|events| - 1]
      case Forget => None
      case Arrive(i) => x.Accept(before, i).state
  }

  function ReleasedBy(x: Transfer, events: seq<Event>): Option<RelayRequest>
    requires 0 < x.chunkSize && events != []
    requires forall k :: 0 <= k < |events| && events[k].Arrive? ==> events[k].index < x.Count()
  {
    match events[|events| - 1]
    case Forget => None
    case Arrive(i) => x.Accept(BufferAfter(x, events[..|events| - 1]), i).request
  }

  /**
    Whatever the order, duplication and interleaved resets: the buffer is the payload prefix its
    index announces, and a request comes out exactly when the last chunk meets a buffer holding all
    the others, and then it is the original request.
   */
  lemma {:induction false} BufferIsPrefix(x: Transfer, events: seq<Event>)
    requires x.Valid() && InRange(x, events)
    ensures Honest(x, BufferAfter(x, events))
    ensures events != [] ==>
              var last, before := events[|events| - 1], BufferAfter(x, events[..|events| - 1]);
              ReleasedBy(x, events) ==
              if last == Arrive(x.Count() - 1) && NextIndex(before) == x.Count() - 1 then Some(x.req) else None
  {
    if events != [] {
      BufferIsPrefix(x, events[..|events| - 1]);
      match events[|events| - 1] {
        case Forget =>
        case Arrive(i) => HonestStep(x, BufferAfter(x, events[..|events| - 1]), i);
      }
    }
  }

  /**
    Even from a buffer filled by anything at all, and from a chunk of any chunk size, a collision-free
    checksum releases nothing but the original request.
   */
  lemma ReleaseIsIntact(x: Transfer, a: Option<Assembly>, i: nat)
    requires x.Valid() && x.codec.CollisionFree() && i < x.Count()
    ensures x.Accept(a, i).request.Some? ==> x.Accept(a, i).request == Some(x.req)
  {
    ChunkContents(x.codec, TransferId(x.req.id, RequestKind), x.Payload(), x.chunkSize, i);
    if x.Accept(a, i).request.Some? {
      var data := Extend(a, x.ChunkOf(i), x.ChunkOf(i).payload.value).data;
      assert x.codec.sha(data) == x.codec.sha(x.Payload());
    }
  }

  // ------------------------------------------------------------ the cursor loop stabilises

  /** The listener's cursor, the sender's buffer, and the requests released so far. */
  datatype Loop = Loop(cursor: int, buffer: Option<Assembly>, released: seq<RelayRequest>)

  /** One round without loss: queueNextChunkEvent, StoreInboundChunk, ApplyChunkReceipt. */
  function Round(x: Transfer, s: Loop): Loop {
    match RequestChunkAt(x.codec, x.req, x.chunkSize, s.cursor)
    case Err(_) => s
    case Ok(chunk) =>
      var step := AcceptRequest(x.backend, x.codec, s.buffer, chunk);
      Loop(CursorAfter(step.receipt), step.state,
           if step.request.Some? then s.released + [step.request.value] else s.released)
  }

  function Rounds(x: Transfer, s: Loop, k: nat): Loop
    decreases k
  {
    if k == 0 then s else Rounds(x, Round(x, s), k - 1)
  }

  ghost predicate Conflicting(x: Transfer, a: Option<Assembly>)
    requires 0 < x.chunkSize && 0 < x.Count()
  {
    a.Some? && Conflicts(x.backend, a.value, x.ChunkOf(0))
  }

  /** The buffer may hold anything; only wrong bytes under the right checksum and total need collision-freedom. */
  ghost predicate Recoverable(x: Transfer, s: Loop)
    requires 0 < x.chunkSize && 0 < x.Count()
  {
    && 0 <= s.cursor < x.Count()
    && Stored(s.buffer)
    && (Honest(x, s.buffer) || Conflicting(x, s.buffer) || x.codec.CollisionFree())
  }

  /** The number of rounds until the request is released. */
  ghost function RoundsNeeded(x: Transfer, s: Loop): nat
    requires 0 < x.chunkSize && 0 < x.Count() && Recoverable(x, s)
  {
    var n, next := x.Count(), NextIndex(s.buffer);
    if Conflicting(x, s.buffer) || s.cursor > next then n + 1
    else
      var catchUp := if s.cursor < next then 1 else 0;
      if BytesMatch(x, s.buffer) then catchUp + (n - next) else catchUp + (n - next) + n
  }

  /** The bytes in the buffer are the payload's, whatever the row claims about them. */
  ghost predicate BytesMatch(x: Transfer, a: Option<Assembly>)
    requires 0 < x.chunkSize && 0 < x.Count()
  {
    a.Some? && 0 <= a.value.nextIndex < x.Count() ==>
      && Cut(|x.Payload()|, x.chunkSize, a.value.nextIndex) <= |x.Payload()|
      && a.value.data == x.Payload()[..Cut(|x.Payload()|, x.chunkSize, a.value.nextIndex)]
  }

  /** A round either releases the request, when one round was needed, or takes one off the count. */
  lemma RoundDecreases(x: Transfer, s: Loop)
    requires x.Valid()
    requires 0 < x.Count() && Recoverable(x, s)
    ensures RoundsNeeded(x, s) > 0
    ensures RoundsNeeded(x, s) == 1 ==> Round(x, s) == Loop(x.Count(), None, s.released + [x.req])
    ensures RoundsNeeded(x, s) > 1 ==>
              && Recoverable(x, Round(x, s)) && RoundsNeeded(x, Round(x, s)) == RoundsNeeded(x, s) - 1
              && Round(x, s).released == s.released
  {
    var data, next, i := x.Payload(), NextIndex(s.buffer), s.cursor;
    ChunkContents(x.codec, TransferId(x.req.id, RequestKind), data, x.chunkSize, i);
    ChunkContents(x.codec, TransferId(x.req.id, RequestKind), data, x.chunkSize, 0);
    if !Conflicting(x, s.buffer) && i == next {
      GrowBytes(x, s.buffer);
    }
  }

  /** Appending the expected chunk keeps right bytes right and wrong bytes wrong. */
  lemma GrowBytes(x: Transfer, a: Option<Assembly>)
    requires x.Valid() && Stored(a) && NextIndex(a) < x.Count()
    ensures Cut(|x.Payload()|, x.chunkSize, NextIndex(a)) <= |x.Payload()|
    ensures Cut(|x.Payload()|, x.chunkSize, NextIndex(a) + 1) <= |x.Payload()|
    ensures var grown := Data(a) + Piece(x.Payload(), x.chunkSize, NextIndex(a));
            && (grown == x.Payload()[..Cut(|x.Payload()|, x.chunkSize, NextIndex(a) + 1)] <==> BytesMatch(x, a))
            && (NextIndex(a) + 1 == x.Count() ==> (grown == x.Payload() <==> BytesMatch(x, a)))
  {
    var data, next := x.Payload(), NextIndex(a);
    PrefixGrows(data, x.chunkSize, next);
    SameSuffix(Data(a), data[..Cut(|data|, x.chunkSize, next)], Piece(data, x.chunkSize, next));
  }

  lemma SameSuffix(a: Bytes, b: Bytes, c: Bytes)
    ensures a + c == b + c <==> a == b
  {
    if a + c == b + c {
      assert |a + c| == |a| + |c| && |b + c| == |b| + |c|;
      assert a == (a + c)[..|a|] && b == (b + c)[..|b|];
    }
  }

  /** The count is at most total + 1, and at most twice the total when the buffer may be garbage. */
  lemma RoundsBound(x: Transfer, s: Loop)
    requires 0 < x.chunkSize && 0 < x.Count() && Recoverable(x, s)
    ensures Honest(x, s.buffer) || Conflicting(x, s.buffer) ==> RoundsNeeded(x, s) <= x.Count() + 1
    ensures RoundsNeeded(x, s) <= 2 * x.Count()
  {
  }

  /** The request is released in round RoundsNeeded, not before, once, and intact. */
  lemma {:induction false} Stabilises(x: Transfer, s: Loop, k: nat)
    requires x.Valid()
    requires 0 < x.Count() && Recoverable(x, s)
    ensures Rounds(x, s, k).released ==
            if k < RoundsNeeded(x, s) then s.released else s.released + [x.req]
    decreases k
  {
    if k > 0 {
      RoundDecreases(x, s);
      if RoundsNeeded(x, s) == 1 {
        StaysDone(x, Round(x, s), k - 1);
      } else {
        Stabilises(x, Round(x, s), k - 1);
      }
    } else {
      RoundDecreases(x, s);
    }
  }

  /** Once the cursor has reached the total, nothing is sent any more. */
  lemma {:induction false} StaysDone(x: Transfer, s: Loop, k: nat)
    requires 0 < x.chunkSize && s.cursor == x.Count()
    ensures Rounds(x, s, k) == s
  {
    if k > 0 {
      ChunkContents(x.codec, TransferId(x.req.id, RequestKind), x.Payload(), x.chunkSize, s.cursor);
      StaysDone(x, s, k - 1);
    }
  }
}
