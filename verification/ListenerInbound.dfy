/** What the listener does with one message from the sender: internal/server/websocket.go handleInbound. */
module ListenerInbound {
  import opened Wrappers
  import opened Models
  import opened Chunking
  import opened Reassembly
  import RT = ResultTransfer

  /** `stored` are the ids a result was stored for at some time, whether or not it expired since. */
  datatype Listener = Listener(partial: map<TransferId, Assembly>, stored: set<Id>)

  function Emitted(r: Option<RelayResult>): set<Id> {
    if r.Some? then {r.value.requestId} else {}
  }

  /** A chunk that fails to assemble is discarded, and its message is acknowledged all the same. */
  function Handle(b: Backend, codec: Codec, l: Listener, e: Entry): Listener {
    match e.body
    case Result(r) => l.(stored := l.stored + {r.requestId})
    case ResultChunk(c) =>
      var step := AcceptResult(b, codec, Get(l.partial, c.transfer), c);
      Listener(Put(l.partial, c.transfer, step.state), l.stored + Emitted(step.result))
    case _ => l
  }

  /** The result ids the sender deletes when this entry is acknowledged: handleSenderOutboxAck. */
  function Releases(e: Entry): set<Id> {
    if (e.body.Result? || e.body.ResultChunk?) && e.refId != "" then {e.refId} else {}
  }

  function HandleAll(b: Backend, codec: Codec, l: Listener, msgs: seq<OutMsg>): Listener
    decreases |msgs|
  {
    if msgs == [] then l else HandleAll(b, codec, Handle(b, codec, l, msgs[0].entry), msgs[1..])
  }

  /** Handling these messages one by one, each leaves stored what its acknowledgement releases. */
  ghost predicate Safe(b: Backend, codec: Codec, l: Listener, msgs: seq<OutMsg>)
    decreases |msgs|
  {
    msgs != [] ==>
      var l' := Handle(b, codec, l, msgs[0].entry);
      Releases(msgs[0].entry) <= l'.stored && Safe(b, codec, l', msgs[1..])
  }

  lemma {:induction false} HandleAllAppend(b: Backend, codec: Codec, l: Listener, msgs: seq<OutMsg>, m: OutMsg)
    ensures HandleAll(b, codec, l, msgs + [m]) == Handle(b, codec, HandleAll(b, codec, l, msgs), m.entry)
    ensures Safe(b, codec, l, msgs + [m]) <==>
            Safe(b, codec, l, msgs) && Releases(m.entry) <= HandleAll(b, codec, l, msgs + [m]).stored
    decreases |msgs|
  {
    if msgs == [] {
      assert [m][1..] == [];
    } else {
      assert (msgs + [m])[1..] == msgs[1..] + [m];
      HandleAllAppend(b, codec, Handle(b, codec, l, msgs[0].entry), msgs[1..], m);
    }
  }

  lemma {:induction false} SafePrefix(b: Backend, codec: Codec, l: Listener, msgs: seq<OutMsg>, fewer: seq<OutMsg>)
    requires Safe(b, codec, l, msgs) && fewer <= msgs
    ensures Safe(b, codec, l, fewer)
    decreases |msgs|
  {
    if fewer != [] {
      SafePrefix(b, codec, Handle(b, codec, l, msgs[0].entry), msgs[1..], fewer[1..]);
    }
  }

  /** Results stored by other means do no harm. */
  lemma {:induction false} MoreStored(b: Backend, codec: Codec, l: Listener, msgs: seq<OutMsg>, more: set<Id>)
    ensures HandleAll(b, codec, l.(stored := l.stored + more), msgs) ==
            var l' := HandleAll(b, codec, l, msgs); l'.(stored := l'.stored + more)
    ensures Safe(b, codec, l, msgs) ==> Safe(b, codec, l.(stored := l.stored + more), msgs)
    decreases |msgs|
  {
    if msgs != [] {
      var l' := Handle(b, codec, l, msgs[0].entry);
      assert Handle(b, codec, l.(stored := l.stored + more), msgs[0].entry) == l'.(stored := l'.stored + more);
      MoreStored(b, codec, l', msgs[1..], more);
    }
  }

  // ------------------------------------------------------------ plans

  datatype Planned = Planned(res: RelayResult, chunkSize: int)

  /**
    The sender's side of the bargain. On SQLite every transfer id must always stand for the same bytes
    and chunk size, its plan; on Redis nothing is asked.
   */
  datatype World = World(backend: Backend, codec: Codec, plan: map<Id, Planned>)

  function TransferOf(w: World, p: Planned): RT.Transfer {
    RT.Transfer(w.codec, p.res, p.chunkSize)
  }

  ghost predicate InPlan(w: World, p: Planned) {
    w.backend.Sqlite? ==> p.res.requestId in w.plan && w.plan[p.res.requestId] == p
  }

  ghost predicate ChunkOfPlan(w: World, c: TransportChunk, p: Planned, i: nat) {
    && TransferOf(w, p).Valid() && i < TransferOf(w, p).Count()
    && c == TransferOf(w, p).ChunkOf(i)
  }

  /** On SQLite, a result chunk in transit is a chunk of its id's plan. */
  ghost predicate Conforms(w: World, e: Entry) {
    w.backend.Sqlite? && e.body.ResultChunk? ==>
      var c := e.body.resultChunk;
      && c.transfer.requestId in w.plan
      && w.plan[c.transfer.requestId].res.requestId == c.transfer.requestId
      && (exists i: nat :: ChunkOfPlan(w, c, w.plan[c.transfer.requestId], i))
  }

  /** On SQLite, whatever is partially assembled is a prefix of its id's plan. */
  ghost predicate Sound(w: World, l: Listener) {
    w.backend.Sqlite? ==>
      forall t :: t in l.partial && t.kind.ResultKind? ==>
        && t.requestId in w.plan && TransferOf(w, w.plan[t.requestId]).Valid()
        && RT.Honest(TransferOf(w, w.plan[t.requestId]), Get(l.partial, t))
  }

  ghost predicate AllConform(w: World, msgs: seq<OutMsg>) {
    forall i :: 0 <= i < |msgs| ==> Conforms(w, msgs[i].entry)
  }

  lemma SoundHandle(w: World, l: Listener, e: Entry)
    requires Sound(w, l) && Conforms(w, e)
    ensures Sound(w, Handle(w.backend, w.codec, l, e))
  {
    if w.backend.Sqlite? && e.body.ResultChunk? {
      var c := e.body.resultChunk;
      var p := w.plan[c.transfer.requestId];
      var i: nat :| ChunkOfPlan(w, c, p, i);
      ChunkContents(w.codec, TransferId(p.res.requestId, ResultKind), TransferOf(w, p).Payload(), p.chunkSize, i);
      RT.HonestStep(w.backend, TransferOf(w, p), Get(l.partial, c.transfer), i);
    }
  }

  lemma {:induction false} SoundHandleAll(w: World, l: Listener, msgs: seq<OutMsg>)
    requires Sound(w, l) && AllConform(w, msgs)
    ensures Sound(w, HandleAll(w.backend, w.codec, l, msgs))
    decreases |msgs|
  {
    if msgs != [] {
      assert Conforms(w, msgs[0].entry);
      SoundHandle(w, l, msgs[0].entry);
      assert forall i :: 0 <= i < |msgs| - 1 ==> msgs[1..][i] == msgs[i + 1];
      SoundHandleAll(w, Handle(w.backend, w.codec, l, msgs[0].entry), msgs[1..]);
    }
  }

  /** A redelivered message changes nothing. */
  lemma HandleTwice(w: World, l: Listener, e: Entry)
    requires Sound(w, l) && Conforms(w, e)
    ensures var once := Handle(w.backend, w.codec, l, e);
            Handle(w.backend, w.codec, once, e) == once
  {
    if e.body.ResultChunk? {
      var c := e.body.resultChunk;
      var a := Get(l.partial, c.transfer);
      var step := AcceptResult(w.backend, w.codec, a, c);
      if w.backend.Sqlite? {
        var p := w.plan[c.transfer.requestId];
        var i: nat :| ChunkOfPlan(w, c, p, i);
        ChunkContents(w.codec, TransferId(p.res.requestId, ResultKind), TransferOf(w, p).Payload(), p.chunkSize, i);
        RT.HonestStep(w.backend, TransferOf(w, p), a, i);
        RT.HonestStep(w.backend, TransferOf(w, p), step.state, i);
      } else {
        RT.RedisRedeliveryHarmless(w.codec, a, c);
        RedisYieldTwice(w.codec, a, c);
      }
      PutGet(l.partial, c.transfer, step.state);
    }
  }

  lemma PutGet<V>(m: map<TransferId, V>, t: TransferId, v: Option<V>)
    ensures Get(Put(m, t, v), t) == v && Put(Put(m, t, v), t, v) == Put(m, t, v)
  {
  }

  /** A second delivery yields nothing the first did not. */
  lemma RedisYieldTwice(codec: Codec, a: Option<Assembly>, c: TransportChunk)
    ensures var once := AcceptResult(Redis, codec, a, c);
            Emitted(AcceptResult(Redis, codec, once.state, c).result) <= Emitted(once.result)
  {
  }
}
