/** Across all acks, AckResults is handed the id of every queued result exactly once. */
module ResultNames {
  import opened Wrappers
  import opened Models
  import opened OutboxLog
  import opened WsSession
  import opened ListenerInbound

  /** One queueing of a result: the result and the chunk size it was cut with. */
  datatype Queueing = Queueing(res: RelayResult, chunkSize: int)

  predicate Proper(qs: seq<Queueing>) {
    forall i :: 0 <= i < |qs| ==> 0 < qs[i].chunkSize && qs[i].res.requestId != ""
  }

  /** How often handleSenderOutboxAck hands this id to AckResults for these entries. */
  function Named(es: seq<Entry>, id: Id): nat {
    if es == [] then 0 else (if id in Releases(es[0]) then 1 else 0) + Named(es[1..], id)
  }

  function NamedByAll(parts: seq<seq<Entry>>, id: Id): nat {
    if parts == [] then 0 else Named(parts[0], id) + NamedByAll(parts[1..], id)
  }

  function EntriesIn(msgs: seq<OutMsg>): seq<Entry> {
    seq(|msgs|, i requires 0 <= i < |msgs| => msgs[i].entry)
  }

  /** The parts were queued side by side, each in its own order. */
  ghost predicate Interleaves(es: seq<Entry>, parts: seq<seq<Entry>>)
    decreases |es|
  {
    if es == [] then forall i :: 0 <= i < |parts| ==> parts[i] == []
    else exists i :: 0 <= i < |parts| && TakesFrom(es, parts, i) && Interleaves(es[1..], parts[i := parts[i][1..]])
  }

  ghost predicate TakesFrom(es: seq<Entry>, parts: seq<seq<Entry>>, i: nat)
    requires es != [] && i < |parts|
  {
    parts[i] != [] && parts[i][0] == es[0]
  }

  lemma {:induction false} NamedJoin(a: seq<Entry>, b: seq<Entry>, id: Id)
    ensures Named(a + b, id) == Named(a, id) + Named(b, id)
  {
    if a == [] {
      assert a + b == b;
    } else {
      NamedJoin(a[1..], b, id);
      assert (a + b)[1..] == a[1..] + b;
    }
  }

  lemma {:induction false} NamedReplace(parts: seq<seq<Entry>>, i: nat, part: seq<Entry>, id: Id)
    requires i < |parts|
    ensures NamedByAll(parts[i := part], id) + Named(parts[i], id) == NamedByAll(parts, id) + Named(part, id)
  {
    if i == 0 {
      assert parts[0 := part][1..] == parts[1..];
    } else {
      NamedReplace(parts[1..], i - 1, part, id);
      assert parts[i := part][1..] == parts[1..][i - 1 := part];
    }
  }

  lemma {:induction false} NamedByNone(parts: seq<seq<Entry>>, id: Id)
    requires forall i :: 0 <= i < |parts| ==> parts[i] == []
    ensures NamedByAll(parts, id) == 0
  {
    if parts != [] {
      NamedByNone(parts[1..], id);
    }
  }

  /** However the parts are interleaved, they name what they name. */
  lemma {:induction false} InterleavedNames(es: seq<Entry>, parts: seq<seq<Entry>>, id: Id)
    requires Interleaves(es, parts)
    ensures Named(es, id) == NamedByAll(parts, id)
    decreases |es|
  {
    if es == [] {
      NamedByNone(parts, id);
    } else {
      var i :| 0 <= i < |parts| && TakesFrom(es, parts, i) && Interleaves(es[1..], parts[i := parts[i][1..]]);
      InterleavedNames(es[1..], parts[i := parts[i][1..]], id);
      NamedReplace(parts, i, parts[i][1..], id);
    }
  }

  lemma {:induction false} NotNamed(es: seq<Entry>, id: Id)
    requires forall i :: 0 <= i < |es| ==> id !in Releases(es[i])
    ensures Named(es, id) == 0
  {
    if es != [] {
      NotNamed(es[1..], id);
    }
  }

  /** The entries of one queueing name its result once, and nothing else. */
  lemma QueueingNames(codec: Codec, q: Queueing, id: Id)
    requires 0 < q.chunkSize && q.res.requestId != ""
    ensures Named(ResultEntries(codec, q.res, q.chunkSize), id) == if id == q.res.requestId then 1 else 0
  {
    var es := ResultEntries(codec, q.res, q.chunkSize);
    OneEntryNamesTheResult(codec, q.res, q.chunkSize);
    var init, last := es[..|es| - 1], es[|es| - 1];
    assert last.body.Result? || last.body.ResultChunk?;
    NotNamed(init, id);
    NamedJoin(init, [last], id);
    assert init + [last] == es && [last][1..] == [];
  }

  function PartsOf(codec: Codec, qs: seq<Queueing>): seq<seq<Entry>>
    requires Proper(qs)
  {
    if qs == [] then [] else [ResultEntries(codec, qs[0].res, qs[0].chunkSize)] + PartsOf(codec, qs[1..])
  }

  function TimesQueued(qs: seq<Queueing>, id: Id): nat {
    if qs == [] then 0 else (if id == qs[0].res.requestId then 1 else 0) + TimesQueued(qs[1..], id)
  }

  lemma {:induction false} PartsNames(codec: Codec, qs: seq<Queueing>, others: seq<Entry>, id: Id)
    requires Proper(qs) && forall i :: 0 <= i < |others| ==> id !in Releases(others[i])
    ensures NamedByAll(PartsOf(codec, qs) + [others], id) == TimesQueued(qs, id)
  {
    var parts := PartsOf(codec, qs) + [others];
    if qs == [] {
      NotNamed(others, id);
      assert parts[1..] == [];
    } else {
      QueueingNames(codec, qs[0], id);
      PartsNames(codec, qs[1..], others, id);
      assert parts[1..] == PartsOf(codec, qs[1..]) + [others];
    }
  }

  /**
    Queue any results side by side, with any entries that name no result between them, and let any
    acks come, repeated, regressing or too large: all acks together hand an id to AckResults as often
    as its result was queued, less the times its last entry is still stored.
   */
  lemma EachResultNamedOnce(codec: Codec, qs: seq<Queueing>, others: seq<Entry>, ops: seq<Op>, id: Id)
    requires Proper(qs) && forall i :: 0 <= i < |others| ==> id !in Releases(others[i])
    requires Interleaves(EntriesIn(Appended(ops)), PartsOf(codec, qs) + [others])
    ensures Named(EntriesIn(Returned(ops)), id) + Named(EntriesIn(Upto(Exec(ops).stored, Exec(ops).next)), id)
            == TimesQueued(qs, id)
  {
    AcksReturnEachEntryOnce(ops);
    InterleavedNames(EntriesIn(Appended(ops)), PartsOf(codec, qs) + [others], id);
    PartsNames(codec, qs, others, id);
    InTwo(Appended(ops), Returned(ops), Upto(Exec(ops).stored, Exec(ops).next), id);
  }

  lemma InTwo(all: seq<OutMsg>, returned: seq<OutMsg>, stored: seq<OutMsg>, id: Id)
    requires returned + stored == all
    ensures Named(EntriesIn(returned), id) + Named(EntriesIn(stored), id) == Named(EntriesIn(all), id)
  {
    NamedJoin(EntriesIn(returned), EntriesIn(stored), id);
    assert EntriesIn(returned) + EntriesIn(stored) == EntriesIn(all);
  }
}
