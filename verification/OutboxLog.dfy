/**
  The durable websocket outbox of one scope as the two backends promise it: numbered entries, the last
  number handed out, and the receive cursor of the opposite direction.
 */
module OutboxLog {
  import opened Wrappers
  import opened Models

  /** `next` is next_outbound_seq, which despite its name is the last number handed out. */
  datatype Log = Log(stored: map<int, Entry>, next: int, received: int) {
    ghost predicate Valid() {
      0 <= next && 0 <= received && forall s :: s in stored ==> 1 <= s
    }
  }

  const EMPTY_LOG := Log(map[], 0, 0)

  /** How many entries flushOutbox asks for at a time. */
  const BATCH := 64

  datatype ListResult = Gap | Listed(msgs: seq<OutMsg>)

  function Append(l: Log, e: Entry): Log {
    l.(stored := l.stored[l.next + 1 := e], next := l.next + 1)
  }

  /** NextWSOutboundSeq alone: a number is used up and nothing is stored under it. */
  function Allocate(l: Log): Log {
    l.(next := l.next + 1)
  }

  function Enqueue(l: Log, s: int, e: Entry): Log {
    l.(stored := l.stored[s := e])
  }

  function SetReceived(l: Log, s: int): Log {
    l.(received := if s < l.received then l.received else s)
  }

  function Reset(l: Log, n: int): Log {
    l.(stored := map[], next := n)
  }

  /** The entries numbered from, from + 1, ... up to the first missing number, at most `limit` of them. */
  function Run(stored: map<int, Entry>, from: int, limit: nat): seq<OutMsg>
    decreases limit
  {
    if limit == 0 || from !in stored then []
    else [OutMsg(from, stored[from])] + Run(stored, from + 1, limit - 1)
  }

  ghost predicate StoredAbove(stored: map<int, Entry>, s: int) {
    exists t :: t in stored && t > s
  }

  ghost function List(l: Log, after: int, limit: nat): ListResult {
    var run := Run(l.stored, after + 1, limit);
    if |run| < limit && StoredAbove(l.stored, after + |run|) then Gap else Listed(run)
  }

  /** All entries numbered 1..hi, in order. */
  function Upto(stored: map<int, Entry>, hi: int): seq<OutMsg>
    decreases hi
  {
    if hi < 1 then []
    else Upto(stored, hi - 1) + (if hi in stored then [OutMsg(hi, stored[hi])] else [])
  }

  function Kept(stored: map<int, Entry>, s: int): map<int, Entry> {
    map t | t in stored && t > s :: stored[t]
  }

  function AckThrough(l: Log, s: int): Log {
    l.(stored := Kept(l.stored, s))
  }

  // ------------------------------------------------------------ listing

  /** Messages taken from the store, numbered from, from + 1, ... */
  ghost predicate Consecutive(stored: map<int, Entry>, from: int, msgs: seq<OutMsg>) {
    forall i :: 0 <= i < |msgs| ==>
      msgs[i].seqNo == from + i && msgs[i].seqNo in stored && msgs[i].entry == stored[msgs[i].seqNo]
  }

  lemma ConsecutiveHas(stored: map<int, Entry>, from: int, msgs: seq<OutMsg>)
    requires Consecutive(stored, from, msgs)
    ensures forall s :: from <= s < from + |msgs| ==> s in stored
  {
    forall s | from <= s < from + |msgs| ensures s in stored {
      assert msgs[s - from].seqNo == s;
    }
  }

  lemma {:induction false} RunShape(stored: map<int, Entry>, from: int, limit: nat)
    ensures var run := Run(stored, from, limit);
            && |run| <= limit
            && Consecutive(stored, from, run)
            && (|run| < limit ==> from + |run| !in stored)
    decreases limit
  {
    if limit == 0 || from !in stored {
    } else {
      RunShape(stored, from + 1, limit - 1);
      var rest, run := Run(stored, from + 1, limit - 1), Run(stored, from, limit);
      forall i | 0 <= i < |run|
        ensures run[i].seqNo == from + i && run[i].seqNo in stored && run[i].entry == stored[run[i].seqNo]
      {
        if i > 0 {
          assert run[i] == rest[i - 1];
        }
      }
    }
  }

  /** What RunShape says determines the run. */
  lemma RunIs(stored: map<int, Entry>, from: int, limit: nat, run: seq<OutMsg>)
    requires |run| <= limit && Consecutive(stored, from, run)
    requires |run| < limit ==> from + |run| !in stored
    ensures run == Run(stored, from, limit)
  {
    RunShape(stored, from, limit);
    var other := Run(stored, from, limit);
    ConsecutiveHas(stored, from, run);
    ConsecutiveHas(stored, from, other);
    forall i | 0 <= i < |run| ensures run[i] == other[i] {
      assert run[i].seqNo == other[i].seqNo;
    }
  }

  /** A gap is reported exactly when one of the next `limit` numbers is missing below a stored one. */
  lemma GapIff(l: Log, after: int, limit: nat)
    ensures List(l, after, limit) == Gap <==>
            exists h :: after < h <= after + limit && h !in l.stored && StoredAbove(l.stored, h)
  {
    var run := Run(l.stored, after + 1, limit);
    RunShape(l.stored, after + 1, limit);
    ConsecutiveHas(l.stored, after + 1, run);
    if List(l, after, limit) == Gap {
      var h := after + |run| + 1;
      assert h !in l.stored;
      var t :| t in l.stored && t > after + |run|;
      assert t > h;
    }
    if h :| after < h <= after + limit && h !in l.stored && StoredAbove(l.stored, h) {
      var t :| t in l.stored && t > h;
      assert t > after + |run|;
    }
  }

  // ------------------------------------------------------------ acknowledging

  /** `Upto` lists exactly the stored entries up to `hi`. */
  lemma {:induction false} UptoMembers(stored: map<int, Entry>, hi: int)
    ensures forall m :: m in Upto(stored, hi) <==> 1 <= m.seqNo <= hi && m.seqNo in stored && m.entry == stored[m.seqNo]
    decreases hi
  {
    if hi >= 1 {
      UptoMembers(stored, hi - 1);
      var last := if hi in stored then [OutMsg(hi, stored[hi])] else [];
      forall m ensures m in Upto(stored, hi) <==> m in Upto(stored, hi - 1) || m in last {
      }
    }
  }

  lemma {:induction false} UptoAscends(stored: map<int, Entry>, hi: int)
    ensures forall i, j :: 0 <= i < j < |Upto(stored, hi)| ==> Upto(stored, hi)[i].seqNo < Upto(stored, hi)[j].seqNo
    decreases hi
  {
    if hi >= 1 {
      UptoAscends(stored, hi - 1);
      UptoMembers(stored, hi - 1);
      var rest := Upto(stored, hi - 1);
      assert forall i :: 0 <= i < |rest| ==> rest[i] in rest;
    }
  }

  datatype Op = DoAppend(entry: Entry) | DoAck(ack: int)

  function Exec(ops: seq<Op>): Log {
    if ops == [] then EMPTY_LOG
    else
      var l := Exec(ops[..|ops| - 1]);
      match ops[|ops| - 1]
      case DoAppend(e) => Append(l, e)
      case DoAck(a) => AckThrough(l, a)
  }

  /** Everything AckWSOutboxThrough returned, call after call. */
  function Returned(ops: seq<Op>): seq<OutMsg> {
    if ops == [] then []
    else
      var before := Returned(ops[..|ops| - 1]);
      match ops[|ops| - 1]
      case DoAppend(_) => before
      case DoAck(a) => before + Upto(Exec(ops[..|ops| - 1]).stored, a)
  }

  function Appended(ops: seq<Op>): seq<OutMsg> {
    if ops == [] then []
    else
      var before := Appended(ops[..|ops| - 1]);
      match ops[|ops| - 1]
      case DoAppend(e) => before + [OutMsg(|before| + 1, e)]
      case DoAck(_) => before
  }

  /** How far the acks so far reach into what had been appended when they came. */
  function Cleared(ops: seq<Op>): nat {
    if ops == [] then 0
    else
      var before := Cleared(ops[..|ops| - 1]);
      match ops[|ops| - 1]
      case DoAppend(_) => before
      case DoAck(a) =>
        var reach := if a < |Appended(ops[..|ops| - 1])| then a else |Appended(ops[..|ops| - 1])|;
        if reach > before then reach else before
  }

  /** The stored entries are exactly the appended ones after the first r. */
  ghost predicate Window(l: Log, log: seq<OutMsg>, r: nat) {
    && r <= |log| == l.next
    && (forall s :: s in l.stored <==> r < s <= |log|)
    && (forall s :: r < s <= |log| ==> s in l.stored && log[s - 1] == OutMsg(s, l.stored[s]))
  }

  lemma {:induction false} UptoWindow(l: Log, log: seq<OutMsg>, r: nat, hi: int)
    requires Window(l, log, r)
    ensures Upto(l.stored, hi) == if hi <= r then [] else if hi <= |log| then log[r..hi] else log[r..]
    decreases hi
  {
    if hi >= 1 {
      UptoWindow(l, log, r, hi - 1);
      if r < hi <= |log| {
        assert log[r..hi] == log[r..hi - 1] + [log[hi - 1]];
      }
    }
  }

  /**
    For any acks, repeated, regressing or too large ones included, and any appends between them:
    what the acks returned, put together, is the log from its start, every entry once and in order,
    up to the largest ack, and the rest of the log is still stored.
   */
  lemma AcksReturnEachEntryOnce(ops: seq<Op>)
    ensures Window(Exec(ops), Appended(ops), Cleared(ops))
    ensures Returned(ops) == Appended(ops)[..Cleared(ops)]
    ensures Returned(ops) + Upto(Exec(ops).stored, Exec(ops).next) == Appended(ops)
  {
    AcksClear(ops);
    UptoWindow(Exec(ops), Appended(ops), Cleared(ops), Exec(ops).next);
    TakeDrop(Appended(ops), Cleared(ops));
  }

  lemma TakeDrop(log: seq<OutMsg>, r: nat)
    requires r <= |log|
    ensures log[..r] + log[r..] == log
    ensures log[r..|log|] == log[r..]
  {
  }

  lemma {:induction false} AcksClear(ops: seq<Op>)
    ensures Window(Exec(ops), Appended(ops), Cleared(ops))
    ensures Returned(ops) == Appended(ops)[..Cleared(ops)]
  {
    if ops == [] {
    } else {
      var rest := ops[..|ops| - 1];
      AcksClear(rest);
      match ops[|ops| - 1] {
        case DoAppend(e) => WindowAppend(Exec(rest), Appended(rest), Cleared(rest), e);
        case DoAck(a) => WindowAck(Exec(rest), Appended(rest), Cleared(rest), a);
      }
    }
  }

  lemma WindowAppend(l: Log, log: seq<OutMsg>, r: nat, e: Entry)
    requires Window(l, log, r)
    ensures Window(Append(l, e), log + [OutMsg(|log| + 1, e)], r)
  {
  }

  lemma WindowAck(l: Log, log: seq<OutMsg>, r: nat, a: int)
    requires Window(l, log, r)
    ensures var reach := if a < |log| then a else |log|;
            var r' := if reach > r then reach else r;
            && Window(AckThrough(l, a), log, r')
            && log[..r] + Upto(l.stored, a) == log[..r']
  {
    UptoWindow(l, log, r, a);
  }
}
