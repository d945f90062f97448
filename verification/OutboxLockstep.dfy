/** The two outbox backends answer every sequence of calls alike. */
module OutboxLockstep {
  import opened Wrappers
  import opened Models
  import opened OutboxLog
  import opened Outbox

  datatype Call =
    | NextSeq
    | Enqueue(at: int, queued: Entry)
    | Append(entry: Entry)
    | List(after: int, limit: nat)
    | Ack(through: int)
    | GetState
    | SetReceived(seqNo: int)
    | Reset(next: nat)

  datatype Answer = Done | Number(n: int) | Messages(r: ListResult) | Acked(msgs: seq<OutMsg>) | State(s: SequenceState)

  /**
    Numbers start at 1, received ones too, and a page has room for a message. On a fresh scope SQLite
    would store a negative received number as it is, and Redis 0.
   */
  predicate Proper(c: Call) {
    match c
    case Enqueue(at, _) => 1 <= at
    case List(_, limit) => 0 < limit
    case SetReceived(s) => 0 <= s
    case _ => true
  }

  method CallRedis(r: RedisOutbox, c: Call) returns (a: Answer)
    requires r.Valid() && r.Coherent() && Proper(c)
    modifies r
    ensures r.Valid() && r.Coherent()
    ensures r.Abs() == After(old(r.Abs()), c) && a == AnswerOf(old(r.Abs()), c)
  {
    match c {
      case NextSeq => var n := r.NextWSOutboundSeq(); return Number(n);
      case Enqueue(at, e) => r.EnqueueWSOutbox(at, e); return Done;
      case Append(e) => var n := r.AppendWSOutbox(e); return Number(n);
      case List(after, limit) => var m := r.ListWSOutbox(after, limit); return Messages(m);
      case Ack(s) => var m := r.AckWSOutboxThrough(s); return Acked(m);
      case GetState => var s := r.GetWSSequenceState(); return State(StateOf(s));
      case SetReceived(s) => r.SetWSLastReceivedSeq(s); return Done;
      case Reset(n) => r.ResetWSOutbox(n); return Done;
    }
  }

  method CallSqlite(q: SqliteOutbox, c: Call) returns (a: Answer)
    requires q.Valid() && Proper(c)
    modifies q
    ensures q.Valid()
    ensures q.Abs() == After(old(q.Abs()), c) && a == AnswerOf(old(q.Abs()), c)
  {
    match c {
      case NextSeq => var n := q.NextWSOutboundSeq(); return Number(n);
      case Enqueue(at, e) => q.EnqueueWSOutbox(at, e); return Done;
      case Append(e) => var n := q.AppendWSOutbox(e); return Number(n);
      case List(after, limit) => var m := q.ListWSOutbox(after, limit); return Messages(m);
      case Ack(s) => var m := q.AckWSOutboxThrough(s); return Acked(m);
      case GetState => var s := q.GetWSSequenceState(); return State(StateOf(s));
      case SetReceived(s) => q.SetWSLastReceivedSeq(s); return Done;
      case Reset(n) => q.ResetWSOutbox(n); return Done;
    }
  }

  ghost function After(l: Log, c: Call): Log {
    match c
    case NextSeq => OutboxLog.Allocate(l)
    case Enqueue(at, e) => OutboxLog.Enqueue(l, at, e)
    case Append(e) => OutboxLog.Append(l, e)
    case Ack(s) => OutboxLog.AckThrough(l, s)
    case SetReceived(s) => OutboxLog.SetReceived(l, s)
    case Reset(n) => OutboxLog.Reset(l, n)
    case _ => l
  }

  ghost function AnswerOf(l: Log, c: Call): Answer {
    match c
    case NextSeq => Number(l.next + 1)
    case Append(_) => Number(l.next + 1)
    case List(after, limit) => Messages(OutboxLog.List(l, after, limit))
    case Ack(s) => Acked(Upto(l.stored, s))
    case GetState => State(SequenceState(l.next, l.received))
    case _ => Done
  }

  /** From related states, any calls whatever: the same answers, and related states again. */
  method Drive(r: RedisOutbox, q: SqliteOutbox, calls: seq<Call>)
    returns (fromRedis: seq<Answer>, fromSqlite: seq<Answer>)
    requires r.Valid() && r.Coherent() && q.Valid() && r.Abs() == q.Abs()
    requires forall i :: 0 <= i < |calls| ==> Proper(calls[i])
    modifies r, q
    ensures r.Valid() && r.Coherent() && q.Valid() && r.Abs() == q.Abs()
    ensures |fromRedis| == |calls| && fromRedis == fromSqlite
  {
    fromRedis, fromSqlite := [], [];
    for i := 0 to |calls|
      invariant r.Valid() && r.Coherent() && q.Valid() && r.Abs() == q.Abs()
      invariant |fromRedis| == i && fromRedis == fromSqlite
    {
      var a := CallRedis(r, calls[i]);
      var b := CallSqlite(q, calls[i]);
      fromRedis, fromSqlite := fromRedis + [a], fromSqlite + [b];
    }
  }
}
