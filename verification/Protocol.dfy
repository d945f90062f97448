/**
  One direction of the websocket protocol: an outbox, a connection that may drop at any point, a
  receiver with a durable cursor, and cumulative acks. The step relation covers
  internal/poller/websocket.go and internal/server/websocket.go in either direction.
 */
module Protocol {
  import opened Wrappers
  import opened Models
  import opened OutboxLog

  /** `unsaved` is a message already handled whose number is not persisted yet. */
  datatype Link =
    | Down
    | Up(lastSent: int, inFlight: seq<OutMsg>, acks: seq<int>, session: int, unsaved: Option<OutMsg>)

  /** `received` is the receiver's durable cursor; the last three fields record the past. */
  datatype Net = Net(
    log: Log, received: int, link: Link,
    history: seq<OutMsg>, appended: seq<Entry>, acked: int)

  const START := Net(EMPTY_LOG, 0, Down, [], [], 0)

  datatype Step =
    | Append(entry: Entry)   // AppendWSOutbox
    | Waste                  // a number is handed out and nothing is stored under it
    | Lose(number: int)      // a stored entry is lost, as when Redis no longer has its payload hash
    | Connect                // handshake: both sides start from the durable cursor
    | Send                   // flushOutbox writes one entry
    | Receive                // the receive loop takes one message off the connection
    | Save                   // SetWSLastReceivedSeq, then the ack
    | TakeAck                // AckWSOutboxThrough
    | Drop                   // the connection is lost with everything on it
    | Repair                 // ErrWSOutboxGap: ResetWSOutbox to the last number sent

  ghost predicate Enabled(n: Net, s: Step) {
    match s
    case Append(_) => true
    case Waste => true
    case Lose(number) => number in n.log.stored
    case Connect => n.link.Down?
    case Send => n.link.Up? && n.link.lastSent + 1 in n.log.stored
    case Receive => n.link.Up? && n.link.inFlight != [] && n.link.unsaved.None?
    case Save => n.link.Up? && n.link.unsaved.Some?
    case TakeAck => n.link.Up? && n.link.acks != []
    case Drop => n.link.Up?
    case Repair => n.link.Up? && List(n.log, n.link.lastSent, BATCH) == Gap
  }

  function Max(a: int, b: int): int {
    if a < b then b else a
  }

  function Apply(n: Net, s: Step): Net {
    match s
    case Append(e) => n.(log := OutboxLog.Append(n.log, e), appended := n.appended + [e])
    case Waste => n.(log := Allocate(n.log))
    case Lose(number) => n.(log := n.log.(stored := n.log.stored - {number}))
    case Connect => n.(link := Up(n.received, [], [], n.received, None))
    case Drop => n.(link := Down)
    case Send =>
      if n.link.Up? && n.link.lastSent + 1 in n.log.stored then
        var m := OutMsg(n.link.lastSent + 1, n.log.stored[n.link.lastSent + 1]);
        n.(link := n.link.(lastSent := m.seqNo, inFlight := n.link.inFlight + [m]))
      else n
    case Receive => if n.link.Up? && n.link.inFlight != [] then ReceiveFirst(n) else n
    case Save =>
      if n.link.Up? && n.link.unsaved.Some? then
        var s := n.link.unsaved.value.seqNo;
        n.(received := Max(n.received, s),
           link := n.link.(session := s, acks := n.link.acks + [s], unsaved := None))
      else n
    case TakeAck =>
      if n.link.Up? && n.link.acks != [] then
        n.(log := AckThrough(n.log, n.link.acks[0]), acked := Max(n.acked, n.link.acks[0]),
           link := n.link.(acks := n.link.acks[1..]))
      else n
    case Repair => if n.link.Up? then n.(log := Reset(n.log, n.link.lastSent)) else n
  }

  /** The three branches of the receive loop: an old number, a number out of order, the next number. */
  function ReceiveFirst(n: Net): Net
    requires n.link.Up? && n.link.inFlight != []
  {
    var m, link := n.link.inFlight[0], n.link.(inFlight := n.link.inFlight[1..]);
    if m.seqNo <= link.session then n.(link := link.(acks := link.acks + [link.session]))
    else if m.seqNo != link.session + 1 then n.(link := Down)
    else n.(link := link.(unsaved := Some(m)), history := n.history + [m])
  }

  /** The states of all runs. */
  ghost predicate Reaches(start: Net, steps: seq<Step>, end: Net)
    decreases |steps|
  {
    if steps == [] then start == end
    else Enabled(start, steps[0]) && Reaches(Apply(start, steps[0]), steps[1..], end)
  }

  // ------------------------------------------------------------ what every step keeps

  /** How many numbers after the durable cursor the receiver has already taken. */
  function Taken(l: Link): int {
    if l.Up? && l.unsaved.Some? then 1 else 0
  }

  ghost predicate LinkInv(n: Net)
    requires n.link.Up?
  {
    var l := n.link;
    && n.received == l.session
    && l.lastSent <= n.log.next
    && |l.inFlight| == l.lastSent - n.received - Taken(l)
    && (forall i :: 0 <= i < |l.inFlight| ==> l.inFlight[i].seqNo == n.received + Taken(l) + 1 + i)
    && (forall i :: 0 <= i < |l.inFlight| ==> Matches(n.log, l.inFlight[i]))
    && (l.unsaved.Some? ==> l.unsaved.value.seqNo == n.received + 1 && Matches(n.log, l.unsaved.value)
                            && n.history != [] && n.history[|n.history| - 1] == l.unsaved.value)
    && (forall i :: 0 <= i < |l.acks| ==> l.acks[i] <= n.received)
  }

  /** If the outbox still stores this number, it stores this very message. */
  predicate Matches(l: Log, m: OutMsg) {
    m.seqNo in l.stored ==> l.stored[m.seqNo] == m.entry
  }

  ghost predicate Inv(n: Net) {
    && 0 <= n.acked <= n.received <= n.log.next
    && (forall s :: s in n.log.stored ==> 1 <= s <= n.log.next)
    && (n.link.Up? ==> LinkInv(n))
    && (forall s :: s in n.log.stored && s <= n.received ==> OutMsg(s, n.log.stored[s]) in n.history)
    && Orderly(n.history)
    && (n.history == [] ==> n.received == 0)
    && (n.history != [] ==> n.received <= n.history[|n.history| - 1].seqNo <= n.received + 1)
  }

  /** Numbers are handled 1, 2, 3, ... and only ever repeated at once, when a crash lost the cursor. */
  ghost predicate Orderly(h: seq<OutMsg>) {
    && (h != [] ==> h[0].seqNo == 1)
    && (forall i :: 0 < i < |h| ==> h[i - 1].seqNo <= h[i].seqNo <= h[i - 1].seqNo + 1)
  }

  lemma InvStep(n: Net, s: Step)
    requires Inv(n) && Enabled(n, s)
    ensures Inv(Apply(n, s))
  {
    match s {
      case Append(e) => InvAppend(n, e);
      case Send => InvSend(n);
      case Receive => InvReceive(n);
      case Save => InvSave(n);
      case TakeAck => InvTakeAck(n);
      case Repair =>
      case Waste =>
      case Lose(number) => InvLose(n, number);
      case Connect =>
      case Drop =>
    }
  }

  lemma InvAppend(n: Net, e: Entry)
    requires Inv(n)
    ensures Inv(Apply(n, Append(e)))
  {
    var n' := Apply(n, Append(e));
    if n.link.Up? {
      assert forall i :: 0 <= i < |n.link.inFlight| ==> Matches(n.log, n.link.inFlight[i]);
      assert LinkInv(n');
    }
  }

  lemma InvLose(n: Net, number: int)
    requires Inv(n)
    ensures Inv(Apply(n, Lose(number)))
  {
    if n.link.Up? {
      assert LinkInv(Apply(n, Lose(number)));
    }
  }

  lemma InvSend(n: Net)
    requires Inv(n) && Enabled(n, Send)
    ensures Inv(Apply(n, Send))
  {
    assert LinkInv(Apply(n, Send));
  }

  lemma InvReceive(n: Net)
    requires Inv(n) && Enabled(n, Receive)
    ensures Inv(Apply(n, Receive))
  {
    InOrder(n);
    var n' := Apply(n, Receive);
    assert Matches(n.log, n.link.inFlight[0]);
    assert forall m :: m in n.history ==> m in n'.history;
    assert LinkInv(n');
  }

  lemma InvSave(n: Net)
    requires Inv(n) && Enabled(n, Save)
    ensures Inv(Apply(n, Save))
  {
    var n' := Apply(n, Save);
    assert LinkInv(n');
    assert n.link.unsaved.value in n.history;
  }

  lemma InvTakeAck(n: Net)
    requires Inv(n) && Enabled(n, TakeAck)
    ensures Inv(Apply(n, TakeAck))
  {
    var n' := Apply(n, TakeAck);
    assert forall s :: s in n'.log.stored ==> s in n.log.stored && n'.log.stored[s] == n.log.stored[s];
    assert LinkInv(n');
  }

  lemma {:induction false} InvRun(start: Net, steps: seq<Step>, end: Net)
    requires Inv(start) && Reaches(start, steps, end)
    ensures Inv(end)
    decreases |steps|
  {
    if steps != [] {
      InvStep(start, steps[0]);
      InvRun(Apply(start, steps[0]), steps[1..], end);
    }
  }

  /** The first message on the connection is the one the receiver waits for: both other branches are unreachable. */
  lemma InOrder(n: Net)
    requires Inv(n) && Enabled(n, Receive)
    ensures n.link.inFlight[0].seqNo == n.link.session + 1
    ensures Apply(n, Receive).link.Up? && Apply(n, Receive).history == n.history + [n.link.inFlight[0]]
  {
  }

  /** What an ack removes was handled as this very message, and its number was persisted before. */
  lemma RemovalIsSafe(n: Net, s: int)
    requires Inv(n) && Enabled(n, TakeAck)
    requires s in n.log.stored && s !in Apply(n, TakeAck).log.stored
    ensures OutMsg(s, n.log.stored[s]) in n.history && s <= n.received
  {
    assert n.link.acks[0] <= n.received;
  }

  /** A repair leaves every number the receiver knows, or has in flight to it, unused in the new log. */
  lemma RepairIsAhead(n: Net)
    requires Inv(n) && Enabled(n, Repair)
    ensures var r := Apply(n, Repair);
            && r.log.stored == map[] && r.log.next == n.link.lastSent
            && n.received <= r.log.next
            && (forall i :: 0 <= i < |n.link.inFlight| ==> n.link.inFlight[i].seqNo <= r.log.next)
            && (forall i :: 0 <= i < |n.link.acks| ==> n.link.acks[i] <= r.log.next)
  {
  }
}
