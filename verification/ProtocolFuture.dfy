/** What the receiver will still be given if nothing more is lost, and how every step changes it. */
module ProtocolFuture {
  import opened Wrappers
  import opened Models
  import opened OutboxLog
  import opened Protocol

  /** The first number not on the connection yet. */
  function From(n: Net): int {
    if n.link.Up? then n.link.lastSent + 1 else n.received + 1
  }

  function Room(n: Net): nat {
    if From(n) <= n.log.next then n.log.next + 1 - From(n) else 0
  }

  /** The stored entries that can follow without a gap. */
  function Tail(n: Net): seq<OutMsg> {
    OutboxLog.Run(n.log.stored, From(n), Room(n))
  }

  function Pending(n: Net): seq<OutMsg> {
    if n.link.Up? then n.link.inFlight + Tail(n) else Tail(n)
  }

  /** No gap separates the receiver from the end of the log. */
  predicate Open(n: Net) {
    |Tail(n)| == Room(n)
  }

  lemma TailShape(n: Net)
    ensures |Tail(n)| <= Room(n)
    ensures Consecutive(n.log.stored, From(n), Tail(n))
    ensures |Tail(n)| < Room(n) ==> From(n) + |Tail(n)| !in n.log.stored
  {
    RunShape(n.log.stored, From(n), Room(n));
  }

  /** Tail' is the tail of n' if it has the shape of one. */
  lemma TailIs(n: Net, tail: seq<OutMsg>)
    requires |tail| <= Room(n) && Consecutive(n.log.stored, From(n), tail)
    requires |tail| < Room(n) ==> From(n) + |tail| !in n.log.stored
    ensures tail == Tail(n)
  {
    RunIs(n.log.stored, From(n), Room(n), tail);
  }

  lemma AfterAppend(n: Net, e: Entry)
    requires Inv(n)
    ensures var n' := Apply(n, Append(e));
            && Open(n') == Open(n)
            && Pending(n') == if Open(n) then Pending(n) + [OutMsg(n.log.next + 1, e)] else Pending(n)
  {
    var n' := Apply(n, Append(e));
    TailShape(n);
    if Open(n) {
      TailIs(n', Tail(n) + [OutMsg(n.log.next + 1, e)]);
    } else {
      TailIs(n', Tail(n));
    }
  }

  lemma AfterWaste(n: Net)
    requires Inv(n)
    ensures !Open(Apply(n, Waste)) && Pending(Apply(n, Waste)) == Pending(n)
  {
    TailShape(n);
    TailIs(Apply(n, Waste), Tail(n));
  }

  /** What is lost takes everything after it out of reach, unless it was on the connection already. */
  lemma AfterLose(n: Net, number: int)
    requires Inv(n)
    ensures var n' := Apply(n, Lose(number));
            && Pending(n') <= Pending(n)
            && (Open(n') ==> Open(n) && Pending(n') == Pending(n))
  {
    var n' := Apply(n, Lose(number));
    TailShape(n);
    TailShape(n');
    ConsecutiveHas(n'.log.stored, From(n), Tail(n'));
    assert |Tail(n')| > |Tail(n)| ==> From(n) + |Tail(n)| in n'.log.stored;
    assert forall i :: 0 <= i < |Tail(n')| ==> Tail(n')[i].seqNo == Tail(n)[i].seqNo;
    assert Tail(n') == Tail(n)[..|Tail(n')|];
  }

  lemma AfterSend(n: Net)
    requires Inv(n) && Enabled(n, Send)
    ensures Open(Apply(n, Send)) == Open(n) && Pending(Apply(n, Send)) == Pending(n)
  {
    var n' := Apply(n, Send);
    assert Tail(n) == [OutMsg(From(n), n.log.stored[From(n)])] + Tail(n');
    assert n'.link.inFlight == n.link.inFlight + [OutMsg(From(n), n.log.stored[From(n)])];
  }

  lemma AfterReceive(n: Net)
    requires Inv(n) && Enabled(n, Receive)
    ensures Open(Apply(n, Receive)) == Open(n)
    ensures Pending(n) == [n.link.inFlight[0]] + Pending(Apply(n, Receive))
  {
    var n' := Apply(n, Receive);
    assert n'.log == n.log && n'.link.Up? && n'.link.lastSent == n.link.lastSent by {
      InOrder(n);
    }
    assert n.link.inFlight == [n.link.inFlight[0]] + n'.link.inFlight;
  }

  lemma AfterTakeAck(n: Net)
    requires Inv(n) && Enabled(n, TakeAck)
    ensures Open(Apply(n, TakeAck)) == Open(n) && Pending(Apply(n, TakeAck)) == Pending(n)
  {
    var n' := Apply(n, TakeAck);
    assert LinkInv(n) && n.link.acks[0] <= n.received <= n.link.lastSent;
    TailShape(n);
    TailIs(n', Tail(n));
  }

  lemma AfterRepair(n: Net)
    requires Inv(n) && Enabled(n, Repair)
    ensures Open(Apply(n, Repair)) && Pending(Apply(n, Repair)) == n.link.inFlight <= Pending(n)
  {
    var n' := Apply(n, Repair);
    assert Tail(n') == [];
  }

  /** What a receiver that restarts from its cursor would be given: the unsaved message comes again. */
  function Replay(n: Net): seq<OutMsg> {
    (if n.link.Up? && n.link.unsaved.Some? then [n.link.unsaved.value] else []) + Pending(n)
  }

  /** A drop keeps at most that, and all of it unless a gap remains. */
  lemma AfterDrop(n: Net)
    requires Inv(n) && Enabled(n, Drop)
    ensures Pending(Apply(n, Drop)) <= Replay(n)
    ensures Open(Apply(n, Drop)) ==> Open(n) && Pending(Apply(n, Drop)) == Replay(n)
  {
    var n', q := Apply(n, Drop), Replay(n);
    TailShape(n);
    TailShape(n');
    ReplayShape(n);
    ConsecutiveHas(n.log.stored, n.received + 1, Tail(n'));
    assert n.received + 1 + |q| == From(n) + |Tail(n)|;
    assert From(n) + |Tail(n)| !in n.log.stored;
    assert |Tail(n')| <= |q|;
    forall i | 0 <= i < |Tail(n')| ensures Tail(n')[i] == q[i] {
      assert Tail(n')[i].seqNo == n.received + 1 + i == q[i].seqNo;
      assert Matches(n.log, q[i]);
    }
  }

  lemma ReplayShape(n: Net)
    requires Inv(n) && n.link.Up?
    ensures |Replay(n)| == n.link.lastSent - n.received + |Tail(n)|
    ensures forall i :: 0 <= i < |Replay(n)| ==>
              Replay(n)[i].seqNo == n.received + 1 + i && Matches(n.log, Replay(n)[i])
  {
    TailShape(n);
    var k := n.link.lastSent - n.received;
    forall i | 0 <= i < |Replay(n)|
      ensures Replay(n)[i].seqNo == n.received + 1 + i && Matches(n.log, Replay(n)[i])
    {
      if i >= k {
        assert Replay(n)[i] == Tail(n)[i - k];
      } else if i >= Taken(n.link) {
        assert Replay(n)[i] == n.link.inFlight[i - Taken(n.link)];
      }
    }
  }
}
