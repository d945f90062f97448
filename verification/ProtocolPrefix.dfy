/** What the receiver has handled is a prefix of the log; and runs in which every number keeps its entry. */
module ProtocolPrefix {
  import opened Wrappers
  import opened Models
  import opened OutboxLog
  import opened Protocol

  ghost predicate FromLog(n: Net, m: OutMsg) {
    InLog(n.appended, m)
  }

  ghost predicate Whole(n: Net) {
    && Inv(n)
    && n.log.next == |n.appended|
    && 0 <= n.acked <= n.received
    && (forall s :: s in n.log.stored <==> n.acked < s <= n.log.next)
    && (forall s :: s in n.log.stored ==> n.log.stored[s] == n.appended[s - 1])
    && (forall i :: 0 <= i < |n.history| ==> FromLog(n, n.history[i]))
    && (n.link.Up? ==> forall i :: 0 <= i < |n.link.inFlight| ==> FromLog(n, n.link.inFlight[i]))
  }

  /** With a contiguous outbox the flush never sees a gap, so no repair ever runs. */
  lemma NoRepair(n: Net)
    requires Whole(n)
    ensures !Enabled(n, Repair)
  {
    if n.link.Up? {
      GapIff(n.log, n.link.lastSent, BATCH);
      assert LinkInv(n);
      assert forall h :: n.link.lastSent < h && h !in n.log.stored ==> !StoredAbove(n.log.stored, h);
    }
  }

  lemma WholeStep(n: Net, s: Step)
    requires Whole(n) && Enabled(n, s) && s != Waste && !s.Lose?
    ensures s != Repair && Whole(Apply(n, s))
  {
    NoRepair(n);
    InvStep(n, s);
    match s {
      case Append(e) => WholeAppend(n, e);
      case Send => WholeSend(n);
      case Receive => WholeReceive(n);
      case TakeAck => WholeTakeAck(n);
      case _ => WholeQuiet(n, s);
    }
  }

  lemma WholeQuiet(n: Net, s: Step)
    requires Whole(n) && Enabled(n, s) && (s.Save? || s.Connect? || s.Drop?) && Inv(Apply(n, s))
    ensures Whole(Apply(n, s))
  {
    var n' := Apply(n, s);
    assert n'.log == n.log && n'.appended == n.appended && n'.history == n.history;
    assert forall m :: FromLog(n, m) ==> FromLog(n', m);
  }

  lemma WholeAppend(n: Net, e: Entry)
    requires Whole(n) && Inv(Apply(n, Append(e)))
    ensures Whole(Apply(n, Append(e)))
  {
    var n' := Apply(n, Append(e));
    assert forall m :: FromLog(n, m) ==> FromLog(n', m);
    assert n'.appended[n'.log.next - 1] == e;
  }

  lemma WholeSend(n: Net)
    requires Whole(n) && Enabled(n, Send) && Inv(Apply(n, Send))
    ensures Whole(Apply(n, Send))
  {
    var n' := Apply(n, Send);
    assert forall m :: FromLog(n, m) ==> FromLog(n', m);
    assert FromLog(n', n'.link.inFlight[|n.link.inFlight|]);
  }

  lemma WholeReceive(n: Net)
    requires Whole(n) && Enabled(n, Receive) && Inv(Apply(n, Receive))
    ensures Whole(Apply(n, Receive))
  {
    InOrder(n);
    var n' := Apply(n, Receive);
    assert forall m :: FromLog(n, m) ==> FromLog(n', m);
    assert FromLog(n', n.link.inFlight[0]);
  }

  lemma WholeTakeAck(n: Net)
    requires Whole(n) && Enabled(n, TakeAck) && Inv(Apply(n, TakeAck))
    ensures Whole(Apply(n, TakeAck))
  {
    var n' := Apply(n, TakeAck);
    assert LinkInv(n) && n.link.acks[0] <= n.received;
    assert forall m :: FromLog(n, m) ==> FromLog(n', m);
  }

  lemma {:induction false} WholeRun(start: Net, steps: seq<Step>, end: Net)
    requires Whole(start) && Reaches(start, steps, end)
    requires forall i :: 0 <= i < |steps| ==> steps[i] != Waste && !steps[i].Lose?
    ensures Whole(end)
    ensures forall i :: 0 <= i < |steps| ==> steps[i] != Repair
    decreases |steps|
  {
    if steps != [] {
      WholeStep(start, steps[0]);
      WholeRun(Apply(start, steps[0]), steps[1..], end);
      assert forall i :: 0 < i < |steps| ==> steps[i] == steps[1..][i - 1];
    }
  }

  // ------------------------------------------------------------ the handled messages

  function Numbered(log: seq<Entry>, from: int): (msgs: seq<OutMsg>)
    ensures |msgs| == |log|
    ensures forall i :: 0 <= i < |log| ==> msgs[i] == OutMsg(from + i, log[i])
  {
    seq(|log|, i requires 0 <= i < |log| => OutMsg(from + i, log[i]))
  }

  /** Each stretch of equal numbers reduced to its first message. */
  function Collapse(h: seq<OutMsg>): seq<OutMsg> {
    if |h| <= 1 then h
    else if h[|h| - 1].seqNo == h[|h| - 2].seqNo then Collapse(h[..|h| - 1])
    else Collapse(h[..|h| - 1]) + [h[|h| - 1]]
  }

  function LastNumber(h: seq<OutMsg>): int {
    if h == [] then 0 else h[|h| - 1].seqNo
  }

  predicate InLog(log: seq<Entry>, m: OutMsg) {
    1 <= m.seqNo <= |log| && m.entry == log[m.seqNo - 1]
  }

  lemma {:induction false} CollapseIsPrefix(log: seq<Entry>, h: seq<OutMsg>)
    requires Orderly(h) && forall i :: 0 <= i < |h| ==> InLog(log, h[i])
    ensures 0 <= LastNumber(h) <= |log|
    ensures Collapse(h) == Numbered(log[..LastNumber(h)], 1)
  {
    if |h| > 1 {
      var init, last := h[..|h| - 1], h[|h| - 1];
      assert Orderly(init) && forall i :: 0 <= i < |init| ==> InLog(log, init[i]);
      CollapseIsPrefix(log, init);
      OrderlyEnd(h);
      CollapseEnd(log, h, init, last);
    } else if |h| == 1 {
      assert InLog(log, h[0]);
      NumberedNext(log, h[0]);
    }
  }

  /** One message more is a repetition or the next one. */
  lemma CollapseEnd(log: seq<Entry>, h: seq<OutMsg>, init: seq<OutMsg>, last: OutMsg)
    requires |h| > 1 && init == h[..|h| - 1] && last == h[|h| - 1]
    requires InLog(log, last) && 0 <= LastNumber(init) <= |log|
    requires LastNumber(init) <= last.seqNo <= LastNumber(init) + 1
    requires Collapse(init) == Numbered(log[..LastNumber(init)], 1)
    ensures Collapse(h) == Numbered(log[..last.seqNo], 1)
  {
    assert h[|h| - 2].seqNo == LastNumber(init);
    if last.seqNo == LastNumber(init) + 1 {
      NumberedNext(log, last);
    }
  }

  lemma OrderlyEnd(h: seq<OutMsg>)
    requires Orderly(h) && |h| > 1
    ensures h[|h| - 2].seqNo <= h[|h| - 1].seqNo <= h[|h| - 2].seqNo + 1
  {
    var i := |h| - 1;
    assert h[i - 1].seqNo <= h[i].seqNo;
  }

  lemma NumberedNext(log: seq<Entry>, m: OutMsg)
    requires InLog(log, m)
    ensures Numbered(log[..m.seqNo], 1) == Numbered(log[..m.seqNo - 1], 1) + [m]
  {
  }

  // ------------------------------------------------------------ runs without repair

  /** Nothing was handed out after the first c numbers, or the next number got no entry and never will. */
  ghost predicate EndsAt(n: Net, c: nat) {
    if c < n.log.next then c + 1 !in n.log.stored && c <= |n.appended| else c == n.log.next == |n.appended|
  }

  /** A message of the first c entries appended. */
  ghost predicate Early(n: Net, c: nat, m: OutMsg) {
    1 <= m.seqNo <= c <= |n.appended| && m.entry == n.appended[m.seqNo - 1]
  }

  /** Whatever is stored up to number c, sent or handled is one of the first c entries. */
  ghost predicate Begun(n: Net, c: nat) {
    && Inv(n) && EndsAt(n, c)
    && (forall s :: s in n.log.stored && s <= c ==> Early(n, c, OutMsg(s, n.log.stored[s])))
    && (forall i :: 0 <= i < |n.history| ==> Early(n, c, n.history[i]))
    && (n.link.Up? ==>
          n.link.lastSent <= c && forall i :: 0 <= i < |n.link.inFlight| ==> Early(n, c, n.link.inFlight[i]))
  }

  lemma BegunAppend(n: Net, c: nat, e: Entry)
    requires Begun(n, c) && Inv(Apply(n, Append(e)))
    ensures Begun(Apply(n, Append(e)), if c < n.log.next then c else c + 1)
  {
    var n', c' := Apply(n, Append(e)), if c < n.log.next then c else c + 1;
    assert forall m :: Early(n, c, m) ==> Early(n', c', m);
    if c' == c + 1 {
      assert n'.appended[c] == e;
    }
  }

  lemma BegunReceive(n: Net, c: nat)
    requires Begun(n, c) && Enabled(n, Receive) && Inv(Apply(n, Receive))
    ensures Begun(Apply(n, Receive), c)
  {
    InOrder(n);
    var n' := Apply(n, Receive);
    assert forall m :: Early(n, c, m) ==> Early(n', c, m);
    assert Early(n', c, n.link.inFlight[0]);
  }

  lemma BegunSend(n: Net, c: nat)
    requires Begun(n, c) && Enabled(n, Send) && Inv(Apply(n, Send))
    ensures Begun(Apply(n, Send), c)
  {
    var n' := Apply(n, Send);
    assert forall m :: Early(n, c, m) ==> Early(n', c, m);
    assert Early(n', c, n'.link.inFlight[|n.link.inFlight|]);
  }

  lemma BegunOther(n: Net, c: nat, s: Step)
    requires Begun(n, c) && Enabled(n, s) && Inv(Apply(n, s))
    requires !s.Append? && !s.Receive? && !s.Send? && !s.Repair?
    ensures Begun(Apply(n, s), c)
  {
    var n' := Apply(n, s);
    assert n'.history == n.history && n'.appended == n.appended;
    assert forall m :: Early(n, c, m) ==> Early(n', c, m);
    assert n.history != [] ==> Early(n, c, n.history[|n.history| - 1]);
  }

  lemma BegunStep(n: Net, c: nat, s: Step) returns (c': nat)
    requires Begun(n, c) && Enabled(n, s) && s != Repair
    ensures Begun(Apply(n, s), c')
  {
    InvStep(n, s);
    c' := c;
    match s {
      case Append(e) => BegunAppend(n, c, e); c' := if c < n.log.next then c else c + 1;
      case Receive => BegunReceive(n, c);
      case Send => BegunSend(n, c);
      case _ => BegunOther(n, c, s);
    }
  }

  lemma {:induction false} BegunRun(start: Net, c: nat, steps: seq<Step>, end: Net) returns (c': nat)
    requires Begun(start, c) && Reaches(start, steps, end)
    requires forall i :: 0 <= i < |steps| ==> steps[i] != Repair
    ensures Begun(end, c')
    decreases |steps|
  {
    c' := c;
    if steps != [] {
      c' := BegunStep(start, c, steps[0]);
      assert forall i :: 0 < i < |steps| ==> steps[i] == steps[1..][i - 1];
      c' := BegunRun(Apply(start, steps[0]), c', steps[1..], end);
    }
  }

  /**
    In every run without repair, from the empty outbox, wasted numbers and lost entries included: the
    handled messages, with the repetitions a crash causes collapsed, are the start of the appended
    log, at most one ahead of the persisted cursor; acks stay behind the cursor, the cursor behind
    the log.
   */
  lemma HandledIsPrefix(steps: seq<Step>, end: Net)
    requires Reaches(START, steps, end)
    requires forall i :: 0 <= i < |steps| ==> steps[i] != Repair
    ensures 0 <= LastNumber(end.history) <= |end.appended|
    ensures Collapse(end.history) == Numbered(end.appended[..LastNumber(end.history)], 1)
    ensures end.received <= LastNumber(end.history) <= end.received + 1
    ensures 0 <= end.acked <= end.received <= end.log.next
  {
    var c := BegunRun(START, 0, steps, end);
    forall i | 0 <= i < |end.history| ensures InLog(end.appended, end.history[i]) {
      assert Early(end, c, end.history[i]);
    }
    CollapseIsPrefix(end.appended, end.history);
  }
}
