/** What the session loops do is a run of the protocol, so that everything proved of all runs holds of them. */
module SessionRuns {
  import opened Wrappers
  import opened Models
  import opened OutboxLog
  import opened WsSession
  import P = Protocol
  import opened ProtocolPrefix

  function Sends(k: nat): seq<P.Step> {
    seq(k, _ => P.Send)
  }

  function Appends(es: seq<Entry>): seq<P.Step> {
    seq(|es|, i requires 0 <= i < |es| => P.Append(es[i]))
  }

  /** The steps of one flush that wrote this many messages: whole batches, then perhaps a repair and the rest. */
  ghost function FlushSteps(l: Log, after: int, rebuilt: seq<Entry>, repairs: nat, sent: nat): seq<P.Step>
    requires RepairedInTime(l, after, repairs, sent)
  {
    if repairs == 0 then Sends(sent)
    else
      var k := SentBeforeRepair(l, after);
      Sends(k) + ([P.Repair] + (Appends(rebuilt) + Sends(sent - k)))
  }

  lemma {:induction false} RunsJoin(a: P.Net, first: seq<P.Step>, b: P.Net, second: seq<P.Step>, c: P.Net)
    requires P.Reaches(a, first, b) && P.Reaches(b, second, c)
    ensures P.Reaches(a, first + second, c)
    decreases |first|
  {
    if first == [] {
      assert first + second == second;
    } else {
      RunsJoin(P.Apply(a, first[0]), first[1..], b, second, c);
      assert (first + second)[1..] == first[1..] + second;
    }
  }

  lemma OneStep(n: P.Net, step: P.Step)
    requires P.Enabled(n, step)
    ensures P.Reaches(n, [step], P.Apply(n, step))
  {
    assert [step][1..] == [];
  }

  /** Writing the next k entries. */
  function AfterSends(n: P.Net, msgs: seq<OutMsg>): P.Net
    requires n.link.Up?
  {
    n.(link := n.link.(lastSent := n.link.lastSent + |msgs|, inFlight := n.link.inFlight + msgs))
  }

  lemma OneSend(n: P.Net)
    requires n.link.Up? && Allocated(n.log) && Following(n.log, n.link.lastSent) != []
    ensures var run := Following(n.log, n.link.lastSent);
            && P.Enabled(n, P.Send) && P.Apply(n, P.Send) == AfterSends(n, [run[0]])
            && Following(n.log, n.link.lastSent + 1) == run[1..]
  {
    FollowingShape(n.log, n.link.lastSent);
    FollowingDrop(n.log, n.link.lastSent, 1);
    assert Following(n.log, n.link.lastSent)[0] == OutMsg(n.link.lastSent + 1, n.log.stored[n.link.lastSent + 1]);
  }

  lemma {:induction false} SendsRun(n: P.Net, k: nat)
    requires n.link.Up? && Allocated(n.log) && k <= |Following(n.log, n.link.lastSent)|
    ensures P.Reaches(n, Sends(k), AfterSends(n, Following(n.log, n.link.lastSent)[..k]))
    decreases k
  {
    var run := Following(n.log, n.link.lastSent);
    if k == 0 {
      assert n.link.inFlight + run[..0] == n.link.inFlight;
    } else {
      OneSend(n);
      SendsRun(AfterSends(n, [run[0]]), k - 1);
      assert Sends(k)[1..] == Sends(k - 1);
      SendsAdd(n, run, k);
    }
  }

  lemma SendsAdd(n: P.Net, run: seq<OutMsg>, k: nat)
    requires n.link.Up? && 0 < k <= |run|
    ensures AfterSends(AfterSends(n, [run[0]]), run[1..][..k - 1]) == AfterSends(n, run[..k])
  {
    assert n.link.inFlight + [run[0]] + run[1..][..k - 1] == n.link.inFlight + run[..k];
  }

  lemma {:induction false} AppendsRun(n: P.Net, es: seq<Entry>)
    ensures P.Reaches(n, Appends(es), n.(log := AppendAll(n.log, es), appended := n.appended + es))
    decreases |es|
  {
    if es == [] {
      assert n.appended + es == n.appended;
    } else {
      var init, last := es[..|es| - 1], es[|es| - 1];
      var mid := n.(log := AppendAll(n.log, init), appended := n.appended + init);
      var end := n.(log := AppendAll(n.log, es), appended := n.appended + es);
      AppendsRun(n, init);
      assert mid.appended + [last] == end.appended;
      assert [P.Append(last)][1..] == [] && P.Reaches(mid, [P.Append(last)], end);
      RunsJoin(n, Appends(init), mid, [P.Append(last)], end);
      assert Appends(init) + [P.Append(last)] == Appends(es);
    }
  }

  /** The state after a flush that wrote this many messages. */
  ghost function AfterFlush(n: P.Net, rebuilt: seq<Entry>, repairs: nat, sent: nat): P.Net
    requires n.link.Up? && sent <= |Flushed(n.log, n.link.lastSent, rebuilt)|
  {
    var l, after := n.log, n.link.lastSent;
    AfterSends(n, Flushed(l, after, rebuilt)[..sent]).(
      log := if repairs == 0 then l else FlushedLog(l, after, rebuilt),
      appended := n.appended + (if repairs == 0 then [] else rebuilt))
  }

  /** A flush, whole or cut short anywhere, is a run of the protocol. */
  lemma FlushIsARun(n: P.Net, rebuilt: seq<Entry>, repairs: nat, sent: nat)
    requires n.link.Up? && Allocated(n.log) && 0 <= n.link.lastSent
    requires repairs <= 1 && sent <= |Flushed(n.log, n.link.lastSent, rebuilt)|
    requires RepairedInTime(n.log, n.link.lastSent, repairs, sent)
    ensures P.Reaches(n, FlushSteps(n.log, n.link.lastSent, rebuilt, repairs, sent),
                      AfterFlush(n, rebuilt, repairs, sent))
  {
    var l, after := n.log, n.link.lastSent;
    if repairs == 0 {
      SendsRun(n, sent);
      assert n.appended + [] == n.appended;
      assert Following(l, after)[..sent] == Flushed(l, after, rebuilt)[..sent];
    } else {
      RepairIsARun(n, rebuilt, sent, SentBeforeRepair(l, after), AfterFlush(n, rebuilt, repairs, sent));
    }
  }

  /** Where an outbox that was emptied at the number reached stands once it is filled again and j of it are sent. */
  ghost function AfterRebuild(n: P.Net, rebuilt: seq<Entry>, j: nat): P.Net
    requires n.link.Up? && j <= |rebuilt|
  {
    var at := n.link.lastSent;
    AfterSends(n, Numbered(rebuilt, at + 1)[..j]).(
      log := AppendAll(Reset(n.log, at), rebuilt), appended := n.appended + rebuilt)
  }

  /** The first j entries of a rebuilt outbox go out. */
  lemma SendRebuilt(n: P.Net, l: Log, rebuilt: seq<Entry>, j: nat, end: P.Net)
    requires n.link.Up? && l.Valid() && 0 <= n.link.lastSent && j <= |rebuilt|
    requires n.log == AppendAll(Reset(l, n.link.lastSent), rebuilt)
    requires end == AfterSends(n, Numbered(rebuilt, n.link.lastSent + 1)[..j])
    ensures P.Reaches(n, Sends(j), end)
  {
    RebuiltFollows(l, n.link.lastSent, rebuilt, n.log);
    SendsRun(n, j);
  }

  /** A gap right at the number reached: the outbox is emptied, filled again and sent. */
  lemma RebuildIsARun(n: P.Net, rebuilt: seq<Entry>, j: nat, n2: P.Net, n3: P.Net, end: P.Net)
    requires n.link.Up? && Allocated(n.log) && 0 <= n.link.lastSent && List(n.log, n.link.lastSent, BATCH) == Gap
    requires j <= |rebuilt| && end == AfterRebuild(n, rebuilt, j)
    requires n2 == n.(log := Reset(n.log, n.link.lastSent))
    requires n3 == n2.(log := AppendAll(n2.log, rebuilt), appended := n2.appended + rebuilt)
    ensures P.Reaches(n, [P.Repair] + (Appends(rebuilt) + Sends(j)), end)
  {
    OneStep(n, P.Repair);
    AppendsRun(n2, rebuilt);
    SendRebuilt(n3, n.log, rebuilt, j, end);
    RunsJoin(n2, Appends(rebuilt), n3, Sends(j), end);
    RunsJoin(n, [P.Repair], n2, Appends(rebuilt) + Sends(j), end);
  }

  /** After the whole batches, the listing reports the gap. */
  lemma GapAfterBatches(l: Log, after: int)
    requires Allocated(l) && Broken(l, after)
    ensures List(l, after + SentBeforeRepair(l, after), BATCH) == Gap
  {
    var k := SentBeforeRepair(l, after);
    FollowingShape(l, after);
    FollowingDrop(l, after, k);
    PageOfFollowing(l, after + k);
  }

  /** The batches and what was sent of the rebuilt entries are what the flush sent. */
  lemma InTwoParts(n: P.Net, rebuilt: seq<Entry>, sent: nat, k: nat, batches: seq<OutMsg>)
    requires n.link.Up? && Broken(n.log, n.link.lastSent) && k == SentBeforeRepair(n.log, n.link.lastSent)
    requires k <= sent <= |Flushed(n.log, n.link.lastSent, rebuilt)|
    requires batches == Following(n.log, n.link.lastSent)[..k]
    ensures sent - k <= |rebuilt|
    ensures AfterRebuild(AfterSends(n, batches), rebuilt, sent - k) == AfterFlush(n, rebuilt, 1, sent)
  {
    var rest := Numbered(rebuilt, n.link.lastSent + k + 1);
    assert (batches + rest)[..sent] == batches + rest[..sent - k];
    Regroup(n.link.inFlight, batches, rest[..sent - k]);
  }

  lemma RepairIsARun(n: P.Net, rebuilt: seq<Entry>, sent: nat, k: nat, end: P.Net)
    requires n.link.Up? && Allocated(n.log) && 0 <= n.link.lastSent && Broken(n.log, n.link.lastSent)
    requires k == SentBeforeRepair(n.log, n.link.lastSent)
    requires k <= sent <= |Flushed(n.log, n.link.lastSent, rebuilt)|
    requires end == AfterFlush(n, rebuilt, 1, sent)
    ensures P.Reaches(n, Sends(k) + ([P.Repair] + (Appends(rebuilt) + Sends(sent - k))), end)
  {
    var batches := Following(n.log, n.link.lastSent)[..k];
    var n1 := AfterSends(n, batches);
    InTwoParts(n, rebuilt, sent, k, batches);
    SendsRun(n, k);
    GapAfterBatches(n.log, n.link.lastSent);
    var n2 := n1.(log := Reset(n1.log, n1.link.lastSent));
    var n3 := n2.(log := AppendAll(n2.log, rebuilt), appended := n2.appended + rebuilt);
    RebuildIsARun(n1, rebuilt, sent - k, n2, n3, end);
    RunsJoin(n, Sends(k), n1, [P.Repair] + (Appends(rebuilt) + Sends(sent - k)), end);
  }

  // ------------------------------------------------------------ the session's methods

  ghost predicate EndsWith<T>(all: seq<T>, end: seq<T>) {
    |end| <= |all| && all[|all| - |end|..] == end
  }

  lemma EndsLater<T>(all: seq<T>, end: seq<T>, more: seq<T>)
    requires EndsWith(all, end)
    ensures EndsWith(all + more, end + more)
  {
  }

  /** The session is the sending half of this state. */
  ghost predicate IsSender(n: P.Net, s: Session)
    reads s, s.outbox
  {
    && s.Valid() && n.link.Up? && n.log == s.outbox.Abs() && n.link.lastSent == s.lastSentSeq
    && EndsWith(s.wire, n.link.inFlight)
  }

  /**
    Whatever FlushOutbox does, the protocol can do: the steps of the flush, and the loss of the
    connection if a write failed. Nothing but the sending half moves.
   */
  method FlushRuns(s: Session, rebuilt: seq<Entry>, ghost n: P.Net)
    returns (ok: bool, ghost steps: seq<P.Step>, ghost end: P.Net)
    requires IsSender(n, s)
    modifies s`wire, s`writable, s`lastSentSeq, s.outbox
    ensures P.Reaches(n, steps, end)
    ensures old(s.wire) <= s.wire
    ensures ok ==> IsSender(end, s) && end.link.inFlight == n.link.inFlight + s.wire[|old(s.wire)|..]
    ensures ok ==> end.link.acks == n.link.acks && end.link.unsaved == n.link.unsaved
    ensures !ok ==> end.link.Down? && end.log == s.outbox.Abs()
    ensures end.received == n.received && end.history == n.history && end.acked == n.acked
    ensures end.appended == n.appended || end.appended == n.appended + rebuilt
  {
    ghost var l, after := n.log, n.link.lastSent;
    var repairs;
    ok, repairs := s.FlushOutbox(rebuilt);
    ghost var sent := s.lastSentSeq - after;
    FlushIsARun(n, rebuilt, repairs, sent);
    steps, end := FlushSteps(l, after, rebuilt, repairs, sent), AfterFlush(n, rebuilt, repairs, sent);
    EndsLater(old(s.wire), n.link.inFlight, Flushed(l, after, rebuilt)[..sent]);
    if !ok {
      OneStep(end, P.Drop);
      RunsJoin(n, steps, end, [P.Drop], P.Apply(end, P.Drop));
      steps, end := steps + [P.Drop], P.Apply(end, P.Drop);
    }
  }

  /** The session is the receiving half of this state, between two turns of its loop. */
  ghost predicate IsReceiver(n: P.Net, s: Session)
    reads s, s.outbox
  {
    && s.Valid() && n.link.Up? && n.link.unsaved.None? && n.link.session == s.lastReceivedSeq
    && n.received == s.lastReceivedSeq == s.outbox.Abs().received
    && EndsWith(s.acks, n.link.acks) && EndsWith(n.history, s.handled)
  }

  /** The steps of one turn of the receive loop for the first message in flight. */
  function ReceiveSteps(n: P.Net, accepts: bool, persists: bool): seq<P.Step>
    requires n.link.Up? && n.link.inFlight != []
  {
    if n.link.inFlight[0].seqNo != n.link.session + 1 then [P.Receive]
    else if !accepts then [P.Drop]
    else if !persists then [P.Receive, P.Drop]
    else [P.Receive, P.Save]
  }

  /** The protocol's side of a turn. */
  lemma ReceiveIsARun(n: P.Net, accepts: bool, persists: bool)
    requires n.link.Up? && n.link.inFlight != [] && n.link.unsaved.None? && n.received == n.link.session
    ensures var m, link := n.link.inFlight[0], n.link.(inFlight := n.link.inFlight[1..]);
            var end :=
              if m.seqNo <= link.session then n.(link := link.(acks := link.acks + [link.session]))
              else if m.seqNo > link.session + 1 || !accepts then n.(link := P.Down)
              else if !persists then n.(link := P.Down, history := n.history + [m])
              else n.(received := m.seqNo, history := n.history + [m],
                      link := link.(session := m.seqNo, acks := link.acks + [m.seqNo]));
            P.Reaches(n, ReceiveSteps(n, accepts, persists), end)
  {
    var once := P.Apply(n, P.Receive);
    OneStep(n, P.Receive);
    OneStep(n, P.Drop);
    if n.link.inFlight[0].seqNo == n.link.session + 1 {
      OneStep(once, P.Save);
      OneStep(once, P.Drop);
      RunsJoin(n, [P.Receive], once, [P.Save], P.Apply(once, P.Save));
      RunsJoin(n, [P.Receive], once, [P.Drop], P.Apply(once, P.Drop));
      assert [P.Receive] + [P.Save] == [P.Receive, P.Save] && [P.Receive] + [P.Drop] == [P.Receive, P.Drop];
    }
  }

  /**
    Whatever a turn of the receive loop does, the protocol can do, also when the handler or the write
    of the cursor fails: the connection is down exactly when the turn ends the session.
   */
  method ReceiveRuns(s: Session, accepts: bool, persists: bool, ghost n: P.Net, m: OutMsg)
    returns (keep: bool, ghost end: P.Net)
    requires IsReceiver(n, s) && n.link.inFlight != [] && m == n.link.inFlight[0] && 0 < m.seqNo
    modifies s`lastReceivedSeq, s`acks, s`handled, s.outbox
    ensures P.Reaches(n, ReceiveSteps(n, accepts, persists), end)
    ensures keep == end.link.Up? && (keep ==> IsReceiver(end, s) && end.link.inFlight == n.link.inFlight[1..])
    ensures end.received == s.outbox.Abs().received
    ensures old(s.handled) <= s.handled && end.history == n.history + s.handled[|old(s.handled)|..]
    ensures end.log == n.log && end.acked == n.acked && end.appended == n.appended
  {
    ghost var a0, h0 := s.acks, s.handled;
    keep := s.Receive(m, accepts, persists);
    ReceiveIsARun(n, accepts, persists);
    EndsLater(a0, n.link.acks, [n.link.session]);
    EndsLater(a0, n.link.acks, [m.seqNo]);
    EndsLater(n.history, h0, [m]);
    if m.seqNo <= n.link.session {
      end := P.Apply(n, P.Receive);
    } else if m.seqNo > n.link.session + 1 || !accepts {
      end := n.(link := P.Down);
    } else if !persists {
      end := n.(link := P.Down, history := n.history + [m]);
    } else {
      end := P.Apply(P.Apply(n, P.Receive), P.Save);
    }
  }
}
