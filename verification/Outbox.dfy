/** internal/store/ws_outbox_sqlite.go and internal/store/ws_outbox_redis.go, each for one scope. */
module Outbox {
  import opened Wrappers
  import opened Models
  import opened OutboxLog
  import opened SortedRows

  /** GetWSSequenceState: absent until something is written for the scope. */
  datatype SequenceState = SequenceState(next: int, received: int)

  function StateOf(state: Option<SequenceState>): SequenceState {
    if state.Some? then state.value else SequenceState(0, 0)
  }

  class SqliteOutbox {
    var rows: seq<OutMsg>                  // ws_outbox, primary key order
    var state: Option<SequenceState>       // the ws_sequence_states row

    ghost predicate Valid()
      reads this
    {
      Ascending(rows) && 0 <= StateOf(state).next && 0 <= StateOf(state).received
    }

    ghost function Abs(): Log
      reads this
    {
      Log(Table(rows), StateOf(state).next, StateOf(state).received)
    }

    constructor ()
      ensures Valid() && Abs() == EMPTY_LOG
    {
      rows, state := [], None;
    }

    method GetWSSequenceState() returns (s: Option<SequenceState>)
      requires Valid()
      ensures StateOf(s) == SequenceState(Abs().next, Abs().received)
    {
      s := state;
    }

    method NextWSOutboundSeq() returns (s: int)
      requires Valid()
      modifies this`state
      ensures Valid() && Abs() == Allocate(old(Abs())) && s == Abs().next
    {
      var row := StateOf(state);
      s := row.next + 1;
      state := Some(row.(next := s));
    }

    method EnqueueWSOutbox(s: int, e: Entry)
      requires Valid() && 1 <= s
      modifies this`rows
      ensures Valid() && Abs() == Enqueue(old(Abs()), s, e)
    {
      UpsertMeets(rows, OutMsg(s, e));
      rows := Upsert(rows, OutMsg(s, e));
    }

    method AppendWSOutbox(e: Entry) returns (s: int)
      requires Valid()
      modifies this
      ensures Valid() && Abs() == Append(old(Abs()), e) && s == Abs().next
    {
      var row := StateOf(state);
      s := row.next + 1;
      state := Some(row.(next := s));
      UpsertMeets(rows, OutMsg(s, e));
      rows := Upsert(rows, OutMsg(s, e));
    }

    method ListWSOutbox(afterSeq: int, limit: nat) returns (r: ListResult)
      requires Valid() && 0 < limit
      ensures r == List(Abs(), afterSeq, limit)
    {
      var page := Page(rows, afterSeq, limit);
      PageShape(rows, afterSeq, limit);
      var messages, expectedSeq := [], afterSeq + 1;
      for i := 0 to |page|
        invariant expectedSeq == afterSeq + 1 + i
        invariant messages == page[..i]
        invariant forall j :: 0 <= j < i ==> page[j].seqNo == afterSeq + 1 + j
      {
        if page[i].seqNo != expectedSeq {
          BrokenScan(page, Abs(), afterSeq, limit, i);
          return Gap;
        }
        messages := messages + [page[i]];
        expectedSeq := expectedSeq + 1;
      }
      FullScan(page, Abs(), afterSeq, limit);
      return Listed(messages);
    }

    method AckWSOutboxThrough(s: int) returns (acked: seq<OutMsg>)
      requires Valid()
      modifies this`rows
      ensures Valid() && Abs() == AckThrough(old(Abs()), s)
      ensures acked == Upto(old(Abs()).stored, s)
    {
      UptoRows(rows, s);
      DeleteAscends(rows, Below(rows, s));
      DeleteRows(rows, s);
      acked := [];
      var selected := Below(rows, s);
      for i := 0 to selected
        invariant acked == rows[..i]
      {
        acked := acked + [rows[i]];
      }
      rows := rows[selected..];
    }

    /** On an absent row the number is inserted as it is, a negative one too. */
    method SetWSLastReceivedSeq(s: int)
      requires Valid()
      modifies this`state
      ensures var before := old(state);
              var kept := before.Some? && s < before.value.received;
              state == Some(SequenceState(StateOf(before).next, if kept then before.value.received else s))
      ensures 0 <= s || old(state).Some? ==> Valid() && Abs() == SetReceived(old(Abs()), s)
    {
      if state.None? {
        state := Some(SequenceState(0, s));
      } else if s >= state.value.received {
        state := Some(state.value.(received := s));
      }
    }

    method ResetWSOutbox(nextOutboundSeq: nat)
      requires Valid()
      modifies this
      ensures Valid() && Abs() == Reset(old(Abs()), nextOutboundSeq)
    {
      rows := [];
      state := Some(StateOf(state).(next := nextOutboundSeq));
    }
  }

  // ------------------------------------------------------------ the Redis sorted set

  /** ZADD: the member goes to its place, once. */
  function Add(index: seq<int>, s: int): seq<int> {
    if index == [] || index[|index| - 1] < s then index + [s]
    else if index[|index| - 1] == s then index
    else Add(index[..|index| - 1], s) + [index[|index| - 1]]
  }

  /** How many members have a score up to s. */
  function MembersBelow(index: seq<int>, s: int): (k: nat)
    ensures k <= |index|
  {
    if index == [] || index[|index| - 1] <= s then |index| else MembersBelow(index[..|index| - 1], s)
  }

  /** ZRANGEBYSCORE (s +inf LIMIT 0 n. */
  function MemberPage(index: seq<int>, s: int, limit: nat): seq<int> {
    var above := index[MembersBelow(index, s)..];
    if |above| <= limit then above else above[..limit]
  }

  /** What is read for a member whose payload hash is missing. */
  const NO_ENTRY := Entry("", Receipt(ChunkReceipt(TransferId("", RequestKind), "", 0, false, false)))

  /** The members joined with their payload hashes. */
  function Rows(index: seq<int>, payloads: map<int, Entry>): (rows: seq<OutMsg>)
    ensures |rows| == |index|
    ensures forall i :: 0 <= i < |rows| ==>
              rows[i] == OutMsg(index[i], if index[i] in payloads then payloads[index[i]] else NO_ENTRY)
  {
    seq(|index|, i requires 0 <= i < |index| =>
      OutMsg(index[i], if index[i] in payloads then payloads[index[i]] else NO_ENTRY))
  }

  lemma {:induction false} AddMember(index: seq<int>, payloads: map<int, Entry>, s: int, e: Entry)
    requires Ascending(Rows(index, payloads)) && 1 <= s
    ensures Ascending(Rows(Add(index, s), payloads[s := e]))
    ensures forall t :: t in Add(index, s) <==> t in index || t == s
  {
    AddIsUpsert(index, payloads, s, e);
    AddContains(index, s);
    UpsertAscends(Rows(index, payloads), OutMsg(s, e));
  }

  lemma {:induction false} AddContains(index: seq<int>, s: int)
    ensures forall t :: t in Add(index, s) <==> t in index || t == s
  {
    if index != [] && index[|index| - 1] > s {
      var init := index[..|index| - 1];
      AddContains(init, s);
      assert index == init + [index[|index| - 1]];
    }
  }

  lemma {:induction false} AddIsUpsert(index: seq<int>, payloads: map<int, Entry>, s: int, e: Entry)
    requires Ascending(Rows(index, payloads))
    ensures Rows(Add(index, s), payloads[s := e]) == Upsert(Rows(index, payloads), OutMsg(s, e))
  {
    var rows := Rows(index, payloads);
    if index == [] {
    } else {
      var init, last := index[..|index| - 1], index[|index| - 1];
      assert Rows(init, payloads) == rows[..|index| - 1];
      if last > s {
        AddIsUpsert(init, payloads, s, e);
        assert Rows(Add(index, s), payloads[s := e]) == Rows(Add(init, s), payloads[s := e]) + [rows[|index| - 1]];
      } else {
        forall i | 0 <= i < |index| - 1 ensures index[i] != s {
          assert rows[i].seqNo < rows[|index| - 1].seqNo;
        }
        if last == s {
          assert Rows(index, payloads[s := e]) == rows[..|index| - 1] + [OutMsg(s, e)];
        } else {
          assert Rows(index + [s], payloads[s := e]) == rows + [OutMsg(s, e)];
        }
      }
    }
  }

  lemma {:induction false} MembersBelowRows(index: seq<int>, payloads: map<int, Entry>, s: int)
    ensures MembersBelow(index, s) == Below(Rows(index, payloads), s)
  {
    if index != [] && index[|index| - 1] > s {
      MembersBelowRows(index[..|index| - 1], payloads, s);
      assert Rows(index[..|index| - 1], payloads) == Rows(index, payloads)[..|index| - 1];
    }
  }

  lemma MembersOfPage(index: seq<int>, payloads: map<int, Entry>, s: int, limit: nat)
    ensures |MemberPage(index, s, limit)| == |Page(Rows(index, payloads), s, limit)|
    ensures forall i :: 0 <= i < |MemberPage(index, s, limit)| ==>
              Page(Rows(index, payloads), s, limit)[i] ==
              var m := MemberPage(index, s, limit)[i]; OutMsg(m, if m in payloads then payloads[m] else NO_ENTRY)
  {
    MembersBelowRows(index, payloads, s);
  }

  lemma RowsTable(index: seq<int>, payloads: map<int, Entry>)
    requires Ascending(Rows(index, payloads))
    requires forall s :: s in index <==> s in payloads
    ensures Table(Rows(index, payloads)) == payloads
  {
    var rows := Rows(index, payloads);
    TableRows(rows);
    forall s ensures s in Table(rows) <==> s in payloads {
      if s in payloads {
        var i :| 0 <= i < |index| && index[i] == s;
        assert rows[i].seqNo == s;
      }
    }
    forall s | s in payloads ensures Table(rows)[s] == payloads[s] {
      var i :| 0 <= i < |index| && index[i] == s;
      assert rows[i].seqNo == s;
    }
  }

  lemma NothingLeft(index: seq<int>, payloads: map<int, Entry>)
    requires forall t :: t in payloads ==> t in index
    ensures payloads - AsSet(index) == map[]
  {
    assert forall t :: t in payloads ==> t in AsSet(index);
    assert (payloads - AsSet(index)).Keys == {};
  }

  lemma MemberIsBelow(index: seq<int>, payloads: map<int, Entry>, s: int, i: nat)
    requires Ascending(Rows(index, payloads)) && i < |index|
    ensures index[i] <= s <==> i < MembersBelow(index, s)
  {
    var rows := Rows(index, payloads);
    MembersBelowRows(index, payloads, s);
    BelowSplits(rows, s);
    assert rows[i].seqNo == index[i];
  }

  /** A member is among the first MembersBelow ones exactly when it is at most s. */
  lemma MembersSplit(index: seq<int>, payloads: map<int, Entry>, s: int)
    requires Ascending(Rows(index, payloads))
    ensures var k := MembersBelow(index, s);
            && (forall t :: t in index[..k] <==> t in index && t <= s)
            && (forall t :: t in index[k..] <==> t in index && t > s)
  {
    forall i | 0 <= i < |index| ensures index[i] <= s <==> i < MembersBelow(index, s) {
      MemberIsBelow(index, payloads, s, i);
    }
    SplitAt(index, MembersBelow(index, s), s);
  }

  lemma SplitAt(index: seq<int>, k: nat, s: int)
    requires k <= |index| && forall i :: 0 <= i < |index| ==> (index[i] <= s <==> i < k)
    ensures forall t :: t in index[..k] <==> t in index && t <= s
    ensures forall t :: t in index[k..] <==> t in index && t > s
  {
    forall t | t in index ensures if t <= s then t in index[..k] else t in index[k..] {
      var i :| 0 <= i < |index| && index[i] == t;
      assert if i < k then index[..k][i] == t else index[k..][i - k] == t;
    }
    assert forall i :: 0 <= i < |index| - k ==> index[k..][i] == index[k + i];
  }

  /** Removing the members up to s with their payloads leaves a coherent pair holding the rest. */
  lemma DropMembers(index: seq<int>, payloads: map<int, Entry>, s: int)
    requires Ascending(Rows(index, payloads))
    requires forall t :: t in index <==> t in payloads
    ensures var k := MembersBelow(index, s);
            && Ascending(Rows(index[k..], Kept(payloads, s)))
            && (forall t :: t in index[k..] <==> t in Kept(payloads, s))
            && payloads - AsSet(index[..k]) == Kept(payloads, s)
  {
    var k := MembersBelow(index, s);
    MembersSplit(index, payloads, s);
    DeleteAscends(Rows(index, payloads), k);
    assert payloads - AsSet(index[..k]) == Kept(payloads, s);
    RowsSuffix(index, payloads, s, k);
  }

  lemma RowsSuffix(index: seq<int>, payloads: map<int, Entry>, s: int, k: nat)
    requires k <= |index| && forall t :: t in index[k..] <==> t in index && t > s
    ensures Rows(index[k..], Kept(payloads, s)) == Rows(index, payloads)[k..]
  {
    forall j | 0 <= j < |index| - k
      ensures Rows(index[k..], Kept(payloads, s))[j] == Rows(index, payloads)[k..][j]
    {
      assert index[k..][j] in index[k..];
    }
  }

  /** The payloads read for these members, where they are still there. */
  function Picked(members: seq<int>, payloads: map<int, Entry>): seq<OutMsg> {
    if members == [] then []
    else
      var last := members[|members| - 1];
      Picked(members[..|members| - 1], payloads) + (if last in payloads then [OutMsg(last, payloads[last])] else [])
  }

  lemma MembersStep(index: seq<int>, payloads: map<int, Entry>, i: nat)
    requires i < |index|
    ensures index[..i + 1][..i] == index[..i]
    ensures payloads - AsSet(index[..i]) - {index[i]} == payloads - AsSet(index[..i + 1])
  {
    assert index[..i + 1] == index[..i] + [index[i]];
    assert AsSet(index[..i + 1]) == AsSet(index[..i]) + {index[i]};
  }

  lemma {:induction false} PickedRows(index: seq<int>, payloads: map<int, Entry>, k: nat)
    requires k <= |index| && forall t :: t in index ==> t in payloads
    ensures Picked(index[..k], payloads) == Rows(index, payloads)[..k]
  {
    if k > 0 {
      PickedRows(index, payloads, k - 1);
      assert index[..k][..k - 1] == index[..k - 1];
      assert index[k - 1] in index;
      assert Rows(index, payloads)[..k] == Rows(index, payloads)[..k - 1] + [Rows(index, payloads)[k - 1]];
    }
  }

  lemma PickedIs(index: seq<int>, payloads: map<int, Entry>, s: int)
    requires Ascending(Rows(index, payloads))
    requires forall t :: t in index <==> t in payloads
    ensures Picked(index[..MembersBelow(index, s)], payloads) == Upto(payloads, s)
  {
    RowsTable(index, payloads);
    UptoRows(Rows(index, payloads), s);
    MembersBelowRows(index, payloads, s);
    PickedRows(index, payloads, MembersBelow(index, s));
  }

  /** The rest of the listing loop. */
  function Scan(members: seq<int>, payloads: map<int, Entry>, expectedSeq: int, out: seq<OutMsg>): ListResult
    decreases |members|
  {
    if members == [] then Listed(out)
    else if members[0] != expectedSeq || members[0] !in payloads then Gap
    else Scan(members[1..], payloads, expectedSeq + 1, out + [OutMsg(members[0], payloads[members[0]])])
  }

  /** Entry j of the page is the one expected there, and its payload is not lost. */
  predicate InPlace(page: seq<OutMsg>, payloads: map<int, Entry>, afterSeq: int, j: nat)
    requires j < |page|
  {
    page[j].seqNo == afterSeq + 1 + j && page[j].seqNo in payloads
  }

  /** Whether the loop finds a gap depends on the first entry out of place. */
  lemma {:induction false} ScanFrom(page: seq<OutMsg>, members: seq<int>, payloads: map<int, Entry>, afterSeq: int,
                                    i: nat)
    requires i <= |page| == |members|
    requires forall j :: 0 <= j < |page| ==>
               page[j].seqNo == members[j] && (members[j] in payloads ==> page[j].entry == payloads[members[j]])
    requires forall j :: 0 <= j < i ==> InPlace(page, payloads, afterSeq, j)
    ensures var r := Scan(members[i..], payloads, afterSeq + 1 + i, page[..i]);
            && (r != Gap ==> r == Listed(page) && forall j :: 0 <= j < |page| ==> InPlace(page, payloads, afterSeq, j))
            && (r == Gap ==> exists j :: 0 <= j < |page| && !InPlace(page, payloads, afterSeq, j)
                                          && forall k :: 0 <= k < j ==> InPlace(page, payloads, afterSeq, k))
    decreases |page| - i
  {
    if i == |page| {
      assert page[..i] == page;
    } else {
      assert members[i..][0] == members[i] && members[i..][1..] == members[i + 1..];
      if InPlace(page, payloads, afterSeq, i) {
        assert page[..i + 1] == page[..i] + [OutMsg(members[i], payloads[members[i]])];
        ScanFrom(page, members, payloads, afterSeq, i + 1);
      }
    }
  }

  lemma ScanMeets(index: seq<int>, payloads: map<int, Entry>, l: Log, afterSeq: int, limit: nat)
    requires Ascending(Rows(index, payloads)) && l.stored == payloads
    ensures var page := Page(Rows(index, payloads), afterSeq, limit);
            var r := Scan(MemberPage(index, afterSeq, limit), payloads, afterSeq + 1, []);
            && (r == Gap <==> exists i :: 0 <= i < |page| && !InPlace(page, payloads, afterSeq, i))
            && ((forall s :: s in index <==> s in payloads) ==> r == List(l, afterSeq, limit))
  {
    var rows := Rows(index, payloads);
    var page, members := Page(rows, afterSeq, limit), MemberPage(index, afterSeq, limit);
    MembersOfPage(index, payloads, afterSeq, limit);
    assert members[0..] == members && page[..0] == [];
    ScanFrom(page, members, payloads, afterSeq, 0);
    if forall s :: s in index <==> s in payloads {
      RowsTable(index, payloads);
      PageShape(rows, afterSeq, limit);
      ScanIsList(page, members, payloads, l, afterSeq, limit);
    }
  }

  lemma ScanIsList(page: seq<OutMsg>, members: seq<int>, payloads: map<int, Entry>, l: Log, afterSeq: int, limit: nat)
    requires IsPage(page, l.stored, afterSeq, limit) && l.stored == payloads && |members| == |page|
    requires forall j :: 0 <= j < |page| ==> page[j].seqNo == members[j]
    ensures Scan(members, payloads, afterSeq + 1, []) == List(l, afterSeq, limit)
  {
    assert members[0..] == members && page[..0] == [];
    ScanFrom(page, members, payloads, afterSeq, 0);
    if Scan(members, payloads, afterSeq + 1, []) == Gap {
      var j :| 0 <= j < |page| && !InPlace(page, payloads, afterSeq, j)
               && forall k :: 0 <= k < j ==> InPlace(page, payloads, afterSeq, k);
      forall k | 0 <= k < j ensures page[k].seqNo == afterSeq + 1 + k {
        assert InPlace(page, payloads, afterSeq, k);
      }
      BrokenScan(page, l, afterSeq, limit, j);
    } else {
      forall j | 0 <= j < |page| ensures page[j].seqNo == afterSeq + 1 + j {
        assert InPlace(page, payloads, afterSeq, j);
      }
      FullScan(page, l, afterSeq, limit);
    }
  }

  /** Reads and deletes the payloads of these members. */
  method TakeOut(members: seq<int>, payloads: map<int, Entry>) returns (picked: seq<OutMsg>, left: map<int, Entry>)
    ensures picked == Picked(members, payloads) && left == payloads - AsSet(members)
  {
    picked, left := [], payloads;
    assert members[..|members|] == members;
    for i := 0 to |members|
      invariant picked == Picked(members[..i], payloads)
      invariant left == payloads - AsSet(members[..i])
    {
      MembersStep(members, payloads, i);
      if members[i] in payloads {
        picked := picked + [OutMsg(members[i], payloads[members[i]])];
      }
      left := left - {members[i]};
    }
  }

  lemma RowsOrder(index: seq<int>, payloads: map<int, Entry>, fewer: map<int, Entry>, k: nat)
    requires Ascending(Rows(index, payloads)) && k <= |index|
    ensures Ascending(Rows(index[k..], fewer))
  {
    var rows, rest := Rows(index, payloads), Rows(index[k..], fewer);
    forall i | 0 <= i < |rest| ensures rest[i].seqNo == rows[k + i].seqNo {
    }
  }

  lemma AckMeets(index: seq<int>, payloads: map<int, Entry>, s: int)
    requires Ascending(Rows(index, payloads))
    ensures var k := MembersBelow(index, s);
            var left := payloads - AsSet(index[..k]);
            && Ascending(Rows(index[k..], left))
            && ((forall t :: t in index <==> t in payloads) ==>
                  && (forall t :: t in index[k..] <==> t in left)
                  && left == Kept(payloads, s) && Picked(index[..k], payloads) == Upto(payloads, s))
  {
    var k := MembersBelow(index, s);
    RowsOrder(index, payloads, payloads - AsSet(index[..k]), k);
    if forall t :: t in index <==> t in payloads {
      DropMembers(index, payloads, s);
      PickedIs(index, payloads, s);
    }
  }

  /** A sorted set of numbers, one payload hash per number, and the state hash with its two fields. */
  class RedisOutbox {
    var index: seq<int>
    var payloads: map<int, Entry>
    var nextOutbound: Option<int>
    var lastReceived: Option<int>

    function Count(field: Option<int>): int {
      if field.Some? then field.value else 0
    }

    ghost predicate Valid()
      reads this
    {
      && 0 <= Count(nextOutbound) && 0 <= Count(lastReceived)
      && Ascending(Rows(index, payloads))
    }

    /** Every member still has its payload and every payload its member. */
    ghost predicate Coherent()
      reads this
    {
      forall s :: s in index <==> s in payloads
    }

    ghost function Abs(): Log
      reads this
    {
      Log(payloads, Count(nextOutbound), Count(lastReceived))
    }

    constructor ()
      ensures Valid() && Coherent() && Abs() == EMPTY_LOG
    {
      index, payloads, nextOutbound, lastReceived := [], map[], None, None;
    }

    method GetWSSequenceState() returns (s: Option<SequenceState>)
      requires Valid()
      ensures StateOf(s) == SequenceState(Abs().next, Abs().received)
    {
      if nextOutbound.None? && lastReceived.None? {
        return None;
      }
      return Some(SequenceState(Count(nextOutbound), Count(lastReceived)));
    }

    method NextWSOutboundSeq() returns (s: int)
      requires Valid()
      modifies this`nextOutbound
      ensures Valid() && Abs() == Allocate(old(Abs())) && s == Abs().next
      ensures Coherent() == old(Coherent())
    {
      s := Count(nextOutbound) + 1;
      nextOutbound := Some(s);
    }

    method EnqueueWSOutbox(s: int, e: Entry)
      requires Valid() && 1 <= s
      modifies this`index, this`payloads
      ensures Valid() && Abs() == Enqueue(old(Abs()), s, e)
      ensures old(Coherent()) ==> Coherent()
    {
      AddMember(index, payloads, s, e);
      index := Add(index, s);
      payloads := payloads[s := e];
    }

    method AppendWSOutbox(e: Entry) returns (s: int)
      requires Valid()
      modifies this
      ensures Valid() && Abs() == Append(old(Abs()), e) && s == Abs().next
      ensures old(Coherent()) ==> Coherent()
    {
      s := Count(nextOutbound) + 1;
      nextOutbound := Some(s);
      AddMember(index, payloads, s, e);
      index := Add(index, s);
      payloads := payloads[s := e];
    }

    /** A member whose payload is gone counts as a gap too. */
    method ListWSOutbox(afterSeq: int, limit: nat) returns (r: ListResult)
      requires Valid() && 0 < limit
      ensures Coherent() ==> r == List(Abs(), afterSeq, limit)
      ensures r == Gap <==>
              exists i :: 0 <= i < |Page(Rows(index, payloads), afterSeq, limit)|
                && !InPlace(Page(Rows(index, payloads), afterSeq, limit), payloads, afterSeq, i)
    {
      var members := MemberPage(index, afterSeq, limit);
      var out, expectedSeq := [], afterSeq + 1;
      ScanMeets(index, payloads, Abs(), afterSeq, limit);
      assert members[0..] == members;
      for i := 0 to |members|
        invariant expectedSeq == afterSeq + 1 + i
        invariant Scan(members, payloads, afterSeq + 1, []) == Scan(members[i..], payloads, expectedSeq, out)
      {
        assert members[i..][0] == members[i] && members[i..][1..] == members[i + 1..];
        if members[i] != expectedSeq {
          return Gap;
        }
        if members[i] !in payloads {
          return Gap;
        }
        out := out + [OutMsg(members[i], payloads[members[i]])];
        expectedSeq := expectedSeq + 1;
      }
      return Listed(out);
    }

    /** A member whose payload is gone is passed over, and removed with the others. */
    method AckWSOutboxThrough(s: int) returns (acked: seq<OutMsg>)
      requires Valid()
      modifies this`index, this`payloads
      ensures Valid()
      ensures var k := MembersBelow(old(index), s);
              && acked == Picked(old(index)[..k], old(payloads))
              && index == old(index)[k..] && payloads == old(payloads) - AsSet(old(index)[..k])
      ensures old(Coherent()) ==>
                Coherent() && Abs() == AckThrough(old(Abs()), s) && acked == Upto(old(Abs()).stored, s)
    {
      var selected := MembersBelow(index, s);
      var removed;
      AckMeets(index, payloads, s);
      acked, removed := TakeOut(index[..selected], payloads);
      index := index[selected..];
      payloads := removed;
    }

    method SetWSLastReceivedSeq(s: int)
      requires Valid()
      modifies this`lastReceived
      ensures Valid() && Abs() == SetReceived(old(Abs()), s)
      ensures Coherent() == old(Coherent())
    {
      var current := Count(lastReceived);
      var seqNo := s;
      if seqNo < current {
        seqNo := current;
      }
      lastReceived := Some(seqNo);
    }

    /** Every member goes with its payload; a payload without a member would stay. */
    method ResetWSOutbox(nextOutboundSeq: nat)
      requires Valid()
      modifies this
      ensures Valid() && index == [] && payloads == old(payloads) - AsSet(old(index))
      ensures Abs().next == nextOutboundSeq && Abs().received == old(Abs()).received
      ensures old(Coherent()) ==> Coherent() && Abs() == Reset(old(Abs()), nextOutboundSeq)
    {
      var _, left := TakeOut(index, payloads);
      if Coherent() {
        NothingLeft(index, payloads);
      }
      index, payloads := [], left;
      nextOutbound := Some(nextOutboundSeq);
    }
  }
}
