/** Rows kept in ascending key order, as a primary-key table or a Redis sorted set hands them out. */
module SortedRows {
  import opened Models
  import opened OutboxLog

  ghost predicate Ascending(rows: seq<OutMsg>) {
    && (forall i :: 0 <= i < |rows| ==> 1 <= rows[i].seqNo)
    && (forall i, j :: 0 <= i < j < |rows| ==> rows[i].seqNo < rows[j].seqNo)
  }

  function Table(rows: seq<OutMsg>): map<int, Entry> {
    if rows == [] then map[]
    else Table(rows[..|rows| - 1])[rows[|rows| - 1].seqNo := rows[|rows| - 1].entry]
  }

  /** INSERT ... ON CONFLICT DO UPDATE, or ZADD. */
  function Upsert(rows: seq<OutMsg>, m: OutMsg): seq<OutMsg> {
    if rows == [] then [m]
    else
      var last := rows[|rows| - 1];
      if last.seqNo < m.seqNo then rows + [m]
      else if last.seqNo == m.seqNo then rows[..|rows| - 1] + [m]
      else Upsert(rows[..|rows| - 1], m) + [last]
  }

  /** The number of rows with a key up to s. */
  function Below(rows: seq<OutMsg>, s: int): (k: nat)
    ensures k <= |rows|
  {
    if rows == [] || rows[|rows| - 1].seqNo <= s then |rows| else Below(rows[..|rows| - 1], s)
  }

  /** WHERE seq > s ORDER BY seq LIMIT n. */
  function Page(rows: seq<OutMsg>, s: int, limit: nat): seq<OutMsg> {
    var above := rows[Below(rows, s)..];
    if |above| <= limit then above else above[..limit]
  }

  lemma {:induction false} TableRows(rows: seq<OutMsg>)
    requires Ascending(rows)
    ensures forall i :: 0 <= i < |rows| ==> rows[i].seqNo in Table(rows) && Table(rows)[rows[i].seqNo] == rows[i].entry
    ensures forall s :: s in Table(rows) ==> exists i :: 0 <= i < |rows| && rows[i].seqNo == s
  {
    if rows != [] {
      TableRows(rows[..|rows| - 1]);
      assert forall i :: 0 <= i < |rows| - 1 ==> rows[..|rows| - 1][i] == rows[i];
      forall s | s in Table(rows) ensures exists i :: 0 <= i < |rows| && rows[i].seqNo == s {
        if s != rows[|rows| - 1].seqNo {
          var i :| 0 <= i < |rows| - 1 && rows[..|rows| - 1][i].seqNo == s;
          assert rows[i].seqNo == s;
        }
      }
    }
  }

  lemma {:induction false} UpsertAscends(rows: seq<OutMsg>, m: OutMsg)
    requires Ascending(rows) && 1 <= m.seqNo
    ensures Ascending(Upsert(rows, m))
    ensures var top := Upsert(rows, m)[|Upsert(rows, m)| - 1].seqNo;
            top == m.seqNo || (rows != [] && top == rows[|rows| - 1].seqNo)
  {
    if rows != [] && rows[|rows| - 1].seqNo > m.seqNo {
      var init := rows[..|rows| - 1];
      UpsertAscends(init, m);
      AppendAscends(Upsert(init, m), rows[|rows| - 1]);
    }
  }

  lemma AppendAscends(rows: seq<OutMsg>, m: OutMsg)
    requires Ascending(rows) && 1 <= m.seqNo && (rows != [] ==> rows[|rows| - 1].seqNo < m.seqNo)
    ensures Ascending(rows + [m])
  {
  }

  lemma TableAppend(rows: seq<OutMsg>, m: OutMsg)
    ensures Table(rows + [m]) == Table(rows)[m.seqNo := m.entry]
  {
    assert (rows + [m])[..|rows|] == rows;
  }

  lemma {:induction false} UpsertTable(rows: seq<OutMsg>, m: OutMsg)
    ensures Table(Upsert(rows, m)) == Table(rows)[m.seqNo := m.entry]
  {
    if rows == [] {
      TableAppend([], m);
    } else {
      var init, last := rows[..|rows| - 1], rows[|rows| - 1];
      if last.seqNo < m.seqNo {
        TableAppend(rows, m);
      } else if last.seqNo == m.seqNo {
        TableAppend(init, m);
      } else {
        UpsertTable(init, m);
        TableAppend(Upsert(init, m), last);
      }
    }
  }

  lemma UpsertMeets(rows: seq<OutMsg>, m: OutMsg)
    requires Ascending(rows) && 1 <= m.seqNo
    ensures Ascending(Upsert(rows, m))
    ensures Table(Upsert(rows, m)) == Table(rows)[m.seqNo := m.entry]
  {
    UpsertAscends(rows, m);
    UpsertTable(rows, m);
  }

  lemma {:induction false} BelowSplits(rows: seq<OutMsg>, s: int)
    requires Ascending(rows)
    ensures forall i :: 0 <= i < |rows| ==> (rows[i].seqNo <= s <==> i < Below(rows, s))
  {
    if rows != [] && rows[|rows| - 1].seqNo > s {
      BelowSplits(rows[..|rows| - 1], s);
      assert forall i :: 0 <= i < |rows| - 1 ==> rows[..|rows| - 1][i] == rows[i];
    }
  }

  lemma {:induction false} DeleteAscends(rows: seq<OutMsg>, k: nat)
    requires Ascending(rows) && k <= |rows|
    ensures Ascending(rows[k..])
  {
    assert forall i :: 0 <= i < |rows| - k ==> rows[k..][i] == rows[k + i];
  }

  /** Deleting WHERE seq <= s keeps exactly the entries above s. */
  lemma {:induction false} DeleteRows(rows: seq<OutMsg>, s: int)
    requires Ascending(rows)
    ensures Table(rows[Below(rows, s)..]) == Kept(Table(rows), s)
  {
    if rows == [] || rows[|rows| - 1].seqNo <= s {
      TableRows(rows);
      assert rows[|rows|..] == [];
      assert Kept(Table(rows), s) == map[];
    } else {
      var init, last := rows[..|rows| - 1], rows[|rows| - 1];
      DeleteRows(init, s);
      assert rows[Below(rows, s)..] == init[Below(init, s)..] + [last];
      TableAppend(init[Below(init, s)..], last);
      KeptUpdate(Table(init), s, last);
    }
  }

  lemma KeptUpdate(stored: map<int, Entry>, s: int, m: OutMsg)
    requires m.seqNo > s
    ensures Kept(stored[m.seqNo := m.entry], s) == Kept(stored, s)[m.seqNo := m.entry]
  {
  }

  /** The rows up to s, in table order, are the numbered enumeration of the log. */
  lemma {:induction false} UptoRows(rows: seq<OutMsg>, s: int)
    requires Ascending(rows)
    ensures Upto(Table(rows), s) == rows[..Below(rows, s)]
    decreases s
  {
    BelowSplits(rows, s);
    if s >= 1 {
      UptoRows(rows, s - 1);
      BelowSplits(rows, s - 1);
      TableRows(rows);
      var k := Below(rows, s - 1);
      if s in Table(rows) {
        FirstAbove(rows, s);
        BelowIs(rows, s, k + 1);
        assert rows[..k + 1] == rows[..k] + [rows[k]];
      } else {
        BelowIs(rows, s, k);
      }
    } else {
      BelowIs(rows, s, 0);
    }
  }

  lemma FirstAbove(rows: seq<OutMsg>, s: int)
    requires Ascending(rows) && s in Table(rows)
    ensures Below(rows, s - 1) < |rows| && rows[Below(rows, s - 1)].seqNo == s
  {
    TableRows(rows);
    BelowSplits(rows, s - 1);
    var i :| 0 <= i < |rows| && rows[i].seqNo == s;
  }

  lemma BelowIs(rows: seq<OutMsg>, s: int, k: nat)
    requires Ascending(rows) && k <= |rows|
    requires k < |rows| ==> rows[k].seqNo > s
    requires k > 0 ==> rows[k - 1].seqNo <= s
    ensures Below(rows, s) == k
  {
    BelowSplits(rows, s);
  }

  ghost predicate OnPage(page: seq<OutMsg>, t: int) {
    exists j :: 0 <= j < |page| && page[j].seqNo == t
  }

  ghost predicate BeyondPage(page: seq<OutMsg>, limit: nat, t: int) {
    |page| == limit && forall j :: 0 <= j < |page| ==> page[j].seqNo < t
  }

  /** Stored rows above s in order, all of them unless the page is full and the row lies beyond it. */
  ghost predicate IsPage(page: seq<OutMsg>, stored: map<int, Entry>, s: int, limit: nat) {
    && |page| <= limit
    && (forall j :: 0 <= j < |page| ==>
         page[j].seqNo > s && page[j].seqNo in stored && stored[page[j].seqNo] == page[j].entry)
    && (forall i, j :: 0 <= i < j < |page| ==> page[i].seqNo < page[j].seqNo)
    && (forall t :: t in stored && t > s ==> OnPage(page, t) || BeyondPage(page, limit, t))
  }

  lemma PageShape(rows: seq<OutMsg>, s: int, limit: nat)
    requires Ascending(rows)
    ensures IsPage(Page(rows, s, limit), Table(rows), s, limit)
  {
    var page, k := Page(rows, s, limit), Below(rows, s);
    BelowSplits(rows, s);
    TableRows(rows);
    forall j | 0 <= j < |page|
      ensures page[j].seqNo > s && page[j].seqNo in Table(rows) && Table(rows)[page[j].seqNo] == page[j].entry
    {
      assert page[j] == rows[k + j];
    }
    forall i, j | 0 <= i < j < |page| ensures page[i].seqNo < page[j].seqNo {
      assert page[i] == rows[k + i] && page[j] == rows[k + j];
    }
    forall t | t in Table(rows) && t > s ensures OnPage(page, t) || BeyondPage(page, limit, t) {
      var j :| 0 <= j < |rows| && rows[j].seqNo == t;
      RowOnPage(rows, s, limit, j);
    }
  }

  lemma RowOnPage(rows: seq<OutMsg>, s: int, limit: nat, j: nat)
    requires Ascending(rows) && j < |rows| && rows[j].seqNo > s
    ensures var page := Page(rows, s, limit); OnPage(page, rows[j].seqNo) || BeyondPage(page, limit, rows[j].seqNo)
  {
    var page, k := Page(rows, s, limit), Below(rows, s);
    BelowSplits(rows, s);
    if j - k < |page| {
      assert page[j - k] == rows[j];
    } else {
      forall i | 0 <= i < |page| ensures page[i].seqNo < rows[j].seqNo {
        assert page[i] == rows[k + i];
      }
    }
  }

  /** A page numbered s + 1, s + 2, ... throughout is the abstract listing. */
  lemma FullScan(page: seq<OutMsg>, l: Log, s: int, limit: nat)
    requires IsPage(page, l.stored, s, limit)
    requires forall j :: 0 <= j < |page| ==> page[j].seqNo == s + 1 + j
    ensures List(l, s, limit) == Listed(page)
  {
    assert |page| < limit ==> forall t :: t in l.stored && t > s ==> OnPage(page, t);
    RunIs(l.stored, s + 1, limit, page);
  }

  /** A page whose i-th number is the first wrong one means a gap. */
  lemma BrokenScan(page: seq<OutMsg>, l: Log, s: int, limit: nat, i: nat)
    requires IsPage(page, l.stored, s, limit) && i < |page|
    requires forall j :: 0 <= j < i ==> page[j].seqNo == s + 1 + j
    requires page[i].seqNo != s + 1 + i
    ensures List(l, s, limit) == Gap
  {
    assert i > 0 ==> page[i - 1].seqNo < page[i].seqNo;
    assert page[i].seqNo > s + 1 + i;
    NotOnPage(page, s, i, limit);
    assert s + 1 + i !in l.stored;
    var run := page[..i];
    assert Consecutive(l.stored, s + 1, run);
    RunIs(l.stored, s + 1, limit, run);
  }

  lemma NotOnPage(page: seq<OutMsg>, s: int, i: nat, limit: nat)
    requires i < |page| && page[i].seqNo > s + 1 + i
    requires forall j :: 0 <= j < i ==> page[j].seqNo == s + 1 + j
    requires forall i, j :: 0 <= i < j < |page| ==> page[i].seqNo < page[j].seqNo
    ensures !OnPage(page, s + 1 + i)
    ensures !BeyondPage(page, limit, s + 1 + i)
  {
    forall j | 0 <= j < |page| ensures page[j].seqNo != s + 1 + i {
      if j >= i {
        assert page[j].seqNo >= page[i].seqNo;
      }
    }
  }
}
