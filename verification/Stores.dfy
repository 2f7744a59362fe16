/** The durable stores and the body of the pod loop as the code runs them:
    shared tables, changed in place, with other writers in between. */
module Stores {
  import opened Schemas
  import opened Chain
  import opened Pipeline

  class AuditStore {
    const key: Key
    /** The table, by its primary key; the sequence column is that key. */
    var table: map<nat, Record>

    ghost predicate Valid()
      reads this
    {
      forall k: nat :: k in table ==> table[k].index == k
    }

    constructor (key: Key)
      ensures Valid() && this.key == key && table == map[]
    {
      this.key, table := key, map[];
    }

    /** The head query: the row with the highest sequence number, if any. */
    method ReadHead() returns (at: nat, prev: Digest)
      ensures (at, prev) == ReadTop(table)
    {
      if table == map[] {
        return 0, Genesis;
      }
      var todo := table.Keys;
      var top :| top in todo;
      todo := todo - {top};
      while todo != {}
        invariant top in table && todo <= table.Keys
        invariant forall k :: k in table && k !in todo ==> k <= top
        decreases |todo|
      {
        var k :| k in todo;
        todo := todo - {k};
        if k > top {
          top := k;
        }
      }
      TopIsUnique(table, top);
      return top + 1, table[top].hash;
    }

    lemma TopIsUnique(table: map<nat, Record>, top: nat)
      requires IsTop(table, top)
      ensures ReadTop(table) == (top + 1, table[top].hash)
    {
      assert forall k: nat :: IsTop(table, k) ==> k <= top <= k;
    }

    /** Insert under the primary key: refused when the row exists. */
    method InsertRow(r: Record, at: nat) returns (ok: bool)
      requires Valid() && r.index == at
      modifies this
      ensures Valid()
      ensures ok <==> at !in old(table)
      ensures table == if ok then old(table)[at := r] else old(table)
    {
      ok := at !in table;
      if ok {
        table := table[at := r];
      }
    }

    /** Appends a payload. `raced` is what other appenders insert between our
        head query and our insert: ours is written exactly when there is none,
        and either way the table stays one chain. */
    method Append(payload: string, ts: real, raced: seq<(real, string)>, ghost rs: seq<Record>)
      returns (ok: bool, ghost after: seq<Record>)
      requires Valid() && Holds(table, rs) && Chained(Some(key), rs)
      modifies this
      ensures ok <==> raced == []
      ensures Valid() && Holds(table, after) && Chained(Some(key), after) && rs <= after
      ensures ok ==> after == rs + [Next(Some(key), rs, ts, payload)]
      ensures |after| == |rs| + (if ok then 1 else |raced|)
    {
      TopIsHead(table, rs);
      var at, prev := ReadHead();
      after := OthersAppend(raced, rs);
      var r := RecordAt(Some(key), at, prev, ts, payload);
      ok := InsertRow(r, at);
      if ok {
        ChainedByOne(Some(key), rs, r);
        after := rs + [r];
      }
    }

    /** Appends by others, one after the other. */
    method OthersAppend(entries: seq<(real, string)>, ghost rs: seq<Record>) returns (ghost after: seq<Record>)
      requires Valid() && Holds(table, rs) && Chained(Some(key), rs)
      modifies this
      ensures Valid() && Holds(table, after) && Chained(Some(key), after) && rs <= after
      ensures |after| == |rs| + |entries| && (entries == [] ==> table == old(table))
    {
      after := rs;
      for i := 0 to |entries|
        invariant Valid() && Holds(table, after) && Chained(Some(key), after) && rs <= after
        invariant |after| == |rs| + i && (i == 0 ==> table == old(table))
      {
        TopIsHead(table, after);
        var at, prev := ReadHead();
        var r := RecordAt(Some(key), at, prev, entries[i].0, entries[i].1);
        ChainedByOne(Some(key), after, r);
        table := table[at := r];
        after := after + [r];
      }
    }

    /** The signed checkpoint: head and count are two queries, and `raced` is
        what other appenders insert between them. It commits to the chain as it
        was at the head query exactly when there is none; otherwise no chain
        whatever matches it. */
    method HeadCheckpoint(raced: seq<(real, string)>, ghost rs: seq<Record>)
      returns (c: Checkpoint, ghost after: seq<Record>)
      requires Valid() && Holds(table, rs) && Chained(Some(key), rs)
      modifies this
      ensures Valid() && Holds(table, after) && Chained(Some(key), after) && rs <= after
      ensures |after| == |rs| + |raced|
      ensures c == Chain.HeadCheckpoint(Some(key), rs) <==> raced == []
      ensures (exists any :: Matches(Some(key), any, c)) <==> raced == []
    {
      TopIsHead(table, rs);
      var at, last := ReadHead();
      after := OthersAppend(raced, rs);
      TopIsHead(table, after);
      RowCount(table, after);
      var n := |table|;
      c := Checkpoint(n, last, Sign(Some(key), OnHead(n, last)));
      TornCheckpointMatchesNothing(Some(key), rs, n);
    }

    lemma {:induction false} RowCount(table: map<nat, Record>, rs: seq<Record>)
      requires Holds(table, rs)
      ensures |table| == |rs|
      decreases |rs|
    {
      if rs == [] {
        assert table.Keys == {};
        assert table == map[];
      } else {
        var top := |rs| - 1;
        assert top in table;
        RowCount(table - {top}, rs[..top]);
        assert table == (table - {top})[top := rs[top]];
      }
    }

    /** The rows in ascending order of sequence number, gaps and all. */
    method FetchOrdered() returns (rows: seq<Record>)
      requires Valid()
      ensures forall i :: 0 <= i < |rows| ==> rows[i].index >= 0 && rows[i].index as nat in table
                                              && table[rows[i].index as nat] == rows[i]
      ensures forall i, j :: 0 <= i < j < |rows| ==> rows[i].index < rows[j].index
      ensures forall k :: k in table ==> table[k] in rows
    {
      rows := [];
      var todo := table.Keys;
      while todo != {}
        invariant todo <= table.Keys
        invariant forall i :: 0 <= i < |rows| ==> rows[i].index >= 0 && rows[i].index as nat in table
                                                  && table[rows[i].index as nat] == rows[i]
        invariant forall i, j :: 0 <= i < j < |rows| ==> rows[i].index < rows[j].index
        invariant forall i, k :: 0 <= i < |rows| && k in todo ==> rows[i].index < k
        invariant forall k :: k in table && k !in todo ==> table[k] in rows
        decreases |todo|
      {
        var low := Lowest(todo);
        rows := rows + [table[low]];
        todo := todo - {low};
      }
    }

    method Lowest(keys: set<nat>) returns (low: nat)
      requires keys != {}
      ensures low in keys && forall k :: k in keys ==> low <= k
    {
      low :| low in keys;
      var todo := keys - {low};
      while todo != {}
        invariant low in keys && todo <= keys
        invariant forall k :: k in keys && k !in todo ==> low <= k
        decreases |todo|
      {
        var k :| k in todo;
        todo := todo - {k};
        if k < low {
          low := k;
        }
      }
    }

    /** Accepts exactly the gap-free, linked, signed tables. */
    method VerifyChain() returns (ok: bool)
      requires Valid()
      ensures ok <==> exists rs :: Holds(table, rs) && Chained(Some(key), rs)
    {
      var rows := FetchOrdered();
      ok := VerifyRecords(Some(key), rows);
      if ok {
        ChainedRowsAreTable(rows);
        assert Holds(table, rows);
      } else {
        forall rs | Holds(table, rs) ensures !Chained(Some(key), rs) {
          RowsAreTable(rows, rs);
        }
      }
    }

    lemma ChainedRowsAreTable(rows: seq<Record>)
      requires Valid() && Chained(Some(key), rows)
      requires forall i :: 0 <= i < |rows| ==> rows[i].index >= 0 && rows[i].index as nat in table
                                               && table[rows[i].index as nat] == rows[i]
      requires forall k :: k in table ==> table[k] in rows
      ensures Holds(table, rows)
    {
      forall i: nat | i < |rows| ensures i in table && table[i] == rows[i] {
        assert LinkedAt(Some(key), rows, i);
      }
      forall k: nat | k in table ensures k < |rows| {
        var i :| 0 <= i < |rows| && rows[i] == table[k];
        assert LinkedAt(Some(key), rows, i);
      }
    }

    /** Ascending rows of a gap-free table are its rows by number. */
    lemma RowsAreTable(rows: seq<Record>, rs: seq<Record>)
      requires Valid() && Holds(table, rs)
      requires forall i :: 0 <= i < |rows| ==> rows[i].index >= 0 && rows[i].index as nat in table
                                               && table[rows[i].index as nat] == rows[i]
      requires forall i, j :: 0 <= i < j < |rows| ==> rows[i].index < rows[j].index
      requires forall k :: k in table ==> table[k] in rows
      ensures rows == rs
    {
      forall k: nat | k < |rs| ensures k < |rows| && rows[k].index == k {
        RowAtItsPlace(rows, rs, k);
      }
      if rs != [] {
        RowAtItsPlace(rows, rs, |rs| - 1);
      }
      if rows != [] {
        RowNotBeforeItsPlace(rows, |rows| - 1);
        assert rows[|rows| - 1].index as nat in table;
      }
    }

    lemma {:induction false} RowNotBeforeItsPlace(rows: seq<Record>, i: nat)
      requires i < |rows| && forall j :: 0 <= j < |rows| ==> rows[j].index >= 0
      requires forall j, k :: 0 <= j < k < |rows| ==> rows[j].index < rows[k].index
      ensures rows[i].index >= i
    {
      if i > 0 {
        RowNotBeforeItsPlace(rows, i - 1);
        assert rows[i - 1].index < rows[i].index;
      }
    }

    lemma {:induction false} RowAtItsPlace(rows: seq<Record>, rs: seq<Record>, k: nat)
      requires Valid() && Holds(table, rs) && k < |rs|
      requires forall i :: 0 <= i < |rows| ==> rows[i].index >= 0 && rows[i].index as nat in table
                                               && table[rows[i].index as nat] == rows[i]
      requires forall i, j :: 0 <= i < j < |rows| ==> rows[i].index < rows[j].index
      requires forall j :: j in table ==> table[j] in rows
      ensures k < |rows| && rows[k].index == k
    {
      if k > 0 {
        RowAtItsPlace(rows, rs, k - 1);
      }
      assert k in table && table[k] in rows;
      var i :| 0 <= i < |rows| && rows[i] == table[k];
      assert rows[i].index == k;
    }
  }

  /** Decisions by event id, written once. */
  class DecisionStore {
    var rows: map<string, Assessment>

    constructor ()
      ensures rows == map[]
    {
      rows := map[];
    }

    method Put(eventId: string, soc: Assessment)
      modifies this
      ensures rows == if eventId in old(rows) then old(rows) else old(rows)[eventId := soc]
    {
      if eventId !in rows {
        rows := rows[eventId := soc];
      }
    }
  }

  /** Where handling a message raises, if it does: scoring or connecting to the
      audit table, or between the append and the put. */
  datatype Fault = NoFault | BeforeAppend | BeforePut

  class ScoringPod {
    const audit: AuditStore
    const decisions: DecisionStore

    constructor (audit: AuditStore, decisions: DecisionStore)
      ensures this.audit == audit && this.decisions == decisions
    {
      this.audit, this.decisions := audit, decisions;
    }

    /** One message of the loop, first delivery or repeat. A lost append race or
        a fault raises and ends the message: nothing more happens to it, and
        what it had audited stays. */
    method Handle(eventId: string, soc: Assessment, ts: real, raced: seq<(real, string)>, fault: Fault,
                  ghost rs: seq<Record>)
      returns (audited: bool, published: bool, ghost after: seq<Record>)
      requires audit.Valid() && Holds(audit.table, rs) && Chained(Some(audit.key), rs)
      requires forall e :: e in decisions.rows ==> Recorded(rs, decisions.rows[e])
      modifies audit, decisions
      ensures audit.Valid() && Holds(audit.table, after) && Chained(Some(audit.key), after) && rs <= after
      ensures forall e :: e in decisions.rows ==> Recorded(after, decisions.rows[e])
      ensures audited <==> raced == [] && !fault.BeforeAppend?
      ensures published <==> audited && !fault.BeforePut?
      ensures audited ==> after == rs + [Next(Some(audit.key), rs, ts, soc.audit)]
      ensures !audited ==> |after| == |rs| + (if fault.BeforeAppend? then 0 else |raced|)
      ensures decisions.rows == if published && eventId !in old(decisions.rows)
                                then old(decisions.rows)[eventId := soc] else old(decisions.rows)
    {
      audited, published, after := false, false, rs;
      if fault.BeforeAppend? {
        return;
      }
      audited, after := audit.Append(soc.audit, ts, raced, rs);
      forall e | e in decisions.rows ensures Recorded(after, decisions.rows[e]) {
        var i :| 0 <= i < |rs| && rs[i].payload == decisions.rows[e].audit;
        assert after[i].payload == decisions.rows[e].audit;
      }
      if !audited || fault.BeforePut? {
        return;
      }
      assert after[|rs|].payload == soc.audit;
      decisions.Put(eventId, soc);
      published := true;
    }
  }
}
