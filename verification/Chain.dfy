/** The hash chain of the audit plane. Hash and MAC are ideal: a digest is the
    body it was computed from, a MAC is the key and the message it covers. */
module Chain {
  import opened Schemas

  datatype Key = Key(secret: string)

  datatype Digest = Genesis | Sha(index: int, ts: real, payload: string, prev: Digest)

  datatype Message = OnRecord(hash: Digest) | OnHead(count: nat, head: Digest)

  datatype Mac = Mac(key: Key, message: Message)

  datatype Record = Record(index: int, ts: real, payload: string, prev: Digest, hash: Digest, mac: Option<Mac>)

  /** A commitment to the length of a chain and its last hash. */
  datatype Checkpoint = Checkpoint(count: nat, head: Digest, mac: Option<Mac>)

  function BodyHash(r: Record): Digest { Sha(r.index, r.ts, r.payload, r.prev) }

  function Head(rs: seq<Record>): Digest { if rs == [] then Genesis else rs[|rs| - 1].hash }

  function Sign(key: Option<Key>, m: Message): Option<Mac> { if key.Some? then Some(Mac(key.value, m)) else None }

  /** The record of a payload at a given place of a chain. */
  function RecordAt(key: Option<Key>, at: nat, prev: Digest, ts: real, payload: string): Record {
    var hash := Sha(at, ts, payload, prev);
    Record(at, ts, payload, prev, hash, Sign(key, OnRecord(hash)))
  }

  /** The record the next append writes. */
  function Next(key: Option<Key>, rs: seq<Record>, ts: real, payload: string): Record {
    RecordAt(key, |rs|, Head(rs), ts, payload)
  }

  predicate LinkedAt(key: Option<Key>, rs: seq<Record>, i: nat)
    requires i < |rs|
  {
    && rs[i].index == i
    && rs[i].prev == Head(rs[..i])
    && rs[i].hash == BodyHash(rs[i])
    && (key.Some? ==> rs[i].mac == Some(Mac(key.value, OnRecord(rs[i].hash))))
  }

  predicate Chained(key: Option<Key>, rs: seq<Record>) {
    forall i :: 0 <= i < |rs| ==> LinkedAt(key, rs, i)
  }

  function HeadCheckpoint(key: Option<Key>, rs: seq<Record>): Checkpoint {
    Checkpoint(|rs|, Head(rs), Sign(key, OnHead(|rs|, Head(rs))))
  }

  predicate Matches(key: Option<Key>, rs: seq<Record>, expected: Checkpoint) {
    Chained(key, rs) && HeadCheckpoint(key, rs) == expected
  }

  /** The verifier's loop, over any list of records, honest or not. */
  method VerifyRecords(key: Option<Key>, rs: seq<Record>) returns (ok: bool)
    ensures ok <==> Chained(key, rs)
  {
    var prev := Genesis;
    for i := 0 to |rs|
      invariant prev == Head(rs[..i])
      invariant forall k :: 0 <= k < i ==> LinkedAt(key, rs, k)
    {
      var r := rs[i];
      if r.index != i || r.prev != prev || BodyHash(r) != r.hash {
        assert !LinkedAt(key, rs, i);
        return false;
      }
      if key.Some? && r.mac != Some(Mac(key.value, OnRecord(r.hash))) {
        assert !LinkedAt(key, rs, i);
        return false;
      }
      prev := r.hash;
    }
    return true;
  }

  /** A chain and one more record that follows from it. */
  lemma ChainedByOne(key: Option<Key>, rs: seq<Record>, r: Record)
    ensures Chained(key, rs + [r])
            <==> Chained(key, rs) && r.index == |rs| && r.prev == Head(rs) && r.hash == BodyHash(r)
                 && (key.Some? ==> r.mac == Some(Mac(key.value, OnRecord(r.hash))))
  {
    var rs' := rs + [r];
    assert rs'[..|rs|] == rs;
    assert forall i :: 0 <= i < |rs| ==> rs'[..i] == rs[..i];
    assert forall i :: 0 <= i < |rs| ==> LinkedAt(key, rs', i) == LinkedAt(key, rs, i);
    if Chained(key, rs') {
      assert LinkedAt(key, rs', |rs|);
      assert forall i :: 0 <= i < |rs| ==> LinkedAt(key, rs', i);
    }
  }

  lemma PrefixIsChained(key: Option<Key>, log: seq<Record>, rs: seq<Record>)
    requires Chained(key, log) && rs <= log
    ensures Chained(key, rs)
  {
    forall i | 0 <= i < |rs| ensures LinkedAt(key, rs, i) {
      assert LinkedAt(key, log, i);
      assert rs[..i] == log[..i];
    }
  }

  /** Nobody but the log's owner can sign: every valid record MAC in the list was
      issued for a record of the log. */
  ghost predicate OnlyIssuedMacs(key: Key, log: seq<Record>, rs: seq<Record>) {
    forall i, h :: 0 <= i < |rs| && rs[i].mac == Some(Mac(key, OnRecord(h)))
                   ==> exists j :: 0 <= j < |log| && log[j].hash == h
  }

  lemma SignedRecordIsInLog(key: Key, log: seq<Record>, rs: seq<Record>, i: nat)
    requires Chained(Some(key), log) && OnlyIssuedMacs(key, log, rs) && Chained(Some(key), rs)
    requires i < |rs|
    ensures i < |log| && rs[i] == log[i]
  {
    assert LinkedAt(Some(key), rs, i);
    var j :| 0 <= j < |log| && log[j].hash == rs[i].hash;
    assert LinkedAt(Some(key), log, j);
  }

  /** Keyed verification accepts exactly the genuine prefixes: no edit, no
      reordering, no gap, no insertion, but a dropped tail goes unnoticed. */
  lemma KeyedChainAcceptsPrefixes(key: Key, log: seq<Record>, rs: seq<Record>)
    requires Chained(Some(key), log) && OnlyIssuedMacs(key, log, rs)
    ensures Chained(Some(key), rs) <==> rs <= log
  {
    if Chained(Some(key), rs) {
      forall i | 0 <= i < |rs| ensures i < |log| && rs[i] == log[i] {
        SignedRecordIsInLog(key, log, rs, i);
      }
      if rs != [] {
        SignedRecordIsInLog(key, log, rs, |rs| - 1);
      }
    } else if rs <= log {
      PrefixIsChained(Some(key), log, rs);
    }
  }

  /** The same list, whatever MACs it carries. */
  ghost predicate SameBodies(rs: seq<Record>, log: seq<Record>) {
    |rs| == |log| && forall i :: 0 <= i < |rs| ==> rs[i].(mac := None) == log[i].(mac := None)
  }

  /** Two chains of one length with one head are one chain: the head hash
      commits to everything before it. */
  lemma {:induction false} HeadCommitsToChain(key: Option<Key>, rs: seq<Record>, log: seq<Record>)
    requires Chained(key, rs) && Chained(key, log)
    requires |rs| == |log| && Head(rs) == Head(log)
    ensures SameBodies(rs, log)
  {
    var n := |rs|;
    if n > 0 {
      assert LinkedAt(key, rs, n - 1) && LinkedAt(key, log, n - 1);
      PrefixIsChained(key, rs, rs[..n - 1]);
      PrefixIsChained(key, log, log[..n - 1]);
      HeadCommitsToChain(key, rs[..n - 1], log[..n - 1]);
      forall i | 0 <= i < n ensures rs[i].(mac := None) == log[i].(mac := None) {
        if i < n - 1 {
          assert rs[i] == rs[..n - 1][i] && log[i] == log[..n - 1][i];
        }
      }
    }
  }

  /** Against the current checkpoint only the whole log passes, truncation
      included; no assumption on who can sign is needed. */
  lemma CheckpointAcceptsWholeLog(key: Option<Key>, log: seq<Record>, rs: seq<Record>)
    requires Chained(key, log)
    ensures key.Some? ==> (Matches(key, rs, HeadCheckpoint(key, log)) <==> rs == log)
    ensures key.None? ==> (Matches(key, rs, HeadCheckpoint(key, log)) <==> SameBodies(rs, log))
  {
    if Matches(key, rs, HeadCheckpoint(key, log)) {
      HeadCommitsToChain(key, rs, log);
      forall i | key.Some? && 0 <= i < |rs| ensures rs[i] == log[i] {
        assert LinkedAt(key, rs, i) && LinkedAt(key, log, i);
      }
    }
    if SameBodies(rs, log) && key.None? {
      forall i | 0 <= i < |rs| ensures LinkedAt(key, rs, i) {
        assert LinkedAt(key, log, i);
        assert rs[i].(mac := None) == log[i].(mac := None);
        if i > 0 {
          assert rs[i - 1].(mac := None) == log[i - 1].(mac := None);
          assert rs[..i][i - 1] == rs[i - 1] && log[..i][i - 1] == log[i - 1];
        }
      }
      if |rs| > 0 {
        assert rs[|rs| - 1].(mac := None) == log[|rs| - 1].(mac := None);
      }
    }
  }

  /** Reading the count and the head of a growing chain in two queries yields a
      checkpoint that some chain can match exactly when nothing was appended in
      between. */
  lemma TornCheckpointMatchesNothing(key: Option<Key>, log: seq<Record>, count: nat)
    requires Chained(key, log)
    ensures (exists rs :: Matches(key, rs, Checkpoint(count, Head(log), Sign(key, OnHead(count, Head(log))))))
            <==> count == |log|
  {
    var torn := Checkpoint(count, Head(log), Sign(key, OnHead(count, Head(log))));
    if rs :| Matches(key, rs, torn) {
      assert Head(rs) == Head(log);
      assert rs != [] ==> LinkedAt(key, rs, |rs| - 1);
      assert log != [] ==> LinkedAt(key, log, |log| - 1);
    }
    if count == |log| {
      assert Matches(key, log, torn);
    }
  }

  /** What appending a list of timestamped payloads to an empty log leaves. */
  function Log(key: Option<Key>, entries: seq<(real, string)>): seq<Record> {
    if entries == [] then []
    else
      var rs := Log(key, entries[..|entries| - 1]);
      rs + [Next(key, rs, entries[|entries| - 1].0, entries[|entries| - 1].1)]
  }

  function EntriesOf(rs: seq<Record>): seq<(real, string)> {
    if rs == [] then [] else EntriesOf(rs[..|rs| - 1]) + [(rs[|rs| - 1].ts, rs[|rs| - 1].payload)]
  }

  lemma SameBodiesByOne(rs: seq<Record>, r: Record, log: seq<Record>, l: Record)
    ensures SameBodies(rs + [r], log + [l]) <==> SameBodies(rs, log) && r.(mac := None) == l.(mac := None)
  {
    var rs', log' := rs + [r], log + [l];
    if SameBodies(rs', log') {
      assert rs'[|rs|].(mac := None) == log'[|log|].(mac := None);
      forall i | 0 <= i < |rs| ensures rs[i].(mac := None) == log[i].(mac := None) {
        assert rs'[i].(mac := None) == log'[i].(mac := None);
      }
    }
  }

  lemma SameBodiesSameHead(rs: seq<Record>, log: seq<Record>)
    requires SameBodies(rs, log)
    ensures Head(rs) == Head(log)
  {
    if rs != [] {
      assert rs[|rs| - 1].(mac := None) == log[|rs| - 1].(mac := None);
    }
  }

  /** Without a key, verification accepts exactly what anybody could have
      appended: only self-consistency is checked. */
  lemma {:induction false} KeylessChainAcceptsAnyLog(rs: seq<Record>)
    ensures Chained(None, rs) <==> SameBodies(rs, Log(None, EntriesOf(rs)))
  {
    if rs != [] {
      var init, r := rs[..|rs| - 1], rs[|rs| - 1];
      var es, e := EntriesOf(init), (r.ts, r.payload);
      var log := Log(None, es);
      var l := Next(None, log, e.0, e.1);
      assert rs == init + [r] && EntriesOf(rs) == es + [e];
      assert (es + [e])[..|es|] == es;
      assert Log(None, es + [e]) == log + [l];
      KeylessChainAcceptsAnyLog(init);
      ChainedByOne(None, init, r);
      SameBodiesByOne(init, r, log, l);
      if SameBodies(init, log) {
        SameBodiesSameHead(init, log);
      }
    }
  }

  /** The in-memory audit log; its record list is open to whoever holds it. */
  class AuditLog {
    var records: seq<Record>
    const key: Option<Key>

    constructor (key: Option<Key>)
      ensures this.key == key && records == []
    {
      this.key, records := key, [];
    }

    method Append(ts: real, payload: string) returns (record: Record)
      modifies this
      ensures records == old(records) + [record]
      ensures record == Next(key, old(records), ts, payload)
      ensures Chained(key, old(records)) <==> Chained(key, records)
    {
      var prev := if records != [] then records[|records| - 1].hash else Genesis;
      var hash := Sha(|records|, ts, payload, prev);
      record := Record(|records|, ts, payload, prev, hash, None);
      if key.Some? {
        record := record.(mac := Some(Mac(key.value, OnRecord(hash))));
      }
      ChainedByOne(key, records, record);
      records := records + [record];
    }

    method VerifyChain() returns (ok: bool)
      ensures ok <==> Chained(key, records)
    {
      ok := VerifyRecords(key, records);
    }

    method VerifyAgainstCheckpoint(expected: Checkpoint) returns (ok: bool)
      ensures ok <==> Matches(key, records, expected)
    {
      ok := VerifyChain();
      ok := ok && HeadCheckpoint(key, records) == expected;
    }
  }
}
