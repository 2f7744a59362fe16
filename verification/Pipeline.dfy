/** The asynchronous path: any number of scoring pods take events from a queue
    that may deliver them again, score them, append the assessment to the audit
    table (read the head, then insert under the primary key) and publish the
    decision write-once. A pod may crash or lose a race at any point. */
module Pipeline {
  import opened Schemas
  import opened Chain

  /** One assessment: what the audit plane records and what the client may see. */
  datatype Assessment = Assessment(audit: string, client: string)

  datatype Pod =
    | Idle
    | Scored(eventId: string, soc: Assessment)
    | HeadRead(eventId: string, soc: Assessment, at: nat, prev: Digest)
    | Audited(eventId: string, soc: Assessment)

  datatype World = World(
    table: map<nat, Record>,
    decisions: map<string, Assessment>,
    pods: map<nat, Pod>)

  const START: World := World(map[], map[], map[])

  datatype Step =
    | Consume(pod: nat, eventId: string, soc: Assessment)
    | ReadHead(pod: nat)
    | Insert(pod: nat, ts: real)
    | Publish(pod: nat)
    | Crash(pod: nat)

  function PodAt(w: World, p: nat): Pod { if p in w.pods then w.pods[p] else Idle }

  /** The row with the highest sequence number, as the head query returns it. */
  ghost predicate IsTop(table: map<nat, Record>, k: nat) {
    k in table && forall j: nat :: j in table ==> j <= k
  }

  ghost function ReadTop(table: map<nat, Record>): (nat, Digest) {
    if exists k: nat :: IsTop(table, k) then
      var k: nat :| IsTop(table, k);
      (k + 1, table[k].hash)
    else (0, Genesis)
  }

  /** One atomic step; a step that is not enabled changes nothing. */
  ghost function Do(key: Key, w: World, step: Step): World {
    var p, pod := step.pod, PodAt(w, step.pod);
    match step
    case Consume(_, eventId, soc) =>
      if pod.Idle? then w.(pods := w.pods[p := Scored(eventId, soc)]) else w
    case ReadHead(_) =>
      if pod.Scored? then
        var (at, prev) := ReadTop(w.table);
        w.(pods := w.pods[p := HeadRead(pod.eventId, pod.soc, at, prev)])
      else w
    case Insert(_, ts) =>
      if pod.HeadRead? then
        if pod.at in w.table then w.(pods := w.pods[p := Idle])
        else
          w.(table := w.table[pod.at := RecordAt(Some(key), pod.at, pod.prev, ts, pod.soc.audit)],
             pods := w.pods[p := Audited(pod.eventId, pod.soc)])
      else w
    case Publish(_) =>
      if pod.Audited? then
        w.(decisions := if pod.eventId in w.decisions then w.decisions else w.decisions[pod.eventId := pod.soc],
           pods := w.pods[p := Idle])
      else w
    case Crash(_) => w.(pods := w.pods[p := Idle])
  }

  ghost function After(key: Key, steps: seq<Step>): World {
    if steps == [] then START else Do(key, After(key, steps[..|steps| - 1]), steps[|steps| - 1])
  }

  /* ---- The table is always one chain ---- */

  /** The table's rows in ascending order of sequence number are `rs`. */
  ghost predicate Holds(table: map<nat, Record>, rs: seq<Record>) {
    (forall k: nat :: k in table <==> k < |rs|) && (forall k: nat :: k < |rs| ==> table[k] == rs[k])
  }

  /** A pending append read the head of some prefix; a finished one is recorded. */
  ghost predicate Explained(rs: seq<Record>, pod: Pod) {
    match pod
    case HeadRead(_, _, at, prev) => at <= |rs| && prev == Head(rs[..at])
    case Audited(_, soc) => Recorded(rs, soc)
    case _ => true
  }

  ghost predicate Recorded(rs: seq<Record>, soc: Assessment) {
    exists i :: 0 <= i < |rs| && rs[i].payload == soc.audit
  }

  ghost predicate Inv(key: Key, w: World, rs: seq<Record>) {
    && Holds(w.table, rs)
    && Chained(Some(key), rs)
    && (forall p :: p in w.pods ==> Explained(rs, w.pods[p]))
    && (forall e :: e in w.decisions ==> Recorded(rs, w.decisions[e]))
  }

  lemma TopIsHead(table: map<nat, Record>, rs: seq<Record>)
    requires Holds(table, rs)
    ensures ReadTop(table) == (|rs|, Head(rs))
  {
    if rs != [] {
      assert IsTop(table, |rs| - 1);
    }
  }

  lemma GrowingExplains(rs: seq<Record>, r: Record, pod: Pod)
    requires Explained(rs, pod)
    ensures Explained(rs + [r], pod)
  {
    match pod
    case HeadRead(_, _, at, prev) =>
      assert (rs + [r])[..at] == rs[..at];
    case Audited(_, soc) =>
      var i :| 0 <= i < |rs| && rs[i].payload == soc.audit;
      assert (rs + [r])[i].payload == soc.audit;
    case _ =>
  }

  /** Insert-if-absent succeeds only while the head that was read is still the
      head, so the new row links to the last one. */
  lemma InsertExtendsChain(key: Key, w: World, rs: seq<Record>, p: nat, ts: real)
    requires Inv(key, w, rs) && p in w.pods && w.pods[p].HeadRead? && w.pods[p].at !in w.table
    ensures var pod := w.pods[p];
            pod.at == |rs|
            && Inv(key, Do(key, w, Insert(p, ts)), rs + [RecordAt(Some(key), pod.at, pod.prev, ts, pod.soc.audit)])
  {
    var pod, w' := w.pods[p], Do(key, w, Insert(p, ts));
    assert Explained(rs, pod);
    assert rs[..|rs|] == rs;
    var r := RecordAt(Some(key), pod.at, pod.prev, ts, pod.soc.audit);
    var rs' := rs + [r];
    ChainedByOne(Some(key), rs, r);
    forall q | q in w'.pods ensures Explained(rs', w'.pods[q]) {
      if q == p {
        assert rs'[|rs|].payload == pod.soc.audit;
      } else {
        GrowingExplains(rs, r, w.pods[q]);
      }
    }
    forall e | e in w'.decisions ensures Recorded(rs', w'.decisions[e]) {
      var i :| 0 <= i < |rs| && rs[i].payload == w.decisions[e].audit;
      assert rs'[i].payload == w.decisions[e].audit;
    }
  }

  lemma StepKeepsChain(key: Key, w: World, rs: seq<Record>, step: Step) returns (rs': seq<Record>)
    requires Inv(key, w, rs)
    ensures Inv(key, Do(key, w, step), rs') && rs <= rs'
  {
    var p, pod := step.pod, PodAt(w, step.pod);
    rs' := rs;
    match step
    case Insert(_, ts) =>
      if pod.HeadRead? && pod.at !in w.table {
        InsertExtendsChain(key, w, rs, p, ts);
        rs' := rs + [RecordAt(Some(key), pod.at, pod.prev, ts, pod.soc.audit)];
      }
    case ReadHead(_) =>
      TopIsHead(w.table, rs);
      assert rs[..|rs|] == rs;
    case Publish(_) =>
      assert pod.Audited? ==> Explained(rs, pod);
    case _ =>
  }

  /** However appenders interleave, race or crash, the table is a gap-free,
      correctly linked and signed chain. */
  lemma {:induction false} EveryRunKeepsOneChain(key: Key, steps: seq<Step>) returns (rs: seq<Record>)
    ensures Inv(key, After(key, steps), rs)
  {
    if steps == [] {
      rs := [];
    } else {
      var before := EveryRunKeepsOneChain(key, steps[..|steps| - 1]);
      rs := StepKeepsChain(key, After(key, steps[..|steps| - 1]), before, steps[|steps| - 1]);
    }
  }

  /** The verifier, given the rows in order, accepts after every run. */
  lemma VerifierAccepts(key: Key, steps: seq<Step>, rows: seq<Record>)
    requires Holds(After(key, steps).table, rows)
    ensures Chained(Some(key), rows)
  {
    var rs := EveryRunKeepsOneChain(key, steps);
    var table := After(key, steps).table;
    assert |rows| in table <==> |rows| < |rs|;
    assert |rs| in table <==> |rs| < |rows|;
    assert forall k :: 0 <= k < |rs| ==> table[k] == rs[k] && table[k] == rows[k];
    assert rows == rs;
  }

  /* ---- Write-once, in order ---- */

  lemma StepOnlyAdds(key: Key, w: World, step: Step)
    ensures var w' := Do(key, w, step);
            && (forall k :: k in w.table ==> k in w'.table && w'.table[k] == w.table[k])
            && (forall e :: e in w.decisions ==> e in w'.decisions && w'.decisions[e] == w.decisions[e])
  {
  }

  /** A published decision and an audit row are never changed or withdrawn. */
  lemma {:induction false} PublishedForGood(key: Key, steps: seq<Step>, i: nat)
    requires i <= |steps|
    ensures var w, w' := After(key, steps[..i]), After(key, steps);
            && (forall k :: k in w.table ==> k in w'.table && w'.table[k] == w.table[k])
            && (forall e :: e in w.decisions ==> e in w'.decisions && w'.decisions[e] == w.decisions[e])
  {
    if i == |steps| {
      assert steps[..i] == steps;
    } else {
      var init := steps[..|steps| - 1];
      assert init[..i] == steps[..i];
      PublishedForGood(key, init, i);
      StepOnlyAdds(key, After(key, init), steps[|steps| - 1]);
    }
  }

  /** The step that publishes a decision finds its assessment already audited. */
  lemma AuditedBeforePublished(key: Key, steps: seq<Step>, step: Step, e: string)
    requires e !in After(key, steps).decisions && e in After(key, steps + [step]).decisions
    ensures var w := After(key, steps);
            exists k :: k in w.table && w.table[k].payload == After(key, steps + [step]).decisions[e].audit
  {
    var w := After(key, steps);
    assert (steps + [step])[..|steps|] == steps;
    var rs := EveryRunKeepsOneChain(key, steps);
    var pod := PodAt(w, step.pod);
    assert Explained(rs, pod);
    var i :| 0 <= i < |rs| && rs[i].payload == pod.soc.audit;
    assert w.table[i].payload == pod.soc.audit;
  }
}
