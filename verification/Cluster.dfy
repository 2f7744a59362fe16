/** Any number of scoring pods over one versioned store. A request is a loop of
    attempts; an attempt loads the identity's state and later compare-and-sets
    the state it computed. Between the two, anything may happen. */
module Cluster {
  import opened Schemas
  import opened Arithmetic
  import opened Identity
  import opened Engine
  import opened Runs

  /** What a caller asks for. Event, clock and behaviour are read once, before
      the first attempt; the other inputs of an attempt may differ each time. */
  datatype Request =
    | Scoring(event: Event, now: real, anomaly: Option<Unit>)
    | Verification(passed: bool)

  predicate Serves(op: Op, req: Request) {
    match req
    case Scoring(e, now, anomaly) =>
      op.Assessed? && op.attempt.event == e && op.attempt.now == now && op.attempt.anomaly == anomaly
    case Verification(passed) => op == Verified(passed)
  }

  /** A request in progress: how many commits its identity had when it began,
      how many attempts have failed, how many of those failed without a
      conflict, and how many of those had written all the same. */
  datatype Job = Job(ticket: nat, id: string, req: Request, began: nat, tries: nat, dropped: nat, lost: nat)

  datatype Pod =
    | Idle
    | Waiting(job: Job)
    | Loaded(job: Job, seen: Snapshot)

  /** How a request ended: the attempt it reports on, the number of commits the
      reported state is based on, and whether it was stored. */
  datatype Answer = Answer(job: Job, op: Op, seen: Snapshot, stored: bool, ended: nat)

  datatype Commit = Commit(ticket: nat, op: Op)

  /** `exclusive`: the per-key lock really excludes other writers.
      `lossy`: the store may fail a commit for other reasons than a conflict,
      before the write or after it. */
  datatype Mode = Mode(exclusive: bool, lossy: bool)

  datatype World = World(
    store: map<string, Snapshot>,
    log: map<string, seq<Commit>>,
    pods: map<nat, Pod>,
    answers: map<nat, Answer>,
    tickets: nat)

  const START: World := World(map[], map[], map[], map[], 0)

  function Current(w: World, id: string): Snapshot { if id in w.store then w.store[id] else UNSEEN }

  function Entries(log: map<string, seq<Commit>>, id: string): seq<Commit> { if id in log then log[id] else [] }

  function Commits(w: World, id: string): seq<Commit> { Entries(w.log, id) }

  function OpsOf(cs: seq<Commit>): (ops: seq<Op>)
    ensures |ops| == |cs|
    ensures forall i :: 0 <= i < |cs| ==> ops[i] == cs[i].op
  {
    seq(|cs|, (i: nat) requires i < |cs| => cs[i].op)
  }

  function PodAt(w: World, p: nat): Pod { if p in w.pods then w.pods[p] else Idle }

  datatype Step =
    | Begin(pod: nat, id: string, req: Request)
    | Load(pod: nat)
    | Store(pod: nat, op: Op)
    | LoseWrite(pod: nat, op: Op)
    | LoseAck(pod: nat, op: Op)

  /** The attempt did not commit: try again, or report it after the last try. */
  function Fail(w: World, p: nat, job: Job, seen: Snapshot, op: Op): World {
    if job.tries + 1 < CAS_RETRIES then
      w.(pods := w.pods[p := Waiting(job.(tries := job.tries + 1))])
    else
      w.(pods := w.pods[p := Idle],
         answers := w.answers[job.ticket := Answer(job.(tries := CAS_RETRIES), op, seen, false, |Commits(w, job.id)|)])
  }

  /** The write itself: version checked, version advanced. */
  function Write(cfg: Config, w: World, job: Job, seen: Snapshot, op: Op): World {
    w.(store := w.store[job.id := Apply(cfg, seen, op)],
       log := w.log[job.id := Commits(w, job.id) + [Commit(job.ticket, op)]])
  }

  predicate Locked(w: World, id: string) {
    exists q :: q in w.pods && w.pods[q].Loaded? && w.pods[q].job.id == id
  }

  /** One atomic step; a step that is not enabled changes nothing. */
  function Do(cfg: Config, mode: Mode, w: World, step: Step): World {
    var pod := PodAt(w, step.pod);
    match step
    case Begin(p, id, req) =>
      if pod.Idle? then
        w.(pods := w.pods[p := Waiting(Job(w.tickets, id, req, |Commits(w, id)|, 0, 0, 0))], tickets := w.tickets + 1)
      else w
    case Load(p) =>
      if pod.Waiting? && !(mode.exclusive && Locked(w, pod.job.id)) then
        w.(pods := w.pods[p := Loaded(pod.job, Current(w, pod.job.id))])
      else w
    case Store(p, op) =>
      if pod.Loaded? && Serves(op, pod.job.req) then
        if Current(w, pod.job.id).version == pod.seen.version then
          var n := |Commits(w, pod.job.id)|;
          Write(cfg, w, pod.job, pod.seen, op)
            .(pods := w.pods[p := Idle],
              answers := w.answers[pod.job.ticket := Answer(pod.job, op, pod.seen, true, n)])
        else Fail(w, p, pod.job, pod.seen, op)
      else w
    case LoseWrite(p, op) =>
      if mode.lossy && pod.Loaded? && Serves(op, pod.job.req) then
        Fail(w, p, pod.job.(dropped := pod.job.dropped + 1), pod.seen, op)
      else w
    case LoseAck(p, op) =>
      if mode.lossy && pod.Loaded? && Serves(op, pod.job.req)
         && Current(w, pod.job.id).version == pod.seen.version then
        Fail(Write(cfg, w, pod.job, pod.seen, op), p,
             pod.job.(dropped := pod.job.dropped + 1, lost := pod.job.lost + 1), pod.seen, op)
      else w
  }

  /** The world after a run, which is any finite sequence of steps. */
  function After(cfg: Config, mode: Mode, steps: seq<Step>): World {
    if steps == [] then START else Do(cfg, mode, After(cfg, mode, steps[..|steps| - 1]), steps[|steps| - 1])
  }

  /* ---- Serializability ---- */

  /** `s` is what the identity's first `s.version` commits produce in order. */
  ghost predicate IsPast(cfg: Config, cs: seq<Commit>, s: Snapshot) {
    s.version <= |cs| && s == StateAt(cfg, OpsOf(cs), s.version)
  }

  ghost predicate Serial(cfg: Config, w: World) {
    && (forall id :: IsPast(cfg, Commits(w, id), Current(w, id)) && Current(w, id).version == |Commits(w, id)|)
    && (forall p :: p in w.pods && w.pods[p].Loaded? ==> IsPast(cfg, Commits(w, w.pods[p].job.id), w.pods[p].seen))
    && (forall t :: t in w.answers ==> Explained(cfg, Commits(w, w.answers[t].job.id), t, w.answers[t]))
  }

  /** An answer reports on a state of the serial order, and if it was stored the
      commit sits exactly there. */
  ghost predicate Explained(cfg: Config, cs: seq<Commit>, t: nat, a: Answer) {
    && a.job.ticket == t
    && IsPast(cfg, cs, a.seen)
    && Serves(a.op, a.job.req)
    && a.ended <= |cs|
    && (a.stored ==> a.seen.version < |cs| && cs[a.seen.version] == Commit(t, a.op))
  }

  lemma PastStaysPast(cfg: Config, cs: seq<Commit>, c: Commit, s: Snapshot)
    requires IsPast(cfg, cs, s)
    ensures IsPast(cfg, cs + [c], s)
  {
    hide Apply;
    assert OpsOf(cs + [c]) == OpsOf(cs) + [c.op];
    PrefixStates(cfg, OpsOf(cs), [c.op], s.version);
  }

  lemma NextIsPast(cfg: Config, cs: seq<Commit>, c: Commit, s: Snapshot)
    requires IsPast(cfg, cs, s) && s.version == |cs|
    ensures IsPast(cfg, cs + [c], Apply(cfg, s, c.op)) && Apply(cfg, s, c.op).version == |cs| + 1
  {
    hide Apply;
    var ops := OpsOf(cs + [c]);
    assert ops == OpsOf(cs) + [c.op];
    PrefixStates(cfg, OpsOf(cs), [c.op], s.version);
    assert StateAt(cfg, ops, |cs| + 1) == Apply(cfg, StateAt(cfg, ops, |cs|), ops[|cs|]);
  }

  /** No lost update: a write whose version check passes extends the serial
      order, and everything explained before it stays explained. */
  lemma WriteIsSerial(cfg: Config, w: World, job: Job, seen: Snapshot, op: Op)
    requires Serial(cfg, w)
    requires IsPast(cfg, Commits(w, job.id), seen) && seen.version == Current(w, job.id).version
    ensures Serial(cfg, Write(cfg, w, job, seen, op))
  {
    hide Apply;
    var w', c := Write(cfg, w, job, seen, op), Commit(job.ticket, op);
    var cs := Commits(w, job.id);
    assert Commits(w', job.id) == cs + [c] && Current(w', job.id) == Apply(cfg, seen, op);
    forall id
      ensures IsPast(cfg, Commits(w', id), Current(w', id)) && Current(w', id).version == |Commits(w', id)|
    {
      if id == job.id {
        NextIsPast(cfg, cs, c, seen);
      } else {
        assert Commits(w', id) == Commits(w, id) && Current(w', id) == Current(w, id);
      }
    }
    forall p | p in w'.pods && w'.pods[p].Loaded?
      ensures IsPast(cfg, Commits(w', w'.pods[p].job.id), w'.pods[p].seen)
    {
      if w'.pods[p].job.id == job.id {
        PastStaysPast(cfg, cs, c, w'.pods[p].seen);
      }
    }
    forall t | t in w'.answers
      ensures Explained(cfg, Commits(w', w'.answers[t].job.id), t, w'.answers[t])
    {
      if w'.answers[t].job.id == job.id {
        PastStaysPast(cfg, cs, c, w'.answers[t].seen);
      }
    }
  }

  /** Only the store and the log carry the serial order: pods and answers may
      change as long as what they report is explained by it. */
  lemma SameLogIsSerial(cfg: Config, w: World, w': World)
    requires Serial(cfg, w) && w'.store == w.store && w'.log == w.log
    requires forall p :: p in w'.pods && w'.pods[p].Loaded? ==>
               (p in w.pods && w.pods[p] == w'.pods[p])
               || IsPast(cfg, Commits(w, w'.pods[p].job.id), w'.pods[p].seen)
    requires forall t :: t in w'.answers ==>
               (t in w.answers && w.answers[t] == w'.answers[t])
               || Explained(cfg, Commits(w, w'.answers[t].job.id), t, w'.answers[t])
    ensures Serial(cfg, w')
  {
    hide Apply;
    assert forall id :: Commits(w', id) == Commits(w, id) && Current(w', id) == Current(w, id);
  }

  lemma FailIsSerial(cfg: Config, w: World, p: nat, job: Job, seen: Snapshot, op: Op)
    requires Serial(cfg, w) && IsPast(cfg, Commits(w, job.id), seen) && Serves(op, job.req)
    ensures Serial(cfg, Fail(w, p, job, seen, op))
    ensures Fail(w, p, job, seen, op).store == w.store
  {
    hide Apply;
    assert Explained(cfg, Commits(w, job.id), job.ticket, Answer(job.(tries := CAS_RETRIES), op, seen, false, |Commits(w, job.id)|));
    SameLogIsSerial(cfg, w, Fail(w, p, job, seen, op));
  }

  lemma SucceedIsSerial(cfg: Config, w: World, p: nat, job: Job, seen: Snapshot, op: Op)
    requires Serial(cfg, w) && Serves(op, job.req)
    requires IsPast(cfg, Commits(w, job.id), seen) && seen.version == Current(w, job.id).version
    ensures Serial(cfg, Write(cfg, w, job, seen, op)
                          .(pods := w.pods[p := Idle],
                            answers := w.answers[job.ticket := Answer(job, op, seen, true, |Commits(w, job.id)|)]))
  {
    hide Apply;
    WriteIsSerial(cfg, w, job, seen, op);
    var v := Write(cfg, w, job, seen, op);
    var cs := Commits(w, job.id);
    var a := Answer(job, op, seen, true, |cs|);
    var w' := v.(pods := w.pods[p := Idle], answers := w.answers[job.ticket := a]);
    PastStaysPast(cfg, cs, Commit(job.ticket, op), seen);
    assert Explained(cfg, Commits(v, job.id), job.ticket, a);
    SameLogIsSerial(cfg, v, w');
  }

  lemma StepIsSerial(cfg: Config, mode: Mode, w: World, step: Step)
    requires Serial(cfg, w)
    ensures Serial(cfg, Do(cfg, mode, w, step))
  {
    hide Apply;
    var p, pod, w' := step.pod, PodAt(w, step.pod), Do(cfg, mode, w, step);
    if w' != w {
      match step
      case Begin(_, id, req) =>
        SameLogIsSerial(cfg, w, w');
      case Load(_) =>
        SameLogIsSerial(cfg, w, w');
      case Store(_, op) =>
        if Current(w, pod.job.id).version == pod.seen.version {
          SucceedIsSerial(cfg, w, p, pod.job, pod.seen, op);
        } else {
          FailIsSerial(cfg, w, p, pod.job, pod.seen, op);
        }
      case LoseWrite(_, op) =>
        FailIsSerial(cfg, w, p, pod.job.(dropped := pod.job.dropped + 1), pod.seen, op);
      case LoseAck(_, op) =>
        WriteIsSerial(cfg, w, pod.job, pod.seen, op);
        PastStaysPast(cfg, Commits(w, pod.job.id), Commit(pod.job.ticket, op), pod.seen);
        FailIsSerial(cfg, Write(cfg, w, pod.job, pod.seen, op), p,
                     pod.job.(dropped := pod.job.dropped + 1, lost := pod.job.lost + 1), pod.seen, op);
    }
  }

  /** Every run of any number of pods, with or without a working lock, on a
      lossy or a lossless store, is serializable. */
  lemma {:induction false} EveryRunIsSerial(cfg: Config, mode: Mode, steps: seq<Step>)
    ensures Serial(cfg, After(cfg, mode, steps))
  {
    hide Apply;
    if steps == [] {
      assert forall id :: Commits(START, id) == [] && Current(START, id) == UNSEEN;
    } else {
      EveryRunIsSerial(cfg, mode, steps[..|steps| - 1]);
      StepIsSerial(cfg, mode, After(cfg, mode, steps[..|steps| - 1]), steps[|steps| - 1]);
    }
  }

  /** What that means for a caller: the decision returned is the decision of the
      serial run at the position the answer reports. */
  lemma AnswersAreSerialOutcomes(cfg: Config, mode: Mode, steps: seq<Step>, t: nat)
    requires t in After(cfg, mode, steps).answers
    ensures var w := After(cfg, mode, steps);
            var a := w.answers[t];
            var ops := OpsOf(Commits(w, a.job.id));
            && Current(w, a.job.id) == StateAt(cfg, ops, |ops|)
            && a.seen.version <= |ops|
            && (a.job.req.Scoring? ==>
                  a.op.Assessed? && a.op.attempt.event == a.job.req.event && a.op.attempt.now == a.job.req.now
                  && a.op.attempt.anomaly == a.job.req.anomaly)
            && (a.job.req.Verification? ==> a.op == Verified(a.job.req.passed))
            && (a.op.Assessed? ==>
                  Assess(cfg, a.seen, a.op.attempt) == Assess(cfg, StateAt(cfg, ops, a.seen.version), a.op.attempt))
            && (a.stored ==> a.seen.version < |ops| && ops[a.seen.version] == a.op)
  {
    EveryRunIsSerial(cfg, mode, steps);
    var w := After(cfg, mode, steps);
    assert IsPast(cfg, Commits(w, w.answers[t].job.id), Current(w, w.answers[t].job.id));
  }

  /* ---- How often a request takes effect, and why it gives up ---- */

  /** How many commits carry this ticket. */
  function Effects(cs: seq<Commit>, t: nat): nat {
    if cs == [] then 0
    else Effects(cs[..|cs| - 1], t) + (if cs[|cs| - 1].ticket == t then 1 else 0)
  }

  lemma EffectsGrow(cs: seq<Commit>, c: Commit, t: nat)
    ensures Effects(cs + [c], t) == Effects(cs, t) + (if c.ticket == t then 1 else 0)
  {
    assert (cs + [c])[..|cs|] == cs;
  }

  /** Effects of a ticket are confined to its identity. */
  ghost predicate TakesEffect(log: map<string, seq<Commit>>, id: string, t: nat, n: nat) {
    forall i :: Effects(Entries(log, i), t) == if i == id then n else 0
  }

  /** Progress of a job, when its next attempt starts from `version` commits. */
  ghost predicate Progress(mode: Mode, job: Job, version: nat) {
    && job.lost <= job.dropped <= job.tries <= CAS_RETRIES
    && (!mode.lossy ==> job.dropped == 0)
    && job.began + job.lost + (job.tries - job.dropped) <= version
  }

  ghost predicate Live(mode: Mode, log: map<string, seq<Commit>>, pod: Pod)
    requires !pod.Idle?
  {
    && pod.job.tries < CAS_RETRIES
    && TakesEffect(log, pod.job.id, pod.job.ticket, pod.job.lost)
    && Progress(mode, pod.job, if pod.Loaded? then pod.seen.version else |Entries(log, pod.job.id)|)
    && (pod.Loaded? ==> pod.seen.version <= |Entries(log, pod.job.id)|)
  }

  ghost predicate Settled(mode: Mode, log: map<string, seq<Commit>>, t: nat, a: Answer) {
    && TakesEffect(log, a.job.id, t, a.job.lost + (if a.stored then 1 else 0))
    && Progress(mode, a.job, a.ended)
    && (!a.stored ==> a.job.tries == CAS_RETRIES)
    && a.ended <= |Entries(log, a.job.id)|
  }

  ghost predicate Accounted(mode: Mode, w: World) {
    && (forall t :: t >= w.tickets ==> TakesEffect(w.log, "", t, 0))
    && (forall p :: p in w.pods && !w.pods[p].Idle? ==>
          Live(mode, w.log, w.pods[p]) && w.pods[p].job.ticket < w.tickets && w.pods[p].job.ticket !in w.answers)
    && (forall p, q :: p in w.pods && q in w.pods && p != q && !w.pods[p].Idle? && !w.pods[q].Idle?
                       ==> w.pods[p].job.ticket != w.pods[q].job.ticket)
    && (forall t :: t in w.answers ==> t < w.tickets && Settled(mode, w.log, t, w.answers[t]))
  }

  /** One more commit under ticket `t` is one more effect of `t`, and of no
      other ticket. */
  lemma WriteHasOneEffect(log: map<string, seq<Commit>>, id: string, c: Commit, i: string, t: nat, n: nat)
    requires TakesEffect(log, i, t, n)
    ensures var log' := log[id := Entries(log, id) + [c]];
            && (t != c.ticket ==> TakesEffect(log', i, t, n))
            && (t == c.ticket && i == id ==> TakesEffect(log', i, t, n + 1))
  {
    var log' := log[id := Entries(log, id) + [c]];
    EffectsGrow(Entries(log, id), c, t);
    assert forall k :: k != id ==> Entries(log', k) == Entries(log, k);
    assert forall k :: Effects(Entries(log, k), t) == if k == i then n else 0;
  }

  /** Everybody else's accounts survive a write; the writer's effects grow by one. */
  lemma WriteIsAccounted(cfg: Config, mode: Mode, w: World, p: nat, op: Op)
    requires Accounted(mode, w) && p in w.pods && w.pods[p].Loaded?
    ensures var job := w.pods[p].job;
            var w' := Write(cfg, w, job, w.pods[p].seen, op);
            && Accounted(mode, w'.(pods := w.pods - {p}))
            && TakesEffect(w'.log, job.id, job.ticket, job.lost + 1)
            && |Commits(w', job.id)| == |Commits(w, job.id)| + 1
  {
    hide Apply;
    var job := w.pods[p].job;
    var c, log' := Commit(job.ticket, op), Write(cfg, w, job, w.pods[p].seen, op).log;
    WriteHasOneEffect(w.log, job.id, c, job.id, job.ticket, job.lost);
    forall q | q in w.pods && q != p && !w.pods[q].Idle? ensures Live(mode, log', w.pods[q]) {
      WriteHasOneEffect(w.log, job.id, c, w.pods[q].job.id, w.pods[q].job.ticket, w.pods[q].job.lost);
    }
    forall t | t in w.answers ensures Settled(mode, log', t, w.answers[t]) {
      var a := w.answers[t];
      WriteHasOneEffect(w.log, job.id, c, a.job.id, t, a.job.lost + (if a.stored then 1 else 0));
    }
    forall t | t >= w.tickets ensures TakesEffect(log', "", t, 0) {
      WriteHasOneEffect(w.log, job.id, c, "", t, 0);
    }
  }

  /** The accounts of everybody but pod `p`. */
  ghost predicate OthersAccounted(mode: Mode, w: World, p: nat) {
    Accounted(mode, w.(pods := w.pods - {p}))
  }

  /** No pod but `p` works on this ticket, and nobody has answered it. */
  ghost predicate Owns(w: World, p: nat, t: nat) {
    && t < w.tickets && t !in w.answers
    && forall q :: q in w.pods - {p} && !w.pods[q].Idle? ==> w.pods[q].job.ticket != t
  }

  lemma PodIsAccounted(mode: Mode, w: World, p: nat, pod: Pod)
    requires OthersAccounted(mode, w, p)
    requires !pod.Idle? && Live(mode, w.log, pod) && Owns(w, p, pod.job.ticket)
    ensures Accounted(mode, w.(pods := w.pods[p := pod]))
  {
    var rest, pods := w.pods - {p}, w.pods[p := pod];
    assert forall q :: q in pods && q != p ==> q in rest && rest[q] == pods[q];
  }

  lemma AnswerIsAccounted(mode: Mode, w: World, p: nat, a: Answer)
    requires OthersAccounted(mode, w, p)
    requires Settled(mode, w.log, a.job.ticket, a) && Owns(w, p, a.job.ticket)
    ensures Accounted(mode, w.(pods := w.pods[p := Idle], answers := w.answers[a.job.ticket := a]))
  {
    var rest, pods := w.pods - {p}, w.pods[p := Idle];
    assert forall q :: q in pods && q != p ==> q in rest && rest[q] == pods[q];
  }

  lemma FailIsAccounted(mode: Mode, w: World, p: nat, job: Job, seen: Snapshot, op: Op)
    requires OthersAccounted(mode, w, p) && Owns(w, p, job.ticket) && job.tries < CAS_RETRIES
    requires TakesEffect(w.log, job.id, job.ticket, job.lost)
    requires Progress(mode, job.(tries := job.tries + 1), |Commits(w, job.id)|)
    ensures Accounted(mode, Fail(w, p, job, seen, op))
  {
    if job.tries + 1 < CAS_RETRIES {
      PodIsAccounted(mode, w, p, Waiting(job.(tries := job.tries + 1)));
    } else {
      AnswerIsAccounted(mode, w, p, Answer(job.(tries := CAS_RETRIES), op, seen, false, |Commits(w, job.id)|));
    }
  }

  /** What taking pod `p` out of the accounts leaves. */
  lemma SetAside(mode: Mode, w: World, p: nat)
    requires Accounted(mode, w)
    ensures OthersAccounted(mode, w, p)
    ensures p in w.pods && !w.pods[p].Idle? ==> Live(mode, w.log, w.pods[p]) && Owns(w, p, w.pods[p].job.ticket)
  {
  }

  /** After the writer's own write: still set aside, one effect more. */
  lemma WriterSetAside(cfg: Config, mode: Mode, w: World, p: nat, op: Op)
    requires Accounted(mode, w) && p in w.pods && w.pods[p].Loaded?
    ensures var job := w.pods[p].job;
            var v := Write(cfg, w, job, w.pods[p].seen, op);
            && v.pods == w.pods && OthersAccounted(mode, v, p) && Owns(v, p, job.ticket)
            && TakesEffect(v.log, job.id, job.ticket, job.lost + 1)
            && |Commits(v, job.id)| == |Commits(w, job.id)| + 1
  {
    hide Apply;
    SetAside(mode, w, p);
    WriteIsAccounted(cfg, mode, w, p, op);
  }

  lemma StoreIsAccounted(cfg: Config, mode: Mode, w: World, p: nat, op: Op)
    requires Accounted(mode, w) && p in w.pods && w.pods[p].Loaded?
    requires Serves(op, w.pods[p].job.req)
    requires Current(w, w.pods[p].job.id).version == w.pods[p].seen.version == |Commits(w, w.pods[p].job.id)|
    ensures Accounted(mode, Do(cfg, mode, w, Store(p, op)))
  {
    hide Apply;
    var pod := w.pods[p];
    SetAside(mode, w, p);
    WriterSetAside(cfg, mode, w, p, op);
    AnswerIsAccounted(mode, Write(cfg, w, pod.job, pod.seen, op), p,
                      Answer(pod.job, op, pod.seen, true, |Commits(w, pod.job.id)|));
  }

  lemma LoseAckIsAccounted(cfg: Config, mode: Mode, w: World, p: nat, op: Op)
    requires Accounted(mode, w) && p in w.pods && w.pods[p].Loaded?
    requires mode.lossy && w.pods[p].seen.version == |Commits(w, w.pods[p].job.id)|
    ensures var job := w.pods[p].job;
            Accounted(mode, Fail(Write(cfg, w, job, w.pods[p].seen, op), p,
                                 job.(dropped := job.dropped + 1, lost := job.lost + 1), w.pods[p].seen, op))
  {
    hide Apply, Accounted, TakesEffect, Effects;
    var pod := w.pods[p];
    SetAside(mode, w, p);
    WriterSetAside(cfg, mode, w, p, op);
    FailIsAccounted(mode, Write(cfg, w, pod.job, pod.seen, op), p,
                    pod.job.(dropped := pod.job.dropped + 1, lost := pod.job.lost + 1), pod.seen, op);
  }

  /** An attempt that fails without writing was overtaken or was dropped. */
  lemma MissIsAccounted(mode: Mode, w: World, p: nat, job: Job, op: Op)
    requires Accounted(mode, w) && p in w.pods && w.pods[p].Loaded?
    requires (job == w.pods[p].job && w.pods[p].seen.version < |Commits(w, job.id)|)
             || (mode.lossy && job == w.pods[p].job.(dropped := w.pods[p].job.dropped + 1))
    ensures Accounted(mode, Fail(w, p, job, w.pods[p].seen, op))
  {
    SetAside(mode, w, p);
    FailIsAccounted(mode, w, p, job, w.pods[p].seen, op);
  }

  lemma LoadIsAccounted(mode: Mode, w: World, p: nat)
    requires Accounted(mode, w) && p in w.pods && w.pods[p].Waiting?
    requires Current(w, w.pods[p].job.id).version == |Commits(w, w.pods[p].job.id)|
    ensures Accounted(mode, w.(pods := w.pods[p := Loaded(w.pods[p].job, Current(w, w.pods[p].job.id))]))
  {
    SetAside(mode, w, p);
    PodIsAccounted(mode, w, p, Loaded(w.pods[p].job, Current(w, w.pods[p].job.id)));
  }

  lemma BeginIsAccounted(mode: Mode, w: World, p: nat, id: string, req: Request)
    requires Accounted(mode, w)
    ensures var job := Job(w.tickets, id, req, |Commits(w, id)|, 0, 0, 0);
            Accounted(mode, w.(pods := w.pods[p := Waiting(job)], tickets := w.tickets + 1))
  {
    SetAside(mode, w, p);
    var v := w.(tickets := w.tickets + 1);
    assert TakesEffect(w.log, "", w.tickets, 0);
    assert TakesEffect(w.log, id, w.tickets, 0);
    assert OthersAccounted(mode, v, p);
    PodIsAccounted(mode, v, p, Waiting(Job(w.tickets, id, req, |Commits(w, id)|, 0, 0, 0)));
  }

  lemma StoreStepIsAccounted(cfg: Config, mode: Mode, w: World, p: nat, op: Op)
    requires Accounted(mode, w) && p in w.pods && w.pods[p].Loaded? && Serves(op, w.pods[p].job.req)
    requires Current(w, w.pods[p].job.id).version == |Commits(w, w.pods[p].job.id)|
    ensures Accounted(mode, Do(cfg, mode, w, Store(p, op)))
  {
    hide Apply;
    var pod := w.pods[p];
    if Current(w, pod.job.id).version == pod.seen.version {
      StoreIsAccounted(cfg, mode, w, p, op);
    } else {
      assert Live(mode, w.log, pod);
      MissIsAccounted(mode, w, p, pod.job, op);
      assert Do(cfg, mode, w, Store(p, op)) == Fail(w, p, pod.job, pod.seen, op);
    }
  }

  lemma StepIsAccounted(cfg: Config, mode: Mode, w: World, step: Step)
    requires Accounted(mode, w)
    requires var pod := PodAt(w, step.pod);
             !pod.Idle? ==> Current(w, pod.job.id).version == |Commits(w, pod.job.id)|
    ensures Accounted(mode, Do(cfg, mode, w, step))
  {
    hide Apply, Accounted;
    var p, pod := step.pod, PodAt(w, step.pod);
    if Do(cfg, mode, w, step) == w {
    } else if step.Begin? {
      BeginIsAccounted(mode, w, p, step.id, step.req);
    } else if step.Load? {
      LoadIsAccounted(mode, w, p);
    } else if step.Store? {
      StoreStepIsAccounted(cfg, mode, w, p, step.op);
    } else if step.LoseWrite? {
      MissIsAccounted(mode, w, p, pod.job.(dropped := pod.job.dropped + 1), step.op);
    } else {
      LoseAckIsAccounted(cfg, mode, w, p, step.op);
    }
  }

  lemma {:induction false} EveryRunIsAccounted(cfg: Config, mode: Mode, steps: seq<Step>)
    ensures Accounted(mode, After(cfg, mode, steps))
  {
    hide Apply;
    if steps != [] {
      EveryRunIsAccounted(cfg, mode, steps[..|steps| - 1]);
      EveryRunIsSerial(cfg, mode, steps[..|steps| - 1]);
      StepIsAccounted(cfg, mode, After(cfg, mode, steps[..|steps| - 1]), steps[|steps| - 1]);
    }
  }

  /** On a lossless store a request takes effect exactly once if its answer says
      so and not at all otherwise; it gives up only after at least six commits
      of its identity, none of them its own. */
  lemma EachRequestCountsOnce(cfg: Config, mode: Mode, steps: seq<Step>, t: nat, id: string)
    requires !mode.lossy && t in After(cfg, mode, steps).answers
    ensures var w := After(cfg, mode, steps);
            var a := w.answers[t];
            && Effects(Commits(w, id), t) == (if a.stored && id == a.job.id then 1 else 0)
            && (!a.stored ==> a.job.began + 6 <= a.ended <= |Commits(w, a.job.id)|)
  {
    EveryRunIsAccounted(cfg, mode, steps);
    var w := After(cfg, mode, steps);
    assert TakesEffect(w.log, w.answers[t].job.id, t, if w.answers[t].stored then 1 else 0);
  }

  /** In general a request takes effect once for every write whose
      acknowledgement was lost, and once more if its answer says stored; so it
      is applied exactly once just when its stored write is the only one. */
  lemma EffectsAreWrites(cfg: Config, mode: Mode, steps: seq<Step>, t: nat)
    requires t in After(cfg, mode, steps).answers
    ensures var w := After(cfg, mode, steps);
            var a := w.answers[t];
            && Effects(Commits(w, a.job.id), t) == a.job.lost + (if a.stored then 1 else 0)
            && (a.stored ==> (Effects(Commits(w, a.job.id), t) == 1 <==> a.job.lost == 0))
  {
    EveryRunIsAccounted(cfg, mode, steps);
    var w := After(cfg, mode, steps);
    assert TakesEffect(w.log, w.answers[t].job.id, t, w.answers[t].job.lost + (if w.answers[t].stored then 1 else 0));
  }

  lemma TwoPassesAreTwoCredits(cfg: Config)
    ensures Apply(cfg, Apply(cfg, UNSEEN, Verified(true)), Verified(true)).budget.trust == 1000
  {
  }

  /** A lost acknowledgement makes the retry apply the request again: this
      passed step-up is credited twice, from 700 to 1000 instead of 950. */
  lemma LostAckAppliesTwice(cfg: Config) returns (steps: seq<Step>)
    ensures |steps| == 5 && steps[0] == Begin(0, "u", Verification(true))
    ensures forall i :: 0 < i < 5 ==> !steps[i].Begin?
    ensures var w := After(cfg, Mode(false, true), steps);
            Effects(Commits(w, "u"), 0) == 2 && Current(w, "u").budget.trust == 1000
  {
    hide Apply, After;
    var mode, op, c := Mode(false, true), Verified(true), Commit(0, Verified(true));
    var job := Job(0, "u", Verification(true), 0, 0, 0, 0);
    var again := job.(tries := 1, dropped := 1, lost := 1);
    steps := [];
    NothingYet(cfg, mode);
    steps := Follow(cfg, mode, steps, Begin(0, "u", Verification(true)));
    assert After(cfg, mode, steps) == World(map[], map[], map[0 := Waiting(job)], map[], 1);
    steps := Follow(cfg, mode, steps, Load(0));
    assert After(cfg, mode, steps) == World(map[], map[], map[0 := Loaded(job, UNSEEN)], map[], 1);
    steps := Follow(cfg, mode, steps, LoseAck(0, op));
    var w3 := After(cfg, mode, steps);
    assert w3.pods[0] == Waiting(again) && w3.log == map["u" := [] + [c]];
    steps := Follow(cfg, mode, steps, Load(0));
    steps := Follow(cfg, mode, steps, Store(0, op));
    var w5 := After(cfg, mode, steps);
    assert w5.log["u"] == [c] + [c];
    TwoPassesAreTwoCredits(cfg);
    EffectsGrow([c], c, 0);
    EffectsGrow([], c, 0);
    assert [] + [c] == [c];
  }

  lemma NothingYet(cfg: Config, mode: Mode)
    ensures After(cfg, mode, []) == START
  {
  }

  lemma Follow(cfg: Config, mode: Mode, steps: seq<Step>, step: Step) returns (steps': seq<Step>)
    ensures steps' == steps + [step]
    ensures After(cfg, mode, steps') == Do(cfg, mode, After(cfg, mode, steps), step)
  {
    steps' := steps + [step];
    assert steps'[..|steps|] == steps;
  }

  /* ---- With a lock that excludes ---- */

  /** Whoever has loaded holds the lock, sees the newest state and is on its
      first attempt. */
  ghost predicate Unhurried(w: World) {
    && (forall p :: p in w.pods && !w.pods[p].Idle? ==> w.pods[p].job.tries == 0)
    && (forall p :: p in w.pods && w.pods[p].Loaded? ==> w.pods[p].seen == Current(w, w.pods[p].job.id))
    && (forall p, q :: p in w.pods && q in w.pods && p != q && w.pods[p].Loaded? && w.pods[q].Loaded?
                       ==> w.pods[p].job.id != w.pods[q].job.id)
    && (forall t :: t in w.answers ==> w.answers[t].stored && w.answers[t].job.tries == 0)
  }

  lemma StepIsUnhurried(cfg: Config, w: World, step: Step)
    requires Unhurried(w)
    ensures Unhurried(Do(cfg, Mode(true, false), w, step))
  {
    hide Apply;
  }

  /** Under the per-key lock the first commit of every request succeeds. */
  lemma {:induction false} FirstCommitSucceeds(cfg: Config, steps: seq<Step>)
    ensures Unhurried(After(cfg, Mode(true, false), steps))
  {
    hide Apply;
    if steps != [] {
      FirstCommitSucceeds(cfg, steps[..|steps| - 1]);
      StepIsUnhurried(cfg, After(cfg, Mode(true, false), steps[..|steps| - 1]), steps[|steps| - 1]);
    }
  }
}
