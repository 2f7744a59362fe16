/** The trust engine itself: it mutates a loaded record and retries its
    compare-and-set until no other writer gets in between. */
module TrustEngine {
  import opened Schemas
  import opened Arithmetic
  import opened Identity
  import opened Policy
  import opened Engine
  import opened Runs
  import opened StateStore
  import Drift

  /** What one attempt reads from the model, the statistics and the profile. */
  datatype Reading = Reading(deviation: real, ml: Option<Unit>, ks: bool)

  function AttemptOf(e: Event, now: real, anomaly: Option<Unit>, sharing: nat, r: Reading): Attempt {
    Attempt(e, now, anomaly, sharing, r.deviation, r.ml, r.ks)
  }

  /** What another writer does to the shared store: commit an operation of some
      identity, this one included, or link an identity to a device. */
  datatype Foreign = Committed(id: string, op: Op) | Linked(device: string, id: string)

  /** The operations among them that touch one identity. */
  function OpsFor(fs: seq<Foreign>, id: string): seq<Op> {
    if fs == [] then []
    else
      var f := fs[|fs| - 1];
      OpsFor(fs[..|fs| - 1], id) + (if f.Committed? && f.id == id then [f.op] else [])
  }

  /** The identities they link to one device. */
  function LinksFor(fs: seq<Foreign>, device: string): set<string> {
    if fs == [] then {}
    else
      var f := fs[|fs| - 1];
      LinksFor(fs[..|fs| - 1], device) + (if f.Linked? && f.device == device then {f.id} else {})
  }

  lemma {:induction false} ForeignConcat(a: seq<Foreign>, b: seq<Foreign>, id: string)
    ensures OpsFor(a + b, id) == OpsFor(a, id) + OpsFor(b, id)
    ensures LinksFor(a + b, id) == LinksFor(a, id) + LinksFor(b, id)
  {
    if b == [] {
      assert a + b == a;
    } else {
      ForeignConcat(a, b[..|b| - 1], id);
      assert (a + b)[..|a + b| - 1] == a + b[..|b| - 1];
    }
  }

  lemma ForeignOne(cfg: Config, s: Snapshot, f: Foreign, key: string)
    ensures Replay(cfg, s, OpsFor([f], key)) == if f.Committed? && f.id == key then Apply(cfg, s, f.op) else s
    ensures LinksFor([f], key) == if f.Linked? && f.device == key then {f.id} else {}
  {
    hide Apply;
    assert [f][..0] == [];
    if f.Committed? {
      assert [f.op][..0] == [];
    }
  }

  /** The record after other writers have committed `ops` on top of `s`. */
  function Replay(cfg: Config, s: Snapshot, ops: seq<Op>): Snapshot {
    if ops == [] then s else Apply(cfg, Replay(cfg, s, ops[..|ops| - 1]), ops[|ops| - 1])
  }

  function Concat(xs: seq<seq<Foreign>>): seq<Foreign> {
    if xs == [] then [] else Concat(xs[..|xs| - 1]) + xs[|xs| - 1]
  }

  lemma {:induction false} ReplayIsRun(cfg: Config, ops: seq<Op>, more: seq<Op>)
    ensures Replay(cfg, StateAt(cfg, ops, |ops|), more) == StateAt(cfg, ops + more, |ops + more|)
  {
    hide Apply;
    if more == [] {
      assert ops + more == ops;
    } else {
      var m := more[..|more| - 1];
      ReplayIsRun(cfg, ops, m);
      assert ops + more == (ops + m) + [more[|more| - 1]];
      PrefixStates(cfg, ops + m, [more[|more| - 1]], |ops + m|);
    }
  }

  lemma {:induction false} ReplayConcat(cfg: Config, s: Snapshot, a: seq<Op>, b: seq<Op>)
    ensures Replay(cfg, s, a + b) == Replay(cfg, Replay(cfg, s, a), b)
  {
    hide Apply;
    if b == [] {
      assert a + b == a;
    } else {
      ReplayConcat(cfg, s, a, b[..|b| - 1]);
      assert (a + b)[..|a + b| - 1] == a + b[..|b| - 1];
    }
  }

  lemma {:induction false} ReplayAdvances(cfg: Config, s: Snapshot, ops: seq<Op>)
    ensures Replay(cfg, s, ops).version == s.version + |ops|
  {
    hide Apply;
    if ops != [] {
      ReplayAdvances(cfg, s, ops[..|ops| - 1]);
    }
  }

  /** An identity's record, and a device's identities, as the others leave them
      after their first `i` interventions. */
  function SeenBy(cfg: Config, s: Snapshot, others: seq<seq<Foreign>>, id: string, i: nat): Snapshot
    requires i <= |others|
  {
    Replay(cfg, s, OpsFor(Concat(others[..i]), id))
  }

  function LinkedBy(ids: set<string>, others: seq<seq<Foreign>>, device: string, i: nat): set<string>
    requires i <= |others|
  {
    ids + LinksFor(Concat(others[..i]), device)
  }

  lemma SeenAtFirst(cfg: Config, s: Snapshot, ids: set<string>, others: seq<seq<Foreign>>, key: string)
    ensures SeenBy(cfg, s, others, key, 0) == s && LinkedBy(ids, others, key, 0) == ids
  {
  }

  lemma SeenNext(cfg: Config, s: Snapshot, ids: set<string>, others: seq<seq<Foreign>>, key: string, i: nat)
    requires i < |others|
    ensures SeenBy(cfg, s, others, key, i + 1) == Replay(cfg, SeenBy(cfg, s, others, key, i), OpsFor(others[i], key))
    ensures LinkedBy(ids, others, key, i + 1) == LinkedBy(ids, others, key, i) + LinksFor(others[i], key)
  {
    hide Apply;
    assert others[..i + 1][..i] == others[..i];
    ForeignConcat(Concat(others[..i]), others[i], key);
    ReplayConcat(cfg, s, OpsFor(Concat(others[..i]), key), OpsFor(others[i], key));
  }

  lemma NothingForeign(cfg: Config, s: Snapshot, key: string)
    ensures Replay(cfg, s, OpsFor([], key)) == s && LinksFor([], key) == {}
  {
  }

  lemma ForeignNext(cfg: Config, s: Snapshot, ids: set<string>, fs: seq<Foreign>, f: Foreign, key: string)
    ensures Replay(cfg, Replay(cfg, s, OpsFor(fs, key)), OpsFor([f], key)) == Replay(cfg, s, OpsFor(fs + [f], key))
    ensures ids + LinksFor(fs, key) + LinksFor([f], key) == ids + LinksFor(fs + [f], key)
  {
    hide Apply, OpsFor, LinksFor, Replay;
    ForeignConcat(fs, [f], key);
    ReplayConcat(cfg, s, OpsFor(fs, key), OpsFor([f], key));
  }

  lemma AssessKeepsVersion(cfg: Config, s: Snapshot, a: Attempt)
    ensures Engine.Assess(cfg, s, a).state.version == s.version
    ensures Apply(cfg, s, Assessed(a)) == Engine.Assess(cfg, s, a).state.(version := s.version + 1)
  {
  }

  lemma StepUpKeepsVersion(cfg: Config, s: Snapshot, passed: bool)
    ensures ApplyStepUp(s, passed).version == s.version
    ensures Apply(cfg, s, Verified(passed)) == ApplyStepUp(s, passed).(version := s.version + 1)
  {
  }

  class TrustEngine {
    const cfg: Config
    const store: InMemoryStateStore

    constructor (cfg: Config, store: InMemoryStateStore)
      ensures this.cfg == cfg && this.store == store
    {
      this.cfg, this.store := cfg, store;
    }

    /** The velocity counter moves on every attempt, allowed or not. */
    method ComputeFeatures(e: Event, state: IdentityState, sharing: nat, anomaly: Option<Unit>, deviation: real)
      returns (vec: seq<real>)
      modifies state`burst
      ensures state.burst == Burst(old(state.burst))
      ensures vec == Features(state.View().profile, state.burst, e, sharing, anomaly, deviation)
    {
      state.burst := state.burst * 0.5 + 1.0;
      vec := Features(state.View().profile, state.burst, e, sharing, anomaly, deviation);
    }

    method CommitFeatures(state: IdentityState, e: Event)
      modifies state
      ensures state.View() == old(state.View()).(profile := Learn(old(state.View().profile), e))
    {
      state.devices := state.devices + {e.deviceId};
      state.geos := state.geos + {e.geo};
      state.hours := state.hours + [e.hourOfDay];
      if e.amount.Some? {
        state.amounts := state.amounts + [e.amount.value];
      }
      state.eventCount := state.eventCount + 1;
    }

    /** Returns the new trust; only the recovery budget is changed in place. */
    method UpdateTrust(state: IdentityState, risk: real, now: real) returns (trust: int)
      modifies state`recoveryWindowStart, state`recoveredInWindow
      ensures var b := Engine.UpdateTrust(cfg.recoveryCap, old(state.View().budget), risk, now);
              trust == b.trust && state.View() == old(state.View()).(budget := b.(trust := old(state.trust)))
    {
      var prev := state.trust;
      if risk > 0.45 {
        return ClipInt(prev - ((risk - 0.45) * 900.0).Floor, 0, 1000);
      }
      var gain := ((0.45 - risk) * 60.0).Floor;
      if now - state.recoveryWindowStart > RECOVERY_WINDOW_SECONDS {
        state.recoveryWindowStart := now;
        state.recoveredInWindow := 0;
      }
      var allowed := if cfg.recoveryCap - state.recoveredInWindow > 0 then cfg.recoveryCap - state.recoveredInWindow else 0;
      gain := if gain <= allowed then gain else allowed;
      state.recoveredInWindow := state.recoveredInWindow + gain;
      return ClipInt(prev + gain, 0, 1000);
    }

    method RiskOf(state: IdentityState, cold: bool, a: Attempt) returns (risk: Unit)
      requires cold == (state.eventCount == 0)
      modifies state`burst, state`coldPriorUsed
      ensures risk == EventRisk(cfg, old(state.View()), a)
      ensures state.View() == old(state.View()).(burst := Burst(old(state.burst)),
                                                 coldPriorUsed := old(state.coldPriorUsed) || cold)
    {
      var vec := ComputeFeatures(a.event, state, a.sharing, a.anomaly, a.deviation);
      if cold && cfg.coldStartPrior && !state.coldPriorUsed && ColdPriorApplies(a.event) {
        vec := vec[0 := vec[0] * COLD_PRIOR_FACTOR];
        vec := vec[1 := vec[1] * COLD_PRIOR_FACTOR];
      }
      if cold {
        state.coldPriorUsed := true;
      }
      risk := BaseRisk(a.ml, Clip(Dot(WEIGHTS, vec), 0.0, 1.0));
      if ImpossibleTravel(cfg, state.View().profile, a.event, a.now) {
        risk := Clip(risk + IMPOSSIBLE_TRAVEL_BOOST, 0.0, 1.0);
      }
    }

    /** Both drift detectors advance on every attempt; the toggle only mutes them. */
    method ObserveDrift(state: IdentityState, cold: bool, risk: real, ks: bool) returns (drifting: bool)
      modifies state`riskWindow, state`riskEwma, state`cusum
      ensures drifting == Drifting(cfg, old(state.View().baseline), cold, risk, ks)
      ensures state.View() == old(state.View()).(baseline := NextBaseline(old(state.View().baseline), risk))
    {
      state.riskWindow := LastN(state.riskWindow + [Round4(risk)], RISK_WINDOW_MAX);
      var d := Drift.Step(state.riskEwma, state.cusum, risk);
      state.riskEwma, state.cusum := d.ewma, d.cusum;
      var windowFired := !cold && Drift.Detect(state.riskWindow, ks);
      drifting := cfg.driftEnabled && (d.fired || windowFired);
    }

    /** The decision, and the review flag it may raise. */
    method DecideOn(state: IdentityState, a: Attempt, trust: int, risk: real, drifting: bool) returns (verdict: Verdict)
      modifies state`underReview
      ensures var v := Review(Decide(trust, risk, a.event), drifting || old(state.underReview), a.event);
              verdict == if a.ml.None? then Degrade(v, a.event) else v
      ensures state.View() == old(state.View()).(underReview := old(state.underReview)
                || (drifting && Decide(trust, risk, a.event).decision.Allow?))
    {
      verdict := Decide(trust, risk, a.event);
      if (drifting || state.underReview) && verdict.decision.Allow? {
        verdict := Verdict(StepUp, DriftReview, Some(CheapestSufficient(a.event, true)));
        state.underReview := true;
      }
      if a.ml.None? {
        verdict := Degrade(verdict, a.event);
      }
    }

    /** One pass of the scoring loop over a loaded record. */
    method ScoreOnce(state: IdentityState, a: Attempt) returns (verdict: Verdict, risk: Unit)
      modifies state
      ensures Outcome(state.View(), verdict, risk) == Engine.Assess(cfg, old(state.View()), a)
    {
      hide EventRisk, Drifting, NextBaseline, Decide, Degrade, Review, Engine.UpdateTrust, Learn, Burst;
      var cold := state.eventCount == 0;
      risk := RiskOf(state, cold, a);
      var drifting := ObserveDrift(state, cold, risk, a.ks);
      var trust := UpdateTrust(state, risk, a.now);
      verdict := DecideOn(state, a, trust, risk, drifting);
      state.trust := trust;
      if verdict.decision.Allow? {
        CommitFeatures(state, a.event);
        state.lastGeo, state.lastGeoTs := a.event.geo, a.now;
      }
    }

    method OneActs(f: Foreign)
      modifies store
      ensures forall id :: store.Stored(id) == Replay(cfg, old(store.Stored(id)), OpsFor([f], id))
      ensures forall d :: store.Sharers(d) == old(store.Sharers(d)) + LinksFor([f], d)
    {
      hide Apply, OpsFor, LinksFor, Replay;
      forall id {
        ForeignOne(cfg, store.Stored(id), f, id);
      }
      match f
      case Committed(id, op) =>
        store.data := store.data[id := Apply(cfg, store.Stored(id), op)];
      case Linked(device, id) =>
        var _ := store.DeviceAdd(device, id);
    }

    /** What other writers do, to any identity, while we compute. */
    method OthersAct(fs: seq<Foreign>)
      modifies store
      ensures forall id :: store.Stored(id) == Replay(cfg, old(store.Stored(id)), OpsFor(fs, id))
      ensures forall d :: store.Sharers(d) == old(store.Sharers(d)) + LinksFor(fs, d)
    {
      hide Apply, OpsFor, LinksFor, Replay;
      forall id {
        NothingForeign(cfg, old(store.Stored(id)), id);
      }
      for i := 0 to |fs|
        invariant forall id :: store.Stored(id) == Replay(cfg, old(store.Stored(id)), OpsFor(fs[..i], id))
        invariant forall d :: store.Sharers(d) == old(store.Sharers(d)) + LinksFor(fs[..i], d)
      {
        assert fs[..i + 1] == fs[..i] + [fs[i]];
        OneActs(fs[i]);
        forall id
          ensures store.Stored(id) == Replay(cfg, old(store.Stored(id)), OpsFor(fs[..i + 1], id))
          ensures store.Sharers(id) == old(store.Sharers(id)) + LinksFor(fs[..i + 1], id)
        {
          ForeignNext(cfg, old(store.Stored(id)), old(store.Sharers(id)), fs[..i], fs[i], id);
        }
      }
      assert fs[..|fs|] == fs;
    }

    /** The body of the retry loop: load, score, compare-and-set. */
    method AttemptOnce(e: Event, now: real, anomaly: Option<Unit>, reading: Reading, others: seq<Foreign>)
      returns (verdict: Verdict, risk: Unit, ok: bool)
      modifies store
      ensures ok <==> OpsFor(others, e.identityId) == []
      ensures var seen := old(store.Stored(e.identityId));
              var sharing := |old(store.Sharers(e.deviceId)) + {e.identityId}|;
              var a := AttemptOf(e, now, anomaly, sharing, reading);
              && verdict == Engine.Assess(cfg, seen, a).verdict && risk == Engine.Assess(cfg, seen, a).risk
              && store.Stored(e.identityId)
                 == if ok then Apply(cfg, seen, Assessed(a)) else Replay(cfg, seen, OpsFor(others, e.identityId))
      ensures store.Sharers(e.deviceId)
              == old(store.Sharers(e.deviceId)) + {e.identityId} + LinksFor(others, e.deviceId)
      ensures forall id :: id != e.identityId ==>
                store.Stored(id) == Replay(cfg, old(store.Stored(id)), OpsFor(others, id))
    {
      hide Apply, Engine.Assess;
      var id := e.identityId;
      ghost var seen := store.Stored(id);
      var state := store.Load(id);
      var sharing := store.DeviceAdd(e.deviceId, id);
      var a := AttemptOf(e, now, anomaly, sharing, reading);
      verdict, risk := ScoreOnce(state, a);
      OthersAct(others);
      ReplayAdvances(cfg, seen, OpsFor(others, id));
      AssessKeepsVersion(cfg, seen, a);
      ok := store.Commit(id, state, state.version);
    }

    /** Scores an event. `others[i]` is what other writers do, to whatever
        identity, between our i-th load and our i-th commit, `readings[i]` what
        that attempt reads. The first attempt during which nobody commits this
        identity is the one that counts: it sees exactly the state the others
        left behind. After six disturbed attempts nothing of ours is stored, and
        the answer is the last attempt's. */
    method Assess(e: Event, now: real, anomaly: Option<Unit>, readings: seq<Reading>, others: seq<seq<Foreign>>)
      returns (verdict: Verdict, risk: Unit, last: nat, stored: bool)
      requires |readings| == |others| == CAS_RETRIES
      modifies store
      ensures last < CAS_RETRIES && (stored || last == CAS_RETRIES - 1)
      ensures forall i :: 0 <= i < last ==> OpsFor(others[i], e.identityId) != []
      ensures stored <==> OpsFor(others[last], e.identityId) == []
      ensures var seen := SeenBy(cfg, old(store.Stored(e.identityId)), others, e.identityId, last);
              var sharing := |LinkedBy(old(store.Sharers(e.deviceId)) + {e.identityId}, others, e.deviceId, last)|;
              var a := AttemptOf(e, now, anomaly, sharing, readings[last]);
              && verdict == Engine.Assess(cfg, seen, a).verdict && risk == Engine.Assess(cfg, seen, a).risk
              && store.Stored(e.identityId)
                 == if stored then Apply(cfg, seen, Assessed(a))
                    else Replay(cfg, seen, OpsFor(others[last], e.identityId))
      ensures forall id :: id != e.identityId ==>
                store.Stored(id) == SeenBy(cfg, old(store.Stored(id)), others, id, last + 1)
    {
      hide Apply, Engine.Assess, Replay, SeenBy, LinkedBy, OpsFor, LinksFor, Concat;
      ghost var start, sharers := store.Stored(e.identityId), store.Sharers(e.deviceId) + {e.identityId};
      SeenAtFirst(cfg, start, sharers, others, e.identityId);
      SeenAtFirst(cfg, start, sharers, others, e.deviceId);
      last := 0;
      verdict, risk, stored := AttemptOnce(e, now, anomaly, readings[0], others[0]);
      OthersSeen(old(store.data), others, e.identityId, 0);
      SeenNext(cfg, start, sharers, others, e.deviceId, 0);
      while !stored && last + 1 < CAS_RETRIES
        invariant last < CAS_RETRIES
        invariant forall i :: 0 <= i < last ==> OpsFor(others[i], e.identityId) != []
        invariant stored <==> OpsFor(others[last], e.identityId) == []
        invariant var seen := SeenBy(cfg, start, others, e.identityId, last);
                  var a := AttemptOf(e, now, anomaly, |LinkedBy(sharers, others, e.deviceId, last)|, readings[last]);
                  && verdict == Engine.Assess(cfg, seen, a).verdict && risk == Engine.Assess(cfg, seen, a).risk
                  && store.Stored(e.identityId)
                     == if stored then Apply(cfg, seen, Assessed(a))
                        else Replay(cfg, seen, OpsFor(others[last], e.identityId))
        invariant store.Sharers(e.deviceId) == LinkedBy(sharers, others, e.deviceId, last + 1)
        invariant e.identityId in store.Sharers(e.deviceId)
        invariant forall id :: id != e.identityId ==>
                    store.Stored(id) == SeenBy(cfg, old(store.Stored(id)), others, id, last + 1)
        decreases CAS_RETRIES - last
      {
        SeenNext(cfg, start, sharers, others, e.identityId, last);
        last := last + 1;
        assert store.Sharers(e.deviceId) + {e.identityId} == store.Sharers(e.deviceId);
        verdict, risk, stored := AttemptOnce(e, now, anomaly, readings[last], others[last]);
        SeenNext(cfg, start, sharers, others, e.deviceId, last);
        OthersSeen(old(store.data), others, e.identityId, last);
      }
    }

    /** Everybody else's records, one intervention on. */
    lemma OthersSeen(data: map<string, Snapshot>, others: seq<seq<Foreign>>, mine: string, i: nat)
      requires i < |others|
      ensures forall id :: id != mine ==>
                var s := if id in data then data[id] else UNSEEN;
                SeenBy(cfg, s, others, id, i + 1) == Replay(cfg, SeenBy(cfg, s, others, id, i), OpsFor(others[i], id))
                && SeenBy(cfg, s, others, id, 0) == s
    {
      hide Apply, Replay, SeenBy;
      forall id | id != mine
        ensures var s := if id in data then data[id] else UNSEEN;
                SeenBy(cfg, s, others, id, i + 1) == Replay(cfg, SeenBy(cfg, s, others, id, i), OpsFor(others[i], id))
                && SeenBy(cfg, s, others, id, 0) == s
      {
        var s := if id in data then data[id] else UNSEEN;
        SeenNext(cfg, s, {}, others, id, i);
        SeenAtFirst(cfg, s, {}, others, id);
      }
    }

    method StepUpOnce(id: string, passed: bool, others: seq<Foreign>) returns (trust: int, ok: bool)
      modifies store
      ensures ok <==> OpsFor(others, id) == []
      ensures trust == ApplyStepUp(old(store.Stored(id)), passed).budget.trust
      ensures store.Stored(id) == if ok then Apply(cfg, old(store.Stored(id)), Verified(passed))
                                  else Replay(cfg, old(store.Stored(id)), OpsFor(others, id))
      ensures forall i :: i != id ==> store.Stored(i) == Replay(cfg, old(store.Stored(i)), OpsFor(others, i))
    {
      hide Apply, OpsFor;
      ghost var seen := store.Stored(id);
      var state := store.Load(id);
      trust := if passed then (if state.trust + 250 <= 1000 then state.trust + 250 else 1000)
               else if state.trust - 400 >= 0 then state.trust - 400 else 0;
      state.trust := trust;
      if passed {
        state.underReview, state.riskWindow, state.cusum := false, [], 0.0;
      }
      assert state.View() == ApplyStepUp(seen, passed);
      OthersAct(others);
      ReplayAdvances(cfg, seen, OpsFor(others, id));
      StepUpKeepsVersion(cfg, seen, passed);
      ok := store.Commit(id, state, state.version);
    }

    /** Applies a validated step-up outcome under the same discipline. */
    method ApplyVerifiedStepUp(id: string, passed: bool, others: seq<seq<Foreign>>)
      returns (trust: int, last: nat, stored: bool)
      requires |others| == CAS_RETRIES
      modifies store
      ensures last < CAS_RETRIES && (stored || last == CAS_RETRIES - 1)
      ensures forall i :: 0 <= i < last ==> OpsFor(others[i], id) != []
      ensures stored <==> OpsFor(others[last], id) == []
      ensures var seen := SeenBy(cfg, old(store.Stored(id)), others, id, last);
              && trust == ApplyStepUp(seen, passed).budget.trust
              && store.Stored(id)
                 == if stored then Apply(cfg, seen, Verified(passed)) else Replay(cfg, seen, OpsFor(others[last], id))
      ensures forall i :: i != id ==> store.Stored(i) == SeenBy(cfg, old(store.Stored(i)), others, i, last + 1)
    {
      hide Apply, ApplyStepUp, Replay, SeenBy, OpsFor;
      ghost var start := store.Stored(id);
      SeenAtFirst(cfg, start, {}, others, id);
      last := 0;
      trust, stored := StepUpOnce(id, passed, others[0]);
      OthersSeen(old(store.data), others, id, 0);
      while !stored && last + 1 < CAS_RETRIES
        invariant last < CAS_RETRIES
        invariant forall i :: 0 <= i < last ==> OpsFor(others[i], id) != []
        invariant stored <==> OpsFor(others[last], id) == []
        invariant var seen := SeenBy(cfg, start, others, id, last);
                  && trust == ApplyStepUp(seen, passed).budget.trust
                  && store.Stored(id)
                     == if stored then Apply(cfg, seen, Verified(passed)) else Replay(cfg, seen, OpsFor(others[last], id))
        invariant forall i :: i != id ==> store.Stored(i) == SeenBy(cfg, old(store.Stored(i)), others, i, last + 1)
      {
        SeenNext(cfg, start, {}, others, id, last);
        last := last + 1;
        trust, stored := StepUpOnce(id, passed, others[last]);
        OthersSeen(old(store.data), others, id, last);
      }
    }
  }
}
