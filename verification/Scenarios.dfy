/** Runs made to measure: whatever the stored state, an event can be given any
    risk from a wide band by what the model answers. So a list of risks, clocks
    and two-sample verdicts can be played as a run of the engine, and what the
    run stores follows from the list alone. */
module Scenarios {
  import opened Schemas
  import opened Arithmetic
  import opened Identity
  import opened Policy
  import opened Engine
  import opened Runs

  /** A plain login at a branch, an account recovery with every warning sign, or
      the outcome of a step-up. */
  datatype Move =
    | Calm(risk: real, now: real, ks: bool)
    | Alarming(risk: real, now: real, ks: bool)
    | Confirm(passed: bool)

  const GEO: string := "IN-GJ"

  /** The risks a move can be given in every state. */
  predicate Attainable(m: Move) {
    match m
    case Calm(risk, _, _) => 0.16 <= risk <= 0.55
    case Alarming(risk, _, _) => 0.45 <= risk <= 0.74
    case Confirm(_) => true
  }

  /** The move as an attempt, but for the model's answer. */
  function Sketch(m: Move): Attempt
    requires !m.Confirm?
  {
    if m.Calm? then
      Attempt(Event("u", Login, Branch, "d", GEO, 9, None, false, false), m.now, Some(0.0), 1, 0.0, Some(0.0), m.ks)
    else
      Attempt(Event("u", AccountRecovery, AdminConsole, "d", GEO, 9, None, true, true), m.now, Some(1.0), 1, 0.0,
              Some(0.0), m.ks)
  }

  /** The deterministic share of the risk. */
  function Share(cfg: Config, s: Snapshot, a: Attempt): Unit { Clip(Dot(WEIGHTS, Vector(cfg, s, a)), 0.0, 1.0) }

  function Steered(cfg: Config, s: Snapshot, m: Move): Attempt
    requires !m.Confirm?
  {
    var a := Sketch(m);
    a.(ml := Some(Clip((m.risk - 0.45 * Share(cfg, s, a)) / 0.55, 0.0, 1.0)))
  }

  function OpFor(cfg: Config, s: Snapshot, m: Move): Op {
    if m.Confirm? then Verified(m.passed) else Assessed(Steered(cfg, s, m))
  }

  /** The run the moves make from the unseen state. */
  function Play(cfg: Config, ms: seq<Move>): (ops: seq<Op>)
    ensures |ops| == |ms|
  {
    if ms == [] then []
    else
      var ops := Play(cfg, ms[..|ms| - 1]);
      ops + [OpFor(cfg, StateAt(cfg, ops, |ops|), ms[|ms| - 1])]
  }

  /* ---- Steering ---- */

  lemma SketchFeatures(cfg: Config, s: Snapshot, m: Move)
    requires !m.Confirm? && 0.0 <= s.burst < 2.0
    ensures var v := Vector(cfg, s, Sketch(m));
            && |v| == 11
            && 0.0 <= v[0] <= 1.0 && 0.0 <= v[1] <= 1.0 && 0.0 <= v[2] <= 1.0 && v[3] == 0.0
            && 0.0 <= v[9] <= 1.0 && v[10] == 0.0
            && (m.Calm? ==> v[4] == 0.0 && v[5] == 0.2 && v[6] == 0.1 && v[7] == 0.0 && v[8] == 0.0)
            && (m.Alarming? ==> v[4] == 1.0 && v[5] == 0.8 && v[6] == 0.7 && v[7] == 1.0 && v[8] == 1.0)
  {
    HourDeviationIsUnit(s.profile.hours, 9);
    hide HourDeviation;
  }

  lemma ShareIsModerate(cfg: Config, s: Snapshot, m: Move)
    requires !m.Confirm? && 0.0 <= s.burst < 2.0
    ensures m.Calm? ==> Share(cfg, s, Sketch(m)) <= 0.35
    ensures m.Alarming? ==> Share(cfg, s, Sketch(m)) >= 0.43
  {
    SketchFeatures(cfg, s, m);
    WeightedSum(Vector(cfg, s, Sketch(m)));
    hide Vector, Dot;
  }

  /** What a played run never leaves. */
  predicate AtHome(s: Snapshot) {
    (s.profile.lastGeo == "" || s.profile.lastGeo == GEO) && 0.0 <= s.burst < 2.0
  }

  lemma SteeringHits(cfg: Config, s: Snapshot, m: Move)
    requires !m.Confirm? && Attainable(m) && AtHome(s)
    ensures EventRisk(cfg, s, Steered(cfg, s, m)) == m.risk
  {
    ShareIsModerate(cfg, s, m);
    var a := Steered(cfg, s, m);
    assert Vector(cfg, s, a) == Vector(cfg, s, Sketch(m));
    hide Vector, Dot;
  }

  /* ---- What a played run stores ---- */

  /** The part of a state that the moves determine. */
  datatype Track = Track(budget: Budget, baseline: Baseline, learnt: bool, underReview: bool)

  const OUTSET: Track := Track(UNSEEN.budget, UNSEEN.baseline, false, false)

  function TrackOf(s: Snapshot): Track { Track(s.budget, s.baseline, s.profile.eventCount > 0, s.underReview) }

  function Advance(cfg: Config, t: Track, m: Move): Track {
    if m.Confirm? then
      var trust := t.budget.trust;
      if m.passed then
        Track(t.budget.(trust := if trust + 250 <= 1000 then trust + 250 else 1000), Baseline([], t.baseline.ewma, 0.0),
              t.learnt, false)
      else t.(budget := t.budget.(trust := if trust - 400 >= 0 then trust - 400 else 0))
    else
      var budget := UpdateTrust(cfg.recoveryCap, t.budget, m.risk, m.now);
      var low := budget.trust >= 650 && m.risk < 0.45;
      var drifting := Drifting(cfg, t.baseline, !t.learnt, m.risk, m.ks);
      Track(budget, NextBaseline(t.baseline, m.risk), t.learnt || (low && !drifting && !t.underReview),
            t.underReview || (low && drifting))
  }

  function TrackAfter(cfg: Config, ms: seq<Move>): Track {
    if ms == [] then OUTSET else Advance(cfg, TrackAfter(cfg, ms[..|ms| - 1]), ms[|ms| - 1])
  }

  lemma TrackStep(cfg: Config, s: Snapshot, m: Move)
    requires Attainable(m) && AtHome(s)
    ensures var t := Apply(cfg, s, OpFor(cfg, s, m));
            TrackOf(t) == Advance(cfg, TrackOf(s), m) && AtHome(t)
  {
    if !m.Confirm? {
      SteeringHits(cfg, s, m);
      AllowExactly(cfg, s, Steered(cfg, s, m));
      hide EventRisk, Drifting, NextBaseline, UpdateTrust;
      var budget := UpdateTrust(cfg.recoveryCap, s.budget, m.risk, m.now);
      DecisionRegions(budget.trust, m.risk, Sketch(m).event);
    }
  }

  /** Every list of attainable moves is a run of the engine, with exactly those
      risks, and its stored state is the track of the list. */
  lemma {:induction false} PlayIsRun(cfg: Config, ms: seq<Move>)
    requires forall i :: 0 <= i < |ms| ==> Attainable(ms[i])
    ensures var ops := Play(cfg, ms);
            && TrackOf(StateAt(cfg, ops, |ops|)) == TrackAfter(cfg, ms) && AtHome(StateAt(cfg, ops, |ops|))
            && forall i :: 0 <= i < |ms| ==>
                 if ms[i].Confirm? then ops[i] == Verified(ms[i].passed)
                 else ops[i].Assessed? && OutcomeAt(cfg, ops, i).risk == ms[i].risk
                      && ops[i].attempt.now == ms[i].now && ops[i].attempt.ks == ms[i].ks
  {
    hide Apply, Advance, OpFor, Attainable, AtHome, Assess;
    if ms == [] {
      NothingPlayed(cfg);
    } else {
      var n := |ms| - 1;
      PlayIsRun(cfg, ms[..n]);
      var ops := Play(cfg, ms[..n]);
      var s := StateAt(cfg, ops, n);
      TrackStep(cfg, s, ms[n]);
      PlayedLast(cfg, s, ms[n]);
      var all := Play(cfg, ms);
      assert all == ops + [OpFor(cfg, s, ms[n])];
      forall i: nat | i <= n ensures StateAt(cfg, all, i) == StateAt(cfg, ops, i) {
        PrefixStates(cfg, ops, [OpFor(cfg, s, ms[n])], i);
      }
      forall i: nat | i < n ensures all[i] == ops[i] && ms[i] == ms[..n][i] {
      }
    }
  }

  lemma NothingPlayed(cfg: Config)
    ensures Play(cfg, []) == [] && TrackOf(UNSEEN) == TrackAfter(cfg, []) && AtHome(UNSEEN)
  {
  }

  lemma PlayedLast(cfg: Config, s: Snapshot, m: Move)
    requires Attainable(m) && AtHome(s)
    ensures var op := OpFor(cfg, s, m);
            if m.Confirm? then op == Verified(m.passed)
            else op.Assessed? && Assess(cfg, s, op.attempt).risk == m.risk
                 && op.attempt.now == m.now && op.attempt.ks == m.ks
  {
    if !m.Confirm? {
      SteeringHits(cfg, s, m);
    }
  }

  lemma {:induction false} PlayPrefix(cfg: Config, ms: seq<Move>, i: nat)
    requires i <= |ms|
    ensures StateAt(cfg, Play(cfg, ms), i) == StateAt(cfg, Play(cfg, ms[..i]), i)
  {
    hide Apply, OpFor;
    if i == |ms| {
      assert ms[..i] == ms;
    } else {
      var n := |ms| - 1;
      assert ms[..n][..i] == ms[..i];
      PlayPrefix(cfg, ms[..n], i);
      PrefixStates(cfg, Play(cfg, ms[..n]), [OpFor(cfg, StateAt(cfg, Play(cfg, ms[..n]), n), ms[n])], i);
    }
  }

  /** The stored state after each move. */
  lemma PlayedTrack(cfg: Config, ms: seq<Move>, i: nat)
    requires i <= |ms| && forall k :: 0 <= k < |ms| ==> Attainable(ms[k])
    ensures TrackOf(StateAt(cfg, Play(cfg, ms), i)) == TrackAfter(cfg, ms[..i])
  {
    hide Play, TrackAfter, Attainable, Assess, AtHome;
    PlayIsRun(cfg, ms[..i]);
    PlayPrefix(cfg, ms, i);
  }

  lemma Follow(cfg: Config, ms: seq<Move>, m: Move)
    ensures TrackAfter(cfg, ms + [m]) == Advance(cfg, TrackAfter(cfg, ms), m)
  {
    assert (ms + [m])[..|ms|] == ms;
  }

  function Repeat(m: Move, n: nat): (ms: seq<Move>)
    ensures |ms| == n && forall i :: 0 <= i < n ==> ms[i] == m
  {
    seq(n, _ => m)
  }

  lemma FollowRepeat(cfg: Config, ms: seq<Move>, m: Move, n: nat)
    ensures TrackAfter(cfg, ms + Repeat(m, n + 1)) == Advance(cfg, TrackAfter(cfg, ms + Repeat(m, n)), m)
    ensures ms + Repeat(m, 0) == ms
  {
    assert ms + Repeat(m, n + 1) == ms + Repeat(m, n) + [m];
    Follow(cfg, ms + Repeat(m, n), m);
  }
}
