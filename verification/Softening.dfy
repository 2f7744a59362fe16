/** A run after which the lower of two risks is the worse one to have. */
module Softening {
  import opened Schemas
  import opened Arithmetic
  import opened Identity
  import opened Engine
  import opened Runs
  import opened Scenarios
  import Drift
  import TwoSample

  const NOON: real := 10000.0
  const EVENING: real := 20000.0

  /** Readings of the window after `n` quiet events, the spike and `k` more. */
  function Readings(n: nat, spike: bool, k: nat): seq<real> {
    seq(n, _ => 0.17) + (if spike then [0.72] else []) + seq(k, _ => 0.16)
  }

  const QUIET: Move := Calm(0.17, NOON, false)
  const SPIKE: Move := Alarming(0.72, NOON, false)
  const LATER: Move := Calm(0.16, EVENING, false)

  /** Risks that repeat four decimals are stored as they are. */
  lemma Exact()
    ensures Round4(0.17) == 0.17 && Round4(0.72) == 0.72 && Round4(0.16) == 0.16 && Round4(0.175) == 0.175
  {
  }

  /** A reading that the two-sample test lets pass can only fire the CUSUM. */
  lemma Unmoved(cfg: Config, t: Track, m: Move)
    requires !m.Confirm? && !m.ks && !Drift.Step(t.baseline.ewma, t.baseline.cusum, m.risk).fired
    ensures !Drifting(cfg, t.baseline, !t.learnt, m.risk, m.ks)
  {
  }

  function Quiet(n: nat): Track {
    Track(if n == 0 then UNSEEN.budget else Budget(700 + 16 * n, 16 * n, NOON),
          Baseline(Readings(n, false, 0), if n == 0 then 0.0 else 0.17, 0.0), n > 0, false)
  }

  lemma QuietStep(cfg: Config, n: nat)
    requires cfg.recoveryCap == 120 && n < 7
    ensures Advance(cfg, Quiet(n), QUIET) == Quiet(n + 1)
  {
    Exact();
    Unmoved(cfg, Quiet(n), QUIET);
    assert Readings(n + 1, false, 0) == Readings(n, false, 0) + [0.17];
    assert ((0.45 - 0.17) * 60.0).Floor == 16;
    hide Round4, Readings, Drifting;
  }

  /** The detector's fields after the spike and `k` later events. */
  function Calming(k: nat): (real, real) {
    match k
    case 0 => (0.1865, 0.535)
    case 1 => (0.185705, 0.4935)
    case 2 => (0.18493385, 0.452795)
    case 3 => (0.1841858345, 0.41286115)
    case _ => (0.183460259465, 0.3736753155)
  }

  function Later(k: nat): Track {
    Track(if k == 0 then Budget(569, 112, NOON) else Budget(569 + 17 * k, 17 * k, EVENING),
          Baseline(Readings(7, true, k), Calming(k).0, Calming(k).1), true, false)
  }

  lemma SpikeStep(cfg: Config)
    ensures Advance(cfg, Quiet(7), SPIKE) == Later(0)
  {
    Exact();
    assert Readings(7, true, 0) == Readings(7, false, 0) + [0.72];
    assert ((0.72 - 0.45) * 900.0).Floor == 243;
    hide Round4, Readings, Drifting;
  }

  /** Too little trust for an ALLOW, so nothing is learnt and no review opened. */
  lemma LaterStep(cfg: Config, k: nat)
    requires cfg.recoveryCap == 120 && k < 4
    ensures Advance(cfg, Later(k), LATER) == Later(k + 1)
  {
    Exact();
    assert Readings(7, true, k + 1) == Readings(7, true, k) + [0.16];
    assert ((0.45 - 0.16) * 60.0).Floor == 17;
    hide Round4, Readings, Drifting;
  }

  /** The moves so far. */
  function Story(k: nat): (ms: seq<Move>)
    ensures |ms| == 8 + k && forall i :: 0 <= i < 8 + k ==> Attainable(ms[i])
  {
    Repeat(QUIET, 7) + [SPIKE] + Repeat(LATER, k)
  }

  lemma {:induction false} QuietPart(cfg: Config, n: nat)
    requires cfg.recoveryCap == 120 && n <= 7
    ensures TrackAfter(cfg, Repeat(QUIET, n)) == Quiet(n)
  {
    assert forall k: nat :: [] + Repeat(QUIET, k) == Repeat(QUIET, k);
    if n == 0 {
      assert Readings(0, false, 0) == [];
    } else {
      hide TrackAfter, Repeat, Advance, Quiet;
      QuietPart(cfg, n - 1);
      FollowRepeat(cfg, [], QUIET, n - 1);
      QuietStep(cfg, n - 1);
    }
  }

  lemma {:induction false} StoryTrack(cfg: Config, k: nat)
    requires cfg.recoveryCap == 120 && k <= 4
    ensures TrackAfter(cfg, Story(k)) == Later(k)
  {
    var start := Repeat(QUIET, 7) + [SPIKE];
    hide TrackAfter, Repeat, Advance, Quiet, Later;
    FollowRepeat(cfg, start, LATER, 0);
    if k == 0 {
      QuietPart(cfg, 7);
      Follow(cfg, Repeat(QUIET, 7), SPIKE);
      SpikeStep(cfg);
    } else {
      StoryTrack(cfg, k - 1);
      FollowRepeat(cfg, start, LATER, k - 1);
      LaterStep(cfg, k - 1);
    }
  }

  /** The window the last event completes. */
  lemma LastWindow(risk: real)
    requires risk == 0.16 || risk == 0.175
    ensures var w := NextWindow(Readings(7, true, 4), risk);
            |w| == 13 && LastN(w, 12) == TwoSample.EARLY + TwoSample.Late(risk)
  {
    Exact();
    hide Round4;
    var w := NextWindow(Readings(7, true, 4), risk);
    assert w == Readings(7, true, 4) + [risk];
  }

  lemma ShiftIsVisible(window: seq<real>)
    requires |window| >= 12 && LastN(window, 12) == TwoSample.EARLY + TwoSample.Late(0.16)
    ensures Drift.Detect(window, true)
  {
    var recent := LastN(window, Drift.WINDOW);
    assert recent[..6] == TwoSample.EARLY && recent[6..] == TwoSample.Late(0.16);
    SumOfSix(TwoSample.EARLY);
    SumOfSix(TwoSample.Late(0.16));
  }

  lemma SumOfSix(xs: seq<real>)
    requires |xs| == 6
    ensures Sum(xs) == xs[0] + xs[1] + xs[2] + xs[3] + xs[4] + xs[5]
  {
    assert xs[..5][..4] == xs[..4] && xs[..4][..3] == xs[..3] && xs[..3][..2] == xs[..2] && xs[..2][..1] == xs[..1];
    assert Sum(xs) == Sum(xs[..5]) + xs[5];
    assert Sum(xs[..5]) == Sum(xs[..4]) + xs[4];
    assert Sum(xs[..4]) == Sum(xs[..3]) + xs[3];
    assert Sum(xs[..3]) == Sum(xs[..2]) + xs[2];
    assert Sum(xs[..2]) == Sum(xs[..1]) + xs[1];
  }

  /** The trust the last event leads to, and its detectors but for the test. */
  lemma LastEvent(cfg: Config, b: Budget, base: Baseline, risk: real)
    requires cfg.recoveryCap == 120 && b == Later(4).budget && base == Later(4).baseline
    requires risk == 0.16 || risk == 0.175
    ensures UpdateTrust(cfg.recoveryCap, b, risk, EVENING).trust == if risk == 0.16 then 654 else 653
    ensures !Drift.Step(base.ewma, base.cusum, risk).fired
  {
    assert ((0.45 - 0.16) * 60.0).Floor == 17 && ((0.45 - 0.175) * 60.0).Floor == 16;
  }

  /** What the state after the story decides, at each of the two risks. */
  lemma LastDecision(cfg: Config, s: Snapshot, a: Attempt, risk: real)
    requires cfg.recoveryCap == 120 && cfg.driftEnabled && TrackOf(s) == Later(4)
    requires risk == 0.16 || risk == 0.175
    requires a.ml.Some? && a.now == EVENING && a.ks == (risk == 0.16) && EventRisk(cfg, s, a) == risk
    ensures a.ks <==> TwoSample.Rejects(NextWindow(s.baseline.window, risk))
    ensures var o := Assess(cfg, s, a);
            if risk == 0.16 then o.verdict.decision.StepUp? && o.verdict.band == DriftReview && o.state.underReview
            else o.verdict.decision.Allow? && !o.state.underReview
  {
    LastEvent(cfg, s.budget, s.baseline, risk);
    LastWindow(risk);
    TwoSample.SpikeVerdicts(NextWindow(s.baseline.window, risk), risk);
    if risk == 0.16 {
      ShiftIsVisible(NextWindow(s.baseline.window, risk));
    }
    AllowExactly(cfg, s, a);
    hide EventRisk, NextWindow, NextBaseline, Drift.Step, UpdateTrust, Drift.MeanShift, TwoSample.Rejects;
  }

  lemma StoryState(cfg: Config) returns (ops: seq<Op>)
    requires cfg.recoveryCap == 120
    ensures |ops| == 12 && TrackOf(StateAt(cfg, ops, |ops|)) == Later(4) && AtHome(StateAt(cfg, ops, |ops|))
  {
    ops := Play(cfg, Story(4));
    hide Play, Story, StateAt, AtHome, TrackAfter;
    PlayIsRun(cfg, Story(4));
    StoryTrack(cfg, 4);
  }

  /** The last login, at one risk or the other. */
  lemma LastLogin(cfg: Config, s: Snapshot, risk: real) returns (a: Attempt)
    requires cfg.recoveryCap == 120 && cfg.driftEnabled && TrackOf(s) == Later(4) && AtHome(s)
    requires risk == 0.16 || risk == 0.175
    ensures var m := Calm(risk, EVENING, risk == 0.16);
            a == Steered(cfg, s, m) && a.ml.Some? && a == Sketch(m).(ml := a.ml)
    ensures EventRisk(cfg, s, a) == risk
    ensures |NextWindow(s.baseline.window, risk)| >= Drift.WINDOW
    ensures TwoSample.Rejects(NextWindow(s.baseline.window, risk)) <==> risk == 0.16
    ensures var v := Assess(cfg, s, a).verdict;
            if risk == 0.16 then v.decision.StepUp? && v.band == DriftReview else v.decision.Allow?
  {
    var m := Calm(risk, EVENING, risk == 0.16);
    a := Steered(cfg, s, m);
    SteeringHits(cfg, s, m);
    hide EventRisk, Assess, AtHome, Later, Share, TwoSample.Rejects;
    LastDecision(cfg, s, a, risk);
  }

  /** Two answers of the model to one event: the lower one is sent to a drift
      review and the higher one allowed, each with the exact two-sample verdict
      on its own window. */
  ghost predicate Rewarded(cfg: Config, s: Snapshot, a: Attempt, ml: Unit, ml': Unit) {
    var low, high := a.(ml := Some(ml), ks := true), a.(ml := Some(ml'), ks := false);
    && ml < ml' && EventRisk(cfg, s, low) == 0.16 && EventRisk(cfg, s, high) == 0.175
    && |NextWindow(s.baseline.window, 0.16)| >= Drift.WINDOW && TwoSample.Rejects(NextWindow(s.baseline.window, 0.16))
    && |NextWindow(s.baseline.window, 0.175)| >= Drift.WINDOW && !TwoSample.Rejects(NextWindow(s.baseline.window, 0.175))
    && Assess(cfg, s, low).verdict.decision.StepUp? && Assess(cfg, s, low).verdict.band == DriftReview
    && Assess(cfg, s, high).verdict.decision.Allow?
  }

  lemma SketchesDiffer(risk: real, risk': real)
    ensures Sketch(Calm(risk', EVENING, false)) == Sketch(Calm(risk, EVENING, true)).(ks := false)
    ensures Sketch(Calm(risk, EVENING, true)).ks
  {
  }

  lemma LowerIsWorse(cfg: Config, s: Snapshot) returns (a: Attempt, ml: Unit, ml': Unit)
    requires cfg.recoveryCap == 120 && cfg.driftEnabled && TrackOf(s) == Later(4) && AtHome(s)
    ensures Rewarded(cfg, s, a, ml, ml')
  {
    hide EventRisk, Assess, AtHome, Later, Share, Steered, Sketch, NextWindow, TwoSample.Rejects, Vector;
    a := LastLogin(cfg, s, 0.16);
    var a' := LastLogin(cfg, s, 0.175);
    ml, ml' := a.ml.value, a'.ml.value;
    SketchesDiffer(0.16, 0.175);
    assert a.(ml := Some(ml), ks := true) == a && a.(ml := Some(ml'), ks := false) == a';
    MoreModelMoreRisk(cfg, s, a, a');
  }

  /** The raised risk is the one let through, on a run of the engine: after
      these twelve events the next login is sent to a drift review at risk 0.16
      and allowed at 0.175. So the hypothesis of the monotonicity theorems cannot
      be dropped. */
  lemma MoreRiskCanBeRewarded(cfg: Config) returns (ops: seq<Op>, a: Attempt, ml: Unit, ml': Unit)
    requires cfg.recoveryCap == 120 && cfg.driftEnabled
    ensures |ops| == 12
    ensures Rewarded(cfg, StateAt(cfg, ops, |ops|), a, ml, ml')
  {
    hide Rewarded, AtHome, Later;
    ops := StoryState(cfg);
    a, ml, ml' := LowerIsWorse(cfg, StateAt(cfg, ops, |ops|));
  }

  lemma MoreModelMoreRisk(cfg: Config, s: Snapshot, a: Attempt, a': Attempt)
    requires a.ml.Some? && a'.ml.Some? && a' == a.(ml := a'.ml, ks := a'.ks)
    requires EventRisk(cfg, s, a) < EventRisk(cfg, s, a')
    ensures a.ml.value < a'.ml.value
  {
    assert Vector(cfg, s, a) == Vector(cfg, s, a');
    hide Vector, Dot;
  }
}
