/** The window test on a new identity: five quiet logins, five at a higher risk,
    and the tenth is sent to a drift review with the CUSUM still silent. */
module Newcomer {
  import opened Schemas
  import opened Arithmetic
  import opened Identity
  import opened Engine
  import opened Runs
  import opened Scenarios
  import Drift
  import TwoSample

  const NOON: real := 10000.0

  function Readings(n: nat, k: nat): seq<real> { seq(n, _ => 0.20) + seq(k, _ => 0.29) }

  /** The detector's fields after five quiet events and `k` raised ones. */
  function Rising(k: nat): (real, real) {
    match k
    case 0 => (0.20, 0.0)
    case 1 => (0.2027, 0.075)
    case 2 => (0.205319, 0.1473)
    case 3 => (0.20785943, 0.216981)
    case _ => (0.2103236471, 0.28412157)
  }

  /** `n` quiet events and `k` raised ones. */
  function Stage(n: nat, k: nat): Track {
    Track(if n == 0 then UNSEEN.budget else Budget(700 + 15 * n + 9 * k, 15 * n + 9 * k, NOON),
          Baseline(Readings(n, k), if n == 0 then 0.0 else Rising(k).0, Rising(k).1), n > 0, false)
  }

  lemma Exact()
    ensures Round4(0.20) == 0.20 && Round4(0.29) == 0.29
    ensures ((0.45 - 0.20) * 60.0).Floor == 15 && ((0.45 - 0.29) * 60.0).Floor == 9
  {
  }

  /** Nine readings or fewer do not rise enough. */
  lemma NotYet(n: nat, k: nat, ks: bool)
    requires n <= 5 && k <= 4 && (k > 0 ==> n == 5)
    ensures !Drift.Detect(Readings(n, k), ks)
  {
    var w := Readings(n, k);
    Drift.DetectExactly(w, ks);
    if n + k == 8 {
      SumOfFour(w[0..4]);
      SumOfFour(w[4..]);
    } else if n + k == 9 {
      SumOfFour(w[0..4]);
      SumOfFive(w[4..]);
    }
  }

  lemma SumOfFour(xs: seq<real>)
    requires |xs| == 4
    ensures Sum(xs) == xs[0] + xs[1] + xs[2] + xs[3]
  {
    assert xs[..3][..2] == xs[..2] && xs[..2][..1] == xs[..1];
    assert Sum(xs) == Sum(xs[..3]) + xs[3];
    assert Sum(xs[..3]) == Sum(xs[..2]) + xs[2];
    assert Sum(xs[..2]) == Sum(xs[..1]) + xs[1];
  }

  lemma SumOfFive(xs: seq<real>)
    requires |xs| == 5
    ensures Sum(xs) == xs[0] + xs[1] + xs[2] + xs[3] + xs[4]
  {
    SumOfFour(xs[..4]);
    hide Sum;
    SumByOne(xs);
  }

  lemma SumByOne(xs: seq<real>)
    requires xs != []
    ensures Sum(xs) == Sum(xs[..|xs| - 1]) + xs[|xs| - 1]
  {
  }

  lemma QuietStep(cfg: Config, n: nat, ks: bool)
    requires cfg.recoveryCap == 120 && n < 5
    ensures Advance(cfg, Stage(n, 0), Calm(0.20, NOON, ks)) == Stage(n + 1, 0)
  {
    Exact();
    NotYet(n + 1, 0, ks);
    assert Readings(n + 1, 0) == Readings(n, 0) + [0.20];
    hide Round4, Readings, Drift.Detect;
  }

  lemma RaisedStep(cfg: Config, k: nat, ks: bool)
    requires cfg.recoveryCap == 120 && k < 4
    ensures Advance(cfg, Stage(5, k), Calm(0.29, NOON, ks)) == Stage(5, k + 1)
  {
    Exact();
    NotYet(5, k + 1, ks);
    assert Readings(5, k + 1) == Readings(5, k) + [0.29];
    hide Round4, Readings, Drift.Detect;
  }

  function Story(ks: bool, k: nat): (ms: seq<Move>)
    ensures |ms| == 5 + k && forall i :: 0 <= i < 5 + k ==> Attainable(ms[i])
  {
    Repeat(Calm(0.20, NOON, ks), 5) + Repeat(Calm(0.29, NOON, ks), k)
  }

  lemma {:induction false} QuietPart(cfg: Config, ks: bool, n: nat)
    requires cfg.recoveryCap == 120 && n <= 5
    ensures TrackAfter(cfg, Repeat(Calm(0.20, NOON, ks), n)) == Stage(n, 0)
  {
    assert forall k: nat :: [] + Repeat(Calm(0.20, NOON, ks), k) == Repeat(Calm(0.20, NOON, ks), k);
    if n == 0 {
      assert Readings(0, 0) == [];
    } else {
      QuietPart(cfg, ks, n - 1);
      FollowRepeat(cfg, [], Calm(0.20, NOON, ks), n - 1);
      QuietStep(cfg, n - 1, ks);
      hide TrackAfter, Repeat, Advance, Stage;
    }
  }

  lemma {:induction false} StoryTrack(cfg: Config, ks: bool, k: nat)
    requires cfg.recoveryCap == 120 && k <= 4
    ensures TrackAfter(cfg, Story(ks, k)) == Stage(5, k)
  {
    hide TrackAfter, Repeat, Advance, Stage;
    var start := Repeat(Calm(0.20, NOON, ks), 5);
    FollowRepeat(cfg, start, Calm(0.29, NOON, ks), 0);
    if k == 0 {
      QuietPart(cfg, ks, 5);
    } else {
      StoryTrack(cfg, ks, k - 1);
      FollowRepeat(cfg, start, Calm(0.29, NOON, ks), k - 1);
      RaisedStep(cfg, k - 1, ks);
    }
  }

  /* ---- The tenth event ---- */

  lemma TenthWindow()
    ensures NextWindow(Readings(5, 4), 0.29) == Readings(5, 5)
  {
    Exact();
    hide Round4;
    assert Readings(5, 5) == Readings(5, 4) + [0.29];
  }

  lemma TenthIsShift()
    ensures Drift.Detect(Readings(5, 5), true)
  {
    var w := Readings(5, 5);
    Drift.VisibleShiftIsDetected(w, 0.20);
  }

  const EARLY: seq<real> := [0.20, 0.20, 0.20, 0.20, 0.20]
  const LATE: seq<real> := [0.29, 0.29, 0.29, 0.29, 0.29]

  lemma TenthDistance()
    ensures TwoSample.IsDistance(EARLY, LATE, 5)
  {
    forall x ensures TwoSample.Gap(EARLY, LATE, x) <= 5 {
      TwoSample.AtMostOfAll(EARLY, x);
      TwoSample.AtMostOfAll(LATE, x);
      hide TwoSample.AtMost;
    }
    TwoSample.AtMostOfLevel(EARLY, 0.20, 0.20);
    TwoSample.AtMostOfLevel(LATE, 0.29, 0.20);
    hide TwoSample.AtMost;
    assert TwoSample.Gap(EARLY, LATE, 0.20) == 5;
  }

  lemma TenthHalves()
    ensures var recent := LastN(Readings(5, 5), Drift.WINDOW);
            |recent| == 10 && recent[..5] == EARLY && recent[5..] == LATE
  {
  }

  /** All ten readings are in order, which the exact test gives a chance of 2 in
      252. */
  lemma TenthIsRejected()
    ensures |LastN(Readings(5, 5), Drift.WINDOW)| == 10 && TwoSample.Rejects(Readings(5, 5))
  {
    TenthHalves();
    TenthDistance();
    TwoSample.FiveAgainstFive();
    hide TwoSample.IsDistance, TwoSample.Significant, Readings, LastN;
    var recent := LastN(Readings(5, 5), Drift.WINDOW);
    assert |recent| / 2 == 5 && TwoSample.IsDistance(recent[..5], recent[5..], 5);
  }

  /** What the state after nine events decides on the tenth. */
  lemma TenthDecision(cfg: Config, s: Snapshot, a: Attempt)
    requires cfg.recoveryCap == 120 && cfg.driftEnabled && TrackOf(s) == Stage(5, 4)
    requires a.ml.Some? && a.now == NOON && a.ks && EventRisk(cfg, s, a) == 0.29
    ensures !Drift.Step(s.baseline.ewma, s.baseline.cusum, 0.29).fired
    ensures var o := Assess(cfg, s, a);
            o.verdict.decision.StepUp? && o.verdict.band == DriftReview && o.state.underReview
            && o.state.profile == s.profile
  {
    Exact();
    TenthWindow();
    TenthIsShift();
    BandExactly(cfg, s, a);
    AllowExactly(cfg, s, a);
    BlockMeans(cfg, s, a);
    ReviewOpensExactly(cfg, s, a);
    hide EventRisk, NextWindow, Readings, Drift.Detect, Round4;
    assert UpdateTrust(cfg.recoveryCap, s.budget, 0.29, NOON).trust == 820;
  }

  lemma NineEvents(cfg: Config, ks: bool) returns (ops: seq<Op>)
    requires cfg.recoveryCap == 120
    ensures |ops| == 9 && TrackOf(StateAt(cfg, ops, |ops|)) == Stage(5, 4) && AtHome(StateAt(cfg, ops, |ops|))
  {
    ops := Play(cfg, Story(ks, 4));
    hide Play, Story, StateAt, AtHome, TrackAfter;
    PlayIsRun(cfg, Story(ks, 4));
    StoryTrack(cfg, ks, 4);
  }

  ghost predicate CaughtOnTenth(cfg: Config, s: Snapshot, a: Attempt) {
    && a.ks && EventRisk(cfg, s, a) == 0.29 && !s.underReview && s.profile.eventCount > 0
    && NextWindow(s.baseline.window, 0.29) == Readings(5, 5) && |LastN(Readings(5, 5), 12)| == 10 && TwoSample.Rejects(Readings(5, 5))
    && !Drift.Step(s.baseline.ewma, s.baseline.cusum, 0.29).fired
    && Assess(cfg, s, a).verdict.decision.StepUp? && Assess(cfg, s, a).verdict.band == DriftReview
    && Assess(cfg, s, a).state.profile == s.profile
  }

  lemma TenthEvent(cfg: Config, s: Snapshot) returns (a: Attempt)
    requires cfg.recoveryCap == 120 && cfg.driftEnabled && TrackOf(s) == Stage(5, 4) && AtHome(s)
    ensures CaughtOnTenth(cfg, s, a)
  {
    var m := Calm(0.29, NOON, true);
    a := Steered(cfg, s, m);
    SteeringHits(cfg, s, m);
    TenthWindow();
    TenthIsRejected();
    hide EventRisk, Assess, AtHome, Share, TwoSample.Rejects, Drift.Step, NextWindow;
    TenthDecision(cfg, s, a);
  }

  /** On a run of the engine, whatever the two-sample test said before: a window of
      ten readings is enough for a review, and nothing is learnt from the event. */
  lemma TenReadingsAreEnough(cfg: Config, ks: bool) returns (ops: seq<Op>, a: Attempt)
    requires cfg.recoveryCap == 120 && cfg.driftEnabled
    ensures |ops| == 9 && CaughtOnTenth(cfg, StateAt(cfg, ops, |ops|), a)
  {
    hide CaughtOnTenth, AtHome, Stage;
    ops := NineEvents(cfg, ks);
    a := TenthEvent(cfg, StateAt(cfg, ops, |ops|));
  }
}
