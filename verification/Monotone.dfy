/** What raising the risk of an event does, through the trust update, the drift
    detectors, the banding, the review and the degraded override. Trust never
    rises. The decision never softens as long as the two-sample test, which sees
    the raised risk too, does not take back its alarm; where it does, the cases
    in which the decision softens are stated exactly. */
module Monotone {
  import opened Schemas
  import opened Arithmetic
  import opened Identity
  import opened Policy
  import opened Engine
  import opened Runs
  import Drift

  lemma CusumIsMonotone(ewma: real, cusum: real, risk: real, risk': real)
    requires risk <= risk'
    ensures Drift.Step(ewma, cusum, risk).cusum <= Drift.Step(ewma, cusum, risk').cusum
  {
  }

  lemma WindowsShareTheirPast(window: seq<real>, risk: real, risk': real)
    ensures var w, w' := NextWindow(window, risk), NextWindow(window, risk');
            |w| == |w'| > 0
            && w[..|w| - 1] == w'[..|w| - 1]
            && w[|w| - 1] == Round4(risk) && w'[|w| - 1] == Round4(risk')
  {
  }

  /** The last value only enters the late mean. */
  lemma MeanShiftIsMonotone(w: seq<real>, w': seq<real>)
    requires |w| == |w'| >= Drift.MIN_SAMPLES
    requires w[..|w| - 1] == w'[..|w| - 1]
    requires w[|w| - 1] <= w'[|w| - 1]
    ensures Drift.MeanShift(w) <= Drift.MeanShift(w')
  {
    var r, r' := LastN(w, Drift.WINDOW), LastN(w', Drift.WINDOW);
    var n := |r|;
    assert forall i :: 0 <= i < |w| - 1 ==> w[i] == w[..|w| - 1][i] == w'[i];
    assert forall i :: 0 <= i < n - 1 ==> r[i] == r'[i];
    assert r[..n / 2] == r'[..n / 2];
    var late, late' := r[n / 2..], r'[n / 2..];
    assert late[..|late| - 1] == late'[..|late| - 1];
    assert late[|late| - 1] <= late'[|late| - 1];
    DivideMonotone(Sum(late), Sum(late'), |late| as real);
  }

  /** `ks` and `ks'` are the two-sample verdicts on the two windows. */
  lemma DetectIsMonotone(window: seq<real>, risk: real, risk': real, ks: bool, ks': bool)
    requires risk <= risk'
    ensures Drift.Detect(NextWindow(window, risk), ks) && ks' ==> Drift.Detect(NextWindow(window, risk'), ks')
  {
    WindowsShareTheirPast(window, risk, risk');
    Round4Monotone(risk, risk');
    var w, w' := NextWindow(window, risk), NextWindow(window, risk');
    if |w| >= Drift.MIN_SAMPLES {
      MeanShiftIsMonotone(w, w');
    }
  }

  /** Only the two-sample test can silence a detector that fires. */
  lemma DriftingIsMonotone(cfg: Config, b: Baseline, cold: bool, risk: real, risk': real, ks: bool, ks': bool)
    requires risk <= risk'
    ensures Drifting(cfg, b, cold, risk, ks) ==> Drifting(cfg, b, cold, risk', ks') || (ks && !ks')
  {
    CusumIsMonotone(b.ewma, b.cusum, risk, risk');
    DetectIsMonotone(b.window, risk, risk', ks, ks');
  }

  /** Review and degradation preserve the order of verdicts. */
  lemma OverridesAreMonotone(v: Verdict, v': Verdict, flagged: bool, flagged': bool, degraded: bool, e: Event)
    requires Severity(v.decision) <= Severity(v'.decision)
    requires flagged ==> flagged'
    ensures var r, r' := Review(v, flagged, e), Review(v', flagged', e);
            && Severity(r.decision) <= Severity(r'.decision)
            && Severity(Degrade(r, e).decision) <= Severity(Degrade(r', e).decision)
  {
  }

  lemma ScoreIsMonotone(cfg: Config, s: Snapshot, a: Attempt, risk: real, risk': real, ks': bool)
    requires 0 <= s.budget.trust <= 1000 && risk <= risk'
    ensures var o, o' := Score(cfg, s, a, risk), Score(cfg, s, a.(ks := ks'), risk');
            && o'.state.budget.trust <= o.state.budget.trust
            && ((a.ks ==> ks') ==> Severity(o.verdict.decision) <= Severity(o'.verdict.decision))
  {
    var a' := a.(ks := ks');
    var trust := UpdateTrust(cfg.recoveryCap, s.budget, risk, a.now).trust;
    var trust' := UpdateTrust(cfg.recoveryCap, s.budget, risk', a.now).trust;
    TrustIsMonotone(cfg.recoveryCap, s.budget, risk, risk', a.now);
    DecideIsMonotone(trust, risk, trust', risk', a.event);
    DriftingIsMonotone(cfg, s.baseline, s.profile.eventCount == 0, risk, risk', a.ks, ks');
    if a.ks ==> ks' {
      OverridesAreMonotone(Decide(trust, risk, a.event), Decide(trust', risk', a.event),
                           Drifted(cfg, s, a, risk) || s.underReview,
                           Drifted(cfg, s, a', risk') || s.underReview, a.ml.None?, a.event);
    }
  }

  /** Whatever the two verdicts, the decision softens exactly when the raised
      event meets every condition of an ALLOW and the lower one was caught by a
      drift detector. */
  lemma SoftensExactly(cfg: Config, s: Snapshot, a: Attempt, risk: real, risk': real, ks': bool)
    requires 0 <= s.budget.trust <= 1000 && risk <= risk'
    ensures var o, o' := Score(cfg, s, a, risk), Score(cfg, s, a.(ks := ks'), risk');
            Severity(o'.verdict.decision) < Severity(o.verdict.decision)
            <==> Drifted(cfg, s, a, risk)
                 && o'.state.budget.trust >= 650 && risk' < 0.45 && !s.underReview
                 && !Drifted(cfg, s, a.(ks := ks'), risk')
                 && (a.ml.Some? || !FailClosed(a.event.eventType))
  {
    var trust := UpdateTrust(cfg.recoveryCap, s.budget, risk, a.now).trust;
    var trust' := UpdateTrust(cfg.recoveryCap, s.budget, risk', a.now).trust;
    TrustIsMonotone(cfg.recoveryCap, s.budget, risk, risk', a.now);
    hide Drifted, UpdateTrust;
    DecisionRegions(trust, risk, a.event);
    DecisionRegions(trust', risk', a.event);
  }

  /** So it takes a two-sample test that alarms on the lower risk only. */
  lemma SofteningNeedsTheTest(cfg: Config, s: Snapshot, a: Attempt, risk: real, risk': real, ks': bool)
    requires 0 <= s.budget.trust <= 1000 && risk <= risk'
    requires Severity(Score(cfg, s, a.(ks := ks'), risk').verdict.decision)
             < Severity(Score(cfg, s, a, risk).verdict.decision)
    ensures a.ks && !ks' && Drift.Detect(NextWindow(s.baseline.window, risk), true)
    ensures s.profile.eventCount > 0 && !Drift.Step(s.baseline.ewma, s.baseline.cusum, risk').fired
  {
    SoftensExactly(cfg, s, a, risk, risk', ks');
    CusumIsMonotone(s.baseline.ewma, s.baseline.cusum, risk, risk');
    DriftingIsMonotone(cfg, s.baseline, s.profile.eventCount == 0, risk, risk', a.ks, ks');
  }

  /** Read from the model's output: trust is never gained by it, and where the
      two-sample test keeps its alarm no softer decision either. */
  lemma MoreModelRiskIsNeverRewarded(cfg: Config, s: Snapshot, a: Attempt, ml: Unit, ml': Unit, ks': bool)
    requires 0 <= s.budget.trust <= 1000 && ml <= ml'
    ensures var o, o' := Assess(cfg, s, a.(ml := Some(ml))), Assess(cfg, s, a.(ml := Some(ml'), ks := ks'));
            && o'.state.budget.trust <= o.state.budget.trust
            && ((a.ks ==> ks') ==> Severity(o.verdict.decision) <= Severity(o'.verdict.decision))
            && (Severity(o'.verdict.decision) < Severity(o.verdict.decision)
                <==> Drifted(cfg, s, a, o.risk) && o'.verdict.decision.Allow?)
  {
    var a1, a2 := a.(ml := Some(ml)), a.(ml := Some(ml'), ks := ks');
    var risk, risk' := EventRisk(cfg, s, a1), EventRisk(cfg, s, a2);
    assert Vector(cfg, s, a1) == Vector(cfg, s, a2);
    assert risk <= risk';
    ScoreIsMonotone(cfg, s, a1, risk, risk', ks');
    SoftensExactly(cfg, s, a1, risk, risk', ks');
    ModelValueIsSpent(cfg, s, a1, a2, risk');
    AllowExactly(cfg, s, a2);
  }

  /** Once the risk is known only whether the model worked matters. */
  lemma ModelValueIsSpent(cfg: Config, s: Snapshot, a: Attempt, a': Attempt, risk: real)
    requires a.ml.Some? && a'.ml.Some? && a' == a.(ml := a'.ml, ks := a'.ks)
    ensures Score(cfg, s, a.(ks := a'.ks), risk) == Score(cfg, s, a', risk)
  {
    assert Drifted(cfg, s, a.(ks := a'.ks), risk) == Drifted(cfg, s, a', risk);
  }
}
