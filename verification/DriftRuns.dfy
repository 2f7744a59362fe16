/** What the drift detectors guarantee about a whole run of the engine. */
module DriftRuns {
  import opened Schemas
  import opened Arithmetic
  import opened Identity
  import opened Engine
  import opened Runs
  import Drift

  /** The risks of the assessments among operations `i .. j`. */
  function Risks(cfg: Config, ops: seq<Op>, i: nat, j: nat): seq<real>
    requires i <= j <= |ops|
    decreases j
  {
    if i == j then []
    else
      Risks(cfg, ops, i, j - 1) + (if ops[j - 1].Assessed? then [OutcomeAt(cfg, ops, j - 1).risk] else [])
  }

  ghost predicate NoPassedStepUp(ops: seq<Op>, i: nat, j: nat)
    requires i <= j <= |ops|
  {
    forall k :: i <= k < j ==> ops[k] != Verified(true)
  }

  lemma {:induction false} RisksAreUnit(cfg: Config, ops: seq<Op>, i: nat, j: nat)
    requires i <= j <= |ops|
    ensures forall k :: 0 <= k < |Risks(cfg, ops, i, j)| ==> 0.0 <= Risks(cfg, ops, i, j)[k] <= 1.0
    decreases j
  {
    if i < j {
      RisksAreUnit(cfg, ops, i, j - 1);
    }
  }

  lemma {:induction false} DetectorPrefix(ewma: real, cusum: real, rs: seq<real>, r: real, n: nat)
    requires n <= |rs|
    ensures Drift.Ewma(ewma, rs + [r], n) == Drift.Ewma(ewma, rs, n)
    ensures Drift.Cusum(ewma, cusum, rs + [r], n) == Drift.Cusum(ewma, cusum, rs, n)
  {
    if n > 0 {
      DetectorPrefix(ewma, cusum, rs, r, n - 1);
    }
  }

  lemma DetectorStep(ewma: real, cusum: real, rs: seq<real>, r: real)
    ensures var d := Drift.Step(Drift.Ewma(ewma, rs, |rs|), Drift.Cusum(ewma, cusum, rs, |rs|), r);
            && Drift.Ewma(ewma, rs + [r], |rs| + 1) == d.ewma
            && Drift.Cusum(ewma, cusum, rs + [r], |rs| + 1) == d.cusum
  {
    DetectorPrefix(ewma, cusum, rs, r, |rs|);
  }

  lemma DriftFields(cfg: Config, s: Snapshot, op: Op)
    requires op != Verified(true)
    ensures var t := Apply(cfg, s, op);
            if op.Assessed?
            then var d := Drift.Step(s.baseline.ewma, s.baseline.cusum, Assess(cfg, s, op.attempt).risk);
                 t.baseline.ewma == d.ewma && t.baseline.cusum == d.cusum
            else t.baseline.ewma == s.baseline.ewma && t.baseline.cusum == s.baseline.cusum
  {
  }

  /** The drift fields of `t` are the detector's after `rs`, started in `s`. */
  ghost predicate Tracks(t: Snapshot, s: Snapshot, rs: seq<real>) {
    && t.baseline.ewma == Drift.Ewma(s.baseline.ewma, rs, |rs|)
    && t.baseline.cusum == Drift.Cusum(s.baseline.ewma, s.baseline.cusum, rs, |rs|)
  }

  lemma TracksOn(cfg: Config, s: Snapshot, rs: seq<real>, t: Snapshot, op: Op)
    requires Tracks(t, s, rs) && op != Verified(true)
    ensures Tracks(Apply(cfg, t, op), s, rs + (if op.Assessed? then [Assess(cfg, t, op.attempt).risk] else []))
  {
    DriftFields(cfg, t, op);
    if op.Assessed? {
      DetectorStep(s.baseline.ewma, s.baseline.cusum, rs, Assess(cfg, t, op.attempt).risk);
    } else {
      assert rs + [] == rs;
    }
  }

  /** Between passed step-ups the stored fields are a run of the detector over
      the committed risks. */
  lemma {:induction false} EngineRunsTheDetector(cfg: Config, ops: seq<Op>, i: nat, j: nat)
    requires i <= j <= |ops| && NoPassedStepUp(ops, i, j)
    ensures Tracks(StateAt(cfg, ops, j), StateAt(cfg, ops, i), Risks(cfg, ops, i, j))
    decreases j
  {
    hide Apply, Assess;
    if i < j {
      EngineRunsTheDetector(cfg, ops, i, j - 1);
      TracksOn(cfg, StateAt(cfg, ops, i), Risks(cfg, ops, i, j - 1), StateAt(cfg, ops, j - 1), ops[j - 1]);
    }
  }

  lemma {:induction false} CusumIsNonnegative(cfg: Config, ops: seq<Op>, i: nat)
    requires i <= |ops|
    ensures StateAt(cfg, ops, i).baseline.cusum >= 0.0
  {
    if i > 0 {
      CusumIsNonnegative(cfg, ops, i - 1);
      if ops[i - 1] != Verified(true) {
        DriftFields(cfg, StateAt(cfg, ops, i - 1), ops[i - 1]);
      }
    }
  }

  lemma AllowKeepsCusumLow(cfg: Config, s: Snapshot, a: Attempt)
    requires cfg.driftEnabled && Assess(cfg, s, a).verdict.decision.Allow?
    ensures Apply(cfg, s, Assessed(a)).baseline.cusum <= 0.4
  {
    AllowMeans(cfg, s, a);
  }

  /** Every ALLOW certifies how little the identity's baseline has crept up
      since any earlier point of the same review period. */
  lemma AllowCertifiesBaseline(cfg: Config, ops: seq<Op>, j: nat, n: nat)
    requires cfg.driftEnabled
    requires j <= n < |ops| && Decided(cfg, ops, n, Allow)
    requires NoPassedStepUp(ops, j, n) && StateAt(cfg, ops, j).baseline.ewma > 0.0
    ensures StateAt(cfg, ops, n + 1).baseline.ewma - StateAt(cfg, ops, j).baseline.ewma
            <= 0.012 + 0.00045 * |Risks(cfg, ops, j, n + 1)| as real
  {
    hide Apply, Assess, Drift.Ewma, Drift.Cusum;
    var s, rs := StateAt(cfg, ops, j), Risks(cfg, ops, j, n + 1);
    EngineRunsTheDetector(cfg, ops, j, n + 1);
    CusumIsNonnegative(cfg, ops, j);
    RisksAreUnit(cfg, ops, j, n + 1);
    AllowKeepsCusumLow(cfg, StateAt(cfg, ops, n), ops[n].attempt);
    Drift.CusumBoundsBaseline(s.baseline.ewma, s.baseline.cusum, rs);
  }

  /* ---- Since the last passed step-up ---- */

  /** A step-up moves trust by 250 or 400 within 0..1000. Passed, it closes the
      review and makes the detectors forget all but the baseline; it teaches the
      profile nothing and leaves the recovery budget alone either way. */
  lemma StepUpExactly(cfg: Config, s: Snapshot, passed: bool)
    requires 0 <= s.budget.trust <= 1000
    ensures var t := Apply(cfg, s, Verified(passed));
            && t.budget.trust == (if passed then (if s.budget.trust <= 750 then s.budget.trust + 250 else 1000)
                                  else if s.budget.trust >= 400 then s.budget.trust - 400 else 0)
            && t.budget.recovered == s.budget.recovered && t.budget.start == s.budget.start
            && t.profile == s.profile && t.burst == s.burst && t.coldPriorUsed == s.coldPriorUsed
            && t.baseline.ewma == s.baseline.ewma
            && (passed ==> t.baseline.window == [] && t.baseline.cusum == 0.0 && !t.underReview)
            && (!passed ==> t.baseline == s.baseline && t.underReview == s.underReview)
  {
  }

  /** Creation, or the moment after a passed step-up. */
  predicate StartsOver(ops: seq<Op>, i: nat)
    requires i <= |ops|
  {
    i == 0 || ops[i - 1] == Verified(true)
  }

  ghost predicate HoldsLast(window: seq<real>, rs: seq<real>) {
    && |window| == (if |rs| < 16 then |rs| else 16)
    && forall k :: 0 <= k < |window| ==> window[k] == Round4(rs[|rs| - |window| + k])
  }

  lemma WindowStep(window: seq<real>, rs: seq<real>, risk: real)
    requires HoldsLast(window, rs)
    ensures HoldsLast(NextWindow(window, risk), rs + [risk])
  {
    hide Round4;
  }

  lemma WindowField(cfg: Config, s: Snapshot, op: Op)
    requires op != Verified(true)
    ensures Apply(cfg, s, op).baseline.window
            == if op.Assessed? then NextWindow(s.baseline.window, Assess(cfg, s, op.attempt).risk) else s.baseline.window
  {
    hide EventRisk, NextWindow, UpdateTrust, Judge;
  }

  /** The window holds the last sixteen risks since then, rounded, and the CUSUM is
      the detector's over all of them, started from zero. */
  lemma {:induction false} DetectorsSinceStepUp(cfg: Config, ops: seq<Op>, i: nat, j: nat)
    requires i <= j <= |ops| && StartsOver(ops, i) && NoPassedStepUp(ops, i, j)
    ensures var rs := Risks(cfg, ops, i, j);
            && HoldsLast(StateAt(cfg, ops, j).baseline.window, rs)
            && StateAt(cfg, ops, j).baseline.cusum == Drift.Cusum(StateAt(cfg, ops, i).baseline.ewma, 0.0, rs, |rs|)
  {
    hide Assess, HoldsLast;
    EngineRunsTheDetector(cfg, ops, i, j);
    WindowAtStart(cfg, ops, i);
    WindowSinceStepUp(cfg, ops, i, j);
  }

  lemma {:induction false} WindowSinceStepUp(cfg: Config, ops: seq<Op>, i: nat, j: nat)
    requires i <= j <= |ops| && StartsOver(ops, i) && NoPassedStepUp(ops, i, j)
    ensures HoldsLast(StateAt(cfg, ops, j).baseline.window, Risks(cfg, ops, i, j))
    decreases j
  {
    hide Apply, Assess, HoldsLast, NextWindow;
    if i == j {
      WindowAtStart(cfg, ops, i);
    } else {
      var s, rs := StateAt(cfg, ops, j - 1), Risks(cfg, ops, i, j - 1);
      WindowSinceStepUp(cfg, ops, i, j - 1);
      WindowField(cfg, s, ops[j - 1]);
      assert rs + [] == rs;
      if ops[j - 1].Assessed? {
        WindowStep(s.baseline.window, rs, OutcomeAt(cfg, ops, j - 1).risk);
      }
    }
  }

  lemma WindowAtStart(cfg: Config, ops: seq<Op>, i: nat)
    requires i <= |ops| && StartsOver(ops, i)
    ensures StateAt(cfg, ops, i).baseline.window == [] && StateAt(cfg, ops, i).baseline.cusum == 0.0
    ensures HoldsLast([], [])
  {
  }

  /** An event drifts exactly when the CUSUM it leaves exceeds 0.4, or the identity
      is known and the window it leaves passes the window test. */
  lemma DriftedExactly(cfg: Config, s: Snapshot, a: Attempt)
    ensures var t := Apply(cfg, s, Assessed(a));
            Drifted(cfg, s, a, Assess(cfg, s, a).risk)
            <==> cfg.driftEnabled
                 && (t.baseline.cusum > 0.4 || (s.profile.eventCount > 0 && Drift.Detect(t.baseline.window, a.ks)))
  {
    hide EventRisk, NextWindow, UpdateTrust, Judge, Drift.Detect;
  }

  /** So within seven assessments of a passed step-up only the CUSUM can flag an
      identity, whatever it did before. */
  lemma WindowNeedsEight(cfg: Config, ops: seq<Op>, i: nat, j: nat)
    requires i <= j < |ops| && StartsOver(ops, i) && NoPassedStepUp(ops, i, j)
    requires ops[j].Assessed? && |Risks(cfg, ops, i, j)| < 7
    requires Drifted(cfg, StateAt(cfg, ops, j), ops[j].attempt, OutcomeAt(cfg, ops, j).risk)
    ensures StateAt(cfg, ops, j + 1).baseline.cusum > 0.4
  {
    DetectorsSinceStepUp(cfg, ops, i, j);
    var s, a := StateAt(cfg, ops, j), ops[j].attempt;
    WindowField(cfg, s, ops[j]);
    WindowStep(s.baseline.window, Risks(cfg, ops, i, j), OutcomeAt(cfg, ops, j).risk);
    DriftedExactly(cfg, s, a);
    hide Apply, Assess, Drift.MeanShift, Drifted, NextWindow;
  }

  /* ---- Quiet identities ---- */

  /** Every committed risk lies in a band no wider than the CUSUM slack. */
  ghost predicate Quiet(cfg: Config, ops: seq<Op>, lo: real) {
    forall k :: 0 <= k < |ops| && ops[k].Assessed? ==> lo <= OutcomeAt(cfg, ops, k).risk <= lo + Drift.CUSUM_SLACK
  }

  ghost predicate Calm(s: Snapshot, lo: real) {
    && s.baseline.cusum == 0.0 && !s.underReview
    && (s.baseline.ewma == 0.0 || (s.baseline.ewma > 0.0 && lo <= s.baseline.ewma <= lo + Drift.CUSUM_SLACK))
    && forall i :: 0 <= i < |s.baseline.window| ==> lo - 0.00005 <= s.baseline.window[i] <= lo + Drift.CUSUM_SLACK + 0.00005
  }

  lemma QuietRiskKeepsCalm(cfg: Config, s: Snapshot, a: Attempt, lo: real)
    requires Calm(s, lo)
    requires lo <= EventRisk(cfg, s, a) <= lo + Drift.CUSUM_SLACK
    ensures Calm(Apply(cfg, s, Assessed(a)), lo)
    ensures !Drifted(cfg, s, a, EventRisk(cfg, s, a))
  {
    var risk := EventRisk(cfg, s, a);
    Round4Error(risk);
    Drift.QuietWindowIsNotAShift(NextWindow(s.baseline.window, risk), lo, a.ks);
    var d := Drift.Step(s.baseline.ewma, s.baseline.cusum, risk);
    assert d.cusum == 0.0 && !d.fired;
  }

  lemma {:induction false} QuietStaysCalm(cfg: Config, ops: seq<Op>, lo: real, i: nat)
    requires i <= |ops| && Quiet(cfg, ops, lo)
    ensures Calm(StateAt(cfg, ops, i), lo)
  {
    if i > 0 {
      QuietStaysCalm(cfg, ops, lo, i - 1);
      if ops[i - 1].Assessed? {
        assert lo <= OutcomeAt(cfg, ops, i - 1).risk <= lo + Drift.CUSUM_SLACK;
        QuietRiskKeepsCalm(cfg, StateAt(cfg, ops, i - 1), ops[i - 1].attempt, lo);
      }
    }
  }

  /** A steady identity is never flagged: neither detector ever fires and no
      decision is ever a drift review, however long the run. */
  lemma QuietIsNeverFlagged(cfg: Config, ops: seq<Op>, lo: real, i: nat)
    requires i < |ops| && ops[i].Assessed? && Quiet(cfg, ops, lo)
    ensures var s, a := StateAt(cfg, ops, i), ops[i].attempt;
            !Drifted(cfg, s, a, OutcomeAt(cfg, ops, i).risk) && !s.underReview
            && OutcomeAt(cfg, ops, i).verdict.band != DriftReview
  {
    QuietStaysCalm(cfg, ops, lo, i);
    var s, a := StateAt(cfg, ops, i), ops[i].attempt;
    assert lo <= OutcomeAt(cfg, ops, i).risk <= lo + Drift.CUSUM_SLACK;
    QuietRiskKeepsCalm(cfg, s, a, lo);
    UnflaggedIsNotReviewed(cfg, s, a);
  }

  lemma UnflaggedIsNotReviewed(cfg: Config, s: Snapshot, a: Attempt)
    requires !s.underReview && !Drifted(cfg, s, a, EventRisk(cfg, s, a))
    ensures Assess(cfg, s, a).verdict.band != DriftReview
  {
  }

  /* ---- Slow climbs ---- */

  /** What a state remembers of a slow climb whose risks so far are `rs`. */
  ghost predicate Creeping(s: Snapshot, rs: seq<real>) {
    && s.baseline.cusum == 0.0 && !s.underReview
    && s.baseline.ewma == Drift.Ewma(0.0, rs, |rs|)
    && |s.baseline.window| <= |rs|
    && forall i :: 0 <= i < |s.baseline.window| ==> s.baseline.window[i] == Round4(rs[|rs| - |s.baseline.window| + i])
  }

  lemma {:induction false} ClimbOver(rs: seq<real>, i: nat, j: nat)
    requires i <= j < |rs| && Drift.ClimbsAtMost(rs, 0.00045)
    ensures rs[j] <= rs[i] + 0.00045 * (j - i) as real
    decreases j
  {
    if i < j {
      ClimbOver(rs, i, j - 1);
      assert rs[j] <= rs[j - 1] + 0.00045;
    }
  }

  lemma CreepingWindow(window: seq<real>, rs: seq<real>, ks: bool)
    requires Drift.ClimbsAtMost(rs, 0.00045) && |window| <= |rs|
    requires forall i :: 0 <= i < |window| ==> window[i] == Round4(rs[|rs| - |window| + i])
    ensures !Drift.Detect(window, ks)
  {
    forall i, j | 0 <= i < j < |window| ensures window[j] <= window[i] + 0.00045 * (j - i) as real + 0.0001 {
      var k := |rs| - |window|;
      ClimbOver(rs, k + i, k + j);
      Round4Error(rs[k + i]);
      Round4Error(rs[k + j]);
    }
    Drift.SlowWindowIsNotAShift(window, ks);
  }

  lemma NextCreepingWindow(s: Snapshot, rs: seq<real>, risk: real)
    requires Creeping(s, rs)
    ensures var w, rs' := NextWindow(s.baseline.window, risk), rs + [risk];
            |w| <= |rs'| && forall i :: 0 <= i < |w| ==> w[i] == Round4(rs'[|rs'| - |w| + i])
  {
    hide Round4;
  }

  lemma CreepingDetectors(s: Snapshot, rs: seq<real>, risk: real, ks: bool)
    requires Creeping(s, rs) && Drift.ClimbsAtMost(rs + [risk], 0.00045)
    ensures var d := Drift.Step(s.baseline.ewma, s.baseline.cusum, risk);
            d.cusum == 0.0 && !d.fired && d.ewma == Drift.Ewma(0.0, rs + [risk], |rs| + 1)
    ensures !Drift.Detect(NextWindow(s.baseline.window, risk), ks)
  {
    var rs' := rs + [risk];
    NextCreepingWindow(s, rs, risk);
    CreepingWindow(NextWindow(s.baseline.window, risk), rs', ks);
    ClimbPrefix(rs, risk);
    Drift.SlowClimbNeverFires(rs, |rs|);
    Drift.SlowClimbNeverFires(rs', |rs'|);
    DetectorStep(0.0, 0.0, rs, risk);
    hide Drift.Detect, NextWindow, Drift.Ewma, Drift.Cusum, Drift.ClimbsAtMost;
  }

  lemma CreepingStep(cfg: Config, s: Snapshot, rs: seq<real>, a: Attempt)
    requires Creeping(s, rs) && Drift.ClimbsAtMost(rs + [EventRisk(cfg, s, a)], 0.00045)
    ensures Creeping(Apply(cfg, s, Assessed(a)), rs + [EventRisk(cfg, s, a)])
    ensures !Drifted(cfg, s, a, EventRisk(cfg, s, a))
  {
    var risk := EventRisk(cfg, s, a);
    NextCreepingWindow(s, rs, risk);
    CreepingDetectors(s, rs, risk, a.ks);
    hide EventRisk, Drift.Detect, NextWindow, Drift.Ewma, Drift.Step, Drift.ClimbsAtMost, UpdateTrust, Judge, Round4;
  }

  lemma ClimbPrefix(rs: seq<real>, risk: real)
    requires Drift.ClimbsAtMost(rs + [risk], 0.00045)
    ensures Drift.ClimbsAtMost(rs, 0.00045)
  {
    var rs' := rs + [risk];
    forall i | 0 < i < |rs| ensures rs[i] <= rs[i - 1] + 0.00045 {
      assert rs'[i] <= rs'[i - 1] + 0.00045;
    }
    forall i | 0 <= i < |rs| ensures rs[i] >= 0.0 {
      assert rs'[i] >= 0.0;
    }
  }

  lemma CreepingThroughStepUp(cfg: Config, s: Snapshot, rs: seq<real>, passed: bool)
    requires Creeping(s, rs)
    ensures Creeping(Apply(cfg, s, Verified(passed)), rs)
  {
  }

  /** While the committed risks climb by at most 0.00045 per assessment, falling
      as they please, the CUSUM stays at zero and no review is opened, whatever
      the two-sample test says and however many step-ups come in between. */
  lemma {:induction false} SlowClimbKeepsCreeping(cfg: Config, ops: seq<Op>, i: nat)
    requires i <= |ops| && Drift.ClimbsAtMost(Risks(cfg, ops, 0, i), 0.00045)
    ensures Creeping(StateAt(cfg, ops, i), Risks(cfg, ops, 0, i))
  {
    hide Apply, Creeping, Drift.ClimbsAtMost, EventRisk;
    if i == 0 {
      UnseenCreeps();
    } else {
      var rs := Risks(cfg, ops, 0, i - 1);
      if ops[i - 1].Assessed? {
        ClimbPrefix(rs, OutcomeAt(cfg, ops, i - 1).risk);
        SlowClimbKeepsCreeping(cfg, ops, i - 1);
        CreepingStep(cfg, StateAt(cfg, ops, i - 1), rs, ops[i - 1].attempt);
      } else {
        assert rs + [] == rs;
        SlowClimbKeepsCreeping(cfg, ops, i - 1);
        CreepingThroughStepUp(cfg, StateAt(cfg, ops, i - 1), rs, ops[i - 1].passed);
      }
    }
  }

  lemma UnseenCreeps()
    ensures Creeping(UNSEEN, [])
  {
  }

  /** So neither detector ever fires on it and no decision is a drift review. */
  lemma SlowClimbIsNeverFlagged(cfg: Config, ops: seq<Op>, i: nat)
    requires i < |ops| && ops[i].Assessed? && Drift.ClimbsAtMost(Risks(cfg, ops, 0, i + 1), 0.00045)
    ensures var s, a := StateAt(cfg, ops, i), ops[i].attempt;
            !Drifted(cfg, s, a, OutcomeAt(cfg, ops, i).risk) && !s.underReview
            && OutcomeAt(cfg, ops, i).verdict.band != DriftReview
  {
    hide Apply, Drift.ClimbsAtMost, EventRisk, Drifted;
    var s, a, rs := StateAt(cfg, ops, i), ops[i].attempt, Risks(cfg, ops, 0, i);
    ClimbPrefix(rs, OutcomeAt(cfg, ops, i).risk);
    SlowClimbKeepsCreeping(cfg, ops, i);
    CreepingStep(cfg, s, rs, a);
    UnflaggedIsNotReviewed(cfg, s, a);
  }
}
