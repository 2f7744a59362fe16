/** The life of one identity: the sequence of operations committed for it, in
    commit order, starting from the state of an unseen identity. */
module Runs {
  import opened Schemas
  import opened Identity
  import opened Policy
  import opened Engine

  datatype Op = Assessed(attempt: Attempt) | Verified(passed: bool)

  /** What committing one operation stores. */
  function Apply(cfg: Config, s: Snapshot, op: Op): (t: Snapshot)
    ensures t.version == s.version + 1
  {
    var s' := match op
      case Assessed(a) => Assess(cfg, s, a).state
      case Verified(passed) => ApplyStepUp(s, passed);
    s'.(version := s.version + 1)
  }

  /** The stored state after the first `i` operations. */
  function StateAt(cfg: Config, ops: seq<Op>, i: nat): Snapshot
    requires i <= |ops|
  {
    if i == 0 then UNSEEN else Apply(cfg, StateAt(cfg, ops, i - 1), ops[i - 1])
  }

  function OutcomeAt(cfg: Config, ops: seq<Op>, i: nat): Outcome
    requires i < |ops| && ops[i].Assessed?
  {
    Assess(cfg, StateAt(cfg, ops, i), ops[i].attempt)
  }

  predicate Decided(cfg: Config, ops: seq<Op>, i: nat, d: Decision)
    requires i < |ops|
  {
    ops[i].Assessed? && OutcomeAt(cfg, ops, i).verdict.decision == d
  }

  lemma {:induction false} PrefixStates(cfg: Config, ops: seq<Op>, more: seq<Op>, i: nat)
    requires i <= |ops|
    ensures StateAt(cfg, ops + more, i) == StateAt(cfg, ops, i)
  {
    hide Apply;
    if i > 0 {
      PrefixStates(cfg, ops, more, i - 1);
    }
  }

  /* ---- What every run keeps ---- */

  lemma {:induction false} TrustInRange(cfg: Config, ops: seq<Op>, i: nat)
    requires i <= |ops|
    ensures 0 <= StateAt(cfg, ops, i).budget.trust <= 1000
    ensures StateAt(cfg, ops, i).version == i
  {
    hide Apply;
    if i > 0 {
      TrustInRange(cfg, ops, i - 1);
      TrustStep(cfg, StateAt(cfg, ops, i - 1), ops[i - 1]);
    }
  }

  lemma TrustStep(cfg: Config, s: Snapshot, op: Op)
    requires 0 <= s.budget.trust <= 1000
    ensures 0 <= Apply(cfg, s, op).budget.trust <= 1000
  {
    if op.Assessed? {
      TrustMoves(cfg.recoveryCap, s.budget, EventRisk(cfg, s, op.attempt), op.attempt.now);
    }
  }

  /** ALLOW is decided exactly by trust of 650, low risk, no drift, no open
      review and, for sensitive events, a working model. */
  lemma AllowExactly(cfg: Config, s: Snapshot, a: Attempt)
    ensures var o := Assess(cfg, s, a);
            o.verdict.decision.Allow?
            <==> o.state.budget.trust >= 650 && o.risk < 0.45
                 && !s.underReview && !Drifted(cfg, s, a, o.risk)
                 && (a.ml.Some? || !FailClosed(a.event.eventType))
  {
    var risk := EventRisk(cfg, s, a);
    var trust := UpdateTrust(cfg.recoveryCap, s.budget, risk, a.now).trust;
    DecisionRegions(trust, risk, a.event);
    var v := Review(Decide(trust, risk, a.event), Drifted(cfg, s, a, risk) || s.underReview, a.event);
    DegradeOnlyEscalates(v, a.event);
  }

  /** What a trusted event is not: flagged for travel, or opening a review. */
  lemma AllowMeans(cfg: Config, s: Snapshot, a: Attempt)
    requires Assess(cfg, s, a).verdict.decision.Allow?
    ensures var o := Assess(cfg, s, a);
            && o.state.budget.trust >= 650 && !s.underReview && !Drifted(cfg, s, a, o.risk) && !o.state.underReview
            && !ImpossibleTravel(cfg, s.profile, a.event, a.now)
  {
    AllowExactly(cfg, s, a);
  }

  /** The band of every verdict by the new trust, the risk, the review and the
      model's failure. */
  lemma BandExactly(cfg: Config, s: Snapshot, a: Attempt)
    ensures var o, e := Assess(cfg, s, a), a.event;
            var trust := o.state.budget.trust;
            var reviewed := s.underReview || Drifted(cfg, s, a, o.risk);
            o.verdict.band
            == if a.ml.None? then
                 (if e.eventType.PrivilegedAccess? || e.eventType.AccountRecovery? || e.eventType.Onboarding?
                  then DegradedFailClosed else DegradedFailOpen)
               else if trust < 150 then Critical
               else if trust < 400 || o.risk >= 0.65 then High
               else if trust < 650 || o.risk >= 0.45 then Elevated
               else if reviewed then DriftReview
               else Low
  {
    hide EventRisk, UpdateTrust, Drifted;
  }

  /** A review opens exactly where an event that would be allowed drifts, and
      stays open. */
  lemma ReviewOpensExactly(cfg: Config, s: Snapshot, a: Attempt)
    ensures var o := Assess(cfg, s, a);
            o.state.underReview
            <==> s.underReview || (Drifted(cfg, s, a, o.risk) && o.state.budget.trust >= 650 && o.risk < 0.45)
  {
    var risk := EventRisk(cfg, s, a);
    DecisionRegions(UpdateTrust(cfg.recoveryCap, s.budget, risk, a.now).trust, risk, a.event);
  }

  /** The challenge of a customer-facing step-up: one touch in the elevated band,
      a password by text in the high one and in a drift review. */
  lemma CustomerChallengeExactly(cfg: Config, s: Snapshot, a: Attempt)
    requires Assess(cfg, s, a).verdict.decision.StepUp?
    requires a.event.eventType.Login? || a.event.eventType.Transaction? || a.event.eventType.ProfileChange?
    ensures var o := Assess(cfg, s, a);
            var trust := o.state.budget.trust;
            var review := trust >= 650 && o.risk < 0.45 && (s.underReview || Drifted(cfg, s, a, o.risk));
            && (o.verdict.challenge == Some(DeviceBiometric) <==> trust >= 400 && o.risk < 0.65 && !review)
            && (o.verdict.challenge == Some(OtpSms) <==> trust < 400 || o.risk >= 0.65 || review)
  {
    hide EventRisk, UpdateTrust, Drifted;
  }

  /** Identity-proofing events are always challenged by video; privileged ones by
      a manager, except that a drift review asks them for an OTP. */
  lemma ChallengeFitsTheEvent(cfg: Config, s: Snapshot, a: Attempt)
    requires Assess(cfg, s, a).verdict.decision.StepUp?
    ensures var o, e := Assess(cfg, s, a), a.event;
            && (e.eventType.AccountRecovery? || e.eventType.Onboarding? ==> o.verdict.challenge == Some(VideoKyc))
            && (e.eventType.PrivilegedAccess? ==>
                  o.verdict.challenge
                  == Some(if o.state.budget.trust >= 650 && o.risk < 0.45
                             && (s.underReview || Drifted(cfg, s, a, o.risk)) then OtpSms else ManagerApproval))
            && (!FailClosed(e.eventType) ==>
                  o.verdict.challenge == Some(DeviceBiometric) || o.verdict.challenge == Some(OtpSms))
  {
  }

  /** BLOCK is decided by the new trust score alone. */
  lemma BlockMeans(cfg: Config, s: Snapshot, a: Attempt)
    ensures var o := Assess(cfg, s, a);
            o.verdict.decision.Block? <==> o.state.budget.trust < 150
    ensures WellFormed(Assess(cfg, s, a).verdict)
  {
    var risk := EventRisk(cfg, s, a);
    var trust := UpdateTrust(cfg.recoveryCap, s.budget, risk, a.now).trust;
    DecisionRegions(trust, risk, a.event);
    var v := Review(Decide(trust, risk, a.event), Drifted(cfg, s, a, risk) || s.underReview, a.event);
    DegradeOnlyEscalates(v, a.event);
  }

  /** The velocity counter halves on every event, whatever the time between
      them, so the feature read from it stays below 2/15 of its scale. */
  lemma {:induction false} VelocityNeverReachesItsCap(cfg: Config, ops: seq<Op>, i: nat)
    requires i <= |ops|
    ensures 0.0 <= StateAt(cfg, ops, i).burst < 2.0
    ensures i < |ops| && ops[i].Assessed? ==>
              0.0 < Vector(cfg, StateAt(cfg, ops, i), ops[i].attempt)[9] < 2.0 / 15.0
  {
    hide Apply, Vector;
    if i > 0 {
      VelocityNeverReachesItsCap(cfg, ops, i - 1);
      VelocityStep(cfg, StateAt(cfg, ops, i - 1), ops[i - 1]);
    }
    if i < |ops| {
      VelocityStep(cfg, StateAt(cfg, ops, i), ops[i]);
    }
  }

  lemma VelocityStep(cfg: Config, s: Snapshot, op: Op)
    requires 0.0 <= s.burst < 2.0
    ensures 0.0 <= Apply(cfg, s, op).burst < 2.0
    ensures op.Assessed? ==> 0.0 < Vector(cfg, s, op.attempt)[9] < 2.0 / 15.0
  {
  }

  /* ---- Sticky review ---- */

  lemma OnlyAllowTeaches(cfg: Config, s: Snapshot, op: Op)
    requires op.Assessed? ==> !Assess(cfg, s, op.attempt).verdict.decision.Allow?
    ensures Apply(cfg, s, op).profile == s.profile
  {
  }

  lemma ReviewSurvives(cfg: Config, s: Snapshot, op: Op)
    requires s.underReview && op != Verified(true)
    ensures Apply(cfg, s, op).underReview && Apply(cfg, s, op).profile == s.profile
    ensures op.Assessed? ==> !Assess(cfg, s, op.attempt).verdict.decision.Allow?
  {
    if op.Assessed? && Assess(cfg, s, op.attempt).verdict.decision.Allow? {
      AllowMeans(cfg, s, op.attempt);
    } else {
      OnlyAllowTeaches(cfg, s, op);
    }
  }

  /** From the commit that opens a review to the passed step-up that closes it,
      nothing is allowed and nothing is learnt. */
  lemma {:induction false} ReviewIsSticky(cfg: Config, ops: seq<Op>, i: nat, j: nat)
    requires i <= j <= |ops| && StateAt(cfg, ops, i).underReview
    requires forall k :: i <= k < j ==> ops[k] != Verified(true)
    ensures StateAt(cfg, ops, j).underReview
    ensures StateAt(cfg, ops, j).profile == StateAt(cfg, ops, i).profile
    ensures forall k :: i <= k < j ==> !Decided(cfg, ops, k, Allow)
    decreases j
  {
    hide Apply, Assess;
    if i < j {
      ReviewIsSticky(cfg, ops, i, j - 1);
      ReviewSurvives(cfg, StateAt(cfg, ops, j - 1), ops[j - 1]);
    }
  }

  /* ---- The profile is exactly what was allowed ---- */

  /** The events of the committed ALLOW decisions among the first `i`, in order. */
  function Trusted(cfg: Config, ops: seq<Op>, i: nat): seq<Event>
    requires i <= |ops|
  {
    if i == 0 then []
    else Trusted(cfg, ops, i - 1) + (if Decided(cfg, ops, i - 1, Allow) then [ops[i - 1].attempt.event] else [])
  }

  function AmountsOf(es: seq<Event>): seq<real> {
    if es == [] then []
    else
      var e := es[|es| - 1];
      AmountsOf(es[..|es| - 1]) + (if e.amount.Some? then [e.amount.value] else [])
  }

  ghost predicate Reflects(p: Profile, es: seq<Event>) {
    && p.devices == (set e | e in es :: e.deviceId)
    && p.geos == (set e | e in es :: e.geo)
    && p.hours == seq(|es|, (i: nat) requires i < |es| => es[i].hourOfDay)
    && p.amounts == AmountsOf(es)
    && p.eventCount == |es|
    && p.lastGeo == (if es == [] then "" else es[|es| - 1].geo)
  }

  lemma LearnReflects(p: Profile, es: seq<Event>, e: Event, ts: real)
    requires Reflects(p, es)
    ensures Reflects(Learn(p, e).(lastGeo := e.geo, lastGeoTs := ts), es + [e])
  {
    var es' := es + [e];
    assert es'[..|es|] == es;
    assert forall x :: x in es' <==> x in es || x == e;
    assert seq(|es'|, (i: nat) requires i < |es'| => es'[i].hourOfDay) == p.hours + [e.hourOfDay];
  }

  lemma ProfileStep(cfg: Config, s: Snapshot, op: Op, es: seq<Event>)
    requires Reflects(s.profile, es)
    ensures var trusted := op.Assessed? && Assess(cfg, s, op.attempt).verdict.decision.Allow?;
            Reflects(Apply(cfg, s, op).profile, es + (if trusted then [op.attempt.event] else []))
  {
    if op.Assessed? && Assess(cfg, s, op.attempt).verdict.decision.Allow? {
      LearnReflects(s.profile, es, op.attempt.event, op.attempt.now);
    } else {
      assert es + [] == es;
      OnlyAllowTeaches(cfg, s, op);
    }
  }

  lemma UnseenReflectsNothing()
    ensures Reflects(UNSEEN.profile, [])
  {
  }

  lemma {:induction false} ProfileIsTrustedHistory(cfg: Config, ops: seq<Op>, i: nat)
    requires i <= |ops|
    ensures Reflects(StateAt(cfg, ops, i).profile, Trusted(cfg, ops, i))
  {
    hide Apply, Assess, Reflects;
    if i == 0 {
      UnseenReflectsNothing();
    } else {
      ProfileIsTrustedHistory(cfg, ops, i - 1);
      ProfileStep(cfg, StateAt(cfg, ops, i - 1), ops[i - 1], Trusted(cfg, ops, i - 1));
    }
  }

  /* ---- The cold-start prior ---- */

  lemma {:induction false} PriorIsSpentByFirstAssessment(cfg: Config, ops: seq<Op>, i: nat)
    requires i <= |ops|
    ensures StateAt(cfg, ops, i).coldPriorUsed <==> exists k :: 0 <= k < i && ops[k].Assessed?
    ensures StateAt(cfg, ops, i).profile.eventCount > 0 ==> StateAt(cfg, ops, i).coldPriorUsed
  {
    hide Apply;
    if i > 0 {
      PriorIsSpentByFirstAssessment(cfg, ops, i - 1);
      OnlyFirstAssessmentIsFresh(cfg, StateAt(cfg, ops, i - 1), ops[i - 1]);
    }
  }

  lemma OnlyFirstAssessmentIsFresh(cfg: Config, s: Snapshot, op: Op)
    requires s.profile.eventCount > 0 ==> s.coldPriorUsed
    ensures var t := Apply(cfg, s, op);
            && (op.Assessed? ==> t.coldPriorUsed)
            && (op.Verified? ==> t.coldPriorUsed == s.coldPriorUsed && t.profile.eventCount == s.profile.eventCount)
  {
  }

  /** The damping touches no committed assessment but the first. */
  lemma DampedAtMostOnce(cfg: Config, ops: seq<Op>, i: nat)
    requires i < |ops| && ops[i].Assessed?
    requires Damped(cfg, StateAt(cfg, ops, i), ops[i].attempt.event)
    ensures forall k :: 0 <= k < i ==> ops[k].Verified?
    ensures forall k :: i < k < |ops| && ops[k].Assessed? ==> !Damped(cfg, StateAt(cfg, ops, k), ops[k].attempt.event)
  {
    PriorIsSpentByFirstAssessment(cfg, ops, i);
    forall k | i < k < |ops| && ops[k].Assessed?
      ensures !Damped(cfg, StateAt(cfg, ops, k), ops[k].attempt.event)
    {
      PriorIsSpentByFirstAssessment(cfg, ops, k);
    }
  }

  /* ---- Graduated escalation ---- */

  /** A warning is a committed STEP_UP decision or a failed step-up. */
  predicate Warns(cfg: Config, s: Snapshot, op: Op) {
    match op
    case Assessed(a) => Assess(cfg, s, a).verdict.decision.StepUp?
    case Verified(passed) => !passed
  }

  predicate Warned(cfg: Config, ops: seq<Op>, k: nat)
    requires k < |ops|
  {
    Warns(cfg, StateAt(cfg, ops, k), ops[k])
  }

  lemma HighTrustStep(cfg: Config, s: Snapshot, op: Op)
    requires 0 <= s.budget.trust <= 1000 && !Warns(cfg, s, op)
    requires s.budget.trust >= 650
    ensures 650 <= Apply(cfg, s, op).budget.trust
  {
    if op.Assessed? {
      TrustMoves(cfg.recoveryCap, s.budget, EventRisk(cfg, s, op.attempt), op.attempt.now);
      BlockMeans(cfg, s, op.attempt);
      AllowExactly(cfg, s, op.attempt);
    }
  }

  lemma {:induction false} TrustStaysHighUntilWarned(cfg: Config, ops: seq<Op>, i: nat, j: nat)
    requires i <= j <= |ops|
    requires i == 0 || Decided(cfg, ops, i - 1, Allow)
    requires forall k :: i <= k < j ==> !Warned(cfg, ops, k)
    ensures 650 <= StateAt(cfg, ops, j).budget.trust <= 1000
    decreases j
  {
    hide Apply, Assess, Decided, StateAt;
    TrustInRange(cfg, ops, j);
    if i < j {
      TrustStaysHighUntilWarned(cfg, ops, i, j - 1);
      TrustInRange(cfg, ops, j - 1);
      HighTrustNext(cfg, ops, j - 1);
    } else {
      HighTrustAtOutset(cfg, ops, i);
    }
  }

  lemma HighTrustNext(cfg: Config, ops: seq<Op>, j: nat)
    requires j < |ops| && 650 <= StateAt(cfg, ops, j).budget.trust <= 1000 && !Warned(cfg, ops, j)
    ensures 650 <= StateAt(cfg, ops, j + 1).budget.trust
  {
    hide Apply, Assess, Warns;
    HighTrustStep(cfg, StateAt(cfg, ops, j), ops[j]);
  }

  lemma HighTrustAtOutset(cfg: Config, ops: seq<Op>, i: nat)
    requires i <= |ops| && (i == 0 || Decided(cfg, ops, i - 1, Allow))
    ensures 650 <= StateAt(cfg, ops, i).budget.trust
  {
    hide Apply, Assess;
    if i > 0 {
      AllowLeavesHighTrust(cfg, StateAt(cfg, ops, i - 1), ops[i - 1].attempt);
    }
  }

  lemma AllowLeavesHighTrust(cfg: Config, s: Snapshot, a: Attempt)
    requires Assess(cfg, s, a).verdict.decision.Allow?
    ensures Apply(cfg, s, Assessed(a)).budget.trust >= 650
  {
    AllowExactly(cfg, s, a);
  }

  /** Nobody is blocked out of the blue: since creation or the last ALLOW a
      warning was committed first. */
  lemma BlockIsNeverFirst(cfg: Config, ops: seq<Op>, i: nat, j: nat)
    requires i <= j < |ops|
    requires i == 0 || Decided(cfg, ops, i - 1, Allow)
    requires Decided(cfg, ops, j, Block)
    ensures exists k :: i <= k < j && Warned(cfg, ops, k)
  {
    if forall k :: i <= k < j ==> !Warned(cfg, ops, k) {
      TrustStaysHighUntilWarned(cfg, ops, i, j);
      var s, a := StateAt(cfg, ops, j), ops[j].attempt;
      TrustMoves(cfg.recoveryCap, s.budget, EventRisk(cfg, s, a), a.now);
      BlockMeans(cfg, s, a);
    }
  }

  /* ---- Impossible travel ---- */

  lemma AllowMovesReference(cfg: Config, s: Snapshot, a: Attempt)
    requires Assess(cfg, s, a).verdict.decision.Allow?
    ensures Assess(cfg, s, a).state.profile.lastGeo == a.event.geo && Assess(cfg, s, a).state.profile.lastGeoTs == a.now
  {
  }

  lemma {:induction false} ReferenceIsLastAllow(cfg: Config, ops: seq<Op>, i: nat, j: nat)
    requires i < j <= |ops| && Decided(cfg, ops, i, Allow)
    requires forall k :: i < k < j ==> !Decided(cfg, ops, k, Allow)
    ensures StateAt(cfg, ops, j).profile.lastGeo == ops[i].attempt.event.geo
    ensures StateAt(cfg, ops, j).profile.lastGeoTs == ops[i].attempt.now
    decreases j
  {
    if i + 1 < j {
      ReferenceIsLastAllow(cfg, ops, i, j - 1);
      assert !Decided(cfg, ops, j - 1, Allow);
      OnlyAllowTeaches(cfg, StateAt(cfg, ops, j - 1), ops[j - 1]);
    } else {
      AllowMovesReference(cfg, StateAt(cfg, ops, i), ops[i].attempt);
    }
  }

  /** Successive trusted events in different countries are an hour apart. */
  lemma TravelTakesAnHour(cfg: Config, ops: seq<Op>, i: nat, j: nat)
    requires cfg.impossibleTravel
    requires i < j < |ops| && Decided(cfg, ops, i, Allow) && Decided(cfg, ops, j, Allow)
    requires forall k :: i < k < j ==> !Decided(cfg, ops, k, Allow)
    requires ops[i].attempt.event.geo != ""
    requires Country(ops[i].attempt.event.geo) != Country(ops[j].attempt.event.geo)
    ensures ops[j].attempt.now - ops[i].attempt.now >= 3600.0
  {
    ReferenceIsLastAllow(cfg, ops, i, j);
    AllowMeans(cfg, StateAt(cfg, ops, j), ops[j].attempt);
  }

  /** With commit-order clocks and known locations, the same holds of any two
      trusted events. */
  lemma {:induction false} AnyTravelTakesAnHour(cfg: Config, ops: seq<Op>, i: nat, j: nat)
    requires cfg.impossibleTravel && TimeFlows(ops)
    requires i < j < |ops| && Decided(cfg, ops, i, Allow) && Decided(cfg, ops, j, Allow)
    requires forall k :: 0 <= k < |ops| && ops[k].Assessed? ==> ops[k].attempt.event.geo != ""
    requires Country(ops[i].attempt.event.geo) != Country(ops[j].attempt.event.geo)
    ensures ops[j].attempt.now - ops[i].attempt.now >= 3600.0
    decreases j - i
  {
    if forall k :: i < k < j ==> !Decided(cfg, ops, k, Allow) {
      TravelTakesAnHour(cfg, ops, i, j);
    } else {
      var k :| i < k < j && Decided(cfg, ops, k, Allow);
      if Country(ops[k].attempt.event.geo) == Country(ops[i].attempt.event.geo) {
        AnyTravelTakesAnHour(cfg, ops, k, j);
      } else {
        AnyTravelTakesAnHour(cfg, ops, i, k);
      }
    }
  }

  ghost predicate TimeFlows(ops: seq<Op>) {
    forall i, j :: 0 <= i < j < |ops| && ops[i].Assessed? && ops[j].Assessed?
                   ==> ops[i].attempt.now <= ops[j].attempt.now
  }
}
