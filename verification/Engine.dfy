/** The trust engine as functions on one identity's state: what a single
    assessment or step-up does to it. */
module Engine {
  import opened Schemas
  import opened Arithmetic
  import opened Identity
  import opened Policy
  import Drift

  const RECOVERY_CAP_PER_WINDOW: int := 120
  const RECOVERY_WINDOW_SECONDS: real := 3600.0
  const RISK_WINDOW_MAX: nat := 16
  const COLD_PRIOR_FACTOR: real := 0.5
  const COLD_PRIOR_MAX_AMOUNT: real := 25000.0
  const IMPOSSIBLE_TRAVEL_SECONDS: real := 3600.0
  const IMPOSSIBLE_TRAVEL_BOOST: real := 0.5
  const CAS_RETRIES: nat := 6

  const WEIGHTS: seq<real> := [0.14, 0.10, 0.05, 0.11, 0.15, 0.07, 0.04, 0.08, 0.12, 0.04, 0.10]

  datatype Config = Config(driftEnabled: bool, recoveryCap: int, coldStartPrior: bool, impossibleTravel: bool)

  /** What one pass of the scoring loop reads besides the stored state: the
      event, the wall clock, the resolved behaviour, the device graph's answer,
      the spread of past amounts, the model (None when it failed) and the
      two-sample test. */
  datatype Attempt = Attempt(
    event: Event,
    now: real,
    anomaly: Option<Unit>,
    sharing: nat,
    deviation: real,
    ml: Option<Unit>,
    ks: bool)

  datatype Outcome = Outcome(state: Snapshot, verdict: Verdict, risk: real)

  /* ---- Risk ---- */

  function Country(geo: string): string {
    if geo == "" || geo[0] == '-' then "" else [geo[0]] + Country(geo[1..])
  }

  predicate ColdPriorApplies(e: Event) {
    && (e.eventType.Login? || e.eventType.Transaction?)
    && (e.channel.MobileApp? || e.channel.InternetBanking? || e.channel.Branch?)
    && !e.isNewBeneficiary
    && !e.recoveryContactChanged
    && (e.amount.None? || e.amount.value < COLD_PRIOR_MAX_AMOUNT)
  }

  /** The one-shot prior softens this assessment. */
  predicate Damped(cfg: Config, s: Snapshot, e: Event) {
    s.profile.eventCount == 0 && cfg.coldStartPrior && !s.coldPriorUsed && ColdPriorApplies(e)
  }

  function Vector(cfg: Config, s: Snapshot, a: Attempt): seq<real> {
    var vec := Features(s.profile, Burst(s.burst), a.event, a.sharing, a.anomaly, a.deviation);
    if Damped(cfg, s, a.event) then vec[0 := vec[0] * COLD_PRIOR_FACTOR][1 := vec[1] * COLD_PRIOR_FACTOR]
    else vec
  }

  function Dot(ws: seq<real>, vec: seq<real>): real
    requires |ws| == |vec|
  {
    if ws == [] then 0.0 else ws[0] * vec[0] + Dot(ws[1..], vec[1..])
  }

  predicate ImpossibleTravel(cfg: Config, p: Profile, e: Event, now: real) {
    && cfg.impossibleTravel
    && p.lastGeo != ""
    && Country(e.geo) != Country(p.lastGeo)
    && now - p.lastGeoTs < IMPOSSIBLE_TRAVEL_SECONDS
  }

  function BaseRisk(ml: Option<Unit>, det: Unit): Unit {
    if ml.None? then det else 0.55 * ml.value + 0.45 * det
  }

  function EventRisk(cfg: Config, s: Snapshot, a: Attempt): Unit {
    var base := BaseRisk(a.ml, Clip(Dot(WEIGHTS, Vector(cfg, s, a)), 0.0, 1.0));
    if ImpossibleTravel(cfg, s.profile, a.event, a.now) then Clip(base + IMPOSSIBLE_TRAVEL_BOOST, 0.0, 1.0) else base
  }

  /* ---- Trust ---- */

  function UpdateTrust(cap: int, b: Budget, risk: real, now: real): Budget {
    if risk > 0.45 then
      b.(trust := ClipInt(b.trust - ((risk - 0.45) * 900.0).Floor, 0, 1000))
    else
      var expired := now - b.start > RECOVERY_WINDOW_SECONDS;
      var recovered := if expired then 0 else b.recovered;
      var allowed := if cap - recovered > 0 then cap - recovered else 0;
      var wanted := ((0.45 - risk) * 60.0).Floor;
      var gain := if wanted <= allowed then wanted else allowed;
      Budget(ClipInt(b.trust + gain, 0, 1000), recovered + gain, if expired then now else b.start)
  }

  /* ---- One assessment ---- */

  function NextWindow(window: seq<real>, risk: real): seq<real> {
    LastN(window + [Round4(risk)], RISK_WINDOW_MAX)
  }

  function NextBaseline(b: Baseline, risk: real): Baseline {
    var d := Drift.Step(b.ewma, b.cusum, risk);
    Baseline(NextWindow(b.window, risk), d.ewma, d.cusum)
  }

  predicate Drifting(cfg: Config, b: Baseline, cold: bool, risk: real, ks: bool) {
    cfg.driftEnabled
    && (Drift.Step(b.ewma, b.cusum, risk).fired || (!cold && Drift.Detect(NextWindow(b.window, risk), ks)))
  }

  /** Secondary review: drift, or a review already open, turns ALLOW into STEP_UP. */
  function Review(v: Verdict, flagged: bool, e: Event): Verdict {
    if flagged && v.decision.Allow? then Verdict(StepUp, DriftReview, Some(CheapestSufficient(e, true))) else v
  }

  /** The drift detectors fire on this event. */
  predicate Drifted(cfg: Config, s: Snapshot, a: Attempt, risk: real) {
    Drifting(cfg, s.baseline, s.profile.eventCount == 0, risk, a.ks)
  }

  function Judge(cfg: Config, s: Snapshot, a: Attempt, trust: int, risk: real): Verdict {
    var v := Review(Decide(trust, risk, a.event), Drifted(cfg, s, a, risk) || s.underReview, a.event);
    if a.ml.None? then Degrade(v, a.event) else v
  }

  /** The assessment of an event whose risk is already known. */
  function Score(cfg: Config, s: Snapshot, a: Attempt, risk: real): Outcome {
    var budget := UpdateTrust(cfg.recoveryCap, s.budget, risk, a.now);
    var v := Judge(cfg, s, a, budget.trust, risk);
    var profile :=
      if v.decision.Allow? then Learn(s.profile, a.event).(lastGeo := a.event.geo, lastGeoTs := a.now) else s.profile;
    var reviewed := s.underReview || (Drifted(cfg, s, a, risk) && Decide(budget.trust, risk, a.event).decision.Allow?);
    Outcome(Snapshot(profile, budget, NextBaseline(s.baseline, risk), Burst(s.burst), s.lastEventTs,
                     reviewed, s.coldPriorUsed || s.profile.eventCount == 0, s.version), v, risk)
  }

  function Assess(cfg: Config, s: Snapshot, a: Attempt): Outcome {
    Score(cfg, s, a, EventRisk(cfg, s, a))
  }

  /** A step-up whose signed outcome has been validated. */
  function ApplyStepUp(s: Snapshot, passed: bool): Snapshot {
    var trust := s.budget.trust;
    if passed then
      s.(budget := s.budget.(trust := if trust + 250 <= 1000 then trust + 250 else 1000),
         baseline := s.baseline.(window := [], cusum := 0.0),
         underReview := false)
    else
      s.(budget := s.budget.(trust := if trust - 400 >= 0 then trust - 400 else 0))
  }

  /* ---- What one call guarantees ---- */

  /** One event costs at most 495 points and returns at most 27, and the worst
      and the best event do exactly that. */
  lemma TrustMoves(cap: int, b: Budget, risk: Unit, now: real)
    requires 0 <= b.trust <= 1000
    ensures var b' := UpdateTrust(cap, b, risk, now);
            0 <= b'.trust <= 1000
            && b.trust - 495 <= b'.trust <= b.trust + 27
            && (risk > 0.45 ==> b'.trust <= b.trust && b'.recovered == b.recovered && b'.start == b.start)
            && (risk <= 0.45 ==> b'.trust >= b.trust)
            && (risk == 1.0 && b.trust >= 495 ==> b'.trust == b.trust - 495)
            && (risk == 0.0 && b.trust <= 973 && cap - b.recovered >= 27 && b.recovered >= 0 ==> b'.trust == b.trust + 27)
  {
  }

  /** The new trust to the point: `k` is the whole part of 900 points per unit of
      risk over 0.45, or of 60 per unit under it, as far as the budget goes. */
  lemma TrustExactly(cap: int, b: Budget, risk: real, now: real, k: int)
    requires 0 <= b.trust <= 1000
    ensures risk > 0.45 && k as real <= 900.0 * (risk - 0.45) < k as real + 1.0 ==>
              UpdateTrust(cap, b, risk, now) == b.(trust := if k <= b.trust then b.trust - k else 0)
    ensures risk <= 0.45 && k as real <= 60.0 * (0.45 - risk) < k as real + 1.0 ==>
              var expired := now > b.start + 3600.0;
              var used := if expired then 0 else b.recovered;
              var gain := if used >= cap then 0 else if k <= cap - used then k else cap - used;
              var b' := UpdateTrust(cap, b, risk, now);
              && b'.trust == (if b.trust + gain <= 1000 then b.trust + gain else 1000)
              && b'.recovered == used + gain
              && b'.start == (if expired then now else b.start)
  {
    assert risk > 0.45 && k as real <= 900.0 * (risk - 0.45) < k as real + 1.0 ==> ((risk - 0.45) * 900.0).Floor == k;
    assert risk <= 0.45 && k as real <= 60.0 * (0.45 - risk) < k as real + 1.0 ==> ((0.45 - risk) * 60.0).Floor == k;
  }

  /** Raising the risk of one event never raises trust. */
  lemma TrustIsMonotone(cap: int, b: Budget, risk: real, risk': real, now: real)
    requires 0 <= b.trust <= 1000 && risk <= risk'
    ensures UpdateTrust(cap, b, risk', now).trust <= UpdateTrust(cap, b, risk, now).trust
  {
    if risk > 0.45 {
      assert ((risk - 0.45) * 900.0).Floor <= ((risk' - 0.45) * 900.0).Floor;
    } else if risk' <= 0.45 {
      assert ((0.45 - risk') * 60.0).Floor <= ((0.45 - risk) * 60.0).Floor;
    } else {
      assert ((risk' - 0.45) * 900.0).Floor >= 0;
      assert ((0.45 - risk) * 60.0).Floor >= 0;
    }
  }

  /* ---- The risk is a weighted mean of unit features ---- */

  function Weight(ws: seq<real>): real {
    if ws == [] then 0.0 else ws[0] + Weight(ws[1..])
  }

  lemma {:induction false} DotBounds(ws: seq<real>, vec: seq<real>)
    requires |ws| == |vec|
    requires forall i :: 0 <= i < |ws| ==> ws[i] >= 0.0 && 0.0 <= vec[i] <= 1.0
    ensures 0.0 <= Dot(ws, vec) <= Weight(ws)
  {
    if ws != [] {
      var w, x, ws', vec' := ws[0], vec[0], ws[1..], vec[1..];
      assert forall i :: 0 <= i < |ws'| ==> ws'[i] == ws[i + 1] && vec'[i] == vec[i + 1];
      DotBounds(ws', vec');
      assert 0.0 <= w * x <= w by {
        ScaledByUnit(w, x);
      }
      assert Dot(ws, vec) == w * x + Dot(ws', vec');
      assert Weight(ws) == w + Weight(ws');
    }
  }

  lemma ScaledByUnit(w: real, x: real)
    requires w >= 0.0 && 0.0 <= x <= 1.0
    ensures 0.0 <= w * x <= w
  {
    assert w * (1.0 - x) >= 0.0;
  }

  lemma WeightsAddUp()
    ensures Weight(WEIGHTS) == 1.0
  {
    var ws := WEIGHTS;
    assert Weight(ws) == ws[0] + ws[1] + ws[2] + Weight(ws[3..]);
    assert Weight(ws[3..]) == ws[3] + ws[4] + ws[5] + Weight(ws[6..]);
    assert Weight(ws[6..]) == ws[6] + ws[7] + ws[8] + Weight(ws[9..]);
    assert Weight(ws[9..]) == ws[9] + ws[10] + Weight(ws[11..]);
  }

  /** The weighted sum from feature `i` on. */
  function Tail(v: seq<real>, i: nat): real
    requires |v| == 11 && i <= 11
  {
    Dot(WEIGHTS[i..], v[i..])
  }

  lemma DotByOne(ws: seq<real>, v: seq<real>, i: nat, w: real)
    requires i < |ws| == |v| && ws[i] == w
    ensures Dot(ws[i..], v[i..]) == w * v[i] + Dot(ws[i + 1..], v[i + 1..])
  {
    assert ws[i..][1..] == ws[i + 1..] && v[i..][1..] == v[i + 1..];
  }

  lemma TailByOne(v: seq<real>, i: nat, w: real)
    requires |v| == 11 && i < 11 && WEIGHTS[i] == w
    ensures Tail(v, i) == w * v[i] + Tail(v, i + 1)
  {
    hide Dot;
    DotByOne(WEIGHTS, v, i, w);
  }

  lemma TailEnds(v: seq<real>)
    requires |v| == 11
    ensures Tail(v, 0) == Dot(WEIGHTS, v) && Tail(v, 11) == 0.0
  {
    assert WEIGHTS[0..] == WEIGHTS && v[0..] == v;
  }

  lemma WeightedSum(v: seq<real>)
    requires |v| == 11
    ensures Dot(WEIGHTS, v) == 0.14 * v[0] + 0.10 * v[1] + 0.05 * v[2] + 0.11 * v[3] + 0.15 * v[4] + 0.07 * v[5]
                               + 0.04 * v[6] + 0.08 * v[7] + 0.12 * v[8] + 0.04 * v[9] + 0.10 * v[10]
  {
    hide Tail, Dot;
    TailEnds(v);
    TailByOne(v, 0, 0.14);
    TailByOne(v, 1, 0.10);
    TailByOne(v, 2, 0.05);
    TailByOne(v, 3, 0.11);
    TailByOne(v, 4, 0.15);
    TailByOne(v, 5, 0.07);
    TailByOne(v, 6, 0.04);
    TailByOne(v, 7, 0.08);
    TailByOne(v, 8, 0.12);
    TailByOne(v, 9, 0.04);
    TailByOne(v, 10, 0.10);
  }

  /** For an event whose amount is in scale every feature is a unit value, the
      weights are a partition of one, and the clip on the risk never bites. */
  lemma RiskIsAWeightedMean(cfg: Config, s: Snapshot, a: Attempt)
    requires s.burst >= 0.0 && a.sharing >= 1
    requires AmountInScale(s.profile.amounts, a.event.amount)
    ensures forall i :: 0 <= i < 11 ==> 0.0 <= Vector(cfg, s, a)[i] <= 1.0
    ensures 0.0 <= Dot(WEIGHTS, Vector(cfg, s, a)) <= 1.0
  {
    hide Features, Dot, Weight, AmountInScale;
    FeaturesAreUnit(s.profile, Burst(s.burst), a.event, a.sharing, a.anomaly, a.deviation);
    WeightsAddUp();
    DotBounds(WEIGHTS, Vector(cfg, s, a));
  }

  /** The cold-start prior only ever lowers the risk. */
  lemma PriorOnlySoftens(cfg: Config, s: Snapshot, a: Attempt)
    ensures EventRisk(cfg, s, a) <= EventRisk(cfg.(coldStartPrior := false), s, a)
  {
    var off := cfg.(coldStartPrior := false);
    var v, v' := Vector(cfg, s, a), Vector(off, s, a);
    WeightedSum(v);
    WeightedSum(v');
    assert v[2..] == v'[2..];
    assert forall i :: 2 <= i < 11 ==> v[i] == v[2..][i - 2] && v'[i] == v'[2..][i - 2];
    hide Dot, Vector;
  }
}
