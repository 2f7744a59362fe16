/** What each signal of an event is worth: how the weighted sum moves when one of
    them changes and everything else stays. */
module Signals {
  import opened Schemas
  import opened Arithmetic
  import opened Identity
  import opened Engine
  import opened Runs

  /** The deterministic risk before it is clipped. */
  function Weighed(cfg: Config, s: Snapshot, a: Attempt): real { Dot(WEIGHTS, Vector(cfg, s, a)) }

  lemma Difference(cfg: Config, s: Snapshot, a: Attempt, s': Snapshot, a': Attempt)
    ensures var v, v' := Vector(cfg, s, a), Vector(cfg, s', a');
            && |v| == |v'| == 11
            && Weighed(cfg, s', a') - Weighed(cfg, s, a)
               == 0.14 * (v'[0] - v[0]) + 0.10 * (v'[1] - v[1]) + 0.05 * (v'[2] - v[2]) + 0.11 * (v'[3] - v[3])
                  + 0.15 * (v'[4] - v[4]) + 0.07 * (v'[5] - v[5]) + 0.04 * (v'[6] - v[6]) + 0.08 * (v'[7] - v[7])
                  + 0.12 * (v'[8] - v[8]) + 0.04 * (v'[9] - v[9]) + 0.10 * (v'[10] - v[10])
  {
    var v, v' := Vector(cfg, s, a), Vector(cfg, s', a');
    WeightedSum(v);
    WeightedSum(v');
    hide Dot, Vector;
  }

  /* ---- Once an identity is known ---- */

  lemma UnknownDeviceCosts(cfg: Config, s: Snapshot, a: Attempt, known: string, unknown: string)
    requires s.profile.eventCount > 0 && known in s.profile.devices && unknown !in s.profile.devices
    ensures Weighed(cfg, s, a.(event := a.event.(deviceId := unknown)))
            == Weighed(cfg, s, a.(event := a.event.(deviceId := known))) + 0.14
  {
    Difference(cfg, s, a.(event := a.event.(deviceId := known)), s, a.(event := a.event.(deviceId := unknown)));
    hide Dot, HourDeviation, AmountScore, Weighed;
  }

  lemma UnknownGeoCosts(cfg: Config, s: Snapshot, a: Attempt, known: string, unknown: string)
    requires s.profile.eventCount > 0 && known in s.profile.geos && unknown !in s.profile.geos
    ensures Weighed(cfg, s, a.(event := a.event.(geo := unknown)))
            == Weighed(cfg, s, a.(event := a.event.(geo := known))) + 0.10
  {
    Difference(cfg, s, a.(event := a.event.(geo := known)), s, a.(event := a.event.(geo := unknown)));
    hide Dot, HourDeviation, AmountScore, Weighed;
  }

  lemma NewBeneficiaryCosts(cfg: Config, s: Snapshot, a: Attempt)
    requires s.profile.eventCount > 0
    ensures Weighed(cfg, s, a.(event := a.event.(isNewBeneficiary := true)))
            == Weighed(cfg, s, a.(event := a.event.(isNewBeneficiary := false))) + 0.08
  {
    Difference(cfg, s, a.(event := a.event.(isNewBeneficiary := false)), s, a.(event := a.event.(isNewBeneficiary := true)));
    hide Dot, HourDeviation, AmountScore, Weighed;
  }

  lemma RecoveryChangeCosts(cfg: Config, s: Snapshot, a: Attempt)
    requires s.profile.eventCount > 0
    ensures Weighed(cfg, s, a.(event := a.event.(recoveryContactChanged := true)))
            == Weighed(cfg, s, a.(event := a.event.(recoveryContactChanged := false))) + 0.12
  {
    Difference(cfg, s, a.(event := a.event.(recoveryContactChanged := false)),
               s, a.(event := a.event.(recoveryContactChanged := true)));
    hide Dot, HourDeviation, AmountScore, Weighed;
  }

  /** Every kind of event against a login, and every channel against a branch. */
  lemma EventTypeCosts(cfg: Config, s: Snapshot, a: Attempt, t: EventType)
    requires s.profile.eventCount > 0
    ensures Weighed(cfg, s, a.(event := a.event.(eventType := t)))
            == Weighed(cfg, s, a.(event := a.event.(eventType := Login)))
               + match t
                 case Login => 0.0
                 case Transaction => 0.014
                 case ProfileChange => 0.021
                 case Onboarding => 0.028
                 case AccountRecovery => 0.042
                 case PrivilegedAccess => 0.049
  {
    Difference(cfg, s, a.(event := a.event.(eventType := Login)), s, a.(event := a.event.(eventType := t)));
    hide Dot, HourDeviation, AmountScore, Weighed;
  }

  lemma ChannelCosts(cfg: Config, s: Snapshot, a: Attempt, c: Channel)
    requires s.profile.eventCount > 0
    ensures Weighed(cfg, s, a.(event := a.event.(channel := c)))
            == Weighed(cfg, s, a.(event := a.event.(channel := Branch)))
               + match c
                 case Branch => 0.0
                 case MobileApp => 0.008
                 case InternetBanking => 0.012
                 case Api => 0.016
                 case AdminConsole => 0.024
  {
    Difference(cfg, s, a.(event := a.event.(channel := Branch)), s, a.(event := a.event.(channel := c)));
    hide Dot, HourDeviation, AmountScore, Weighed;
  }

  /** A device of one identity costs nothing, each further identity a thirtieth
      up to the fourth. */
  lemma SharingCosts(cfg: Config, s: Snapshot, a: Attempt, n: nat)
    requires n >= 1
    ensures 30.0 * (Weighed(cfg, s, a.(sharing := n)) - Weighed(cfg, s, a.(sharing := 1)))
            == if n >= 4 then 3.0 else (n - 1) as real
  {
    Difference(cfg, s, a.(sharing := 1), s, a.(sharing := n));
    hide Dot, HourDeviation, AmountScore, Weighed;
  }

  /** Behaviour that could not be attested counts as half an anomaly. */
  lemma AnomalyCosts(cfg: Config, s: Snapshot, a: Attempt, x: Unit)
    ensures Weighed(cfg, s, a.(anomaly := Some(x))) == Weighed(cfg, s, a.(anomaly := None)) + 0.15 * (x - 0.5)
  {
    Difference(cfg, s, a.(anomaly := None), s, a.(anomaly := Some(x)));
    hide Dot, HourDeviation, AmountScore, Weighed;
  }

  /* ---- Hours ---- */

  /** The distance is the fewest hours from one to the other, either way round
      the clock. */
  lemma HourDistanceExactly(a: Hour, b: Hour, k: nat)
    ensures HourDistance(a, b) == k <==> k <= 12 && ((a + k) % 24 == b || (b + k) % 24 == a)
  {
  }

  /** `d` is the least distance to one of the last two hundred hours. */
  ghost predicate NearestRecent(hours: seq<Hour>, hour: Hour, d: nat) {
    var from := if |hours| > 200 then |hours| - 200 else 0;
    && (forall i :: from <= i < |hours| ==> HourDistance(hour, hours[i]) >= d)
    && (exists i :: from <= i < |hours| && HourDistance(hour, hours[i]) == d)
  }

  lemma HourDeviationExactly(hours: seq<Hour>, hour: Hour, d: nat)
    ensures hours == [] ==> HourDeviation(hours, hour) == 0.5
    ensures NearestRecent(hours, hour, d) ==> 12.0 * HourDeviation(hours, hour) == d as real
  {
    if hours != [] {
      var recent, from := LastN(hours, 200), if |hours| > 200 then |hours| - 200 else 0;
      NearestHourIsNearest(recent, hour);
      assert forall i :: 0 <= i < |recent| ==> recent[i] == hours[from + i];
      assert forall i :: from <= i < |hours| ==> hours[i] == recent[i - from];
      hide NearestHour, HourDistance;
    }
  }

  /** Each hour away from the nearest recent one costs a 240th. */
  lemma OddHourCosts(cfg: Config, s: Snapshot, a: Attempt, odd: Hour, usual: Hour, d: nat)
    requires NearestRecent(s.profile.hours, odd, d) && NearestRecent(s.profile.hours, usual, 0)
    ensures 240.0 * (Weighed(cfg, s, a.(event := a.event.(hourOfDay := odd)))
                     - Weighed(cfg, s, a.(event := a.event.(hourOfDay := usual)))) == d as real
  {
    HourDeviationExactly(s.profile.hours, odd, d);
    HourDeviationExactly(s.profile.hours, usual, 0);
    Difference(cfg, s, a.(event := a.event.(hourOfDay := usual)), s, a.(event := a.event.(hourOfDay := odd)));
    HourOnlyMovesItself(cfg, s, a, usual, odd);
    hide Dot, HourDeviation, AmountScore, Weighed, NearestRecent, Vector;
  }

  lemma HourOnlyMovesItself(cfg: Config, s: Snapshot, a: Attempt, h: Hour, h': Hour)
    ensures var v := Vector(cfg, s, a.(event := a.event.(hourOfDay := h)));
            var v' := Vector(cfg, s, a.(event := a.event.(hourOfDay := h')));
            |v| == 11 && v[2] == HourDeviation(s.profile.hours, h)
            && v' == v[2 := HourDeviation(s.profile.hours, h')]
  {
    hide HourDeviation, AmountScore;
  }

  /* ---- Amounts ---- */

  /** On a history of five or more an amount counts by its distance from the mean
      of the last two hundred, in full from three spreads on; a spread under one
      counts as one. */
  lemma LongHistoryExactly(amounts: seq<real>, x: real, deviation: real, mean: real)
    requires |amounts| >= 5
    requires var n := if |amounts| > 200 then 200 else |amounts|;
             mean * n as real == Sum(amounts[|amounts| - n..])
    ensures var score := AmountScore(amounts, Some(x), deviation);
            var reach := if deviation >= 1.0 then 3.0 * deviation else 3.0;
            && (score == 1.0 <==> x - mean >= reach || mean - x >= reach)
            && (score < 1.0 ==> score * reach == if x >= mean then x - mean else mean - x)
            && score <= 1.0
  {
    var hist, n := LastN(amounts, 200), if |amounts| > 200 then 200 else |amounts|;
    assert hist == amounts[|amounts| - n..];
    MeanIsMean(hist, mean);
    var reach := if deviation >= 1.0 then 3.0 * deviation else 3.0;
    Quotient(if x >= mean then x - mean else mean - x, reach);
    hide Mean;
  }

  lemma MeanIsMean(xs: seq<real>, mean: real)
    requires xs != [] && mean * |xs| as real == Sum(xs)
    ensures Mean(xs) == mean
  {
    assert Mean(xs) * |xs| as real == Sum(xs);
    assert (Mean(xs) - mean) * |xs| as real == 0.0;
  }

  lemma Quotient(x: real, reach: real)
    requires reach > 0.0
    ensures x / reach * reach == x && (x / reach >= 1.0 <==> x >= reach)
  {
    assert x / reach * reach == x;
    assert x >= reach ==> (x / reach - 1.0) * reach >= 0.0;
    assert x < reach ==> (x / reach - 1.0) * reach < 0.0;
  }

  /** On a shorter one by its absolute size, in full from 100000 on. */
  lemma ShortHistoryExactly(amounts: seq<real>, x: real, deviation: real)
    requires |amounts| < 5
    ensures var score := AmountScore(amounts, Some(x), deviation);
            if x >= 100000.0 then score == 1.0 else 100000.0 * score == x
    ensures AmountScore(amounts, None, deviation) == 0.0
  {
  }

  /* ---- Where the scale starts ---- */

  /** The least remarkable login of a known identity weighs 0.018 and its share of
      velocity. */
  lemma PlainLoginWeighs(cfg: Config, s: Snapshot, a: Attempt)
    requires s.profile.eventCount > 0 && 0.0 <= s.burst < 2.0
    requires a.event.deviceId in s.profile.devices && a.event.geo in s.profile.geos
    requires NearestRecent(s.profile.hours, a.event.hourOfDay, 0)
    requires a.event.eventType.Login? && a.event.channel.Branch? && a.event.amount.None?
    requires !a.event.isNewBeneficiary && !a.event.recoveryContactChanged
    requires a.anomaly == Some(0.0) && a.sharing == 1
    ensures Weighed(cfg, s, a) == 0.018 + 0.04 * (s.burst / 2.0 + 1.0) / 15.0
  {
    HourDeviationExactly(s.profile.hours, a.event.hourOfDay, 0);
    WeightedSum(Vector(cfg, s, a));
    hide Dot, HourDeviation, NearestRecent;
  }

  /** On first contact nothing is familiar and nothing is strange: whatever the
      device, the place and the hour, they weigh 0.131 together. */
  lemma FirstContactWeighs(cfg: Config, s: Snapshot, a: Attempt)
    requires s.profile.eventCount == 0 && s.profile.hours == [] && 0.0 <= s.burst < 2.0 && !cfg.coldStartPrior
    requires a.event.eventType.Login? && a.event.channel.Branch? && a.event.amount.None?
    requires !a.event.isNewBeneficiary && !a.event.recoveryContactChanged
    requires a.anomaly == Some(0.0) && a.sharing == 1
    ensures Weighed(cfg, s, a) == 0.131 + 0.018 + 0.04 * (s.burst / 2.0 + 1.0) / 15.0
  {
    WeightedSum(Vector(cfg, s, a));
    hide Dot;
  }

  /* ---- From the sum to the risk ---- */

  /** A failed model leaves the weighted sum, cut to [0, 1]; a working one has
      eleven twentieths of the say. The travel boost adds a half, up to 1. */
  lemma RiskExactly(cfg: Config, s: Snapshot, a: Attempt)
    ensures var w := Weighed(cfg, s, a);
            var det := if w < 0.0 then 0.0 else if w > 1.0 then 1.0 else w;
            var risk := EventRisk(cfg, s, a);
            var boost := ImpossibleTravel(cfg, s.profile, a.event, a.now);
            && (a.ml.None? && !boost ==> risk == det)
            && (a.ml.Some? && !boost ==> 20.0 * risk == 11.0 * a.ml.value + 9.0 * det)
            && (a.ml.None? && boost ==> risk == if det >= 0.5 then 1.0 else det + 0.5)
            && (a.ml.Some? && boost ==>
                  var base := 11.0 * a.ml.value + 9.0 * det;
                  20.0 * risk == if base >= 10.0 then 20.0 else base + 10.0)
  {
    hide Dot, Vector, ImpossibleTravel;
  }

  /* ---- On runs ---- */

  lemma {:induction false} TrustedMembers(cfg: Config, ops: seq<Op>, i: nat, e: Event)
    requires i <= |ops|
    ensures e in Trusted(cfg, ops, i) <==> exists k :: 0 <= k < i && Decided(cfg, ops, k, Allow) && ops[k].attempt.event == e
  {
    hide Assess, StateAt;
    if i > 0 {
      TrustedMembers(cfg, ops, i - 1, e);
    }
  }

  /** Some committed ALLOW before `i` came from this device, or from this place. */
  ghost predicate SeenDevice(cfg: Config, ops: seq<Op>, i: nat, device: string)
    requires i <= |ops|
  {
    exists k :: 0 <= k < i && Decided(cfg, ops, k, Allow) && ops[k].attempt.event.deviceId == device
  }

  ghost predicate SeenGeo(cfg: Config, ops: seq<Op>, i: nat, geo: string)
    requires i <= |ops|
  {
    exists k :: 0 <= k < i && Decided(cfg, ops, k, Allow) && ops[k].attempt.event.geo == geo
  }

  lemma FamiliarExactly(cfg: Config, ops: seq<Op>, i: nat, device: string, geo: string)
    requires i <= |ops|
    ensures device in StateAt(cfg, ops, i).profile.devices <==> SeenDevice(cfg, ops, i, device)
    ensures geo in StateAt(cfg, ops, i).profile.geos <==> SeenGeo(cfg, ops, i, geo)
    ensures StateAt(cfg, ops, i).profile.eventCount > 0 <==> exists k :: 0 <= k < i && Decided(cfg, ops, k, Allow)
  {
    ProfileIsTrustedHistory(cfg, ops, i);
    var p, es := StateAt(cfg, ops, i).profile, Trusted(cfg, ops, i);
    hide StateAt, Assess, Trusted;
    if p.eventCount > 0 {
      TrustedMembers(cfg, ops, i, es[0]);
    }
    if device in p.devices {
      var e :| e in es && e.deviceId == device;
      TrustedMembers(cfg, ops, i, e);
    }
    if geo in p.geos {
      var e :| e in es && e.geo == geo;
      TrustedMembers(cfg, ops, i, e);
    }
    forall k | 0 <= k < i && Decided(cfg, ops, k, Allow)
      ensures ops[k].attempt.event in es && ops[k].attempt.event.deviceId in p.devices && ops[k].attempt.event.geo in p.geos
    {
      TrustedMembers(cfg, ops, i, ops[k].attempt.event);
    }
  }

  /** In any run with an ALLOW behind it, an event weighs 0.14 more from a device
      that no committed ALLOW came from than from one that some did, and 0.10 more
      from such a place. */
  lemma NoveltyCosts(cfg: Config, ops: seq<Op>, i: nat, a: Attempt, known: string, unknown: string)
    requires i <= |ops|
    ensures SeenDevice(cfg, ops, i, known) && !SeenDevice(cfg, ops, i, unknown) ==>
              Weighed(cfg, StateAt(cfg, ops, i), a.(event := a.event.(deviceId := unknown)))
              == Weighed(cfg, StateAt(cfg, ops, i), a.(event := a.event.(deviceId := known))) + 0.14
    ensures SeenGeo(cfg, ops, i, known) && !SeenGeo(cfg, ops, i, unknown) ==>
              Weighed(cfg, StateAt(cfg, ops, i), a.(event := a.event.(geo := unknown)))
              == Weighed(cfg, StateAt(cfg, ops, i), a.(event := a.event.(geo := known))) + 0.10
  {
    FamiliarExactly(cfg, ops, i, known, known);
    FamiliarExactly(cfg, ops, i, unknown, unknown);
    var s := StateAt(cfg, ops, i);
    hide StateAt, Decided, Weighed;
    if SeenDevice(cfg, ops, i, known) && !SeenDevice(cfg, ops, i, unknown) {
      UnknownDeviceCosts(cfg, s, a, known, unknown);
    }
    if SeenGeo(cfg, ops, i, known) && !SeenGeo(cfg, ops, i, unknown) {
      UnknownGeoCosts(cfg, s, a, known, unknown);
    }
  }

  /** The cold-start prior takes exactly 0.053 off the first assessment of an
      identity, and of that only where nothing about it is sensitive. */
  lemma DiscountExactly(cfg: Config, ops: seq<Op>, i: nat, a: Attempt)
    requires i <= |ops| && cfg.coldStartPrior
    ensures var s, e := StateAt(cfg, ops, i), a.event;
            var sensitive :=
              e.eventType in {ProfileChange, Onboarding, AccountRecovery, PrivilegedAccess}
              || e.channel in {Api, AdminConsole}
              || e.isNewBeneficiary || e.recoveryContactChanged || (e.amount.Some? && e.amount.value >= 25000.0);
            Weighed(cfg.(coldStartPrior := false), s, a) - Weighed(cfg, s, a)
            == if (exists k :: 0 <= k < i && ops[k].Assessed?) || sensitive then 0.0 else 0.053
  {
    PriorIsSpentByFirstAssessment(cfg, ops, i);
    var s := StateAt(cfg, ops, i);
    hide StateAt;
    var off := cfg.(coldStartPrior := false);
    var v, v' := Vector(cfg, s, a), Vector(off, s, a);
    assert v' == if Damped(cfg, s, a.event) then v[0 := 0.4][1 := 0.5] else v;
    assert Damped(cfg, s, a.event) ==> v[0] == 0.2 && v[1] == 0.25;
    WeightedSum(v);
    WeightedSum(v');
    hide Dot, Vector;
  }

  function Halves(n: nat): real { if n == 0 then 1.0 else 0.5 * Halves(n - 1) }

  function Assessments(ops: seq<Op>, i: nat): nat
    requires i <= |ops|
  {
    if i == 0 then 0 else Assessments(ops, i - 1) + (if ops[i - 1].Assessed? then 1 else 0)
  }

  /** The velocity counter to the point, after any number of assessments. */
  lemma {:induction false} BurstExactly(cfg: Config, ops: seq<Op>, i: nat)
    requires i <= |ops|
    ensures StateAt(cfg, ops, i).burst == 2.0 - 2.0 * Halves(Assessments(ops, i))
  {
    hide Apply;
    if i > 0 {
      BurstExactly(cfg, ops, i - 1);
      BurstStep(cfg, StateAt(cfg, ops, i - 1), ops[i - 1]);
    }
  }

  lemma BurstStep(cfg: Config, s: Snapshot, op: Op)
    ensures Apply(cfg, s, op).burst == if op.Assessed? then s.burst / 2.0 + 1.0 else s.burst
    ensures Apply(cfg, s, op).lastEventTs == s.lastEventTs
  {
    hide EventRisk, UpdateTrust, NextBaseline, Judge, Drifted;
  }

  /** Velocity costs a 375th of the counter it moves to. */
  lemma VelocityCosts(cfg: Config, s: Snapshot, a: Attempt, burst: real)
    requires 0.0 <= s.burst < 2.0 && 0.0 <= burst < 2.0
    ensures 750.0 * (Weighed(cfg, s.(burst := burst), a) - Weighed(cfg, s, a)) == burst - s.burst
  {
    Difference(cfg, s, a, s.(burst := burst), a);
    hide Dot, HourDeviation, AmountScore, Weighed;
  }
}
