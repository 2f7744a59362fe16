/** One identity's state as a value, and the features read from it. */
module Identity {
  import opened Schemas
  import opened Arithmetic

  const DEFAULT_TRUST: int := 700

  /** What only a trusted event may change. */
  datatype Profile = Profile(
    devices: set<string>,
    geos: set<string>,
    hours: seq<Hour>,
    amounts: seq<real>,
    eventCount: nat,
    lastGeo: string,
    lastGeoTs: real)

  /** The trust score and the passive recovery budget it draws on. */
  datatype Budget = Budget(trust: int, recovered: int, start: real)

  /** The memory of the drift detectors. */
  datatype Baseline = Baseline(window: seq<real>, ewma: real, cusum: real)

  /** Every field of the per-identity record, frozen. */
  datatype Snapshot = Snapshot(
    profile: Profile,
    budget: Budget,
    baseline: Baseline,
    burst: real,
    lastEventTs: real,
    underReview: bool,
    coldPriorUsed: bool,
    version: nat)

  const UNSEEN: Snapshot :=
    Snapshot(Profile({}, {}, [], [], 0, "", 0.0), Budget(DEFAULT_TRUST, 0, 0.0), Baseline([], 0.0, 0.0),
             0.0, 0.0, false, false, 0)

  /** Distance between two hours around the clock. */
  function HourDistance(a: int, b: int): int {
    var d := if a < b then b - a else a - b;
    if d <= 24 - d then d else 24 - d
  }

  function NearestHour(hours: seq<Hour>, hour: int): int
    requires hours != []
  {
    var d := HourDistance(hour, hours[0]);
    if |hours| == 1 then d
    else
      var rest := NearestHour(hours[1..], hour);
      if d <= rest then d else rest
  }

  function HourDeviation(hours: seq<Hour>, hour: int): real {
    if hours == [] then 0.5
    else Min(NearestHour(LastN(hours, 200), hour) as real / 12.0, 1.0)
  }

  /** `deviation` is the square root of the history's variance. */
  function AmountScore(amounts: seq<real>, amount: Option<real>, deviation: real): real {
    if amount.None? then 0.0
    else
      var hist := LastN(amounts, 200);
      if |hist| < 5 then Min(amount.value / 100000.0, 1.0)
      else Min(Abs(amount.value - Mean(hist)) / (3.0 * Max(deviation, 1.0)), 1.0)
  }

  function Criticality(t: EventType): real {
    match t
    case Login => 0.2
    case Transaction => 0.4
    case ProfileChange => 0.5
    case Onboarding => 0.6
    case AccountRecovery => 0.8
    case PrivilegedAccess => 0.9
  }

  function ChannelRisk(c: Channel): real {
    match c
    case Branch => 0.1
    case MobileApp => 0.3
    case InternetBanking => 0.4
    case Api => 0.5
    case AdminConsole => 0.7
  }

  function Burst(burst: real): real { burst * 0.5 + 1.0 }

  /** The eleven features of an event, given the velocity counter, how many
      identities share its device and the behavioural anomaly, if attested. */
  function Features(p: Profile, burst: real, e: Event, sharing: nat, anomaly: Option<Unit>, deviation: real): seq<real> {
    var cold := p.eventCount == 0;
    [ if cold then 0.4 else if e.deviceId in p.devices then 0.0 else 1.0,
      if cold then 0.5 else if e.geo in p.geos then 0.0 else 1.0,
      HourDeviation(p.hours, e.hourOfDay),
      AmountScore(p.amounts, e.amount, deviation),
      if anomaly.None? then 0.5 else anomaly.value,
      Criticality(e.eventType),
      ChannelRisk(e.channel),
      if e.isNewBeneficiary then 1.0 else 0.0,
      if e.recoveryContactChanged then 1.0 else 0.0,
      Min(burst / 15.0, 1.0),
      Min((sharing - 1) as real / 3.0, 1.0) ]
  }

  /** Folding a trusted event into the profile. */
  function Learn(p: Profile, e: Event): Profile {
    p.(devices := p.devices + {e.deviceId},
       geos := p.geos + {e.geo},
       hours := p.hours + [e.hourOfDay],
       amounts := if e.amount.Some? then p.amounts + [e.amount.value] else p.amounts,
       eventCount := p.eventCount + 1)
  }

  lemma {:induction false} NearestHourIsNearest(hours: seq<Hour>, hour: Hour)
    requires hours != []
    ensures 0 <= NearestHour(hours, hour) <= 12
    ensures forall i :: 0 <= i < |hours| ==> NearestHour(hours, hour) <= HourDistance(hour, hours[i])
    ensures exists i :: 0 <= i < |hours| && NearestHour(hours, hour) == HourDistance(hour, hours[i])
  {
    if |hours| == 1 {
      assert NearestHour(hours, hour) == HourDistance(hour, hours[0]);
    } else {
      NearestHourIsNearest(hours[1..], hour);
      assert forall i :: 0 < i < |hours| ==> hours[i] == hours[1..][i - 1];
      var k :| 0 <= k < |hours[1..]| && NearestHour(hours[1..], hour) == HourDistance(hour, hours[1..][k]);
      assert hours[k + 1] == hours[1..][k];
      assert NearestHour(hours, hour) == HourDistance(hour, hours[0])
             || NearestHour(hours, hour) == HourDistance(hour, hours[k + 1]);
    }
  }

  lemma HourDeviationIsUnit(hours: seq<Hour>, hour: Hour)
    ensures 0.0 <= HourDeviation(hours, hour) <= 1.0
  {
    if hours != [] {
      NearestHourIsNearest(LastN(hours, 200), hour);
    }
  }

  /** A short history scales an amount by its absolute size, and nothing in the
      schema keeps that from being negative. */
  predicate AmountInScale(amounts: seq<real>, amount: Option<real>) {
    amount.Some? && |amounts| < 5 ==> amount.value >= 0.0
  }

  lemma AmountScoreIsUnit(amounts: seq<real>, amount: Option<real>, deviation: real)
    ensures 0.0 <= AmountScore(amounts, amount, deviation) <= 1.0 <==> AmountInScale(amounts, amount)
  {
    if amount.Some? {
      var hist := LastN(amounts, 200);
      if |hist| >= 5 {
        DivideMonotone(0.0, Abs(amount.value - Mean(hist)), 3.0 * Max(deviation, 1.0));
      }
    }
  }

  /** Every feature is a unit value exactly when the amount is in scale. */
  lemma FeaturesAreUnit(p: Profile, burst: real, e: Event, sharing: nat, anomaly: Option<Unit>, deviation: real)
    requires burst >= 0.0 && sharing >= 1
    ensures var fs := Features(p, burst, e, sharing, anomaly, deviation);
            && |fs| == 11
            && ((forall i :: 0 <= i < 11 ==> 0.0 <= fs[i] <= 1.0) <==> AmountInScale(p.amounts, e.amount))
  {
    HourDeviationIsUnit(p.hours, e.hourOfDay);
    AmountScoreIsUnit(p.amounts, e.amount, deviation);
    var fs := Features(p, burst, e, sharing, anomaly, deviation);
    assert fs[3] == AmountScore(p.amounts, e.amount, deviation);
    hide HourDeviation, AmountScore;
    assert forall i :: 0 <= i < 11 && i != 3 ==> 0.0 <= fs[i] <= 1.0;
  }
}
