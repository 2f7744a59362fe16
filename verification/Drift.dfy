/** Drift detection on one identity's risk: the sliding-window mean shift and
    the CUSUM over the excess above a slow EWMA baseline. */
module Drift {
  import opened Arithmetic

  const WINDOW: nat := 12
  const MIN_SAMPLES: nat := 8
  const MIN_SHIFT: real := 0.08
  const EWMA_ALPHA: real := 0.03
  const CUSUM_SLACK: real := 0.015
  const CUSUM_THRESHOLD: real := 0.4

  datatype Reading = Reading(ewma: real, cusum: real, fired: bool)

  function Step(ewma: real, cusum: real, risk: real): Reading {
    var baseline := if ewma > 0.0 then ewma else risk;
    var cusum' := Max(0.0, cusum + (risk - baseline - CUSUM_SLACK));
    var ewma' := if ewma == 0.0 then risk else ewma + EWMA_ALPHA * (risk - ewma);
    Reading(ewma', cusum', cusum' > CUSUM_THRESHOLD)
  }

  /** Mean of the late half minus mean of the early half of the recent window. */
  function MeanShift(window: seq<real>): real
    requires |window| >= MIN_SAMPLES
  {
    var recent := LastN(window, WINDOW);
    var half := |recent| / 2;
    Mean(recent[half..]) - Mean(recent[..half])
  }

  /** `ks` is the verdict of the two-sample test, or true where it is missing. */
  predicate Detect(window: seq<real>, ks: bool) {
    |window| >= MIN_SAMPLES && MeanShift(window) >= MIN_SHIFT && ks
  }

  /* ---- Unbounded runs of the detector ---- */

  /** EWMA before event `i`. */
  function Ewma(ewma0: real, risks: seq<real>, i: nat): real
    requires i <= |risks|
  {
    if i == 0 then ewma0
    else Step(Ewma(ewma0, risks, i - 1), 0.0, risks[i - 1]).ewma
  }

  /** CUSUM before event `i`. */
  function Cusum(ewma0: real, cusum0: real, risks: seq<real>, i: nat): real
    requires i <= |risks|
  {
    if i == 0 then cusum0
    else Step(Ewma(ewma0, risks, i - 1), Cusum(ewma0, cusum0, risks, i - 1), risks[i - 1]).cusum
  }

  /** What event `i` adds before the CUSUM is cut at zero. */
  function Excess(ewma0: real, risks: seq<real>, i: nat): real
    requires i < |risks|
  {
    var ewma := Ewma(ewma0, risks, i);
    risks[i] - (if ewma > 0.0 then ewma else risks[i]) - CUSUM_SLACK
  }

  /** Total excess of events `j .. i`. */
  function ExcessSum(ewma0: real, risks: seq<real>, j: nat, i: nat): real
    requires j <= i <= |risks|
    decreases i
  {
    if i == j then 0.0
    else ExcessSum(ewma0, risks, j, i - 1) + Excess(ewma0, risks, i - 1)
  }

  lemma {:induction false} CusumAboveSuffix(ewma0: real, cusum0: real, risks: seq<real>, j: nat, n: nat)
    requires j <= n <= |risks| && cusum0 >= 0.0
    ensures Cusum(ewma0, cusum0, risks, n) >= 0.0
    ensures Cusum(ewma0, cusum0, risks, n) >= ExcessSum(ewma0, risks, j, n)
    ensures j == 0 ==> Cusum(ewma0, cusum0, risks, n) >= cusum0 + ExcessSum(ewma0, risks, 0, n)
    decreases n
  {
    if n > j {
      CusumAboveSuffix(ewma0, cusum0, risks, j, n - 1);
    } else if n > 0 {
      CusumAboveSuffix(ewma0, cusum0, risks, n - 1, n - 1);
    }
  }

  /** Some such accumulation is attained: from event `j`, or from the start. */
  lemma {:induction false} CusumIsSomeSuffix(ewma0: real, cusum0: real, risks: seq<real>, n: nat) returns (j: nat, initial: bool)
    requires n <= |risks| && cusum0 >= 0.0
    ensures j <= n
    ensures Cusum(ewma0, cusum0, risks, n)
            == if initial then cusum0 + ExcessSum(ewma0, risks, 0, n) else ExcessSum(ewma0, risks, j, n)
  {
    if n == 0 {
      j, initial := 0, true;
    } else {
      j, initial := CusumIsSomeSuffix(ewma0, cusum0, risks, n - 1);
      if Cusum(ewma0, cusum0, risks, n - 1) + Excess(ewma0, risks, n - 1) <= 0.0 {
        j, initial := n, false;
      }
    }
  }

  /** The CUSUM is the largest accumulation of excess over any run of
      consecutive events ending now, the empty run included, or over the whole
      history on top of the initial value. */
  lemma CusumIsMaximumSuffix(ewma0: real, cusum0: real, risks: seq<real>, n: nat)
    requires n <= |risks| && cusum0 >= 0.0
    ensures forall j :: 0 <= j <= n ==> Cusum(ewma0, cusum0, risks, n) >= ExcessSum(ewma0, risks, j, n)
    ensures Cusum(ewma0, cusum0, risks, n) >= cusum0 + ExcessSum(ewma0, risks, 0, n)
    ensures Cusum(ewma0, cusum0, risks, n) == cusum0 + ExcessSum(ewma0, risks, 0, n)
            || exists j :: 0 <= j <= n && Cusum(ewma0, cusum0, risks, n) == ExcessSum(ewma0, risks, j, n)
  {
    hide Cusum, ExcessSum;
    forall j | 0 <= j <= n ensures Cusum(ewma0, cusum0, risks, n) >= ExcessSum(ewma0, risks, j, n) {
      CusumAboveSuffix(ewma0, cusum0, risks, j, n);
    }
    CusumAboveSuffix(ewma0, cusum0, risks, 0, n);
    var j, initial := CusumIsSomeSuffix(ewma0, cusum0, risks, n);
  }

  /** So the detector has fired at event `n` exactly when some run of consecutive
      events ending there accumulated more than the threshold. */
  lemma FiresExactlyOnLargeSuffix(ewma0: real, risks: seq<real>, n: nat)
    requires n <= |risks|
    ensures Cusum(ewma0, 0.0, risks, n) > CUSUM_THRESHOLD
            <==> exists j :: 0 <= j <= n && ExcessSum(ewma0, risks, j, n) > CUSUM_THRESHOLD
  {
    CusumIsMaximumSuffix(ewma0, 0.0, risks, n);
  }

  lemma {:induction false} EwmaStaysPositive(ewma0: real, risks: seq<real>, j: nat, i: nat)
    requires j <= i <= |risks|
    requires Ewma(ewma0, risks, j) > 0.0
    requires forall k :: 0 <= k < |risks| ==> risks[k] >= 0.0
    ensures Ewma(ewma0, risks, i) > 0.0
    decreases i
  {
    if j < i {
      EwmaStaysPositive(ewma0, risks, j, i - 1);
    }
  }

  /** The excess telescopes through the EWMA once that is positive. */
  lemma {:induction false} ExcessTelescopes(ewma0: real, risks: seq<real>, j: nat, i: nat)
    requires j <= i <= |risks|
    requires Ewma(ewma0, risks, j) > 0.0
    requires forall k :: 0 <= k < |risks| ==> risks[k] >= 0.0
    ensures EWMA_ALPHA * ExcessSum(ewma0, risks, j, i)
            == Ewma(ewma0, risks, i) - Ewma(ewma0, risks, j) - EWMA_ALPHA * CUSUM_SLACK * (i - j) as real
    decreases i
  {
    if j < i {
      ExcessTelescopes(ewma0, risks, j, i - 1);
      EwmaStaysPositive(ewma0, risks, j, i - 1);
    }
  }

  /** So the CUSUM bounds how far the baseline itself can have moved. */
  lemma CusumBoundsBaseline(ewma0: real, cusum0: real, risks: seq<real>)
    requires ewma0 > 0.0 && cusum0 >= 0.0
    requires forall k :: 0 <= k < |risks| ==> risks[k] >= 0.0
    ensures var n := |risks|;
            Ewma(ewma0, risks, n) - ewma0 <= 0.03 * Cusum(ewma0, cusum0, risks, n) + 0.00045 * n as real
  {
    CusumIsMaximumSuffix(ewma0, cusum0, risks, |risks|);
    ExcessTelescopes(ewma0, risks, 0, |risks|);
  }

  /* ---- Climbs ---- */

  /** No event's risk exceeds the one before it by more than `slope`. */
  ghost predicate ClimbsAtMost(risks: seq<real>, slope: real) {
    && (forall i :: 0 <= i < |risks| ==> risks[i] >= 0.0)
    && (forall i :: 0 < i < |risks| ==> risks[i] <= risks[i - 1] + slope)
  }

  /** How far a climbing risk runs ahead of its own baseline. */
  lemma {:induction false} ClimbLag(risks: seq<real>, slope: real, i: nat)
    requires slope >= 0.0 && ClimbsAtMost(risks, slope)
    requires 0 < i < |risks|
    ensures Ewma(0.0, risks, i) >= 0.0
    ensures 0.03 * (risks[i] - Ewma(0.0, risks, i)) <= slope
  {
    assert risks[i] <= risks[i - 1] + slope;
    if i > 1 {
      ClimbLag(risks, slope, i - 1);
    }
  }

  /** A climb no steeper than alpha * slack per event is never caught, however
      long it lasts and however far it gets. */
  lemma {:induction false} SlowClimbNeverFires(risks: seq<real>, i: nat)
    requires ClimbsAtMost(risks, EWMA_ALPHA * CUSUM_SLACK)
    requires i <= |risks|
    ensures Cusum(0.0, 0.0, risks, i) == 0.0
  {
    if i > 0 {
      SlowClimbNeverFires(risks, i - 1);
      if i > 1 {
        ClimbLag(risks, EWMA_ALPHA * CUSUM_SLACK, i - 1);
      }
    }
  }

  /** One such climb: every risk is in range, risk rises from 0.05 to 0.45, and
      the detector's CUSUM never leaves zero. */
  lemma SlowClimbWitness()
    ensures var risks := seq(1001, (i: nat) => 0.05 + 0.0004 * i as real);
            risks[0] == 0.05 && risks[1000] == 0.45
            && forall i :: 0 <= i <= |risks| ==> Cusum(0.0, 0.0, risks, i) == 0.0
  {
    var risks := seq(1001, (i: nat) => 0.05 + 0.0004 * i as real);
    forall i | 0 <= i <= |risks| ensures Cusum(0.0, 0.0, risks, i) == 0.0 {
      SlowClimbNeverFires(risks, i);
    }
  }

  /** A rise is caught once it outgrows alpha * slack per event by more than
      alpha * threshold and the distance the baseline can lag behind. Event `j`
      is the first with a positive baseline. */
  lemma SteepClimbFires(risks: seq<real>, slope: real, j: nat, n: nat)
    requires slope >= 0.0 && ClimbsAtMost(risks, slope)
    requires 0 < j <= n < |risks| && Ewma(0.0, risks, j) == risks[j - 1] > 0.0
    requires 0.03 * (risks[n] - risks[j - 1] - 0.00045 * (n - j) as real - 0.012) > slope
    ensures Cusum(0.0, 0.0, risks, n) > CUSUM_THRESHOLD
  {
    ClimbLag(risks, slope, n);
    ExcessTelescopes(0.0, risks, j, n);
    CusumIsMaximumSuffix(0.0, 0.0, risks, n);
  }

  /* ---- Steady climbs, in closed form ---- */

  /** A steady climb of `n` events. */
  function Ramp(start: real, slope: real, n: nat): (risks: seq<real>)
    ensures |risks| == n
  {
    seq(n, (i: nat) => start + slope * i as real)
  }

  /** (1 - alpha) to the `i`. */
  function Fade(i: nat): real { if i == 0 then 1.0 else 0.97 * Fade(i - 1) }

  /** How far a steady climb runs ahead of the baseline, `i` events after the
      baseline was set. */
  function Lag(slope: real, i: nat): real { slope / 0.03 * (1.0 - Fade(i)) }

  /** What the first `m` such leads add up to above the slack. */
  function Accumulated(slope: real, m: nat): real {
    if m == 0 then 0.0 else Accumulated(slope, m - 1) + Max(0.0, Lag(slope, m) - CUSUM_SLACK)
  }

  /** How many of `n` events follow the one that sets the baseline: the first,
      or the second where the first risk is zero. */
  function Followers(start: real, n: nat): nat {
    var first := if start > 0.0 then 1 else 2;
    if n < first then 0 else n - first
  }

  lemma LagByOne(slope: real, i: nat)
    ensures Lag(slope, 0) == 0.0
    ensures Lag(slope, i + 1) == 0.97 * Lag(slope, i) + slope
  {
    var c, f := slope / 0.03, Fade(i);
    assert c * (1.0 - 0.97 * f) == 0.97 * (c * (1.0 - f)) + 0.03 * c;
  }

  /** The lead grows, towards slope / alpha. */
  lemma {:induction false} LagGrows(slope: real, i: nat)
    requires slope >= 0.0
    ensures 0.0 <= Lag(slope, i) <= Lag(slope, i + 1) <= slope / 0.03
  {
    LagByOne(slope, i);
    if i > 0 {
      LagGrows(slope, i - 1);
    }
  }

  lemma {:induction false} AccumulatedGrows(slope: real, m: nat)
    requires slope >= 0.0
    ensures Lag(slope, m) <= CUSUM_SLACK ==> Accumulated(slope, m) == 0.0
    ensures 0.0 <= Accumulated(slope, m) <= Accumulated(slope, m + 1)
  {
    hide Lag;
    if m > 0 {
      LagGrows(slope, m - 1);
      AccumulatedGrows(slope, m - 1);
    }
  }

  /** One event of a climb whose baseline is set. */
  lemma RampStep(slope: real, m: nat, ewma: real, cusum: real, risk: real)
    requires slope >= 0.0 && ewma > 0.0
    requires risk - ewma == Lag(slope, m + 1) && cusum == Accumulated(slope, m)
    ensures var d := Step(ewma, cusum, risk);
            d.cusum == Accumulated(slope, m + 1) && d.ewma == risk + slope - Lag(slope, m + 2) && d.ewma > 0.0
  {
    hide Lag;
    LagByOne(slope, m + 1);
    LagGrows(slope, m);
    AccumulatedGrows(slope, m);
  }

  /** The event that sets the baseline. */
  lemma RampStart(risk: real)
    ensures Step(0.0, 0.0, risk) == Reading(risk, 0.0, false)
  {
  }

  /** The detector's two fields during a steady climb. */
  lemma {:induction false} RampReading(start: real, slope: real, risks: seq<real>, n: nat)
    requires start >= 0.0 && slope >= 0.0 && start + slope > 0.0
    requires n <= |risks| && (risks != [] ==> risks[0] == start)
    requires forall i :: 0 < i < |risks| ==> risks[i] == risks[i - 1] + slope
    ensures var m, e := Followers(start, n), Ewma(0.0, risks, n);
            && Cusum(0.0, 0.0, risks, n) == Accumulated(slope, m)
            && (if n > (if start > 0.0 then 0 else 1) then e > 0.0 && e == risks[n - 1] + slope - Lag(slope, m + 1)
                else e == 0.0)
  {
    hide Lag, Step;
    if n > 0 {
      RampReading(start, slope, risks, n - 1);
      var risk, m := risks[n - 1], Followers(start, n - 1);
      var ewma, cusum := Ewma(0.0, risks, n - 1), Cusum(0.0, 0.0, risks, n - 1);
      EwmaIgnoresCusum(ewma, cusum, risk);
      if n - 1 > (if start > 0.0 then 0 else 1) {
        RampStep(slope, m, ewma, cusum, risk);
      } else {
        RampStart(risk);
        LagByOne(slope, 0);
      }
    }
  }

  lemma EwmaIgnoresCusum(ewma: real, cusum: real, risk: real)
    ensures Step(ewma, 0.0, risk).ewma == Step(ewma, cusum, risk).ewma
  {
  }

  predicate Caught(start: real, slope: real, n: nat) {
    Cusum(0.0, 0.0, Ramp(start, slope, n), n) > CUSUM_THRESHOLD
  }

  /** A steady climb is caught by its `n`-th event exactly when its leads have by
      then added up to more than the threshold. */
  lemma RampIsCaughtExactly(start: real, slope: real, n: nat)
    requires start >= 0.0 && slope >= 0.0
    ensures Caught(start, slope, n) <==> Accumulated(slope, Followers(start, n)) > CUSUM_THRESHOLD
  {
    if start + slope > 0.0 {
      var risks := Ramp(start, slope, n);
      forall i | 0 < i < n ensures risks[i] == risks[i - 1] + slope {
        assert slope * i as real == slope * (i - 1) as real + slope;
      }
      RampReading(start, slope, risks, n);
    } else {
      AccumulatedGrows(slope, Followers(start, n));
      SlowClimbNeverFires(Ramp(start, slope, n), n);
    }
  }

  /** That sum without the sum: `k` is the last lead within the slack. */
  lemma {:induction false} AccumulatedInClosedForm(slope: real, k: nat, m: nat)
    requires slope >= 0.0 && k <= m
    requires Lag(slope, k) <= CUSUM_SLACK && (k < m ==> Lag(slope, k + 1) >= CUSUM_SLACK)
    ensures k < m ==> Lag(slope, m) >= CUSUM_SLACK
    ensures Accumulated(slope, m)
            == (m - k) as real * (slope / 0.03 - CUSUM_SLACK) - slope / 0.03 * ((Fade(k + 1) - Fade(m + 1)) / 0.03)
    decreases m
  {
    hide Lag, Fade;
    AccumulatedGrows(slope, m);
    if k < m {
      AccumulatedInClosedForm(slope, k, m - 1);
      LagGrows(slope, m - 1);
      FadeByOne(slope, m);
      ClosedFormByOne(slope / 0.03, (m - 1 - k) as real, Fade(k + 1), Fade(m));
    }
  }

  lemma FadeByOne(slope: real, m: nat)
    ensures Fade(m + 1) == 0.97 * Fade(m) && Lag(slope, m) == slope / 0.03 * (1.0 - Fade(m))
  {
  }

  lemma ClosedFormByOne(c: real, n: real, f: real, g: real)
    ensures n * (c - CUSUM_SLACK) - c * ((f - g) / 0.03) + (c * (1.0 - g) - CUSUM_SLACK)
            == (n + 1.0) * (c - CUSUM_SLACK) - c * ((f - 0.97 * g) / 0.03)
  {
    var before, after, lead := (f - g) / 0.03, (f - 0.97 * g) / 0.03, c - CUSUM_SLACK;
    assert after == before + g;
    Distributes(c, after, before, g);
    Distributes(c, 1.0, g, 1.0 - g);
    Distributes(lead, n + 1.0, n, 1.0);
  }

  lemma Distributes(c: real, z: real, x: real, y: real)
    requires z == x + y
    ensures c * z == c * x + c * y && z * c == x * c + y * c
  {
  }

  /* ---- Which steady climbs are caught at all ---- */

  /** Bounds on the sum for climbs steeper than alpha * slack. */
  lemma {:induction false} AccumulatedBounds(slope: real, m: nat)
    requires slope >= EWMA_ALPHA * CUSUM_SLACK
    ensures Accumulated(slope, m) <= (slope / 0.03 - CUSUM_SLACK) * m as real
    ensures Accumulated(slope, m)
            >= (slope / 0.03 - CUSUM_SLACK) * m as real - slope / 0.0009 + (slope / 0.03 - Lag(slope, m)) / 0.03
  {
    hide Lag;
    LagByOne(slope, 0);
    if m > 0 {
      AccumulatedBounds(slope, m - 1);
      LagGrows(slope, m - 1);
      LagByOne(slope, m - 1);
      BoundsByOne(slope / 0.03, (m - 1) as real, Accumulated(slope, m - 1), Lag(slope, m - 1));
    }
  }

  lemma BoundsByOne(top: real, n: real, sum: real, lag: real)
    requires top >= CUSUM_SLACK && lag <= top
    requires (top - CUSUM_SLACK) * n - top / 0.03 + (top - lag) / 0.03 <= sum <= (top - CUSUM_SLACK) * n
    ensures var lag' := 0.97 * lag + 0.03 * top;
            var sum' := sum + Max(0.0, lag' - CUSUM_SLACK);
            (top - CUSUM_SLACK) * (n + 1.0) - top / 0.03 + (top - lag') / 0.03 <= sum' <= (top - CUSUM_SLACK) * (n + 1.0)
  {
    Distributes(top - CUSUM_SLACK, n + 1.0, n, 1.0);
  }

  lemma LongRunPays(c: real, debt: real, m: real)
    requires c > 0.0 && m > debt / c
    ensures c * m > debt
  {
    assert debt / c * c == debt;
    assert (m - debt / c) * c > 0.0;
  }

  lemma LongRampIsCaught(slope: real) returns (m: nat)
    requires slope > EWMA_ALPHA * CUSUM_SLACK
    ensures Accumulated(slope, m) > CUSUM_THRESHOLD
  {
    var c, debt := slope / 0.03 - CUSUM_SLACK, slope / 0.0009 + CUSUM_THRESHOLD;
    DivideMonotone(0.0, debt, c);
    m := (debt / c).Floor + 1;
    LongRunPays(c, debt, m as real);
    hide Accumulated, Lag;
    AccumulatedBounds(slope, m);
    LagGrows(slope, m);
  }

  /** Were there no upper end to risk, a steady climb left to go on would be
      caught exactly when it is steeper than alpha * slack per event. */
  lemma EndlessRampIsCaughtExactly(start: real, slope: real)
    requires start >= 0.0 && slope >= 0.0
    ensures (exists n: nat :: Caught(start, slope, n)) <==> slope > EWMA_ALPHA * CUSUM_SLACK
  {
    hide Caught;
    if slope > EWMA_ALPHA * CUSUM_SLACK {
      var m := LongRampIsCaught(slope);
      RampIsCaughtExactly(start, slope, m + 2);
      AccumulatedGrows(slope, m);
      assert Caught(start, slope, m + 2);
    } else {
      forall n: nat ensures !Caught(start, slope, n) {
        RampIsCaughtExactly(start, slope, n);
        AccumulatedGrows(slope, Followers(start, n));
        LagGrows(slope, Followers(start, n));
      }
    }
  }

  /** How many events a climb has before its risk would exceed 1. */
  function EventsInRange(start: real, slope: real): nat
    requires start <= 1.0 && slope > 0.0
  {
    DivideMonotone(0.0, 1.0 - start, slope);
    ((1.0 - start) / slope).Floor + 1
  }

  lemma InRangeExactly(start: real, slope: real, n: nat)
    requires start <= 1.0 && slope > 0.0
    ensures n == 0 || start + slope * (n - 1) as real <= 1.0 <==> n <= EventsInRange(start, slope)
  {
    var q := (1.0 - start) / slope;
    assert q * slope == 1.0 - start;
    if n > 0 {
      var k := (n - 1) as real;
      if k <= q {
        assert (q - k) * slope >= 0.0;
      } else {
        assert (k - q) * slope > 0.0;
      }
      assert k * slope == slope * k && (q - k) * slope == q * slope - k * slope;
      assert k <= q <==> n - 1 <= q.Floor;
    }
  }

  lemma {:induction false} AccumulatedGrowsTo(slope: real, m: nat, n: nat)
    requires slope >= 0.0 && m <= n
    ensures Accumulated(slope, m) <= Accumulated(slope, n)
    decreases n
  {
    if m < n {
      AccumulatedGrowsTo(slope, m, n - 1);
      AccumulatedGrows(slope, n - 1);
    }
  }

  /** On the risks an engine can see, a steady climb is caught before it reaches
      1 exactly when the leads it has room for add up to the threshold. */
  lemma RampIsCaughtInRangeExactly(start: real, slope: real)
    requires 0.0 <= start <= 1.0 && slope > 0.0
    ensures (exists n: nat :: n <= EventsInRange(start, slope) && Caught(start, slope, n))
            <==> Accumulated(slope, Followers(start, EventsInRange(start, slope))) > CUSUM_THRESHOLD
  {
    hide Caught, Accumulated, EventsInRange;
    var last := EventsInRange(start, slope);
    RampIsCaughtExactly(start, slope, last);
    forall n: nat | n <= last && Caught(start, slope, n) ensures Caught(start, slope, last) {
      RampIsCaughtExactly(start, slope, n);
      AccumulatedGrowsTo(slope, Followers(start, n), Followers(start, last));
    }
  }

  /** In particular a climb over alpha * slack goes all the way to 1 unnoticed if
      it exceeds that by little enough. */
  lemma GentleRampEscapes(start: real, slope: real, n: nat)
    requires 0.0 <= start <= 1.0 && slope > EWMA_ALPHA * CUSUM_SLACK
    requires (1.0 - start) * (slope - 0.00045) <= 0.012 * slope
    requires n <= EventsInRange(start, slope)
    ensures !Caught(start, slope, n)
  {
    hide Caught, Accumulated, Lag;
    RampIsCaughtExactly(start, slope, n);
    var m := Followers(start, n);
    AccumulatedBounds(slope, m);
    if m > 0 {
      InRangeExactly(start, slope, n);
      hide EventsInRange;
      RoomForFew(slope, m as real, (n - 1) as real, 1.0 - start);
    }
  }

  lemma RoomForFew(slope: real, m: real, k: real, room: real)
    requires slope > 0.00045 && 0.0 <= m <= k && slope * k <= room
    requires room * (slope - 0.00045) <= 0.012 * slope
    ensures (slope / 0.03 - CUSUM_SLACK) * m <= CUSUM_THRESHOLD
  {
    var lead := slope - 0.00045;
    assert slope * m * lead <= room * lead by {
      assert slope * (k - m) >= 0.0;
      assert (room - slope * m) * lead >= 0.0;
    }
    assert (slope * m) * lead == slope * (m * lead);
    assert slope * (0.012 - m * lead) >= 0.0;
    assert m * lead <= 0.012;
  }

  /* ---- Quiet identities ---- */

  /** Rounded values out of a band of width at most the slack never reach the
      shift threshold. */
  lemma QuietWindowIsNotAShift(window: seq<real>, lo: real, ks: bool)
    requires forall i :: 0 <= i < |window| ==> lo - 0.00005 <= window[i] <= lo + CUSUM_SLACK + 0.00005
    ensures !Detect(window, ks)
  {
    if |window| >= MIN_SAMPLES {
      var recent := LastN(window, WINDOW);
      var half := |recent| / 2;
      assert forall i :: 0 <= i < |recent| ==> recent[i] in window;
      MeanBounds(recent[half..], lo - 0.00005, lo + CUSUM_SLACK + 0.00005);
      MeanBounds(recent[..half], lo - 0.00005, lo + CUSUM_SLACK + 0.00005);
    }
  }

  /** Nor do the rounded values of a slow climb, from whatever heights it falls
      back in between. */
  lemma SlowWindowIsNotAShift(window: seq<real>, ks: bool)
    requires forall i, j :: 0 <= i < j < |window| ==> window[j] <= window[i] + 0.00045 * (j - i) as real + 0.0001
    ensures !Detect(window, ks)
  {
    if |window| >= MIN_SAMPLES {
      var recent := LastN(window, WINDOW);
      var half := |recent| / 2;
      var early, late := recent[..half], recent[half..];
      forall i | 0 <= i < |early| ensures early[i] >= Mean(late) - 0.006 {
        forall j | 0 <= j < |late| ensures late[j] <= early[i] + 0.006 {
          var a, b := |window| - |recent| + i, |window| - |recent| + half + j;
          assert early[i] == window[a] && late[j] == window[b];
          assert b - a <= 11;
        }
        MeanAtMost(late, early[i] + 0.006);
      }
      MeanAtLeast(early, Mean(late) - 0.006);
    }
  }

  /* ---- Visible transitions ---- */

  /** How many of `n` readings the test looks at, and how many of them are early. */
  function Looked(n: nat): nat { if n < 12 then n else 12 }

  function EarlyHalf(n: nat): nat { Looked(n) / 2 }

  /** The window test to the point: of the last readings, at most twelve, the late
      half must outweigh the early one by 0.08 a reading, and the two-sample test
      agree. Eight readings are enough. */
  lemma DetectExactly(window: seq<real>, ks: bool)
    ensures var n := |window|;
            var m, h := Looked(n), EarlyHalf(n);
            Detect(window, ks)
            <==> ks && n >= 8
                 && Sum(window[n - m + h..]) * h as real - Sum(window[n - m..n - m + h]) * (m - h) as real
                    >= 0.08 * h as real * (m - h) as real
  {
    hide Sum, MeanShift;
    var n := |window|;
    if n >= 8 {
      var m, h := Looked(n), EarlyHalf(n);
      MeanShiftIs(window);
      QuotientsCompare(Sum(window[n - m + h..]), Sum(window[n - m..n - m + h]), (m - h) as real, h as real);
    }
  }

  lemma MeanShiftIs(window: seq<real>)
    requires |window| >= 8
    ensures var n := |window|;
            var m, h := Looked(n), EarlyHalf(n);
            MeanShift(window) == Sum(window[n - m + h..]) / (m - h) as real - Sum(window[n - m..n - m + h]) / h as real
  {
    hide Sum;
    var n := |window|;
    var m, h := Looked(n), EarlyHalf(n);
    var recent := LastN(window, WINDOW);
    assert recent == window[n - m..];
    assert recent[..h] == window[n - m..n - m + h] && recent[h..] == window[n - m + h..];
  }

  lemma QuotientsCompare(late: real, early: real, k: real, h: real)
    requires k > 0.0 && h > 0.0
    ensures late / k - early / h >= 0.08 <==> late * h - early * k >= 0.08 * h * k
  {
    var x, y := late / k, early / h;
    assert x * k == late && y * h == early;
    assert (x - y - 0.08) * (h * k) == late * h - early * k - 0.08 * h * k;
    SignOfProduct(x - y - 0.08, h * k);
  }

  lemma SignOfProduct(x: real, y: real)
    requires y > 0.0
    ensures x * y >= 0.0 <==> x >= 0.0
  {
  }

  /** A rise by the shift threshold from every early reading to every late one is
      caught as soon as the two-sample test agrees, from eight readings on. */
  lemma VisibleShiftIsDetected(window: seq<real>, x: real)
    requires |window| >= 8
    requires var n := |window|;
             forall i :: n - Looked(n) <= i < n - Looked(n) + EarlyHalf(n) ==> window[i] <= x
    requires var n := |window|;
             forall i :: n - Looked(n) + EarlyHalf(n) <= i < n ==> window[i] >= x + 0.08
    ensures Detect(window, true)
  {
    hide Mean;
    var recent, n := LastN(window, WINDOW), |window|;
    var h := |recent| / 2;
    assert forall i :: 0 <= i < |recent| ==> recent[i] == window[n - |recent| + i];
    var early, late := recent[..h], recent[h..];
    assert forall i :: 0 <= i < h ==> early[i] == recent[i] <= x;
    assert forall i :: 0 <= i < |late| ==> late[i] == recent[h + i] >= x + 0.08;
    MeanAtMost(early, x);
    MeanAtLeast(late, x + MIN_SHIFT);
  }

  lemma MeanAtMost(xs: seq<real>, hi: real)
    requires xs != [] && forall i :: 0 <= i < |xs| ==> xs[i] <= hi
    ensures Mean(xs) <= hi
  {
    var lo := Lowest(xs);
    MeanBounds(xs, if lo <= hi then lo else hi, hi);
  }

  lemma MeanAtLeast(xs: seq<real>, lo: real)
    requires xs != [] && forall i :: 0 <= i < |xs| ==> xs[i] >= lo
    ensures Mean(xs) >= lo
  {
    var hi := Highest(xs);
    MeanBounds(xs, lo, hi);
  }

  lemma {:induction false} Lowest(xs: seq<real>) returns (lo: real)
    requires xs != []
    ensures forall i :: 0 <= i < |xs| ==> lo <= xs[i]
  {
    lo := xs[0];
    if |xs| > 1 {
      var rest := Lowest(xs[1..]);
      lo := Min(lo, rest);
      assert forall i :: 0 < i < |xs| ==> xs[i] == xs[1..][i - 1];
    }
  }

  lemma {:induction false} Highest(xs: seq<real>) returns (hi: real)
    requires xs != []
    ensures forall i :: 0 <= i < |xs| ==> xs[i] <= hi
  {
    hi := xs[0];
    if |xs| > 1 {
      var rest := Highest(xs[1..]);
      hi := Max(hi, rest);
      assert forall i :: 0 < i < |xs| ==> xs[i] == xs[1..][i - 1];
    }
  }
}
