/** How fast trust can come back: passive recovery is rate-limited by a budget
    per window, whatever the traffic. */
module Recovery {
  import opened Identity
  import opened Engine
  import opened Runs
  import opened Scenarios

  function Ceiling(cfg: Config): nat { if cfg.recoveryCap > 0 then cfg.recoveryCap else 0 }

  /** Trust gained by an operation without a verified step-up. */
  function Gain(cfg: Config, s: Snapshot, op: Op): nat {
    var d := Apply(cfg, s, op).budget.trust - s.budget.trust;
    if op.Assessed? && d > 0 then d else 0
  }

  /** Total such gain of operations `i .. j`. */
  function PassiveGain(cfg: Config, ops: seq<Op>, i: nat, j: nat): nat
    requires i <= j <= |ops|
    decreases j
  {
    if i == j then 0 else PassiveGain(cfg, ops, i, j - 1) + Gain(cfg, StateAt(cfg, ops, j - 1), ops[j - 1])
  }

  function PassedStepUps(ops: seq<Op>, i: nat, j: nat): nat
    requires i <= j <= |ops|
    decreases j
  {
    if i == j then 0 else PassedStepUps(ops, i, j - 1) + (if ops[j - 1] == Verified(true) then 1 else 0)
  }

  /** How often the window was restarted by operations `i .. j`. */
  function Restarts(cfg: Config, ops: seq<Op>, i: nat, j: nat): nat
    requires i <= j <= |ops|
    decreases j
  {
    if i == j then 0
    else
      Restarts(cfg, ops, i, j - 1) + (if Restarting(cfg, StateAt(cfg, ops, j - 1), ops[j - 1]) then 1 else 0)
  }

  predicate Restarting(cfg: Config, s: Snapshot, op: Op) {
    && op.Assessed?
    && EventRisk(cfg, s, op.attempt) <= 0.45
    && op.attempt.now - s.budget.start > RECOVERY_WINDOW_SECONDS
  }

  /** Every timestamp of operations `i .. j` lies in the span. */
  ghost predicate Within(ops: seq<Op>, i: nat, j: nat, from: real, span: real)
    requires i <= j <= |ops|
  {
    forall k :: i <= k < j && ops[k].Assessed? ==> from <= ops[k].attempt.now <= from + span
  }

  lemma BudgetStep(cfg: Config, s: Snapshot, op: Op)
    requires 0 <= s.budget.recovered <= Ceiling(cfg) && 0 <= s.budget.trust <= 1000
    ensures var t := Apply(cfg, s, op);
            var gain := Gain(cfg, s, op);
            && 0 <= t.budget.recovered <= Ceiling(cfg)
            && (if Restarting(cfg, s, op)
                then t.budget.start == op.attempt.now && gain <= t.budget.recovered
                else t.budget.start == s.budget.start
                     && gain <= t.budget.recovered - s.budget.recovered)
  {
    if op.Assessed? {
      var risk: real := EventRisk(cfg, s, op.attempt);
      if risk > 0.45 {
        TrustMoves(cfg.recoveryCap, s.budget, risk, op.attempt.now);
      } else {
        assert ((0.45 - risk) * 60.0).Floor >= 0;
      }
    }
  }

  lemma {:induction false} BudgetInRange(cfg: Config, ops: seq<Op>, i: nat)
    requires i <= |ops|
    ensures 0 <= StateAt(cfg, ops, i).budget.recovered <= Ceiling(cfg)
  {
    hide Apply;
    if i > 0 {
      BudgetInRange(cfg, ops, i - 1);
      TrustInRange(cfg, ops, i - 1);
      BudgetStep(cfg, StateAt(cfg, ops, i - 1), ops[i - 1]);
    }
  }

  /** What a stretch of the run has earned after `m` restarts. */
  ghost predicate Earned(t: Snapshot, gain: nat, m: nat, c: nat, from: real, span: real) {
    && gain <= m * c + t.budget.recovered
    && (m > 0 ==> from <= t.budget.start <= from + span)
    && (m > 1 ==> t.budget.start > from + 3600.0 * (m - 1) as real)
  }

  lemma EarnedStep(cfg: Config, s: Snapshot, op: Op, gain: nat, m: nat, from: real, span: real)
    requires 0 <= s.budget.recovered <= Ceiling(cfg) && 0 <= s.budget.trust <= 1000
    requires op.Assessed? ==> from <= op.attempt.now <= from + span
    requires Earned(s, gain, m, Ceiling(cfg), from, span)
    ensures var t := Apply(cfg, s, op);
            Earned(t, gain + Gain(cfg, s, op), m + (if Restarting(cfg, s, op) then 1 else 0), Ceiling(cfg), from, span)
  {
    BudgetStep(cfg, s, op);
    EarnedArithmetic(m, Ceiling(cfg));
  }

  lemma EarnedArithmetic(m: nat, c: nat)
    ensures (m + 1) * c == m * c + c
    ensures 3600.0 * m as real == 3600.0 * (m - 1) as real + 3600.0
  {
  }

  lemma NothingEarned(t: Snapshot, c: nat, from: real, span: real)
    requires t.budget.recovered >= 0
    ensures Earned(t, 0, 0, c, from, span)
  {
  }

  /** Each restart pays at most one budget, and restarts are over an hour apart. */
  lemma {:induction false} GainPerRestart(cfg: Config, ops: seq<Op>, i: nat, j: nat, from: real, span: real)
    requires i <= j <= |ops| && Within(ops, i, j, from, span)
    ensures Earned(StateAt(cfg, ops, j), PassiveGain(cfg, ops, i, j), Restarts(cfg, ops, i, j),
                   Ceiling(cfg), from, span)
    decreases j
  {
    hide Apply, Earned, Gain, Restarting;
    if i == j {
      BudgetInRange(cfg, ops, j);
      NothingEarned(StateAt(cfg, ops, j), Ceiling(cfg), from, span);
    } else {
      GainPerRestart(cfg, ops, i, j - 1, from, span);
      BudgetInRange(cfg, ops, j - 1);
      TrustInRange(cfg, ops, j - 1);
      EarnedStep(cfg, StateAt(cfg, ops, j - 1), ops[j - 1], PassiveGain(cfg, ops, i, j - 1),
                 Restarts(cfg, ops, i, j - 1), from, span);
    }
  }

  /** Over any stretch of a run whose clock readings span at most `hours` hours,
      passive recovery is at most (hours + 1) budgets: two for a single hour. */
  lemma PassiveRecoveryIsBounded(cfg: Config, ops: seq<Op>, i: nat, j: nat, from: real, hours: nat)
    requires i <= j <= |ops| && hours >= 1
    requires Within(ops, i, j, from, 3600.0 * hours as real)
    ensures PassiveGain(cfg, ops, i, j) <= (hours + 1) * Ceiling(cfg)
  {
    hide Apply;
    GainPerRestart(cfg, ops, i, j, from, 3600.0 * hours as real);
    BudgetInRange(cfg, ops, j);
    AtMostOneRestartPerHour(StateAt(cfg, ops, j), PassiveGain(cfg, ops, i, j), Restarts(cfg, ops, i, j),
                            Ceiling(cfg), from, hours);
  }

  lemma AtMostOneRestartPerHour(t: Snapshot, gain: nat, m: nat, c: nat, from: real, hours: nat)
    requires hours >= 1 && t.budget.recovered <= c
    requires Earned(t, gain, m, c, from, 3600.0 * hours as real)
    ensures gain <= (hours + 1) * c
  {
    assert m > hours ==> 3600.0 * (m - 1) as real >= 3600.0 * hours as real;
    assert (hours + 1) * c == m * c + (hours - m) * c + c;
  }

  /** While no operation restarts the window, the gain is at most what was left
      of one budget, however long the stretch. */
  lemma {:induction false} WithoutRestartOneBudget(cfg: Config, ops: seq<Op>, i: nat, j: nat)
    requires i <= j <= |ops| && Restarts(cfg, ops, i, j) == 0
    ensures PassiveGain(cfg, ops, i, j) <= StateAt(cfg, ops, j).budget.recovered - StateAt(cfg, ops, i).budget.recovered
    ensures PassiveGain(cfg, ops, i, j) <= Ceiling(cfg) - StateAt(cfg, ops, i).budget.recovered
    decreases j
  {
    hide Apply;
    BudgetInRange(cfg, ops, j);
    if i < j {
      WithoutRestartOneBudget(cfg, ops, i, j - 1);
      BudgetInRange(cfg, ops, j - 1);
      TrustInRange(cfg, ops, j - 1);
      BudgetStep(cfg, StateAt(cfg, ops, j - 1), ops[j - 1]);
    }
  }

  lemma RiseOfOne(cfg: Config, s: Snapshot, op: Op)
    requires s.budget.trust >= 0
    ensures Apply(cfg, s, op).budget.trust <= s.budget.trust + Gain(cfg, s, op) + (if op == Verified(true) then 250 else 0)
  {
  }

  /** All in all: trust rises only by the budget and by verified step-ups. */
  lemma {:induction false} TrustRiseIsAccountedFor(cfg: Config, ops: seq<Op>, i: nat, j: nat)
    requires i <= j <= |ops|
    ensures StateAt(cfg, ops, j).budget.trust
            <= StateAt(cfg, ops, i).budget.trust + PassiveGain(cfg, ops, i, j) + 250 * PassedStepUps(ops, i, j)
    decreases j
  {
    hide Apply;
    if i < j {
      TrustRiseIsAccountedFor(cfg, ops, i, j - 1);
      TrustInRange(cfg, ops, j - 1);
      RiseOfOne(cfg, StateAt(cfg, ops, j - 1), ops[j - 1]);
    }
  }

  lemma TrustRiseIsBounded(cfg: Config, ops: seq<Op>, i: nat, j: nat, from: real, hours: nat)
    requires i <= j <= |ops| && hours >= 1
    requires Within(ops, i, j, from, 3600.0 * hours as real)
    ensures StateAt(cfg, ops, j).budget.trust
            <= StateAt(cfg, ops, i).budget.trust + (hours + 1) * Ceiling(cfg) + 250 * PassedStepUps(ops, i, j)
  {
    hide Apply;
    TrustRiseIsAccountedFor(cfg, ops, i, j);
    PassiveRecoveryIsBounded(cfg, ops, i, j, from, hours);
  }

  /* ---- The budget to the point ---- */

  /** What an operation adds to the counter of its window. */
  function Recorded(cfg: Config, s: Snapshot, op: Op): int {
    Apply(cfg, s, op).budget.recovered - (if Restarting(cfg, s, op) then 0 else s.budget.recovered)
  }

  /** No operation of `i .. j` records points it cannot pay out below 1000. */
  ghost predicate Unclipped(cfg: Config, ops: seq<Op>, i: nat, j: nat)
    requires i <= j <= |ops|
  {
    forall k :: i <= k < j ==> StateAt(cfg, ops, k).budget.trust + Recorded(cfg, StateAt(cfg, ops, k), ops[k]) <= 1000
  }

  /** What the windows closed by operations `i .. j` had recorded since `i`. */
  function Closed(cfg: Config, ops: seq<Op>, i: nat, j: nat): int
    requires i <= j <= |ops|
    decreases j
  {
    if i == j then 0
    else
      var s := StateAt(cfg, ops, j - 1);
      Closed(cfg, ops, i, j - 1)
      + (if Restarting(cfg, s, ops[j - 1]) then s.budget.recovered - Before(cfg, ops, i, j - 1) else 0)
  }

  /** What the window open at `j` had recorded before `i`. */
  function Before(cfg: Config, ops: seq<Op>, i: nat, j: nat): int
    requires i <= j <= |ops|
  {
    if Restarts(cfg, ops, i, j) == 0 then StateAt(cfg, ops, i).budget.recovered else 0
  }

  lemma GainOfOne(cfg: Config, s: Snapshot, op: Op)
    requires 0 <= s.budget.recovered <= Ceiling(cfg) && 0 <= s.budget.trust <= 1000
    requires s.budget.trust + Recorded(cfg, s, op) <= 1000
    ensures Gain(cfg, s, op) == Recorded(cfg, s, op)
  {
    if op.Assessed? {
      var risk: real := EventRisk(cfg, s, op.attempt);
      if risk > 0.45 {
        TrustMoves(cfg.recoveryCap, s.budget, risk, op.attempt.now);
      } else {
        assert ((0.45 - risk) * 60.0).Floor >= 0;
      }
    }
  }

  /** Where trust is not clipped, the gain of any stretch is exactly what its
      windows recorded: the closed ones and the one still open. */
  lemma {:induction false} GainIsRecorded(cfg: Config, ops: seq<Op>, i: nat, j: nat)
    requires i <= j <= |ops| && Unclipped(cfg, ops, i, j)
    ensures PassiveGain(cfg, ops, i, j)
            == Closed(cfg, ops, i, j) + StateAt(cfg, ops, j).budget.recovered - Before(cfg, ops, i, j)
    decreases j
  {
    hide Apply, Restarting, Gain, Recorded, StateAt;
    if i < j {
      StateNext(cfg, ops, j - 1);
      GainIsRecorded(cfg, ops, i, j - 1);
      BudgetInRange(cfg, ops, j - 1);
      TrustInRange(cfg, ops, j - 1);
      GainOfOne(cfg, StateAt(cfg, ops, j - 1), ops[j - 1]);
      RecordedIs(cfg, StateAt(cfg, ops, j - 1), ops[j - 1]);
    }
  }

  lemma StateNext(cfg: Config, ops: seq<Op>, j: nat)
    requires j < |ops|
    ensures StateAt(cfg, ops, j + 1) == Apply(cfg, StateAt(cfg, ops, j), ops[j])
  {
  }

  lemma RecordedIs(cfg: Config, s: Snapshot, op: Op)
    ensures Recorded(cfg, s, op)
            == Apply(cfg, s, op).budget.recovered - (if Restarting(cfg, s, op) then 0 else s.budget.recovered)
  {
  }

  /** An hour holds at most one restart. */
  lemma OneRestartAnHour(cfg: Config, ops: seq<Op>, i: nat, j: nat, from: real)
    requires i <= j <= |ops| && Within(ops, i, j, from, 3600.0)
    ensures Restarts(cfg, ops, i, j) <= 1
  {
    hide Apply;
    GainPerRestart(cfg, ops, i, j, from, 3600.0);
  }

  lemma {:induction false} ClosedByTheRestart(cfg: Config, ops: seq<Op>, i: nat, j: nat)
    requires i <= j <= |ops|
    ensures Restarts(cfg, ops, i, j) == 0 ==> Closed(cfg, ops, i, j) == 0
    ensures Restarts(cfg, ops, i, j) == 1 ==>
              exists r :: i <= r < j && Restarting(cfg, StateAt(cfg, ops, r), ops[r])
                          && Closed(cfg, ops, i, j) == StateAt(cfg, ops, r).budget.recovered - StateAt(cfg, ops, i).budget.recovered
    decreases j
  {
    hide Apply, Restarting;
    if i < j {
      ClosedByTheRestart(cfg, ops, i, j - 1);
    }
  }

  /** So any hour of any run stays within one budget exactly when the window is
      not restarted, or what the old one had recorded since the hour began and
      what the new one has recorded come to no more. */
  lemma HourWithinBudgetExactly(cfg: Config, ops: seq<Op>, i: nat, j: nat, from: real)
    requires i <= j <= |ops| && Within(ops, i, j, from, 3600.0) && Unclipped(cfg, ops, i, j)
    ensures Restarts(cfg, ops, i, j) <= 1
    ensures Restarts(cfg, ops, i, j) == 1 ==>
              exists r :: i <= r < j && Restarting(cfg, StateAt(cfg, ops, r), ops[r])
                          && Closed(cfg, ops, i, j) == StateAt(cfg, ops, r).budget.recovered - StateAt(cfg, ops, i).budget.recovered
    ensures PassiveGain(cfg, ops, i, j) <= Ceiling(cfg)
            <==> Restarts(cfg, ops, i, j) == 0
                 || Closed(cfg, ops, i, j) + StateAt(cfg, ops, j).budget.recovered <= Ceiling(cfg)
  {
    hide Apply, StateAt, Closed, Unclipped, Restarting;
    ClosedByTheRestart(cfg, ops, i, j);
    OneRestartAnHour(cfg, ops, i, j, from);
    GainIsRecorded(cfg, ops, i, j);
    BudgetInRange(cfg, ops, i);
    if Restarts(cfg, ops, i, j) == 0 {
      WithoutRestartOneBudget(cfg, ops, i, j);
    }
  }

  /* ---- The window is tumbling, not rolling ---- */

  /** Over events that cost nothing the gain is what trust rose by. */
  lemma {:induction false} CostlessGain(cfg: Config, ops: seq<Op>, i: nat, j: nat)
    requires i <= j <= |ops|
    requires forall k :: i <= k < j ==> ops[k].Assessed? && OutcomeAt(cfg, ops, k).risk <= 0.45
    ensures PassiveGain(cfg, ops, i, j) == StateAt(cfg, ops, j).budget.trust - StateAt(cfg, ops, i).budget.trust
    decreases j
  {
    hide Apply, Assess, Gain;
    if i < j {
      CostlessGain(cfg, ops, i, j - 1);
      TrustInRange(cfg, ops, j - 1);
      CostlessStep(cfg, StateAt(cfg, ops, j - 1), ops[j - 1]);
    }
  }

  lemma CostlessStep(cfg: Config, s: Snapshot, op: Op)
    requires op.Assessed? && Assess(cfg, s, op.attempt).risk <= 0.45 && 0 <= s.budget.trust <= 1000
    ensures Gain(cfg, s, op) == Apply(cfg, s, op).budget.trust - s.budget.trust
  {
    TrustMoves(cfg.recoveryCap, s.budget, EventRisk(cfg, s, op.attempt), op.attempt.now);
  }

  /** An event at risk 0.2 pays 15 points, as far as the budget goes. */
  lemma CalmEventPays(b: Budget, now: real)
    requires 0 <= b.trust <= 985 && 0 <= b.recovered <= 120 && b.recovered % 15 == 0
    ensures var expired := now - b.start > 3600.0;
            UpdateTrust(120, b, 0.2, now)
            == if expired then Budget(b.trust + 15, 15, now)
               else if b.recovered < 120 then Budget(b.trust + 15, b.recovered + 15, b.start)
               else b
  {
    assert ((0.45 - 0.2) * 60.0).Floor == 15;
  }

  /** So up to eight of them pay in full in a fresh window. */
  lemma {:induction false} BurstPays(cfg: Config, ms: seq<Move>, now: real, ks: bool, n: nat)
    requires cfg.recoveryCap == 120 && n <= 8
    requires var b := TrackAfter(cfg, ms).budget;
             0 <= b.trust <= 880 && 0 <= b.recovered <= 120 && b.recovered % 15 == 0
             && (now - b.start > 3600.0 || b.recovered == 0)
    ensures var b := TrackAfter(cfg, ms).budget;
            var b' := TrackAfter(cfg, ms + Repeat(Calm(0.2, now, ks), n)).budget;
            && (n == 0 ==> b' == b)
            && (n > 0 ==> b' == Budget(b.trust + 15 * n, 15 * n, if now - b.start > 3600.0 then now else b.start))
  {
    hide UpdateTrust, Repeat, TrackAfter;
    var m := Calm(0.2, now, ks);
    FollowRepeat(cfg, ms, m, 0);
    if n > 0 {
      BurstPays(cfg, ms, now, ks, n - 1);
      FollowRepeat(cfg, ms, m, n - 1);
      CalmEventPays(TrackAfter(cfg, ms + Repeat(m, n - 1)).budget, now);
    }
  }

  /** And none pays once the budget is spent. */
  lemma {:induction false} BurstIsRefused(cfg: Config, ms: seq<Move>, now: real, ks: bool, n: nat)
    requires cfg.recoveryCap == 120
    requires var b := TrackAfter(cfg, ms).budget;
             0 <= b.trust <= 985 && b.recovered == 120 && now - b.start <= 3600.0
    ensures TrackAfter(cfg, ms + Repeat(Calm(0.2, now, ks), n)).budget == TrackAfter(cfg, ms).budget
  {
    hide UpdateTrust, Repeat, TrackAfter;
    var m := Calm(0.2, now, ks);
    FollowRepeat(cfg, ms, m, 0);
    if n > 0 {
      BurstIsRefused(cfg, ms, now, ks, n - 1);
      FollowRepeat(cfg, ms, m, n - 1);
      CalmEventPays(TrackAfter(cfg, ms).budget, now);
    }
  }

  /** A new identity: one event that opens the window and gains nothing, then two
      bursts of eight. */
  function TwoBursts(opening: real, first: real, second: real): (ms: seq<Move>)
    ensures |ms| == 17 && forall i :: 0 <= i < 17 ==> Attainable(ms[i]) && ms[i].Calm? && ms[i].risk <= 0.45
    ensures ms[0].now == opening && ms[..1] == [Calm(0.45, opening, false)]
    ensures forall i :: 1 <= i < 9 ==> ms[i].now == first
    ensures forall i :: 9 <= i < 17 ==> ms[i].now == second
  {
    [Calm(0.45, opening, false)] + Repeat(Calm(0.2, first, false), 8) + Repeat(Calm(0.2, second, false), 8)
  }

  lemma TwoBurstsTrack(cfg: Config, opening: real, first: real, second: real)
    requires cfg.recoveryCap == 120 && opening > 3600.0 && opening <= first <= opening + 3600.0
    ensures TrackAfter(cfg, [Calm(0.45, opening, false)]).budget == Budget(700, 0, opening)
    ensures TrackAfter(cfg, TwoBursts(opening, first, second)).budget.trust
            == if second - opening > 3600.0 then 940 else 820
  {
    var open := [Calm(0.45, opening, false)];
    Follow(cfg, [], open[0]);
    assert [] + open == open;
    assert TrackAfter(cfg, open).budget == Budget(700, 0, opening);
    hide UpdateTrust, Repeat, TrackAfter;
    BurstPays(cfg, open, first, false, 8);
    var mid := open + Repeat(Calm(0.2, first, false), 8);
    assert TrackAfter(cfg, mid).budget == Budget(820, 120, opening);
    if second - opening > 3600.0 {
      BurstPays(cfg, mid, second, false, 8);
    } else {
      BurstIsRefused(cfg, mid, second, false, 8);
    }
  }

  /** Trust before and after the two bursts. */
  lemma TwoBurstsTrust(cfg: Config, opening: real, first: real, second: real)
    requires cfg.recoveryCap == 120 && opening > 3600.0 && opening <= first <= opening + 3600.0
    ensures var ops := Play(cfg, TwoBursts(opening, first, second));
            && StateAt(cfg, ops, 1).budget.trust == 700
            && StateAt(cfg, ops, 17).budget.trust == if second - opening > 3600.0 then 940 else 820
  {
    hide TrackAfter, Play, TwoBursts, StateAt;
    var ms, open := TwoBursts(opening, first, second), [Calm(0.45, opening, false)];
    TwoBurstsTrack(cfg, opening, first, second);
    PlayedTrack(cfg, ms, 17);
    assert ms[..17] == ms;
    PlayedTrack(cfg, ms, 1);
  }

  /** On a run of the engine: the two bursts stay within one budget exactly when
      the second falls in the window of the first, however close they are to each
      other; otherwise they earn two. */
  lemma SecondBurstPaysExactlyAfterWindow(cfg: Config, opening: real, first: real, second: real) returns (ops: seq<Op>)
    requires cfg.recoveryCap == 120 && opening > 3600.0 && opening <= first <= opening + 3600.0
    ensures |ops| == 17 && forall i :: 0 <= i < 17 ==> ops[i].Assessed?
    ensures ops[0].attempt.now == opening
    ensures forall i :: 1 <= i < 9 ==> ops[i].attempt.now == first
    ensures forall i :: 9 <= i < 17 ==> ops[i].attempt.now == second
    ensures StateAt(cfg, ops, 17).budget.trust - StateAt(cfg, ops, 1).budget.trust == PassiveGain(cfg, ops, 1, 17)
    ensures PassiveGain(cfg, ops, 1, 17) <= 120 <==> second - opening <= 3600.0
    ensures second - opening > 3600.0 ==> PassiveGain(cfg, ops, 1, 17) == 240
  {
    hide TrackAfter, Apply, Play, TwoBursts, StateAt, PassiveGain, Assess, Attainable, AtHome;
    var ms := TwoBursts(opening, first, second);
    PlayIsRun(cfg, ms);
    ops := Play(cfg, ms);
    TwoBurstsTrust(cfg, opening, first, second);
    CostlessGain(cfg, ops, 1, 17);
  }

  /** Ten seconds can see two budgets: one at the end of a window, the next as
      the following one opens. */
  lemma TwoBudgetsInTenSeconds(cfg: Config) returns (ops: seq<Op>)
    requires cfg.recoveryCap == 120
    ensures |ops| == 17 && Within(ops, 1, 17, 13595.0, 10.0)
    ensures PassiveGain(cfg, ops, 1, 17) == 240
    ensures StateAt(cfg, ops, 17).budget.trust == StateAt(cfg, ops, 1).budget.trust + 240
  {
    hide StateAt, PassiveGain;
    ops := SecondBurstPaysExactlyAfterWindow(cfg, 10000.0, 13595.0, 13605.0);
  }
}
