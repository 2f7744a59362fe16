/** The slow climb on the engine: event after event allowed while the risk rises
    from 0.16 to 0.44. */
module SlowClimb {
  import opened Schemas
  import opened Identity
  import opened Engine
  import opened Runs
  import opened Scenarios
  import opened DriftRuns
  import Drift

  /** A run of assessments at low risk with a working model. */
  ghost predicate Unremarkable(cfg: Config, ops: seq<Op>) {
    forall k :: 0 <= k < |ops| ==> ops[k].Assessed? && ops[k].attempt.ml.Some? && OutcomeAt(cfg, ops, k).risk < 0.45
  }

  lemma {:induction false} TrustIsKept(cfg: Config, ops: seq<Op>, i: nat)
    requires i <= |ops| && Unremarkable(cfg, ops)
    ensures StateAt(cfg, ops, i).budget.trust >= 700
  {
    hide Apply, Assess;
    if i > 0 {
      TrustIsKept(cfg, ops, i - 1);
      TrustInRange(cfg, ops, i - 1);
      assert OutcomeAt(cfg, ops, i - 1).risk < 0.45;
      LowRiskKeepsTrust(cfg, StateAt(cfg, ops, i - 1), ops[i - 1].attempt);
    }
  }

  lemma LowRiskKeepsTrust(cfg: Config, s: Snapshot, a: Attempt)
    requires 0 <= s.budget.trust <= 1000 && Assess(cfg, s, a).risk < 0.45
    ensures Apply(cfg, s, Assessed(a)).budget.trust >= s.budget.trust
    ensures Assess(cfg, s, a).state.budget.trust >= s.budget.trust
  {
    TrustMoves(cfg.recoveryCap, s.budget, EventRisk(cfg, s, a), a.now);
  }

  /** Every event of a slow climb below 0.45 is allowed. */
  lemma SlowClimbIsAllowed(cfg: Config, ops: seq<Op>, i: nat)
    requires i < |ops| && Unremarkable(cfg, ops) && Drift.ClimbsAtMost(Risks(cfg, ops, 0, i + 1), 0.00045)
    ensures Decided(cfg, ops, i, Allow)
  {
    var s, a := StateAt(cfg, ops, i), ops[i].attempt;
    assert OutcomeAt(cfg, ops, i).risk < 0.45;
    hide Assess, Drift.ClimbsAtMost, Drifted;
    TrustIsKept(cfg, ops, i);
    TrustInRange(cfg, ops, i);
    LowRiskKeepsTrust(cfg, s, a);
    SlowClimbIsNeverFlagged(cfg, ops, i);
    AllowExactly(cfg, s, a);
  }

  function Climb(n: nat, ks: bool): (ms: seq<Move>)
    ensures |ms| == n
    ensures forall i :: 0 <= i < n ==> ms[i] == Calm(0.16 + 0.0004 * i as real, 10000.0, ks)
  {
    seq(n, (i: nat) => Calm(0.16 + 0.0004 * i as real, 10000.0, ks))
  }

  lemma {:induction false} RisksOfAssessments(cfg: Config, ops: seq<Op>, n: nat)
    requires n <= |ops| && forall k :: 0 <= k < |ops| ==> ops[k].Assessed?
    ensures |Risks(cfg, ops, 0, n)| == n && forall k :: 0 <= k < n ==> Risks(cfg, ops, 0, n)[k] == OutcomeAt(cfg, ops, k).risk
  {
    hide Assess, StateAt;
    if n > 0 {
      RisksOfAssessments(cfg, ops, n - 1);
    }
  }

  lemma ClimbIsAttainable(n: nat, ks: bool)
    requires n <= 701
    ensures forall i :: 0 <= i < n ==> Attainable(Climb(n, ks)[i])
  {
  }

  lemma ClimbIsPlayed(cfg: Config, n: nat, ks: bool)
    requires n <= 701
    ensures var ops := Play(cfg, Climb(n, ks));
            && (forall k :: 0 <= k < n ==> ops[k].Assessed? && OutcomeAt(cfg, ops, k).risk == 0.16 + 0.0004 * k as real)
            && (forall k :: 0 <= k < n ==> ops[k].attempt.ks == ks)
            && forall k :: 0 <= k < n ==> ops[k].attempt.ml.Some?
  {
    var ms := Climb(n, ks);
    ClimbIsAttainable(n, ks);
    hide Climb, Play, TrackAfter, StateAt, Assess, OutcomeAt, Attainable, AtHome;
    PlayIsRun(cfg, ms);
    forall k: nat | k < n ensures Play(cfg, ms)[k].attempt.ml.Some? {
      PlayedByModel(cfg, ms, k);
    }
  }

  lemma {:induction false} PlayedByModel(cfg: Config, ms: seq<Move>, k: nat)
    requires k < |ms| && !ms[k].Confirm?
    ensures Play(cfg, ms)[k].Assessed? && Play(cfg, ms)[k].attempt.ml.Some?
  {
    if k < |ms| - 1 {
      PlayedByModel(cfg, ms[..|ms| - 1], k);
    }
  }

  lemma ClimbIsUnremarkable(cfg: Config, ops: seq<Op>, n: nat, ks: bool)
    requires n <= 701 && ops == Play(cfg, Climb(n, ks))
    ensures Unremarkable(cfg, ops)
    ensures forall k :: 0 <= k < n ==> ops[k].attempt.ks == ks && OutcomeAt(cfg, ops, k).risk == 0.16 + 0.0004 * k as real
  {
    hide Play, Climb, StateAt, Assess;
    ClimbIsPlayed(cfg, n, ks);
  }

  /** The run: 701 logins, with risks from 0.16 to 0.44, whatever the
      configuration and the two-sample test. */
  lemma AllowedAllTheWayUp(cfg: Config, ks: bool) returns (ops: seq<Op>)
    ensures |ops| == 701 && forall k :: 0 <= k < |ops| ==> ops[k].Assessed? && ops[k].attempt.ks == ks
    ensures forall k :: 0 <= k < |ops| ==>
              Decided(cfg, ops, k, Allow) && OutcomeAt(cfg, ops, k).risk == 0.16 + 0.0004 * k as real
  {
    ops := Play(cfg, Climb(701, ks));
    hide Play, Climb, StateAt, Assess, Decided;
    ClimbIsUnremarkable(cfg, ops, 701, ks);
    forall k: nat | k < |ops| ensures Decided(cfg, ops, k, Allow) {
      ClimbIsSlow(cfg, ops, k + 1);
      SlowClimbIsAllowed(cfg, ops, k);
    }
  }

  lemma ClimbIsSlow(cfg: Config, ops: seq<Op>, n: nat)
    requires n <= |ops| && Unremarkable(cfg, ops)
    requires forall k :: 0 <= k < |ops| ==> OutcomeAt(cfg, ops, k).risk == 0.16 + 0.0004 * k as real
    ensures Drift.ClimbsAtMost(Risks(cfg, ops, 0, n), 0.00045)
  {
    hide StateAt, Assess;
    RisksOfAssessments(cfg, ops, n);
  }
}
