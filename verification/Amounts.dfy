/** What putting an amount on an event does to its risk, the model's answer and
    everything else being equal. */
module Amounts {
  import opened Schemas
  import opened Arithmetic
  import opened Identity
  import opened Engine

  /** The same event without its amount. */
  function Amountless(a: Attempt): Attempt { a.(event := a.event.(amount := None)) }

  function Deterministic(cfg: Config, s: Snapshot, a: Attempt): Unit { Clip(Dot(WEIGHTS, Vector(cfg, s, a)), 0.0, 1.0) }

  lemma EventRiskInParts(cfg: Config, s: Snapshot, a: Attempt)
    ensures var base := BaseRisk(a.ml, Deterministic(cfg, s, a));
            EventRisk(cfg, s, a)
            == if ImpossibleTravel(cfg, s.profile, a.event, a.now) then Min(1.0, base + 0.5) else base
  {
  }

  /** A large amount can only lose the cold-start prior. */
  lemma AmountMovesTheSum(cfg: Config, s: Snapshot, a: Attempt)
    requires a.event.amount.Some? && s.burst >= 0.0 && a.sharing >= 1
    ensures var with, without := Dot(WEIGHTS, Vector(cfg, s, a)), Dot(WEIGHTS, Vector(cfg, s, Amountless(a)));
            var score := AmountScore(s.profile.amounts, a.event.amount, a.deviation);
            && 0.0 < without <= 1.0
            && with >= without + 0.11 * score
            && (a.event.amount.value < COLD_PRIOR_MAX_AMOUNT ==> with == without + 0.11 * score)
  {
    var v, v' := Vector(cfg, s, a), Vector(cfg, s, Amountless(a));
    WeightedSum(v);
    WeightedSum(v');
    RiskIsAWeightedMean(cfg, s, Amountless(a));
    VectorsCompare(cfg, s, a);
    hide Dot, Vector, AmountScore;
  }

  lemma VectorsCompare(cfg: Config, s: Snapshot, a: Attempt)
    requires a.event.amount.Some?
    ensures var v, v' := Vector(cfg, s, a), Vector(cfg, s, Amountless(a));
            && |v| == |v'| == 11
            && v[3] == AmountScore(s.profile.amounts, a.event.amount, a.deviation) && v'[3] == 0.0
            && v'[0] <= v[0] && v'[1] <= v[1] && v'[5] >= 0.2
            && (a.event.amount.value < COLD_PRIOR_MAX_AMOUNT ==> v[0] == v'[0] && v[1] == v'[1])
            && v[2] == v'[2] && v[4] == v'[4] && v[5] == v'[5] && v[6] == v'[6] && v[7] == v'[7]
            && v[8] == v'[8] && v[9] == v'[9] && v[10] == v'[10]
  {
    hide HourDeviation, AmountScore;
    NoAmountNoScore(s.profile.amounts, a.deviation);
  }

  lemma NoAmountNoScore(amounts: seq<real>, deviation: real)
    ensures AmountScore(amounts, None, deviation) == 0.0
  {
  }

  /** An amount lowers the risk of an event exactly when it is out of scale,
      negative on a short history, unless the travel boost takes both to 1. */
  lemma AmountLowersRiskExactly(cfg: Config, s: Snapshot, a: Attempt)
    requires s.burst >= 0.0 && a.sharing >= 1
    ensures EventRisk(cfg, s, a) < EventRisk(cfg, s, Amountless(a))
            <==> !AmountInScale(s.profile.amounts, a.event.amount)
                 && !(ImpossibleTravel(cfg, s.profile, a.event, a.now)
                      && BaseRisk(a.ml, Deterministic(cfg, s, a)) >= 0.5)
  {
    if a.event.amount.None? {
      assert Amountless(a) == a;
    } else {
      AmountMovesTheSum(cfg, s, a);
      AmountScoreIsUnit(s.profile.amounts, a.event.amount, a.deviation);
      AmountScoreAtMostOne(s.profile.amounts, a.event.amount, a.deviation);
      EventRiskInParts(cfg, s, a);
      EventRiskInParts(cfg, s, Amountless(a));
      SumsCompare(Dot(WEIGHTS, Vector(cfg, s, a)), Dot(WEIGHTS, Vector(cfg, s, Amountless(a))), a.ml);
      hide Dot, Vector, EventRisk, AmountInScale, AmountScore;
      assert ImpossibleTravel(cfg, s.profile, a.event, a.now)
             == ImpossibleTravel(cfg, s.profile, Amountless(a).event, Amountless(a).now);
    }
  }

  lemma AmountScoreAtMostOne(amounts: seq<real>, amount: Option<real>, deviation: real)
    ensures AmountScore(amounts, amount, deviation) <= 1.0
    ensures !AmountInScale(amounts, amount) ==> amount.Some? && amount.value < 0.0
  {
  }

  lemma SumsCompare(with: real, without: real, ml: Option<Unit>)
    requires 0.0 < without <= 1.0
    ensures with < without <==> BaseRisk(ml, Clip(with, 0.0, 1.0)) < BaseRisk(ml, Clip(without, 0.0, 1.0))
  {
  }

  /* ---- How far it can go ---- */

  const BARE: Attempt :=
    Attempt(Event("u", AccountRecovery, AdminConsole, "d", "IN-GJ", 9, None, true, true), 0.0, Some(1.0), 1, 0.0, None, true)

  function Priced(ml: Unit): Attempt { BARE.(event := BARE.event.(amount := Some(-1000000.0)), ml := Some(ml)) }

  /** An unseen identity's account recovery with every warning sign: a large
      negative amount wipes out the whole deterministic half of its risk. */
  lemma NegativeAmountSilencesTheFeatures(cfg: Config, ml: Unit)
    ensures EventRisk(cfg, UNSEEN, Priced(ml)) == 0.55 * ml
    ensures EventRisk(cfg, UNSEEN, Amountless(Priced(ml))) > 0.55 * ml + 0.25
  {
    PricedVector(cfg, ml);
    WeightedSum(Vector(cfg, UNSEEN, Priced(ml)));
    WeightedSum(Vector(cfg, UNSEEN, Amountless(Priced(ml))));
    EventRiskInParts(cfg, UNSEEN, Priced(ml));
    EventRiskInParts(cfg, UNSEEN, Amountless(Priced(ml)));
    hide Dot, Vector, EventRisk;
  }

  lemma PricedVector(cfg: Config, ml: Unit)
    ensures var v, v' := Vector(cfg, UNSEEN, Priced(ml)), Vector(cfg, UNSEEN, Amountless(Priced(ml)));
            && v' == [0.4, 0.5, 0.5, 0.0, 1.0, 0.8, 0.7, 1.0, 1.0, 1.0 / 15.0, 0.0]
            && v == v'[3 := -10.0]
  {
    var p, e := UNSEEN.profile, Priced(ml).event;
    assert HourDeviation(p.hours, 9) == 0.5;
    assert AmountScore(p.amounts, e.amount, 0.0) == -10.0;
    hide HourDeviation, AmountScore;
  }
}
