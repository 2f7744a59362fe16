/** Turning a trust score and a risk into a decision, and adjusting it when the
    model is unavailable. */
module Policy {
  import opened Schemas

  datatype Verdict = Verdict(decision: Decision, band: Band, challenge: Option<StepUpMethod>)

  function RiskBand(trust: int, risk: real): Band {
    if trust >= 650 && risk < 0.45 then Low
    else if trust >= 400 && risk < 0.65 then Elevated
    else if trust >= 150 then High
    else Critical
  }

  function CheapestSufficient(e: Event, strong: bool): StepUpMethod {
    if e.eventType.AccountRecovery? || e.eventType.Onboarding? then VideoKyc
    else if strong then OtpSms
    else DeviceBiometric
  }

  function Decide(trust: int, risk: real, e: Event): Verdict {
    var band := RiskBand(trust, risk);
    if e.eventType.PrivilegedAccess? then
      match band
      case Low => Verdict(Allow, band, None)
      case Elevated => Verdict(StepUp, band, Some(ManagerApproval))
      case High => Verdict(StepUp, band, Some(ManagerApproval))
      case _ => Verdict(Block, band, None)
    else
      match band
      case Low => Verdict(Allow, band, None)
      case Elevated => Verdict(StepUp, band, Some(CheapestSufficient(e, false)))
      case High => Verdict(StepUp, band, Some(CheapestSufficient(e, true)))
      case _ => Verdict(Block, band, None)
  }

  predicate FailClosed(t: EventType) {
    t.PrivilegedAccess? || t.AccountRecovery? || t.Onboarding?
  }

  /** The decision of an engine whose model failed. */
  function Degrade(v: Verdict, e: Event): Verdict {
    if FailClosed(e.eventType) then
      if v.decision.Allow? then
        Verdict(StepUp, DegradedFailClosed,
                Some(if e.eventType.PrivilegedAccess? then ManagerApproval else VideoKyc))
      else
        v.(band := DegradedFailClosed)
    else
      v.(band := DegradedFailOpen)
  }

  /** A verdict names a challenge exactly when it asks for one. */
  predicate WellFormed(v: Verdict) {
    v.decision.StepUp? <==> v.challenge.Some?
  }

  /** More trust and less risk never make the decision harsher. */
  lemma DecideIsMonotone(trust: int, risk: real, trust': int, risk': real, e: Event)
    requires trust' <= trust && risk <= risk'
    ensures Severity(Decide(trust, risk, e).decision) <= Severity(Decide(trust', risk', e).decision)
  {
  }

  lemma DecisionRegions(trust: int, risk: real, e: Event)
    ensures Decide(trust, risk, e).decision.Allow? <==> trust >= 650 && risk < 0.45
    ensures Decide(trust, risk, e).decision.Block? <==> trust < 150
    ensures WellFormed(Decide(trust, risk, e))
  {
  }

  /** The bands tile the plane of trust and risk. */
  lemma BandRegions(trust: int, risk: real)
    ensures RiskBand(trust, risk) == Low <==> trust >= 650 && risk < 0.45
    ensures RiskBand(trust, risk) == Elevated
            <==> (400 <= trust < 650 && risk < 0.65) || (trust >= 650 && 0.45 <= risk < 0.65)
    ensures RiskBand(trust, risk) == High <==> 150 <= trust < 400 || (trust >= 400 && risk >= 0.65)
    ensures RiskBand(trust, risk) == Critical <==> trust < 150
  {
  }

  /** Degradation never relaxes a decision and never blocks a new one. */
  lemma DegradeOnlyEscalates(v: Verdict, e: Event)
    requires WellFormed(v)
    ensures WellFormed(Degrade(v, e))
    ensures Degrade(v, e).decision.Block? <==> v.decision.Block?
    ensures Degrade(v, e).decision.Allow? <==> v.decision.Allow? && !FailClosed(e.eventType)
  {
  }
}
