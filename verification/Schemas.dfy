/** The vocabulary shared by every component: the enumerations and the identity
    event of the API contract. */
module Schemas {

  datatype Option<+T> = None | Some(value: T)

  /** Why a signed token or assertion is refused. */
  datatype Rejection = MalformedAssertion | BadSignature | IdentityMismatch | ExpiredAssertion | ReplayedNonce

  datatype Result<+T> = Ok(value: T) | Err(error: Rejection)

  datatype EventType =
    | Login
    | Transaction
    | Onboarding
    | AccountRecovery
    | PrivilegedAccess
    | ProfileChange

  datatype Channel =
    | MobileApp
    | InternetBanking
    | Branch
    | Api
    | AdminConsole

  datatype Decision = Allow | StepUp | Block

  datatype StepUpMethod =
    | DeviceBiometric
    | OtpSms
    | SecurityQuestions
    | VideoKyc
    | ManagerApproval

  datatype Band =
    | Low
    | Elevated
    | High
    | Critical
    | DriftReview
    | DegradedFailClosed
    | DegradedFailOpen

  type Hour = h: int | 0 <= h < 24

  datatype Event = Event(
    identityId: string,
    eventType: EventType,
    channel: Channel,
    deviceId: string,
    geo: string,
    hourOfDay: Hour,
    amount: Option<real>,
    isNewBeneficiary: bool,
    recoveryContactChanged: bool)

  /** ALLOW < STEP_UP < BLOCK. */
  function Severity(d: Decision): int {
    match d
    case Allow => 0
    case StepUp => 1
    case Block => 2
  }
}
