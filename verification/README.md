# PRAMAAN identity trust engine: a verified model

PRAMAAN scores identity events. Each event is turned into eleven features and a
risk; the risk moves a trust score, feeds two drift detectors and yields ALLOW,
STEP_UP or BLOCK; only allowed events are folded into the identity's profile; and
the new state is stored by compare-and-set, retried up to six times. Around that
core sit a hash-chained audit log, an asynchronous pod pipeline, and the small
caches of the HTTP service: idempotent replay, step-up rate limits and
single-use nonces.

The proofs are about whole runs: every sequence of committed operations of one
identity, every interleaving of any number of pods, every list of records handed
to the chain verifier, every history of requests to a cache.

## How it is laid out

| files | subject |
|---|---|
| `Schemas`, `Arithmetic`, `Identity` | events, rounding, one identity's state and its features |
| `Drift`, `Policy`, `Engine` | the detectors, the banding and one whole assessment, as functions of a stored state |
| `Signals`, `Travel`, `Amounts` | what each signal of an event is worth, which moves count as impossible travel and what an amount does to the risk |
| `Runs`, `Recovery`, `DriftRuns`, `Monotone` | what holds of every run of one identity, and what a higher risk does to a decision |
| `Scenarios`, `TwoSample`, `Softening`, `SlowClimb`, `Newcomer` | runs built to order from a list of risks, the exact two-sample test on a full window, the run on which a higher risk is the better one, the run that climbs unnoticed and the new identity reviewed on its tenth event |
| `StateStore`, `TrustEngine` | the record, the in-memory store and the engine as classes that mutate it, with the retry loop, each method proved equal to those functions |
| `Cluster` | any number of pods over one versioned store, with or without a working lock, with or without failing commits |
| `Chain`, `Pipeline`, `Stores` | the audit chain, the pod pipeline as a step relation, and the tables and pod loop as classes |
| `Idempotency`, `Limiter`, `Nonce` | the service's bounded structures against specifications that remember everything |
| `Tokens`, `Cost` | the signed-token codec, and the choice of an alert threshold of least expected cost |

A run of one identity is the list of its committed operations in commit order
(`Runs.Op`), and `Runs.StateAt` is the state after a prefix of it. `Cluster`
proves that every interleaving stores exactly such a state, so each theorem on
runs is a theorem on the concurrent system.

## What is assumed

- `ml_risk` is any number in [0, 1] or a failure; the two-sample test is any
  Boolean; the wall clock, the number of identities on a device and the spread of
  past amounts are inputs of each attempt and may differ from one to the next.
- Floating point is modelled by reals. The rounding to four decimals of the risk
  window is modelled exactly, ties to even.
- SHA-256 is injective on record bodies and a MAC or signature is valid only for
  the key and message it was made for. JSON text is read back as it was written.

## Where the code and its comments differ

The model follows the code.

- `backend/app/drift.py:14` promises that the CUSUM catches an arbitrarily slow
  ramp. It does not: a climb of at most 0.00045 per event is never caught
  (`Drift.SlowClimbNeverFires`), nor by the window test
  (`DriftRuns.SlowClimbIsNeverFlagged`): on one run of the engine 701 logins are
  all allowed while the risk rises from 0.16 to 0.44
  (`SlowClimb.AllowedAllTheWayUp`). A steady climb is caught by its n-th event exactly
  when its leads over the baseline, s / 0.03 * (1 - 0.97^i) each, have by then
  added up to more than 0.4 above the slack (`Drift.RampIsCaughtExactly`), so on
  the risks the engine can see exactly when there is room for that below 1
  (`Drift.RampIsCaughtInRangeExactly`). Being steeper than 0.00045 is enough only
  if risk had no upper end (`Drift.EndlessRampIsCaughtExactly`): a climb from 0 at
  0.000455 goes all the way to 1 unnoticed (`Drift.GentleRampEscapes`). What the
  code does guarantee is the numeric bound of `DriftRuns.AllowCertifiesBaseline`.
- One would expect that a riskier event never gets a softer decision
  (`backend/app/policy.py:17-24` bands that way, and trust and the CUSUM follow).
  The two-sample test of `backend/app/drift.py:50-54` breaks it: it sees the new
  risk, and a higher one can make the halves of the window look more alike. The
  decision softens exactly when the raised event meets every condition of an
  ALLOW and the lower one was caught (`Monotone.SoftensExactly`), which takes the
  test's alarm on the lower risk alone. `Softening.MoreRiskCanBeRewarded` is a run
  of twelve events after which risk 0.16 is reviewed and risk 0.175 allowed.
- `backend/app/risk_engine.py:162` calls the recovery window rolling. It is
  tumbling: two budgets can be spent within seconds
  (`Recovery.TwoBudgetsInTenSeconds`, a run), exactly when the window expires in between
  (`Recovery.SecondBurstPaysExactlyAfterWindow`). Over any h hours at most h + 1
  budgets are (`Recovery.PassiveRecoveryIsBounded`).
- `backend/app/verifier.py:288` reads the clock for freshness and line 225 reads
  it again to prune, and nothing keeps `time.time()` from going back. A used
  assertion is accepted again exactly when it is fresh by the first reading and
  some lookup since its use, this call's own included, has pruned past its expiry
  (`Nonce.ReplayAcceptedExactly`). That happens when the expiry falls between the
  two readings of the second presentation (`Nonce.ReplayInClockGap`), the only way
  while the clock never goes back (`Nonce.ReplayAcceptedExactlyInClockGap`), or
  when the clock steps back after another assertion's lookup
  (`Nonce.ReplayAfterStepBack`).
- A Redis commit whose acknowledgement is lost returns False after it has written
  (`backend/app/state_store.py:192-197`); the retry then applies the request
  again (`Cluster.LostAckAppliesTwice`). A request that is answered as stored was
  applied exactly once just when none of its acknowledgements was lost
  (`Cluster.EffectsAreWrites`).
- After six failed attempts the loop of `assess` falls through and returns a
  decision that was never stored. The run theorems are therefore about committed
  operations; `Cluster.EachRequestCountsOnce` says when this happens.
- Privileged access is said to be challenged by a manager
  (`backend/app/policy.py:26-32`); a drift review asks it for an OTP instead
  (`Runs.ChallengeFitsTheEvent`).
- Nothing in the event schema (`backend/app/schemas.py:64`) keeps an amount from being
  negative, and a short history scales it as it is: the features are all in [0, 1]
  exactly when that does not happen (`Identity.FeaturesAreUnit`). That is also
  exactly when an amount lowers the risk of its event, unless the travel boost
  takes the risk to 1 all the same (`Amounts.AmountLowersRiskExactly`); a large one
  wipes out the deterministic half (`Amounts.NegativeAmountSilencesTheFeatures`).
- The velocity feature halves per event and not with time, so it stays below 2/15
  of its scale whatever the traffic (`Runs.VelocityNeverReachesItsCap`).
- `PostgresAuditStore.head_checkpoint` reads head and count in two statements. If
  another pod appends in between, the checkpoint it signs matches no chain at all
  (`Stores.AuditStore.HeadCheckpoint`).
- With tied scores the minimum reported by `cost_analysis` can be a cost no
  threshold attains (`Cost.TieWitness`), and `Cost.TiesShiftTheCost` says exactly
  when it is attained.
- The audit payload carries the assessment's own `event_id`, a fresh identifier
  (`backend/app/risk_engine.py:272`), and the decisions table the one from the
  queue. A published decision is matched with its audit record by assessment.

## Model

| member | source | states |
|---|---|---|
| Cluster.EveryRunIsSerial | backend/app/risk_engine.py:193-259 | in every interleaving of any pods, with or without an excluding lock, on a failing store or a sound one, each identity's state is the fold of its committed operations in commit order from the unseen state, its version is their number, every loaded copy is a past of that order and every answer is explained by it |
| Cluster.WriteIsSerial | backend/app/state_store.py:127-137 | no lost update: a write whose version check passes extends the serial order and leaves everything reported before explained |
| Cluster.FailIsSerial | backend/app/risk_engine.py:258-259 | a failed attempt changes no stored state and keeps the order |
| Cluster.AnswersAreSerialOutcomes | backend/app/risk_engine.py:271-290 | the decision a caller receives is the one the serial run yields at the position the answer reports, and a stored answer's operation sits exactly there |
| Cluster.EachRequestCountsOnce | backend/app/risk_engine.py:193-259 | on a store that fails only on conflicts a request takes effect exactly once if its answer was stored, not at all otherwise, never on another identity, and gives up only after at least six commits made meanwhile by others |
| Cluster.EffectsAreWrites | backend/app/state_store.py:180-197 | in general a request takes effect once per lost acknowledgement and once more if stored; a stored one exactly once if and only if no acknowledgement was lost |
| Cluster.LostAckAppliesTwice | backend/app/state_store.py:192-197 | a run of five steps in which one passed step-up is credited twice |
| Cluster.EveryRunIsAccounted | backend/app/risk_engine.py:60-60 | invariant behind the counts: for every request in progress or answered, its failures, its lost writes and the commits since it began add up, after every run |
| Cluster.FirstCommitSucceeds | backend/app/state_store.py:113-120 | when every writer holds the per-key lock, every request is stored at its first attempt, and whoever has loaded sees the newest state |
| Runs.TrustInRange | backend/app/risk_engine.py:158-170 | in every reachable state trust is in 0..1000 and the version counts the commits |
| Runs.AllowExactly | backend/app/risk_engine.py:237-250 | an assessment is ALLOW if and only if the new trust is at least 650, the risk below 0.45, no review is open, no drift detector fires and, for fail-closed events, the model worked |
| Runs.BlockMeans | backend/app/risk_engine.py:237-250 | BLOCK if and only if the new trust is below 150, through review and degradation; and a challenge is named exactly with STEP_UP |
| Runs.BandExactly | backend/app/policy.py:16-24 | the band of every verdict by the new trust, the risk, the review and the model's failure, with every threshold |
| Policy.BandRegions | backend/app/policy.py:16-24 | the four bands tile the plane of trust and risk, each by its own region |
| Runs.ReviewOpensExactly | backend/app/risk_engine.py:239-246 | the review flag is set after an assessment if and only if it was before, or the event drifts with trust of 650 and a risk below 0.45 |
| Runs.CustomerChallengeExactly | backend/app/policy.py:34-54 | a customer-facing step-up asks for the one-touch biometric if and only if trust is at least 400, the risk below 0.65 and it is no review of an otherwise allowed event, and for the OTP in every other case |
| Runs.ChallengeFitsTheEvent | backend/app/policy.py:26-54 | the challenge of every sensitive event: video for identity proofing, and for privileged access a manager, except an OTP exactly in a drift review with trust of 650 and a risk below 0.45 |
| Runs.VelocityNeverReachesItsCap | backend/app/features.py:75-89 | in every reachable state the velocity feature of the next event is above 0 and below 2/15 |
| Signals.BurstExactly | backend/app/features.py:75-75 | after n assessments, however far apart and whatever came of them, the velocity counter is 2 - 2 / 2^n |
| Runs.OnlyAllowTeaches | backend/app/risk_engine.py:252-257 | no operation other than an ALLOW changes any profile field or the travel reference |
| Runs.ReviewIsSticky | backend/app/risk_engine.py:239-257 | from the commit that opens a review until a passed step-up, whatever else is committed, the review stays open, nothing is allowed and the whole profile is frozen |
| Runs.ProfileIsTrustedHistory | backend/app/features.py:94-103 | in every reachable state devices, geos, hours, amounts, event count and last geo are exactly those of the committed ALLOW events, in order |
| Runs.PriorIsSpentByFirstAssessment | backend/app/risk_engine.py:203-208 | the one-shot flag is set exactly when some assessment has been committed, so always once anything was learnt |
| Runs.DampedAtMostOnce | backend/app/risk_engine.py:203-206 | a damped committed assessment is the identity's first, and no later one is damped |
| Runs.BlockIsNeverFirst | backend/app/risk_engine.py:158-161 | every BLOCK is preceded, since creation or the last ALLOW, by a committed STEP_UP or a failed step-up |
| Runs.ReferenceIsLastAllow | backend/app/risk_engine.py:252-257 | the travel reference is the place and time of the last committed ALLOW, whatever came after it |
| Runs.TravelTakesAnHour | backend/app/risk_engine.py:172-178 | two successive committed ALLOWs in different countries are at least 3600 s apart, the first with a known place |
| Runs.AnyTravelTakesAnHour | backend/app/risk_engine.py:172-178 | with commit-order clocks and known places the same of any two committed ALLOWs |
| Travel.CountryExactly | backend/app/risk_engine.py:70-71 | the country of a place is all that comes before its first dash, the whole of it where there is none |
| Travel.FlaggedExactly | backend/app/risk_engine.py:172-178 | between two known places an event is flagged if and only if the check is on, the countries differ and less than 3600 s have passed: no move inside a country is |
| Travel.HomeIsNeverBoosted | backend/app/risk_engine.py:172-178 | an event from the reference's own country, or without a reference, has the risk it would have without the check |
| Travel.FlaggedAfterAllowExactly | backend/app/risk_engine.py:223-227 | on runs: after a committed ALLOW in one country an event of another is a half riskier, up to 1, exactly within the hour, and every other event is as risky as without the check |
| Recovery.GainPerRestart | backend/app/risk_engine.py:162-170 | any stretch of a run earns at most one budget per restart plus what is recorded, and restarts are over an hour apart |
| Recovery.PassiveRecoveryIsBounded | backend/app/risk_engine.py:162-170 | over any stretch whose clocks span at most h >= 1 hours, passive gain is at most (h + 1) budgets, in any clock order |
| Recovery.WithoutRestartOneBudget | backend/app/risk_engine.py:164-169 | while the window is not restarted, the gain is at most what was left of one budget, however long |
| Recovery.GainIsRecorded | backend/app/risk_engine.py:162-170 | where trust is not clipped at 1000, the gain of any stretch of any run is exactly what its closed windows and the open one recorded in it |
| Recovery.HourWithinBudgetExactly | backend/app/risk_engine.py:162-170 | any hour of any unclipped run holds at most one restart and stays within one budget if and only if there is none, or what the old window recorded in the hour up to it and what the new one has recorded come to no more |
| Recovery.TrustRiseIsAccountedFor | backend/app/risk_engine.py:293-311 | bookkeeping for the next row: apart from what is counted as passive gain, trust rises by at most 250 per passed step-up |
| Recovery.TrustRiseIsBounded | backend/app/risk_engine.py:158-170 | over any stretch whose clocks span at most h >= 1 hours, trust rises by at most (h + 1) budgets and 250 per passed step-up |
| Recovery.SecondBurstPaysExactlyAfterWindow | backend/app/risk_engine.py:164-169 | on a run of a new identity, two bursts of eight calm logins after one that opens the window stay within one budget if and only if the second still falls in that window, whenever they come; otherwise they earn two |
| Recovery.TwoBudgetsInTenSeconds | backend/app/risk_engine.py:162-166 | a run that earns 240 points within ten seconds: the window tumbles |
| Drift.CusumIsMaximumSuffix | backend/app/drift.py:59-64 | the CUSUM is the maximum of zero, every sum of excess over consecutive events ending now, and the initial value plus the whole sum |
| Drift.FiresExactlyOnLargeSuffix | backend/app/drift.py:59-64 | it is over the threshold if and only if some such sum is |
| Drift.ExcessTelescopes | backend/app/drift.py:61-63 | once the baseline is positive, alpha times the sum of excess is the baseline's move minus alpha * slack per event |
| Drift.CusumBoundsBaseline | backend/app/drift.py:59-64 | so the baseline moved by at most 0.03 times the CUSUM plus 0.00045 per event |
| Drift.ClimbLag | backend/app/drift.py:61-63 | a risk that climbs by at most s per event leads its baseline by at most s / alpha |
| Drift.SlowClimbNeverFires | backend/app/drift.py:59-64 | a climb of at most alpha * slack per event leaves the CUSUM at zero for ever |
| Drift.SlowClimbWitness | backend/app/drift.py:14-15 | such a climb from 0.05 to 0.45 |
| Drift.SlowWindowIsNotAShift | backend/app/drift.py:40-49 | rounded risks that climb by at most 0.00045 per event, falling as they please, never pass the window test |
| DriftRuns.SlowClimbKeepsCreeping | backend/app/risk_engine.py:231-246 | on any run whose committed risks climb by at most 0.00045 per assessment, step-ups in between or not, the CUSUM stays zero and no review is opened |
| DriftRuns.SlowClimbIsNeverFlagged | backend/app/risk_engine.py:229-246 | so neither detector ever fires on it and no decision is a drift review |
| SlowClimb.SlowClimbIsAllowed | backend/app/risk_engine.py:237-250 | below 0.45 and with a working model every event of such a run is allowed |
| SlowClimb.AllowedAllTheWayUp | backend/app/risk_engine.py:193-259 | a run of 701 logins with risks from 0.16 to 0.44, every one allowed, for any configuration and verdicts of the two-sample test |
| Drift.SteepClimbFires | backend/app/drift.py:59-64 | a climb is caught by the event where its rise exceeds 0.00045 per event, 0.012 and the lag of the baseline |
| Drift.RampIsCaughtExactly | backend/app/drift.py:14-15 | for every start, slope and n: a steady climb of n events is caught if and only if its leads over the baseline, in closed form, add up to more than the threshold above the slack |
| Drift.AccumulatedInClosedForm | backend/app/drift.py:59-64 | that sum without the sum, from the last lead within the slack on |
| Drift.RampReading | backend/app/drift.py:59-64 | the detector's two fields after any number of events of a steady climb |
| Drift.RampIsCaughtInRangeExactly | backend/app/drift.py:14-15 | for every start in [0, 1] and slope: a steady climb is caught before its risk exceeds 1 if and only if the leads it has room for add up to more than the threshold |
| Drift.EndlessRampIsCaughtExactly | backend/app/drift.py:14-15 | with risks let rise above 1, a steady climb is caught at some point if and only if its slope is over alpha * slack |
| Drift.GentleRampEscapes | backend/app/drift.py:14-15 | a steady climb over alpha * slack is never caught in range when (1 - start) * (slope - 0.00045) is at most 0.012 * slope |
| Drift.QuietWindowIsNotAShift | backend/app/drift.py:40-49 | rounded risks out of a band of width 0.015 never pass the window test |
| Drift.DetectExactly | backend/app/drift.py:40-54 | the window test fires if and only if there are at least eight readings, the late half of the last twelve (or fewer) outweighs the early one by 0.08 a reading, both as sums over explicit places, and the two-sample test agrees |
| Drift.VisibleShiftIsDetected | backend/app/drift.py:40-56 | for every window of at least eight readings, a rise by 0.08 from each early reading to each late one passes it once the two-sample test agrees |
| Newcomer.TenReadingsAreEnough | backend/app/drift.py:41-54 | a run in which a new identity's tenth login, its risk up from 0.20 to 0.29 five events ago, is sent to a drift review and not learnt from, with the CUSUM silent and the exact two-sample verdict on its ten readings |
| DriftRuns.EngineRunsTheDetector | backend/app/risk_engine.py:231-235 | between passed step-ups the stored EWMA and CUSUM are a run of the detector over exactly the committed risks |
| DriftRuns.StepUpExactly | backend/app/risk_engine.py:299-311 | what a committed step-up changes and, field by field, what it leaves |
| DriftRuns.DetectorsSinceStepUp | backend/app/risk_engine.py:231-233 | in every state the window holds exactly the last sixteen risks since the last passed step-up, rounded, and the CUSUM is the detector's over all of them, started from zero |
| DriftRuns.DriftedExactly | backend/app/risk_engine.py:229-235 | an event drifts if and only if detection is on and the CUSUM it leaves is over 0.4, or the identity is known and the window it leaves passes the window test |
| DriftRuns.WindowNeedsEight | backend/app/risk_engine.py:305-308 | so among the seven assessments after a passed step-up only the CUSUM can flag an identity |
| DriftRuns.AllowCertifiesBaseline | backend/app/risk_engine.py:232-246 | every committed ALLOW certifies that the baseline has risen by at most 0.012 plus 0.00045 per assessment since any earlier point with a positive baseline and no passed step-up since |
| DriftRuns.QuietStaysCalm | backend/app/risk_engine.py:231-246 | if all committed risks lie in a band of width 0.015, in every state the CUSUM is zero, the EWMA is in the band, the window is in it up to rounding and no review is open |
| DriftRuns.QuietIsNeverFlagged | backend/app/risk_engine.py:229-246 | so no detector ever fires and no decision is a drift review |
| Monotone.ScoreIsMonotone | backend/app/risk_engine.py:229-250 | with all else equal more risk never means more trust; nor a softer decision unless the two-sample test alarms on the lower risk's window and not on the higher one's |
| Monotone.SoftensExactly | backend/app/risk_engine.py:229-250 | for any two risks and any two verdicts of the two-sample test, the decision softens if and only if the raised event meets every condition of an ALLOW and a drift detector caught the lower one |
| Monotone.SofteningNeedsTheTest | backend/app/drift.py:40-56 | so it takes that test's alarm on the lower risk alone, a visible shift, a known identity and a quiet CUSUM |
| Softening.MoreRiskCanBeRewarded | backend/app/drift.py:48-54 | a run of twelve events after which the next login is sent to a drift review at risk 0.16 and allowed at 0.175, each with the exact two-sample verdict on its own window |
| TwoSample.SpikeVerdicts | backend/app/drift.py:50-54 | the exact test of six readings against six rejects the one window and not the other, by counting lattice paths |
| Scenarios.PlayIsRun | backend/app/risk_engine.py:193-259 | every list of calm and alarming events with risks in their bands, any clocks and verdicts, and step-ups is a run of the engine with exactly those risks, and its stored trust, budget, detectors and review flag follow from the list |
| Monotone.MoreModelRiskIsNeverRewarded | backend/app/risk_engine.py:218-250 | the same for the model's own output: never more trust; a softer decision exactly when the raised event is allowed and the lower one was caught by a drift detector, so never if the two-sample test keeps its alarm |
| Monotone.MeanShiftIsMonotone | backend/app/drift.py:43-48 | raising the last reading never lowers the shift |
| Monotone.DetectIsMonotone | backend/app/drift.py:40-54 | a window test that fires on a risk fires on a higher one, after rounding and trimming, if the two-sample test still alarms |
| Policy.DegradeOnlyEscalates | backend/app/resilience.py:25-38 | degradation keeps BLOCK exactly, keeps ALLOW exactly for fail-open events and always names a challenge with STEP_UP |
| Policy.DecideIsMonotone | backend/app/policy.py:12-44 | more trust and less risk never give a more severe decision |
| Engine.TrustMoves | backend/app/risk_engine.py:158-170 | one event costs at most 495 and returns at most 27, both attained, and a costly one leaves the budget alone |
| Engine.TrustExactly | backend/app/risk_engine.py:158-170 | over 0.45 trust falls by the whole part of 900 points per unit of risk, to at least 0; at or under it, it rises by the whole part of 60 per unit, as far as the budget goes, to at most 1000; and the budget records just that |
| Engine.TrustIsMonotone | backend/app/risk_engine.py:158-170 | a higher risk never yields more trust, across the recovery threshold, the floors and the budget |
| Engine.RiskIsAWeightedMean | backend/app/risk_engine.py:216-217 | whenever the amount is in scale, every feature, damped or not, is in [0, 1] and so is the weighted sum before clipping |
| Engine.WeightsAddUp | backend/app/risk_engine.py:50-50 | the weights are a partition of one |
| Engine.PriorOnlySoftens | backend/app/risk_engine.py:203-206 | switching the cold-start prior on never raises a risk, travel boost and clipping included |
| Identity.NearestHourIsNearest | backend/app/features.py:49-53 | the hour distance is at most 12, no larger than to any past hour around the clock, and attained by one |
| Identity.FeaturesAreUnit | backend/app/features.py:68-91 | the eleven features are all in [0, 1] if and only if the amount is absent, not negative, or scaled by a history of at least five |
| Signals.NoveltyCosts | backend/app/features.py:79-81 | on every run: an event weighs exactly 0.14 more from a device no committed ALLOW came from than from one that some did, and 0.10 more from such a place |
| Signals.FamiliarExactly | backend/app/features.py:94-103 | in every reachable state a device or a place is known if and only if some committed ALLOW came from it |
| Signals.UnknownDeviceCosts | backend/app/features.py:80-80 | for a known identity an unknown device costs exactly 0.14 |
| Signals.UnknownGeoCosts | backend/app/features.py:81-81 | an unknown place 0.10 |
| Signals.NewBeneficiaryCosts | backend/app/features.py:87-87 | a new beneficiary 0.08 |
| Signals.RecoveryChangeCosts | backend/app/features.py:88-88 | a changed recovery contact 0.12 |
| Signals.EventTypeCosts | backend/app/features.py:85-85 | each kind of event its own surcharge over a login, up to 0.049 |
| Signals.ChannelCosts | backend/app/features.py:86-86 | each channel its own over a branch, up to 0.024 |
| Signals.SharingCosts | backend/app/features.py:76-76 | each further identity on the device a thirtieth, up to the fourth |
| Signals.AnomalyCosts | backend/app/features.py:77-77 | behaviour that could not be attested counts as half an anomaly, at 0.15 for a whole one |
| Signals.VelocityCosts | backend/app/features.py:89-89 | velocity costs a 750th per unit of the stored counter |
| Signals.HourDistanceExactly | backend/app/features.py:52-52 | the distance of two hours is the fewest steps from one to the other around the clock |
| Signals.HourDeviationExactly | backend/app/features.py:49-53 | the deviation is a half without history and else a twelfth per hour to the nearest of the last two hundred |
| Signals.OddHourCosts | backend/app/features.py:82-82 | each such hour costs a 240th |
| Signals.LongHistoryExactly | backend/app/features.py:62-65 | on five amounts or more the score is the distance from the mean of the last two hundred in units of three spreads, in full from there on, a spread under one counting as one |
| Signals.ShortHistoryExactly | backend/app/features.py:56-61 | on fewer it is the amount over 100000, in full from there on; without an amount nothing |
| Signals.PlainLoginWeighs | backend/app/features.py:79-91 | where the scale starts: the least remarkable login of a known identity weighs 0.018 and its velocity |
| Signals.FirstContactWeighs | backend/app/features.py:79-82 | and on first contact 0.131 more, whatever the device, the place and the hour |
| Signals.DiscountExactly | backend/app/risk_engine.py:203-208 | on every run the cold-start prior takes exactly 0.053 off an identity's first assessment unless anything about it is sensitive, and nothing off any other |
| Signals.RiskExactly | backend/app/risk_engine.py:216-227 | a failed model leaves the weighted sum cut to [0, 1] as the risk, a working one has eleven twentieths of the say, and the travel boost adds a half, up to 1 |
| Amounts.AmountLowersRiskExactly | backend/app/features.py:56-65 | with the model's answer and all else equal, an amount lowers the risk of its event if and only if it is negative on a history of fewer than five and the travel boost does not take the risk to 1 all the same |
| Amounts.NegativeAmountSilencesTheFeatures | backend/app/features.py:60-61 | an unseen identity's account recovery with every warning sign: with the amount -1000000 the risk is 0.55 times the model's, without it over 0.25 more |
| Arithmetic.Round4Error | backend/app/risk_engine.py:231-231 | stored risks are within 0.00005 of the risk |
| Arithmetic.Round4Exactly | backend/app/risk_engine.py:231-231 | a stored risk is the nearest multiple of a ten-thousandth, and the even one of two |
| Arithmetic.Round4Monotone | backend/app/risk_engine.py:231-231 | and keep its order, ties to even included |
| StateStore.IdentityState.constructor | backend/app/state_store.py:28-57 | a fresh copy of a stored record, field for field |
| StateStore.InMemoryStateStore.Load | backend/app/state_store.py:122-125 | a fresh copy of the stored record, or of the unseen one |
| StateStore.InMemoryStateStore.Commit | backend/app/state_store.py:127-137 | succeeds exactly when the stored version is the expected one, then stores the record with the next version, else changes nothing |
| StateStore.InMemoryStateStore.DeviceAdd | backend/app/state_store.py:139-143 | links the identity to the device and returns how many distinct ones share it |
| TrustEngine.TrustEngine.CommitFeatures | backend/app/features.py:94-103 | folds the event into the profile and changes nothing else |
| TrustEngine.TrustEngine.UpdateTrust | backend/app/risk_engine.py:158-170 | returns the new trust and changes the recovery budget only |
| TrustEngine.TrustEngine.RiskOf | backend/app/risk_engine.py:196-227 | the risk, read with the prior's flag as it was before this attempt |
| TrustEngine.TrustEngine.ObserveDrift | backend/app/risk_engine.py:229-235 | both detectors advance on every attempt, muted or not |
| TrustEngine.TrustEngine.DecideOn | backend/app/risk_engine.py:238-249 | the verdict and the review flag it raises |
| TrustEngine.TrustEngine.ScoreOnce | backend/app/risk_engine.py:196-257 | one pass of statement after statement over a mutable record is the assessment function of the record it was given |
| TrustEngine.TrustEngine.AttemptOnce | backend/app/risk_engine.py:194-259 | whatever others commit of any identity and link to any device meanwhile, one attempt commits exactly when none of it is this identity's; then the stored record is the assessment applied, else it is what the others left; and every other identity is as the others left it |
| TrustEngine.TrustEngine.Assess | backend/app/risk_engine.py:181-259 | the first of six attempts during which nobody commits this identity is the one stored, on exactly the record and the device links the others left; after six disturbed ones nothing is stored and the last decision is returned; every other identity is as the others left it |
| TrustEngine.TrustEngine.StepUpOnce | backend/app/risk_engine.py:300-310 | the same for one attempt at a step-up outcome |
| TrustEngine.TrustEngine.ApplyVerifiedStepUp | backend/app/risk_engine.py:293-311 | the same for the six, with trust up by 250 to at most 1000 and the review, window and CUSUM cleared, or down by 400 to at least 0 |
| TrustEngine.TrustEngine.OthersAct | backend/app/state_store.py:127-143 | any sequence of commits and device links by others leaves each record the fold of its own operations and each device its identities and the new ones |
| TrustEngine.ReplayIsRun | backend/app/risk_engine.py:193-259 | what the others leave on a reachable state is the state of the longer run, so the results on runs apply to what the class stores |
| TrustEngine.ReplayAdvances | backend/app/state_store.py:135-136 | every commit of theirs raises the version, so none can go unnoticed |
| Chain.VerifyRecords | backend/app/audit.py:52-67 | the verifier's loop accepts a list, honest or not, exactly when every record has its index, links to its predecessor, hashes to its hash and, with a key, is signed |
| Chain.ChainedByOne | backend/app/audit.py:38-67 | a chain and one more record is a chain if and only if the record follows from the head |
| Chain.KeyedChainAcceptsPrefixes | backend/app/audit.py:52-67 | with only issued MACs about, keyed verification accepts a list if and only if it is a prefix of the log |
| Chain.HeadCommitsToChain | backend/app/audit.py:69-80 | two chains of one length and one head have the same bodies throughout |
| Chain.CheckpointAcceptsWholeLog | backend/app/audit.py:69-83 | against the current checkpoint exactly the whole log passes with a key, and exactly the lists with its bodies without one |
| Chain.KeylessChainAcceptsAnyLog | backend/app/audit.py:52-67 | without a key exactly those lists pass that appending some payloads would have produced |
| Chain.TornCheckpointMatchesNothing | backend/app/stores.py:99-107 | a count and a head read apart match some chain if and only if the count is the length at the head |
| Chain.AuditLog.Append | backend/app/audit.py:38-50 | appends the record that follows; a chain stays one and a broken list stays broken |
| Chain.AuditLog.VerifyChain | backend/app/audit.py:52-67 | accepts exactly the chained record lists |
| Chain.AuditLog.VerifyAgainstCheckpoint | backend/app/audit.py:82-83 | accepts exactly those with the expected checkpoint |
| Pipeline.EveryRunKeepsOneChain | backend/app/stores.py:56-70 | however appenders interleave, race, crash or see an event again, the table is a gap-free, linked and signed chain, every pending append read the head of a prefix of it, and every published decision is recorded in it |
| Pipeline.InsertExtendsChain | backend/app/stores.py:40-47 | an insert that meets no row succeeds only while the head it read is still the head |
| Pipeline.VerifierAccepts | backend/app/stores.py:72-84 | the rows in order are accepted after every run |
| Pipeline.PublishedForGood | backend/app/stores.py:134-145 | no decision and no audit row is ever changed or withdrawn |
| Pipeline.AuditedBeforePublished | backend/app/scoring_pod.py:35-40 | the step that publishes a decision finds the same assessment in the audit table |
| Stores.AuditStore.ReadHead | backend/app/stores.py:58-61 | the next number and the hash of the highest row, by a search over the table |
| Stores.AuditStore.InsertRow | backend/app/stores.py:40-47 | inserts exactly when the number is free and changes nothing otherwise |
| Stores.AuditStore.Append | backend/app/stores.py:56-70 | the append succeeds exactly when nobody raced it, then adds the record that follows; in either case the table stays one growing chain |
| Stores.AuditStore.HeadCheckpoint | backend/app/stores.py:99-107 | the checkpoint commits to the chain exactly when nobody appended between its two queries, and otherwise no chain matches it |
| Stores.AuditStore.FetchOrdered | backend/app/stores.py:73-77 | all rows, once, in ascending order of number, gaps and all |
| Stores.AuditStore.VerifyChain | backend/app/stores.py:72-84 | accepts a table, whoever wrote it, if and only if it is gap-free, linked and signed |
| Stores.ScoringPod.Handle | backend/app/scoring_pod.py:31-42 | one message: audited unless it raises before or loses the append race, published unless it then raises before the put, when the audit record stays; what was published before is unchanged and every decision is recorded in the chain |
| Idempotency.IngestCache.Ingest | backend/app/main.py:117-156 | the bounded cache answers every request as the full history would that forgets a key once 10000 distinct others were used since; it scores exactly the requests not answered from memory, a conflict changes nothing, and it never holds more than 10000 entries |
| Idempotency.ReplaysReturnTheFirstAnswer | backend/app/main.py:124-135 | until 10000 distinct other keys were used, a replay returns the first answer and the same key with another payload is refused, whatever requests came between |
| Idempotency.ConflictLeavesNoTrace | backend/app/main.py:128-135 | a request that conflicts changes nothing, and any other is the latest use of its key and touches no other entry |
| Idempotency.RecentMeansFewSince | backend/app/main.py:150-155 | the 10000 most recently used keys are exactly those with fewer than 10000 distinct keys used since |
| Idempotency.HitKeepsRecency | backend/app/main.py:134-134 | moving a hit to the end keeps the cache the most recent keys |
| Idempotency.StoreKeepsRecency | backend/app/main.py:152-155 | so does storing a new key and dropping the oldest |
| Idempotency.IngestCache.HoldsWhatIsRemembered | backend/app/main.py:118-156 | a key is cached exactly when the full history remembers it |
| Idempotency.IngestCache.MoveToEnd | backend/app/main.py:134-134 | a hit is recorded as the latest use |
| Idempotency.IngestCache.Evict | backend/app/main.py:154-155 | the loop leaves the newest 10000 entries as they were |
| Idempotency.IngestCache.Remember | backend/app/main.py:151-155 | a new entry is recorded as the latest use and stored |
| Limiter.StepUpGate.StepUp | backend/app/main.py:160-181 | while the clock does not go back, the reply is the one the full, unpruned histories call for: failures at 20 first, then the verifier, then acceptances at 5, each over the trailing 300 s; and exactly the rejected and the accepted ones are recorded, each in its own history; so an invalid assertion is rejected and counted as a failure whatever was accepted before |
| Limiter.StepUpGate.EveryWindowIsBounded | backend/app/main.py:66-68 | no window of 300 s, wherever it starts, ever holds more than 5 accepted or 20 failed step-ups of an identity |
| Limiter.NoWindowHoldsMore | backend/app/main.py:80-89 | admitting one at a time on the trailing window bounds every window of the history |
| Limiter.PruningIsInvisible | backend/app/main.py:85-88 | pruning earlier never changes a later count |
| Limiter.RecentExactly | backend/app/main.py:85-85 | what counts is exactly what is younger than 300 s, each as often as recorded |
| Limiter.Buckets.Count | backend/app/main.py:80-89 | prunes and deletes, and returns the count of the full history |
| Limiter.Buckets.Record | backend/app/main.py:172-181 | adds one event to the history of one identity |
| Nonce.ReplayAcceptedExactly | backend/app/verifier.py:219-229 | whatever the clock does, an assertion used before and not since is accepted again if and only if it is fresh by the reading it is checked against and some lookup since its use, this one included, pruned past its expiry |
| Nonce.SecondUseNeedsPruning | backend/app/verifier.py:219-229 | for calls with any number of tickets, in any run: a second acceptance needs such a lookup |
| Nonce.PrunedTicketIsGone | backend/app/verifier.py:219-222 | a used ticket that a lookup pruned past is gone for good, unless its key is used again |
| Nonce.SingleUse | backend/app/verifier.py:286-309 | when a call's two clock readings agree, it accepts no ticket that was ever accepted before, in any run with clocks that do not go back |
| Nonce.ReplayAcceptedExactlyInClockGap | backend/app/verifier.py:224-226 | while the clock never goes back, within a call or from one to the next, an assertion used before is accepted again if and only if its expiry falls between the two clock readings of the later call |
| Nonce.SecondUseNeedsClockGap | backend/app/verifier.py:219-229 | for calls with several tickets and a clock that never goes back: a second acceptance needs that gap |
| Nonce.ReplayInClockGap | backend/app/verifier.py:224-226 | such a run |
| Nonce.ReplayAfterStepBack | backend/app/verifier.py:219-226 | three calls, each with one clock reading, the last after the clock stepped back: the first assertion is accepted twice |
| Nonce.UsedTicketStays | backend/app/verifier.py:219-229 | a used ticket stays cached with its expiry until a lookup prunes past it, whatever the clock does |
| Nonce.NonceCache.Prune | backend/app/verifier.py:219-222 | drops exactly the expired entries |
| Nonce.NonceCache.Seen | backend/app/verifier.py:224-226 | prunes, then tells whether the nonce is left |
| Nonce.AssertionValidator.Validate | backend/app/verifier.py:286-309 | accepts exactly a bound, fresh, unused assertion and consumes its nonce, else names the first of three reasons, each with its own exact condition, and consumes nothing |
| Nonce.BehaviorResolver.Resolve | backend/app/attestation.py:114-160 | yields a similarity in [0, 1] exactly when both payloads are of their kind, fresh, intact, bound to device and identity, unused and the similarity is usable, cut at 0 below and at 1 above; both nonces are consumed or neither; and it acts on the cache as a call of the single-use theorem, whatever comes of it |
| Nonce.ResolutionIsACall | backend/app/attestation.py:143-160 | that call accepts and leaves exactly what the code does for every pair of payloads, a similarity that cannot be used and a first nonce already seen included, so single use covers both nonces |
| Nonce.NamespacesAreApart | backend/app/attestation.py:147-159 | an attestation nonce and a behaviour nonce never share a key, equal or not |
| Nonce.FreshExactly | backend/app/attestation.py:104-112 | a token is fresh from five seconds before its issue up to its expiry |
| Nonce.BoundToOne | backend/app/attestation.py:126-146 | a pair of payloads speaks for one device and one identity only, neither stands in for the other, and none passes without the integrity verdict, a nonce or its times |
| Tokens.RoundTrip | backend/app/verifier.py:77-82 | for every byte string decoding with restored padding undoes unpadded base64url (sections 5 and 3.2 of RFC 4648), and the text has no dot and no padding |
| Tokens.AlphabetExactly | backend/app/verifier.py:77-78 | digits and values are places in the 64 characters of section 5 of RFC 4648 |
| Tokens.EncodeSpells | backend/app/verifier.py:77-78 | the four digits of a group spell the same number as its three bytes, filled up with zero bits and padding at the end |
| Tokens.DecodeUndoesEncode | backend/app/verifier.py:77-82 | the padded codec is lossless |
| Tokens.EncodeShape | backend/app/verifier.py:81-82 | the padding an encoding ends in is the one its length modulo 4 restores |
| Tokens.StripRemovesPadding | backend/app/verifier.py:77-78 | stripping removes the padding and no digit |
| Tokens.SplitAtTheDot | backend/app/verifier.py:199-199 | a dot between dotless parts splits into exactly these two |
| Tokens.OpenUndoesSign | backend/app/verifier.py:190-206 | opening a signed token returns its payload |
| Tokens.OnlyIssuedPayloadsOpen | backend/app/verifier.py:195-206 | with an unforgeable signature an opened token carries a payload that was issued |
| Cost.CostAnalysis | src/eval_full.py:198-208 | the running sums and the first minimum: the least prefix total and the first event that attains it |
| Cost.TotalIsExpected | src/eval_full.py:200-206 | a prefix total is the expected cost, by its direct definition, of every threshold that flags exactly that prefix |
| Cost.ChosenThresholdIsOptimal | src/eval_full.py:190-208 | with distinct scores the chosen threshold costs no more than any other that flags something, and its cost is the one reported |
| Cost.TiesShiftTheCost | src/eval_full.py:206-208 | with ties the reported cost is the threshold's if and only if the challenges in the rest of the tie cost what its frauds lose |
| Cost.TieWitness | src/eval_full.py:206-208 | a tie of one fraud and one genuine event where it is not |

## Left out

- Model training, tuning, plots, datasets, load generation, the simulator, deployment and the dashboard: library calls and input/output.
- The isolation forest, the scaler and the two-sample test: any value in range, or any Boolean, stands for their answer. Only `TwoSample` computes the test, for the two samples of six of a full window.
- SHA-256, HMAC, Ed25519 and Fernet: ideal, as said under "What is assumed".
- Floating-point error: reals, except for the explicit four-decimal rounding.
- NaN and infinite inputs: not representable by reals; a non-finite similarity is the missing one.
- Reason codes, SHAP values and counterfactuals: linear sums and text that feed nothing back.
- Routing, authentication scopes, configuration and the wire formats of Kafka, Redis and Postgres: only load and commit, head query and insert, and put-if-absent are kept.
- The key store and the PII vault, and the `pii_ref` an ingestion writes: two maps and one short invariant.
- `PostgresAuditStore.tail`, `count`, `PostgresDecisionStore.get` and `device_count`: plain reads.
- The key-lock objects of the in-memory store and the timeout of the Redis lock: the lock appears in `Cluster` as a mode that does or does not exclude.
- Threads inside one handler of `main.py` or one nonce cache call: each call is atomic, as those structures are documented to be single-process.
- Exceptions out of the engine in `ingest_event`, the audit append it makes, and the response fields beyond the decision: the cached response is a string.
- Drift parameters other than the defaults the engine uses.
- `recompute_behavior_from_telemetry`: a pure formula on two vectors that `resolve` does not call.
- The ratio branch of `cost_analysis`, its rounded report fields and the sort itself: the items come sorted; a threshold that flags nothing is not among those the code considers.
- TrustEngine.TrustEngine.Assess: what others do between a load and the device link that follows it counts as done before the load or after the link.
- Tokens.RoundTrip: the decoder is strict, while Python's drops characters outside the alphabet before decoding; no encoding contains any.
- Tokens.OnlyIssuedPayloadsOpen: `open_token` maps every parse failure to one error, which the parser's None stands for; parse errors of single fields are not told apart.
- Nonce.AssertionValidator.Validate: a missing field is part of the token's error, and a field that is no number, on which the code raises another exception, is not modelled.
- Nonce.BehaviorResolver.Resolve: opening the two tokens is modelled by their payload being there or not.
- Limiter.StepUpGate.StepUp: the clock handed to it never goes back, which `time.time()` does not promise.
- Drift.EndlessRampIsCaughtExactly: its ramps may leave [0, 1]; `Drift.RampIsCaughtInRangeExactly` is the statement on the risks an engine can see.
