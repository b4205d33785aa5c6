/** Alerts, observations and health events, as the notification service passes them around.

  An event id is the hash of the alert's kind and identity; it is a datatype of the hashed values.
 */
module Alerts {
  import opened Basics

  datatype Reason =
    | Ready
    | DecisionChanged
    | SourceUnavailable
    | ReviewExpired
    | SignalReplaced
    | HealthRecorded
    | RuntimeChanged
    | HistoricalEvent

  /** A ready observation may lack parts of its scan result. */
  datatype ScanOutcome =
    | ReadyForReview(signalTimeMs: Option<int>, decision: string, triggerPrice: Option<real>, initialStop: Option<real>)
    | NormalNoAction
    | Unavailable

  datatype Observation = Observation(
    symbol: string,
    strategy: string,
    config: string,
    createdAtMs: int,
    observedAtMs: int,
    outcome: ScanOutcome,
    fingerprint: string)

  datatype SignalKey = SignalKey(symbol: string, strategy: string, config: string, signalTimeMs: int, decision: string)

  datatype RuntimeState = NotStarted | Starting | Running | Halted | Interrupted | Unresponsive | SourceUnreadable

  /** A problem token: the runtime's own, or one the supervisor noted. */
  datatype Problem = RuntimeProblem(runtime: RuntimeState) | Noted(token: string)

  datatype HealthKind = Started | Restarted | Fault | Recovered | Stopped | InterruptionAcknowledged

  datatype HealthEvent = HealthEvent(sequence: int, atMs: int, kind: HealthKind, problems: seq<Problem>)

  datatype AlertId =
    | EntryId(signal: SignalKey, transition: nat)
    | InvalidationId(entry: AlertId, why: Reason)
    | HealthId(event: HealthEvent)
    | RuntimeId(sequence: nat, fault: bool)

  datatype Alert = Alert(
    id: AlertId,
    occurredAtMs: int,
    reviewUntilMs: Option<int>,
    reason: Reason,
    observation: Option<Observation>,
    problems: seq<Problem>)
}
