/** The reservation automaton and the audit event contract of the execution store.

  Every SHA-256 identity of the repository (business action, intent, mutation action, idempotency
  key) is a datatype built from the hashed payload, which makes it injective by construction.  The
  one truncated hash, the client order id, is an arbitrary function supplied by the store.
 */
module ExecutionAudit {
  import opened Basics

  datatype Environment = Demo | Production

  datatype Operation = ConfigureLeverage | SubmitEntry | CancelOrder

  datatype ReservationState =
    | Reserved
    | Dispatching
    | Acknowledged
    | Rejected
    | NotSentFailed
    | Unknown
    | Invalidated

  /** Hash of the environment and the signal lineage. */
  datatype BusinessActionId = BusinessAction(environment: Environment, lineage: string)

  /** Hash of every intent field except the creation time. */
  datatype Fingerprint = Fingerprint(action: BusinessActionId, leverage: int, observation: string, terms: string)

  datatype MutationId =
    | SubmitId(action: BusinessActionId)
    | LeverageId(action: BusinessActionId, leverage: int)
    | CancelId(action: BusinessActionId, orderLineage: string, reason: string, policy: string)

  datatype IdempotencyKey = Key(environment: Environment, operation: Operation, mutation: MutationId)

  datatype OrderIntent = OrderIntent(
    environment: Environment,
    lineage: string,
    leverage: int,
    observation: string,
    terms: string,
    createdAtMs: nat)
  {
    function Action(): BusinessActionId { BusinessAction(environment, lineage) }

    /** The intent id is this fingerprint with a prefix, so one value serves as both. */
    function Id(): Fingerprint { Fingerprint(Action(), leverage, observation, terms) }
  }

  datatype Payload =
    | IntentCreated(intent: OrderIntent)
    | IntentReused(existing: Fingerprint, duplicateScan: string)
    | IntentSuperseded(oldIntent: Fingerprint, newIntent: Fingerprint, version: int)
    | KeyReserved(key: IdempotencyKey, orderLineage: string, clientOrderId: Option<string>,
                  reason: Option<string>, policy: Option<string>)
    | StateChanged(changed: IdempotencyKey, oldState: ReservationState, newState: ReservationState)

  datatype EventMeta = EventMeta(eventId: string, actorId: string, occurredAtMs: nat)

  datatype AuditEvent = AuditEvent(
    meta: EventMeta,
    sequence: int,
    action: BusinessActionId,
    environment: Environment,
    intentId: Fingerprint,
    sourceScan: string,
    payload: Payload)

  predicate IsTransitionAllowed(oldState: ReservationState, newState: ReservationState) {
    match oldState
    case Reserved => newState.Dispatching? || newState.Invalidated?
    case Dispatching =>
      newState.Acknowledged? || newState.Rejected? || newState.NotSentFailed? || newState.Unknown?
    case NotSentFailed => newState.Reserved?
    case _ => false
  }

  predicate IsTerminal(state: ReservationState) {
    state.Acknowledged? || state.Rejected? || state.Unknown? || state.Invalidated?
  }

  /** A mutation id names the operation and the business action it belongs to. */
  predicate MatchesOperation(key: IdempotencyKey, action: BusinessActionId) {
    match key.operation
    case SubmitEntry => key.mutation == SubmitId(action)
    case ConfigureLeverage => key.mutation.LeverageId?
    case CancelOrder => key.mutation.CancelId?
  }

  /** What the constructor of an audit event checks; a violation raises. */
  predicate EventContract(event: AuditEvent, clientOrderIdOf: IdempotencyKey -> string) {
    && event.sequence > 0
    && match event.payload
       case IntentCreated(intent) =>
         intent.Action() == event.action && intent.environment == event.environment && intent.Id() == event.intentId
       case IntentReused(existing, _) => existing == event.intentId
       case IntentSuperseded(_, newIntent, version) => newIntent == event.intentId && version > 1
       case KeyReserved(key, _, clientOrderId, reason, policy) =>
         && MatchesOperation(key, event.action)
         && key.environment == event.environment
         && (match key.operation
             case SubmitEntry => clientOrderId == Some(clientOrderIdOf(key)) && reason.None? && policy.None?
             case CancelOrder => clientOrderId.None? && reason.Some? && policy.Some?
             case ConfigureLeverage => clientOrderId.None? && reason.None? && policy.None?)
       case StateChanged(key, oldState, newState) =>
         && MatchesOperation(key, event.action)
         && key.environment == event.environment
         && IsTransitionAllowed(oldState, newState)
  }

  // ---- paths of the automaton ----

  /** A sequence of states that starts reserved and takes only allowed transitions. */
  ghost predicate IsPath(path: seq<ReservationState>) {
    && path != []
    && path[0] == Reserved
    && forall i {:trigger path[i]} :: 0 < i < |path| ==> IsTransitionAllowed(path[i - 1], path[i])
  }

  /** The states a path can show at position i, when it is or is not the last one. */
  predicate Admissible(i: nat, state: ReservationState, last: bool) {
    match i % 3
    case 0 => state == Reserved
    case 1 => state == Dispatching || (last && state == Invalidated)
    case _ => state == NotSentFailed || (last && IsTerminal(state) && state != Invalidated)
  }

  ghost predicate IsRounds(path: seq<ReservationState>) {
    path != [] && forall i {:trigger path[i]} :: 0 <= i < |path| ==> Admissible(i, path[i], i == |path| - 1)
  }

  lemma {:induction false} PathIsRounds(path: seq<ReservationState>)
    requires IsPath(path)
    ensures IsRounds(path)
  {
    if |path| > 1 {
      var n := |path| - 1;
      PathIsRounds(path[..n]);
      assert Admissible(n - 1, path[..n][n - 1], true);
      assert IsTransitionAllowed(path[n - 1], path[n]);
      forall i | 0 <= i < |path| ensures Admissible(i, path[i], i == n) {
        if i < n { assert path[i] == path[..n][i]; }
      }
    }
  }

  lemma RoundsArePath(path: seq<ReservationState>)
    requires IsRounds(path)
    ensures IsPath(path)
  {
    assert Admissible(0, path[0], |path| == 1);
    forall i | 0 < i < |path| ensures IsTransitionAllowed(path[i - 1], path[i]) {
      assert Admissible(i - 1, path[i - 1], false) && Admissible(i, path[i], i == |path| - 1);
    }
  }

  /** A path is a number of reserved-dispatching-not-sent rounds with at most one terminal state,
      at its end; and every such sequence is a path. */
  lemma PathsAreExactlyRounds(path: seq<ReservationState>)
    ensures IsPath(path) <==> IsRounds(path)
  {
    if IsPath(path) { PathIsRounds(path); }
    if IsRounds(path) { RoundsArePath(path); }
  }

  /** At most one terminal outcome, and nothing after it. */
  lemma TerminalOnce(path: seq<ReservationState>, i: nat)
    requires IsPath(path) && i < |path| && IsTerminal(path[i])
    ensures i == |path| - 1
    ensures forall j :: 0 <= j < i ==> !IsTerminal(path[j])
  {
    PathIsRounds(path);
    assert Admissible(i, path[i], i == |path| - 1);
    forall j | 0 <= j < i ensures !IsTerminal(path[j]) {
      assert Admissible(j, path[j], false);
    }
  }

  /** Two dispatches of one reservation are separated by a state that proves nothing was sent. */
  lemma DispatchesAreSeparated(path: seq<ReservationState>, i: nat, j: nat)
    requires IsPath(path) && i < j < |path| && path[i] == path[j] == Dispatching
    ensures i + 3 <= j && path[i + 1] == NotSentFailed && path[i + 2] == Reserved
  {
    PathIsRounds(path);
    assert Admissible(i, path[i], false) && Admissible(j, path[j], j == |path| - 1);
    assert Admissible(i + 1, path[i + 1], i + 1 == |path| - 1);
    assert Admissible(i + 2, path[i + 2], i + 2 == |path| - 1);
  }
}
