/** The four tables of the execution store, its three transactions as functions of the tables, and
  the corruption checks each transaction runs on what it loads. */
module ExecutionTables {
  import opened Basics
  import opened ExecutionAudit

  /** The selected intent's id and fingerprint columns hold the same hash and are one field here. */
  datatype Selection = Selection(intentId: Fingerprint, version: int, reserved: bool)

  datatype Reservation = Reservation(
    key: IdempotencyKey,
    action: BusinessActionId,
    intentId: Fingerprint,
    orderLineage: string,
    clientOrderId: Option<string>,
    reason: Option<string>,
    policy: Option<string>,
    state: ReservationState)

  datatype IntentRow = IntentRow(intent: OrderIntent, sourceScan: string)

  /** The primary key of a reservation (environment, operation, mutation) is its idempotency key. */
  datatype Tables = Tables(
    intents: map<Fingerprint, IntentRow>,
    selections: map<BusinessActionId, Selection>,
    reservations: map<IdempotencyKey, Reservation>,
    events: seq<AuditEvent>)

  const EMPTY := Tables(map[], map[], map[], [])

  datatype Error = ValueError | Conflict | InvariantViolation

  type Checked<+T> = Result<T, Error>

  /** A transaction commits new tables and a result, or aborts and leaves the tables alone. */
  datatype Outcome<+T> = Commit(tables: Tables, value: T) | Abort(error: Error)

  datatype RevisionAction = Create | Reuse | Supersede

  datatype Plan = Plan(action: RevisionAction, intent: OrderIntent, supersedes: Option<Fingerprint>)

  datatype ReserveRequest = ReserveRequest(
    intent: OrderIntent,
    operation: Operation,
    mutation: MutationId,
    orderLineage: string,
    reason: Option<string>,
    policy: Option<string>)
  {
    function Key(): IdempotencyKey { IdempotencyKey.Key(intent.environment, operation, mutation) }
  }

  // ---- loading, with the checks that guard it ----

  predicate HasReservation(t: Tables, action: BusinessActionId) {
    exists k :: k in t.reservations && t.reservations[k].action == action
  }

  predicate SelectionBound(t: Tables, action: BusinessActionId)
    requires action in t.selections
  {
    var s := t.selections[action];
    && s.version > 0
    && s.intentId in t.intents
    && t.intents[s.intentId].intent.Id() == s.intentId
    && t.intents[s.intentId].intent.Action() == action
    && s.reserved == HasReservation(t, action)
    && forall k :: k in t.reservations && t.reservations[k].action == action ==> t.reservations[k].intentId == s.intentId
  }

  function LoadSelection(t: Tables, action: BusinessActionId): Checked<Option<Selection>> {
    if action !in t.selections then Ok(None)
    else if SelectionBound(t, action) then Ok(Some(t.selections[action]))
    else Err(InvariantViolation)
  }

  function LoadIntent(t: Tables, id: Fingerprint): Checked<Option<OrderIntent>> {
    if id !in t.intents then Ok(None)
    else if t.intents[id].intent.Id() == id then Ok(Some(t.intents[id].intent))
    else Err(InvariantViolation)
  }

  predicate HasOrphanedEvidence(t: Tables, action: BusinessActionId) {
    || (exists id :: id in t.intents && t.intents[id].intent.Action() == action)
    || HasReservation(t, action)
    || (exists i :: 0 <= i < |t.events| && t.events[i].action == action)
  }

  /** The canonical mutation of an operation on an intent must be the one supplied. */
  function ValidateMutation(intent: OrderIntent, operation: Operation, mutation: MutationId, orderLineage: string,
                            reason: Option<string>, policy: Option<string>): Checked<()> {
    if operation.CancelOrder? && (reason.None? || policy.None?) then Err(ValueError)
    else
      var expected := match operation
        case SubmitEntry => SubmitId(intent.Action())
        case ConfigureLeverage => LeverageId(intent.Action(), intent.leverage)
        case CancelOrder => CancelId(intent.Action(), orderLineage, reason.value, policy.value);
      if mutation != expected then Err(Conflict)
      else if !operation.CancelOrder? && (reason.Some? || policy.Some?) then Err(ValueError)
      else Ok(())
  }

  predicate ReservationRowSound(r: Reservation, clientOrderIdOf: IdempotencyKey -> string) {
    && r.clientOrderId == (if r.key.operation.SubmitEntry? then Some(clientOrderIdOf(r.key)) else None)
    && (if r.key.operation.CancelOrder? then r.reason.Some? && r.policy.Some? else r.reason.None? && r.policy.None?)
  }

  predicate ReservationBound(t: Tables, r: Reservation) {
    && r.intentId in t.intents
    && t.intents[r.intentId].intent.Id() == r.intentId
    && var intent := t.intents[r.intentId].intent;
       && r.key.environment == intent.environment
       && r.action == intent.Action()
       && r.action in t.selections
       && SelectionBound(t, r.action)
       && t.selections[r.action].intentId == r.intentId
       && t.selections[r.action].reserved
       && ValidateMutation(intent, r.key.operation, r.key.mutation, r.orderLineage, r.reason, r.policy).Ok?
  }

  predicate ReservationSound(t: Tables, key: IdempotencyKey, clientOrderIdOf: IdempotencyKey -> string)
    requires key in t.reservations
  {
    var r := t.reservations[key];
    r.key == key && ReservationRowSound(r, clientOrderIdOf) && ReservationBound(t, r)
  }

  function LoadReservation(t: Tables, key: IdempotencyKey, clientOrderIdOf: IdempotencyKey -> string): Checked<Option<Reservation>> {
    if key !in t.reservations then Ok(None)
    else if ReservationSound(t, key, clientOrderIdOf) then Ok(Some(t.reservations[key]))
    else Err(InvariantViolation)
  }

  predicate ClientIdTaken(t: Tables, clientOrderId: Option<string>, key: IdempotencyKey) {
    clientOrderId.Some? && exists k :: k in t.reservations && k != key && t.reservations[k].clientOrderId == clientOrderId
  }

  predicate IsCancelOf(key: IdempotencyKey, r: Reservation, environment: Environment, orderLineage: string) {
    key.operation.CancelOrder? && key.environment == environment && r.orderLineage == orderLineage
  }

  function RequireCancelSlot(t: Tables, environment: Environment, orderLineage: string,
                             clientOrderIdOf: IdempotencyKey -> string): Checked<()> {
    if exists k :: k in t.reservations && IsCancelOf(k, t.reservations[k], environment, orderLineage)
                   && !ReservationSound(t, k, clientOrderIdOf)
    then Err(InvariantViolation)
    else if exists k :: k in t.reservations && IsCancelOf(k, t.reservations[k], environment, orderLineage)
                        && t.reservations[k].state != Rejected
    then Err(Conflict)
    else Ok(())
  }

  // ---- the audit log ----

  predicate EventIdUsed(events: seq<AuditEvent>, eventId: string) {
    exists i :: 0 <= i < |events| && events[i].meta.eventId == eventId
  }

  /** The largest sequence number an action has in the log, or zero. */
  function MaxSequence(events: seq<AuditEvent>, action: BusinessActionId): int {
    if events == [] then 0 else
      var rest := MaxSequence(events[..|events| - 1], action);
      var last := events[|events| - 1];
      if last.action == action && last.sequence > rest then last.sequence else rest
  }

  function NewEvent(t: Tables, intent: OrderIntent, sourceScan: string, meta: EventMeta, payload: Payload): AuditEvent {
    AuditEvent(meta, MaxSequence(t.events, intent.Action()) + 1, intent.Action(), intent.environment, intent.Id(),
               sourceScan, payload)
  }

  /** The event insert is the last statement of each transaction; a used event id rolls it back. */
  function Append<T>(t: Tables, event: AuditEvent, value: T): Outcome<T> {
    if EventIdUsed(t.events, event.meta.eventId) then Abort(Conflict)
    else Commit(t.(events := t.events + [event]), value)
  }

  // ---- record_intent ----

  function InsertOrVerifyIntent(t: Tables, intent: OrderIntent, sourceScan: string): Checked<Tables> {
    if intent.Id() in t.intents then
      if t.intents[intent.Id()].intent.Id() != intent.Id() then Err(InvariantViolation)
      else if t.intents[intent.Id()].intent != intent then Err(Conflict)
      else Ok(t)
    else Ok(t.(intents := t.intents[intent.Id() := IntentRow(intent, sourceScan)]))
  }

  function Classify(existing: OrderIntent, candidate: OrderIntent, reserved: bool): Checked<Plan> {
    if existing.Id() == candidate.Id() then Ok(Plan(Reuse, existing, None))
    else if reserved then Err(Conflict)
    else Ok(Plan(Supersede, candidate, Some(existing.Id())))
  }

  function RecordIntent(t: Tables, intent: OrderIntent, sourceScan: string, meta: EventMeta): Outcome<Plan> {
    match LoadSelection(t, intent.Action())
    case Err(e) => Abort(e)
    case Ok(None) => CreateAction(t, intent, sourceScan, meta)
    case Ok(Some(selection)) => ReviseAction(t, selection, intent, sourceScan, meta)
  }

  function CreateAction(t: Tables, intent: OrderIntent, sourceScan: string, meta: EventMeta): Outcome<Plan> {
    if HasOrphanedEvidence(t, intent.Action()) then Abort(InvariantViolation) else
    match InsertOrVerifyIntent(t, intent, sourceScan)
    case Err(e) => Abort(e)
    case Ok(t1) =>
      var t2 := t1.(selections := t1.selections[intent.Action() := Selection(intent.Id(), 1, false)]);
      Append(t2, NewEvent(t, intent, sourceScan, meta, IntentCreated(intent)), Plan(Create, intent, None))
  }

  function ReviseAction(t: Tables, selection: Selection, intent: OrderIntent, sourceScan: string, meta: EventMeta): Outcome<Plan> {
    match LoadIntent(t, selection.intentId)
    case Err(e) => Abort(e)
    case Ok(None) => Abort(InvariantViolation)
    case Ok(Some(existing)) =>
      match Classify(existing, intent, selection.reserved)
      case Err(e) => Abort(e)
      case Ok(plan) =>
        if plan.action.Reuse? then
          Append(t, NewEvent(t, existing, sourceScan, meta, IntentReused(existing.Id(), sourceScan)), plan)
        else
          match InsertOrVerifyIntent(t, intent, sourceScan)
          case Err(e) => Abort(e)
          case Ok(t1) =>
            var version := selection.version + 1;
            var t2 := t1.(selections := t1.selections[intent.Action() := Selection(intent.Id(), version, false)]);
            Append(t2, NewEvent(t, intent, sourceScan, meta, IntentSuperseded(existing.Id(), intent.Id(), version)), plan)
  }

  // ---- reserve_mutation ----

  function NewReservation(q: ReserveRequest, clientOrderIdOf: IdempotencyKey -> string): Reservation {
    Reservation(q.Key(), q.intent.Action(), q.intent.Id(), q.orderLineage,
                if q.operation.SubmitEntry? then Some(clientOrderIdOf(q.Key())) else None,
                q.reason, q.policy, Reserved)
  }

  /** Everything about a reservation except its state. */
  function Facts(r: Reservation): Reservation { r.(state := Reserved) }

  function ReserveMutation(t: Tables, q: ReserveRequest, meta: EventMeta,
                           clientOrderIdOf: IdempotencyKey -> string): Outcome<Reservation> {
    match ValidateMutation(q.intent, q.operation, q.mutation, q.orderLineage, q.reason, q.policy)
    case Err(e) => Abort(e)
    case Ok(_) =>
    match LoadSelection(t, q.intent.Action())
    case Err(e) => Abort(e)
    case Ok(None) => Abort(Conflict)
    case Ok(Some(selection)) =>
      if selection.intentId != q.intent.Id() then Abort(Conflict)
      else if LoadIntent(t, q.intent.Id()) != Ok(Some(q.intent)) then Abort(InvariantViolation)
      else
        match LoadReservation(t, q.Key(), clientOrderIdOf)
        case Err(e) => Abort(e)
        case Ok(Some(existing)) =>
          if Facts(existing) == NewReservation(q, clientOrderIdOf) then Commit(t, existing) else Abort(Conflict)
        case Ok(None) => InsertReservation(t, selection, q, meta, clientOrderIdOf)
  }

  function InsertReservation(t: Tables, selection: Selection, q: ReserveRequest, meta: EventMeta,
                             clientOrderIdOf: IdempotencyKey -> string): Outcome<Reservation> {
    var r := NewReservation(q, clientOrderIdOf);
    if ClientIdTaken(t, r.clientOrderId, r.key) then Abort(Conflict) else
    match (if q.operation.CancelOrder? then RequireCancelSlot(t, q.intent.environment, q.orderLineage, clientOrderIdOf) else Ok(()))
    case Err(e) => Abort(e)
    case Ok(_) =>
      var t1 := t.(reservations := t.reservations[r.key := r],
                   selections := t.selections[r.action := selection.(reserved := true)]);
      var scan := if q.intent.Id() in t.intents then t.intents[q.intent.Id()].sourceScan else "";
      Append(t1, NewEvent(t, q.intent, scan, meta, KeyReserved(r.key, r.orderLineage, r.clientOrderId, r.reason, r.policy)), r)
  }

  // ---- transition_reservation ----

  function TransitionReservation(t: Tables, key: IdempotencyKey, expected: ReservationState, next: ReservationState,
                                 meta: EventMeta, clientOrderIdOf: IdempotencyKey -> string): Outcome<Reservation> {
    if !IsTransitionAllowed(expected, next) then Abort(Conflict) else
    match LoadReservation(t, key, clientOrderIdOf)
    case Err(e) => Abort(e)
    case Ok(None) => Abort(Conflict)
    case Ok(Some(r)) =>
      if r.state != expected then Abort(Conflict) else
      match LoadIntent(t, r.intentId)
      case Err(e) => Abort(e)
      case Ok(None) => Abort(InvariantViolation)
      case Ok(Some(intent)) =>
        var t1 := t.(reservations := t.reservations[key := r.(state := next)]);
        var scan := if r.intentId in t.intents then t.intents[r.intentId].sourceScan else "";
        Append(t1, NewEvent(t, intent, scan, meta, StateChanged(key, expected, next)), r.(state := next))
  }

  // ---- calls and runs ----

  datatype Call =
    | Record(intent: OrderIntent, sourceScan: string, meta: EventMeta)
    | Reserve(request: ReserveRequest, meta: EventMeta)
    | Transition(key: IdempotencyKey, expected: ReservationState, next: ReservationState, meta: EventMeta)

  function After<T>(t: Tables, outcome: Outcome<T>): Tables {
    if outcome.Commit? then outcome.tables else t
  }

  function Step(t: Tables, call: Call, clientOrderIdOf: IdempotencyKey -> string): Tables {
    match call
    case Record(intent, scan, meta) => After(t, RecordIntent(t, intent, scan, meta))
    case Reserve(q, meta) => After(t, ReserveMutation(t, q, meta, clientOrderIdOf))
    case Transition(key, expected, next, meta) => After(t, TransitionReservation(t, key, expected, next, meta, clientOrderIdOf))
  }

  function CallError(t: Tables, call: Call, clientOrderIdOf: IdempotencyKey -> string): Option<Error> {
    match call
    case Record(intent, scan, meta) =>
      (match RecordIntent(t, intent, scan, meta) case Commit(_, _) => None case Abort(e) => Some(e))
    case Reserve(q, meta) =>
      (match ReserveMutation(t, q, meta, clientOrderIdOf) case Commit(_, _) => None case Abort(e) => Some(e))
    case Transition(key, expected, next, meta) =>
      (match TransitionReservation(t, key, expected, next, meta, clientOrderIdOf) case Commit(_, _) => None case Abort(e) => Some(e))
  }

  /** The tables after a sequence of calls by any number of clients, one transaction each. */
  function Run(calls: seq<Call>, clientOrderIdOf: IdempotencyKey -> string): Tables {
    if calls == [] then EMPTY
    else Step(Run(calls[..|calls| - 1], clientOrderIdOf), calls[|calls| - 1], clientOrderIdOf)
  }
}
