/** The execution store: one method per transaction, changing the tables in place. */
module ExecutionStore {
  import opened Basics
  import opened ExecutionAudit
  import opened ExecutionTables

  class SqliteExecutionStore {
    const clientOrderIdOf: IdempotencyKey -> string
    var intents: map<Fingerprint, IntentRow>
    var selections: map<BusinessActionId, Selection>
    var reservations: map<IdempotencyKey, Reservation>
    var events: seq<AuditEvent>

    /** A snapshot of the tables, as a transaction sees them when it begins. */
    function State(): Tables
      reads this
    {
      Tables(intents, selections, reservations, events)
    }

    constructor (clientOrderIdOf: IdempotencyKey -> string)
      ensures State() == EMPTY && this.clientOrderIdOf == clientOrderIdOf
    {
      this.clientOrderIdOf := clientOrderIdOf;
      intents, selections, reservations, events := map[], map[], map[], [];
    }

    method Rollback(before: Tables)
      modifies this
      ensures State() == before
    {
      intents, selections, reservations, events := before.intents, before.selections, before.reservations, before.events;
    }

    method AppendEvent(begin: Tables, intent: OrderIntent, sourceScan: string, meta: EventMeta, payload: Payload)
      returns (ok: bool)
      requires State().events == begin.events
      modifies this
      ensures ok == !EventIdUsed(begin.events, meta.eventId)
      ensures State() == if ok then old(State()).(events := begin.events + [NewEvent(begin, intent, sourceScan, meta, payload)])
                         else begin
    {
      ok := !EventIdUsed(events, meta.eventId);
      if ok {
        events := events + [NewEvent(begin, intent, sourceScan, meta, payload)];
      } else {
        Rollback(begin);
      }
    }

    method RecordIntent(intent: OrderIntent, sourceScan: string, meta: EventMeta) returns (r: Checked<Plan>)
      modifies this
      ensures match ExecutionTables.RecordIntent(old(State()), intent, sourceScan, meta)
              case Commit(t, plan) => State() == t && r == Ok(plan)
              case Abort(e) => State() == old(State()) && r == Err(e)
    {
      var begin := State();
      var selection :- LoadSelection(begin, intent.Action());
      var plan: Plan;
      var payload: Payload;
      var logged := intent;
      if selection.None? {
        if HasOrphanedEvidence(begin, intent.Action()) {
          return Err(InvariantViolation);
        }
        var inserted :- InsertOrVerifyIntent(begin, intent, sourceScan);
        intents := inserted.intents;
        selections := selections[intent.Action() := Selection(intent.Id(), 1, false)];
        plan, payload := Plan(Create, intent, None), IntentCreated(intent);
      } else {
        var found :- LoadIntent(begin, selection.value.intentId);
        if found.None? {
          return Err(InvariantViolation);
        }
        var existing := found.value;
        plan :- Classify(existing, intent, selection.value.reserved);
        if plan.action.Reuse? {
          logged, payload := existing, IntentReused(existing.Id(), sourceScan);
        } else {
          var inserted :- InsertOrVerifyIntent(begin, intent, sourceScan);
          intents := inserted.intents;
          var version := selection.value.version + 1;
          selections := selections[intent.Action() := Selection(intent.Id(), version, false)];
          payload := IntentSuperseded(existing.Id(), intent.Id(), version);
        }
      }
      var ok := AppendEvent(begin, logged, sourceScan, meta, payload);
      r := if ok then Ok(plan) else Err(Conflict);
    }

    method ReserveMutation(q: ReserveRequest, meta: EventMeta) returns (r: Checked<Reservation>)
      modifies this
      ensures match ExecutionTables.ReserveMutation(old(State()), q, meta, clientOrderIdOf)
              case Commit(t, reservation) => State() == t && r == Ok(reservation)
              case Abort(e) => State() == old(State()) && r == Err(e)
    {
      var _ :- ValidateMutation(q.intent, q.operation, q.mutation, q.orderLineage, q.reason, q.policy);
      var reservation := NewReservation(q, clientOrderIdOf);
      var begin := State();
      var selection :- LoadSelection(begin, q.intent.Action());
      if selection.None? || selection.value.intentId != q.intent.Id() {
        return Err(Conflict);
      }
      if LoadIntent(begin, q.intent.Id()) != Ok(Some(q.intent)) {
        return Err(InvariantViolation);
      }
      var sourceScan := intents[q.intent.Id()].sourceScan;
      var existing :- LoadReservation(begin, q.Key(), clientOrderIdOf);
      if existing.Some? {
        return if Facts(existing.value) == reservation then Ok(existing.value) else Err(Conflict);
      }
      if ClientIdTaken(begin, reservation.clientOrderId, reservation.key) {
        return Err(Conflict);
      }
      if q.operation.CancelOrder? {
        var _ :- RequireCancelSlot(begin, q.intent.environment, q.orderLineage, clientOrderIdOf);
      }
      reservations := reservations[reservation.key := reservation];
      selections := selections[reservation.action := selection.value.(reserved := true)];
      var ok := AppendEvent(begin, q.intent, sourceScan, meta,
                            KeyReserved(reservation.key, reservation.orderLineage, reservation.clientOrderId,
                                        reservation.reason, reservation.policy));
      r := if ok then Ok(reservation) else Err(Conflict);
    }

    method TransitionReservation(key: IdempotencyKey, expected: ReservationState, next: ReservationState, meta: EventMeta)
      returns (r: Checked<Reservation>)
      modifies this
      ensures match ExecutionTables.TransitionReservation(old(State()), key, expected, next, meta, clientOrderIdOf)
              case Commit(t, reservation) => State() == t && r == Ok(reservation)
              case Abort(e) => State() == old(State()) && r == Err(e)
    {
      if !IsTransitionAllowed(expected, next) {
        return Err(Conflict);
      }
      var begin := State();
      var loaded :- LoadReservation(begin, key, clientOrderIdOf);
      if loaded.None? || loaded.value.state != expected {
        return Err(Conflict);
      }
      var found :- LoadIntent(begin, loaded.value.intentId);
      if found.None? {
        return Err(InvariantViolation);
      }
      var sourceScan := intents[loaded.value.intentId].sourceScan;
      var moved := loaded.value.(state := next);
      reservations := reservations[key := moved];
      var ok := AppendEvent(begin, found.value, sourceScan, meta, StateChanged(key, expected, next));
      r := if ok then Ok(moved) else Err(Conflict);
    }
  }
}
