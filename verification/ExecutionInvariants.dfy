/** What every run of the execution store keeps, and that its corruption checks stay silent. */
module ExecutionInvariants {
  import opened Basics
  import opened ExecutionAudit
  import opened ExecutionTables

  // ---- the invariant ----

  ghost predicate IntentsOk(t: Tables) {
    forall id {:trigger t.intents[id]} :: id in t.intents ==> t.intents[id].intent.Id() == id && id.action in t.selections
  }

  ghost predicate SelectionsOk(t: Tables) {
    forall a :: a in t.selections ==> SelectionBound(t, a)
  }

  ghost predicate ReservationsOk(t: Tables, clientOrderIdOf: IdempotencyKey -> string) {
    forall k :: k in t.reservations ==> ReservationSound(t, k, clientOrderIdOf)
  }

  /** Full keys never share a client order id, even where the truncated hash collides. */
  ghost predicate ClientIdsDistinct(t: Tables) {
    forall j, k :: j in t.reservations && k in t.reservations && j != k && t.reservations[j].clientOrderId.Some? ==>
      t.reservations[j].clientOrderId != t.reservations[k].clientOrderId
  }

  /** An order lineage of an environment has at most one cancel that the exchange did not reject. */
  ghost predicate CancelSlotsOk(t: Tables) {
    forall j, k :: j in t.reservations && k in t.reservations
      && IsCancelOf(j, t.reservations[j], k.environment, t.reservations[k].orderLineage)
      && k.operation.CancelOrder?
      && t.reservations[j].state != Rejected && t.reservations[k].state != Rejected
      ==> j == k
  }

  ghost predicate EventsOk(t: Tables, clientOrderIdOf: IdempotencyKey -> string) {
    && (forall i :: 0 <= i < |t.events| ==> EventContract(t.events[i], clientOrderIdOf) && t.events[i].action in t.selections)
    && (forall i, j :: 0 <= i < j < |t.events| ==> t.events[i].meta.eventId != t.events[j].meta.eventId)
  }

  ghost predicate Inv(t: Tables, clientOrderIdOf: IdempotencyKey -> string) {
    && IntentsOk(t)
    && SelectionsOk(t)
    && ReservationsOk(t, clientOrderIdOf)
    && ClientIdsDistinct(t)
    && CancelSlotsOk(t)
    && EventsOk(t, clientOrderIdOf)
  }

  // ---- framing: what a change elsewhere leaves alone ----

  /** The reservations of an action bind the same intents in both states. */
  ghost predicate SameBindings(t: Tables, u: Tables, a: BusinessActionId) {
    && (forall k :: k in t.reservations && t.reservations[k].action == a ==>
          k in u.reservations && u.reservations[k].action == a && u.reservations[k].intentId == t.reservations[k].intentId)
    && (forall k :: k in u.reservations && u.reservations[k].action == a ==>
          k in t.reservations && t.reservations[k].action == a)
  }

  ghost predicate IntentsGrow(t: Tables, u: Tables) {
    forall id {:trigger id in u.intents} {:trigger t.intents[id]} :: id in t.intents ==> id in u.intents && u.intents[id] == t.intents[id]
  }

  lemma SelectionFrame(t: Tables, u: Tables, a: BusinessActionId)
    requires a in t.selections && a in u.selections && u.selections[a] == t.selections[a]
    requires IntentsGrow(t, u) && SameBindings(t, u, a) && SelectionBound(t, a)
    ensures SelectionBound(u, a)
  {
    if HasReservation(t, a) {
      var k :| k in t.reservations && t.reservations[k].action == a;
      assert k in u.reservations && u.reservations[k].action == a;
    }
    if HasReservation(u, a) {
      var k :| k in u.reservations && u.reservations[k].action == a;
      assert k in t.reservations && t.reservations[k].action == a;
    }
  }

  lemma ReservationFrame(t: Tables, u: Tables, k: IdempotencyKey, cid: IdempotencyKey -> string)
    requires k in t.reservations && k in u.reservations && Facts(u.reservations[k]) == Facts(t.reservations[k])
    requires ReservationSound(t, k, cid)
    requires IntentsGrow(t, u)
    requires var a := t.reservations[k].action;
             a in u.selections && SelectionBound(u, a)
             && u.selections[a].intentId == t.selections[a].intentId && u.selections[a].reserved
    ensures ReservationSound(u, k, cid)
  {
    var r, s := t.reservations[k], u.reservations[k];
    assert s == Facts(s).(state := s.state);
    assert s == r.(state := s.state);
  }

  lemma EventsFrame(t: Tables, u: Tables, event: AuditEvent, cid: IdempotencyKey -> string)
    requires EventsOk(t, cid) && u.events == t.events + [event] && !EventIdUsed(t.events, event.meta.eventId)
    requires EventContract(event, cid) && event.action in u.selections
    requires t.selections.Keys <= u.selections.Keys
    ensures EventsOk(u, cid)
  {
    forall i | 0 <= i < |u.events| ensures EventContract(u.events[i], cid) && u.events[i].action in u.selections {
      if i < |t.events| { assert u.events[i] == t.events[i]; assert t.events[i].action in t.selections.Keys; }
    }
  }

  lemma MaxSequenceIsNonNegative(events: seq<AuditEvent>, action: BusinessActionId)
    ensures MaxSequence(events, action) >= 0
  {
  }

  // ---- each transaction keeps it ----

  /** Selecting an intent for an action that has no reservation, and logging it. */
  ghost predicate DidSelect(t: Tables, u: Tables, intent: OrderIntent, selection: Selection, event: AuditEvent, cid: IdempotencyKey -> string) {
    && IntentsGrow(t, u) && u.intents.Keys == t.intents.Keys + {intent.Id()} && u.intents[intent.Id()].intent == intent
    && selection.intentId == intent.Id() && selection.version > 0 && !selection.reserved
    && u.selections == t.selections[intent.Action() := selection]
    && u.reservations == t.reservations && !HasReservation(t, intent.Action())
    && u.events == t.events + [event] && !EventIdUsed(t.events, event.meta.eventId)
    && EventContract(event, cid) && event.action == intent.Action()
  }

  lemma SelectKeeps(t: Tables, u: Tables, intent: OrderIntent, selection: Selection, event: AuditEvent, cid: IdempotencyKey -> string)
    requires Inv(t, cid) && DidSelect(t, u, intent, selection, event, cid)
    ensures Inv(u, cid)
  {
    hide SelectionsOk, ReservationsOk, EventsOk, EventContract, SelectionBound, ReservationSound;
    EventsFrame(t, u, event, cid);
    SelectKeepsSelections(t, u, intent.Action(), selection);
    SelectKeepsReservations(t, u, intent.Action(), cid);
  }

  lemma SelectKeepsSelections(t: Tables, u: Tables, a: BusinessActionId, selection: Selection)
    requires SelectionsOk(t) && IntentsGrow(t, u) && u.selections == t.selections[a := selection]
    requires u.reservations == t.reservations && !HasReservation(t, a)
    requires selection.version > 0 && !selection.reserved && selection.intentId in u.intents
    requires u.intents[selection.intentId].intent.Action() == a && u.intents[selection.intentId].intent.Id() == selection.intentId
    ensures SelectionsOk(u)
  {
    assert !HasReservation(u, a);
    assert SelectionBound(u, a);
    forall b | b in u.selections ensures SelectionBound(u, b) {
      if b != a { SelectionFrame(t, u, b); }
    }
  }

  lemma SelectKeepsReservations(t: Tables, u: Tables, a: BusinessActionId, cid: IdempotencyKey -> string)
    requires SelectionsOk(u) && ReservationsOk(t, cid) && IntentsGrow(t, u) && u.reservations == t.reservations && !HasReservation(t, a)
    requires a in u.selections && forall b :: b in t.selections && b != a ==> b in u.selections && u.selections[b] == t.selections[b]
    ensures ReservationsOk(u, cid)
  {
    forall k | k in u.reservations ensures ReservationSound(u, k, cid) {
      assert ReservationSound(t, k, cid);
      assert t.reservations[k].action != a;
      ReservationFrame(t, u, k, cid);
    }
  }

  lemma CreatedIsContract(t: Tables, intent: OrderIntent, scan: string, meta: EventMeta, cid: IdempotencyKey -> string)
    ensures var e := NewEvent(t, intent, scan, meta, IntentCreated(intent));
      EventContract(e, cid) && e.action == intent.Action() && e.meta == meta
  {
    MaxSequenceIsNonNegative(t.events, intent.Action());
  }

  /** Recording an intent adds it, or finds it there already, and changes nothing else. */
  lemma InsertGrows(t: Tables, intent: OrderIntent, scan: string)
    ensures var r := InsertOrVerifyIntent(t, intent, scan);
      r.Ok? ==>
        && r.value == t.(intents := r.value.intents) && IntentsGrow(t, r.value)
        && r.value.intents.Keys == t.intents.Keys + {intent.Id()} && r.value.intents[intent.Id()].intent == intent
  {
  }

  lemma CreateSelects(t: Tables, intent: OrderIntent, scan: string, meta: EventMeta, cid: IdempotencyKey -> string)
    requires Inv(t, cid) && intent.Action() !in t.selections
    ensures var o := CreateAction(t, intent, scan, meta);
      o.Commit? ==>
        DidSelect(t, o.tables, intent, Selection(intent.Id(), 1, false), NewEvent(t, intent, scan, meta, IntentCreated(intent)), cid)
  {
    CreatedIsContract(t, intent, scan, meta, cid);
    UnselectedIsUnreserved(t, intent.Action(), cid);
    InsertGrows(t, intent, scan);
    hide SelectionsOk, ReservationsOk, EventsOk, HasReservation, ReservationSound, SelectionBound, EventContract, NewEvent, InsertOrVerifyIntent,
         EventIdUsed;
  }

  lemma UnselectedIsUnreserved(t: Tables, a: BusinessActionId, cid: IdempotencyKey -> string)
    requires ReservationsOk(t, cid) && a !in t.selections
    ensures !HasReservation(t, a)
  {
    forall k | k in t.reservations ensures t.reservations[k].action != a { assert ReservationSound(t, k, cid); }
  }

  lemma CreateKeeps(t: Tables, intent: OrderIntent, scan: string, meta: EventMeta, cid: IdempotencyKey -> string)
    requires Inv(t, cid) && intent.Action() !in t.selections
    ensures var o := CreateAction(t, intent, scan, meta); o.Commit? ==> Inv(o.tables, cid)
  {
    CreateSelects(t, intent, scan, meta, cid);
    hide Inv, DidSelect;
    var o := CreateAction(t, intent, scan, meta);
    if o.Commit? {
      SelectKeeps(t, o.tables, intent, Selection(intent.Id(), 1, false), NewEvent(t, intent, scan, meta, IntentCreated(intent)), cid);
    }
  }

  lemma SupersedeSelects(t: Tables, intent: OrderIntent, scan: string, meta: EventMeta, cid: IdempotencyKey -> string)
    requires IntentsOk(t) && intent.Action() in t.selections && SelectionBound(t, intent.Action())
    ensures var current := t.selections[intent.Action()];
      var o := ReviseAction(t, current, intent, scan, meta);
      o.Commit? && current.intentId != intent.Id() ==>
        DidSelect(t, o.tables, intent, Selection(intent.Id(), current.version + 1, false),
                  NewEvent(t, intent, scan, meta, IntentSuperseded(current.intentId, intent.Id(), current.version + 1)), cid)
  {
    MaxSequenceIsNonNegative(t.events, intent.Action());
  }

  lemma SupersedeKeeps(t: Tables, intent: OrderIntent, scan: string, meta: EventMeta, cid: IdempotencyKey -> string)
    requires Inv(t, cid) && intent.Action() in t.selections
    ensures var current := t.selections[intent.Action()];
      var o := ReviseAction(t, current, intent, scan, meta); o.Commit? && current.intentId != intent.Id() ==> Inv(o.tables, cid)
  {
    assert SelectionBound(t, intent.Action());
    SupersedeSelects(t, intent, scan, meta, cid);
    hide Inv, DidSelect;
    var current := t.selections[intent.Action()];
    var o := ReviseAction(t, current, intent, scan, meta);
    if o.Commit? && current.intentId != intent.Id() {
      SelectKeeps(t, o.tables, intent, Selection(intent.Id(), current.version + 1, false),
                  NewEvent(t, intent, scan, meta, IntentSuperseded(current.intentId, intent.Id(), current.version + 1)), cid);
    }
  }

  lemma ReviseKeeps(t: Tables, intent: OrderIntent, scan: string, meta: EventMeta, cid: IdempotencyKey -> string)
    requires Inv(t, cid) && intent.Action() in t.selections
    ensures var o := ReviseAction(t, t.selections[intent.Action()], intent, scan, meta); o.Commit? ==> Inv(o.tables, cid)
  {
    var a := intent.Action();
    assert SelectionBound(t, a);
    var current := t.selections[a];
    assert IntentsOk(t);
    hide Inv;
    SupersedeKeeps(t, intent, scan, meta, cid);
    var o := ReviseAction(t, current, intent, scan, meta);
    if o.Commit? && current.intentId == intent.Id() {
      var existing := t.intents[current.intentId].intent;
      MaxSequenceIsNonNegative(t.events, a);
      ReuseKeeps(t, o.tables, NewEvent(t, existing, scan, meta, IntentReused(existing.Id(), scan)), cid);
    }
  }

  lemma ReuseKeeps(t: Tables, u: Tables, event: AuditEvent, cid: IdempotencyKey -> string)
    requires Inv(t, cid)
    requires u == t.(events := t.events + [event]) && !EventIdUsed(t.events, event.meta.eventId)
    requires EventContract(event, cid) && event.action in t.selections
    ensures Inv(u, cid)
  {
    EventsFrame(t, u, event, cid);
    LogOnlyKeeps(t, u, cid);
  }

  lemma LogOnlyKeepsSelections(t: Tables, u: Tables)
    requires SelectionsOk(t) && u == t.(events := u.events)
    ensures SelectionsOk(u)
  {
    forall b | b in u.selections ensures SelectionBound(u, b) { SelectionFrame(t, u, b); }
  }

  lemma LogOnlyKeeps(t: Tables, u: Tables, cid: IdempotencyKey -> string)
    requires Inv(t, cid) && u == t.(events := u.events) && EventsOk(u, cid)
    ensures Inv(u, cid)
  {
    hide EventsOk, ReservationSound;
    LogOnlyKeepsSelections(t, u);
    forall k | k in u.reservations ensures ReservationSound(u, k, cid) { LogOnlyKeepsReservation(t, u, k, cid); }
  }

  lemma LogOnlyKeepsReservation(t: Tables, u: Tables, k: IdempotencyKey, cid: IdempotencyKey -> string)
    requires k in t.reservations && u == t.(events := u.events) && ReservationSound(t, k, cid) && SelectionsOk(u)
    ensures ReservationSound(u, k, cid)
  {
    ReservationFrame(t, u, k, cid);
  }

  /** What inserting a reservation does to the tables. */
  ghost predicate DidReserve(t: Tables, u: Tables, q: ReserveRequest, event: AuditEvent, cid: IdempotencyKey -> string) {
    var a, r := q.intent.Action(), NewReservation(q, cid);
    && ValidateMutation(q.intent, q.operation, q.mutation, q.orderLineage, q.reason, q.policy).Ok?
    && a in t.selections && t.selections[a].intentId == q.intent.Id()
    && q.intent.Id() in t.intents && t.intents[q.intent.Id()].intent == q.intent
    && r.key !in t.reservations
    && !ClientIdTaken(t, r.clientOrderId, r.key)
    && (q.operation.CancelOrder? ==> RequireCancelSlot(t, q.intent.environment, q.orderLineage, cid).Ok?)
    && !EventIdUsed(t.events, event.meta.eventId)
    && event.action == a && event.environment == q.intent.environment && event.intentId == q.intent.Id()
    && event.sequence == MaxSequence(t.events, a) + 1
    && event.payload == KeyReserved(r.key, r.orderLineage, r.clientOrderId, r.reason, r.policy)
    && u == Tables(t.intents, t.selections[a := t.selections[a].(reserved := true)], t.reservations[r.key := r], t.events + [event])
  }

  lemma ReserveCommits(t: Tables, q: ReserveRequest, meta: EventMeta, cid: IdempotencyKey -> string) returns (event: AuditEvent)
    requires ReserveMutation(t, q, meta, cid).Commit? && q.Key() !in t.reservations
    ensures DidReserve(t, ReserveMutation(t, q, meta, cid).tables, q, event, cid)
    ensures event.meta == meta
  {
    var r := NewReservation(q, cid);
    event := NewEvent(t, q.intent, t.intents[q.intent.Id()].sourceScan, meta,
                      KeyReserved(r.key, r.orderLineage, r.clientOrderId, r.reason, r.policy));
  }

  lemma ReserveKeepsSelections(t: Tables, u: Tables, q: ReserveRequest, event: AuditEvent, cid: IdempotencyKey -> string)
    requires SelectionsOk(t) && DidReserve(t, u, q, event, cid)
    ensures SelectionsOk(u)
  {
    var a, key := q.intent.Action(), q.Key();
    assert SelectionBound(t, a);
    assert u.reservations[key].action == a;
    assert HasReservation(u, a);
    assert SelectionBound(u, a);
    forall b | b in u.selections ensures SelectionBound(u, b) {
      if b != a { SelectionFrame(t, u, b); }
    }
  }

  lemma ReserveKeepsRows(t: Tables, u: Tables, q: ReserveRequest, event: AuditEvent, cid: IdempotencyKey -> string)
    requires SelectionsOk(t) && ReservationsOk(t, cid) && DidReserve(t, u, q, event, cid)
    ensures SelectionsOk(u) && ReservationsOk(u, cid)
  {
    var key := q.Key();
    ReserveKeepsSelections(t, u, q, event, cid);
    assert ReservationSound(u, key, cid);
    forall k | k in u.reservations ensures ReservationSound(u, k, cid) {
      if k != key { assert ReservationSound(t, k, cid); ReservationFrame(t, u, k, cid); }
    }
  }

  lemma ReserveKeepsDistinct(t: Tables, u: Tables, q: ReserveRequest, event: AuditEvent, cid: IdempotencyKey -> string)
    requires ClientIdsDistinct(t) && DidReserve(t, u, q, event, cid)
    ensures ClientIdsDistinct(u)
  {
  }

  lemma ReserveKeepsSlots(t: Tables, u: Tables, q: ReserveRequest, event: AuditEvent, cid: IdempotencyKey -> string)
    requires CancelSlotsOk(t) && DidReserve(t, u, q, event, cid)
    ensures CancelSlotsOk(u)
  {
  }

  lemma ReserveKeepsEvents(t: Tables, u: Tables, q: ReserveRequest, event: AuditEvent, cid: IdempotencyKey -> string)
    requires EventsOk(t, cid) && DidReserve(t, u, q, event, cid)
    ensures EventsOk(u, cid)
  {
    MaxSequenceIsNonNegative(t.events, q.intent.Action());
    EventsFrame(t, u, event, cid);
  }

  lemma ReserveKeeps(t: Tables, u: Tables, q: ReserveRequest, event: AuditEvent, cid: IdempotencyKey -> string)
    requires Inv(t, cid) && DidReserve(t, u, q, event, cid)
    ensures Inv(u, cid)
  {
    ReserveKeepsRows(t, u, q, event, cid);
    ReserveKeepsDistinct(t, u, q, event, cid);
    ReserveKeepsSlots(t, u, q, event, cid);
    ReserveKeepsEvents(t, u, q, event, cid);
  }

  /** What a state transition does to the tables. */
  ghost predicate DidTransition(t: Tables, u: Tables, key: IdempotencyKey, next: ReservationState, event: AuditEvent, cid: IdempotencyKey -> string) {
    && key in t.reservations && ReservationSound(t, key, cid)
    && var r := t.reservations[key];
       && IsTransitionAllowed(r.state, next)
       && !EventIdUsed(t.events, event.meta.eventId)
       && event.action == r.action && event.environment == key.environment && event.intentId == r.intentId
       && event.sequence == MaxSequence(t.events, r.action) + 1
       && event.payload == StateChanged(key, r.state, next)
       && u == t.(reservations := t.reservations[key := r.(state := next)], events := t.events + [event])
  }

  lemma TransitionCommits(t: Tables, key: IdempotencyKey, expected: ReservationState, next: ReservationState,
                          meta: EventMeta, cid: IdempotencyKey -> string) returns (event: AuditEvent)
    requires TransitionReservation(t, key, expected, next, meta, cid).Commit?
    ensures DidTransition(t, TransitionReservation(t, key, expected, next, meta, cid).tables, key, next, event, cid)
    ensures event.meta == meta
  {
    var row := t.intents[t.reservations[key].intentId];
    event := NewEvent(t, row.intent, row.sourceScan, meta, StateChanged(key, expected, next));
  }

  lemma TransitionKeepsRows(t: Tables, u: Tables, key: IdempotencyKey, next: ReservationState, event: AuditEvent, cid: IdempotencyKey -> string)
    requires SelectionsOk(t) && ReservationsOk(t, cid) && DidTransition(t, u, key, next, event, cid)
    ensures SelectionsOk(u) && ReservationsOk(u, cid)
  {
    forall b | b in u.selections ensures SelectionBound(u, b) { SelectionFrame(t, u, b); }
    forall k | k in u.reservations ensures ReservationSound(u, k, cid) {
      assert ReservationSound(t, k, cid);
      ReservationFrame(t, u, k, cid);
    }
  }

  lemma TransitionKeeps(t: Tables, u: Tables, key: IdempotencyKey, next: ReservationState, event: AuditEvent, cid: IdempotencyKey -> string)
    requires Inv(t, cid) && DidTransition(t, u, key, next, event, cid)
    ensures Inv(u, cid)
  {
    TransitionKeepsRows(t, u, key, next, event, cid);
    MaxSequenceIsNonNegative(t.events, t.reservations[key].action);
    EventsFrame(t, u, event, cid);
    TransitionKeepsSlots(t, u, key, next, event, cid);
  }

  lemma TransitionKeepsSlots(t: Tables, u: Tables, key: IdempotencyKey, next: ReservationState, event: AuditEvent, cid: IdempotencyKey -> string)
    requires CancelSlotsOk(t) && ClientIdsDistinct(t) && DidTransition(t, u, key, next, event, cid)
    ensures CancelSlotsOk(u) && ClientIdsDistinct(u)
  {
  }

  lemma InvBinds(t: Tables, a: BusinessActionId, cid: IdempotencyKey -> string)
    requires Inv(t, cid) && a in t.selections
    ensures SelectionBound(t, a)
  {
  }

  lemma StepKeepsInvariant(t: Tables, call: Call, cid: IdempotencyKey -> string)
    requires Inv(t, cid)
    ensures Inv(Step(t, call, cid), cid)
  {
    hide Inv, CreateAction, ReviseAction;
    match call
    case Record(intent, scan, meta) =>
      if intent.Action() in t.selections {
        InvBinds(t, intent.Action(), cid);
        ReviseKeeps(t, intent, scan, meta, cid);
      } else {
        CreateKeeps(t, intent, scan, meta, cid);
      }
    case Reserve(q, meta) =>
      if ReserveMutation(t, q, meta, cid).Commit? && q.Key() !in t.reservations {
        var event := ReserveCommits(t, q, meta, cid);
        ReserveKeeps(t, Step(t, call, cid), q, event, cid);
      }
    case Transition(key, expected, next, meta) =>
      if TransitionReservation(t, key, expected, next, meta, cid).Commit? {
        var event := TransitionCommits(t, key, expected, next, meta, cid);
        TransitionKeeps(t, Step(t, call, cid), key, next, event, cid);
      }
  }

  /** Every table state any number of clients can reach satisfies the invariant. */
  lemma {:induction false} RunKeepsInvariant(calls: seq<Call>, cid: IdempotencyKey -> string)
    ensures Inv(Run(calls, cid), cid)
  {
    if calls != [] {
      RunKeepsInvariant(calls[..|calls| - 1], cid);
      StepKeepsInvariant(Run(calls[..|calls| - 1], cid), calls[|calls| - 1], cid);
    }
  }
}
