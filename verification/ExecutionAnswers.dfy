/** What a transaction answers: on every reachable database, exactly when it commits, what it then answers
  and what it leaves, said by the rows themselves; and that repeating a request answers the present. */
module ExecutionAnswers {
  import opened Basics
  import opened ExecutionAudit
  import opened ExecutionTables
  import opened ExecutionInvariants
  import opened ExecutionReplay

  predicate IsUnused(t: Tables, eventId: string) {
    forall e :: e in t.events ==> e.meta.eventId != eventId
  }

  lemma UnusedMeans(t: Tables, eventId: string)
    ensures IsUnused(t, eventId) <==> !EventIdUsed(t.events, eventId)
  {
    forall e | !EventIdUsed(t.events, eventId) && e in t.events ensures e.meta.eventId != eventId {
      var i :| 0 <= i < |t.events| && t.events[i] == e;
    }
  }

  /** One event more, with this id. */
  predicate Logs(t: Tables, u: Tables, meta: EventMeta) {
    && |u.events| == |t.events| + 1 && u.events[..|t.events|] == t.events
    && u.events[|t.events|].meta == meta
  }

  // ---- record_intent ----

  /** The stored row of an intent id, if any, is this intent. */
  predicate IsNotOther(t: Tables, intent: OrderIntent) {
    intent.Id() in t.intents ==> t.intents[intent.Id()].intent == intent
  }

  predicate HasMutation(t: Tables, a: BusinessActionId) {
    exists r :: r in t.reservations.Values && r.action == a
  }

  lemma HasMutationMeans(t: Tables, a: BusinessActionId)
    ensures HasMutation(t, a) <==> HasReservation(t, a)
  {
    if HasReservation(t, a) {
      var k :| k in t.reservations && t.reservations[k].action == a;
      assert t.reservations[k] in t.reservations.Values;
    }
  }

  /** The intent is stored and selected under the version, without a reservation; every other row stays. */
  predicate Selects(t: Tables, u: Tables, intent: OrderIntent, version: int) {
    var a, id := intent.Action(), intent.Id();
    && u.reservations == t.reservations
    && u.selections == t.selections[a := Selection(id, version, false)]
    && id in u.intents && u.intents[id].intent == intent
    && (id in t.intents ==> u.intents == t.intents) && (id !in t.intents ==> u.intents == t.intents[id := u.intents[id]])
  }

  /** The first intent of an action is created; the selected one is reused as it was stored; another one
      supersedes it as long as no mutation of the action was reserved. */
  ghost predicate RecordAnswers(t: Tables, intent: OrderIntent, meta: EventMeta, o: Outcome<Plan>) {
    var a, id := intent.Action(), intent.Id();
    if a !in t.selections then
      && (o.Commit? <==> IsUnused(t, meta.eventId)) && (o.Abort? ==> o.error == Conflict)
      && (o.Commit? ==> o.value == Plan(Create, intent, None) && Selects(t, o.tables, intent, 1) && Logs(t, o.tables, meta))
    else if t.selections[a].intentId == id then
      && (o.Commit? <==> IsUnused(t, meta.eventId)) && (o.Abort? ==> o.error == Conflict)
      && id in t.intents
      && (o.Commit? ==>
            && o.value == Plan(Reuse, t.intents[id].intent, None)
            && o.tables == t.(events := o.tables.events) && Logs(t, o.tables, meta))
    else
      && (o.Commit? <==> !HasMutation(t, a) && IsNotOther(t, intent) && IsUnused(t, meta.eventId)) && (o.Abort? ==> o.error == Conflict)
      && (o.Commit? ==>
            && o.value == Plan(Supersede, intent, Some(t.selections[a].intentId))
            && Selects(t, o.tables, intent, t.selections[a].version + 1) && Logs(t, o.tables, meta))
  }

  lemma NothingOrphaned(t: Tables, intent: OrderIntent, scan: string, cid: IdempotencyKey -> string)
    requires Inv(t, cid) && intent.Action() !in t.selections
    ensures !HasOrphanedEvidence(t, intent.Action()) && intent.Id() !in t.intents
  {
    UnselectedIsUnreserved(t, intent.Action(), cid);
  }

  lemma AppendLogs<T>(t: Tables, u: Tables, event: AuditEvent, value: T)
    requires u.events == t.events
    ensures var o := Append(u, event, value);
      && (o.Commit? <==> IsUnused(t, event.meta.eventId)) && (o.Abort? ==> o.error == Conflict)
      && (o.Commit? ==> o.value == value && o.tables == u.(events := o.tables.events) && Logs(t, o.tables, event.meta))
  {
    UnusedMeans(t, event.meta.eventId);
  }

  lemma CreateAnswers(t: Tables, intent: OrderIntent, scan: string, meta: EventMeta, cid: IdempotencyKey -> string)
    requires Inv(t, cid) && intent.Action() !in t.selections
    ensures RecordAnswers(t, intent, meta, RecordIntent(t, intent, scan, meta))
  {
    hide Inv, ReviseAction, HasOrphanedEvidence, Append, Logs, IsUnused, EventIdUsed, MaxSequence;
    NothingOrphaned(t, intent, scan, cid);
    var id := intent.Id();
    var u := t.(intents := t.intents[id := IntentRow(intent, scan)], selections := t.selections[intent.Action() := Selection(id, 1, false)]);
    AppendLogs(t, u, NewEvent(t, intent, scan, meta, IntentCreated(intent)), Plan(Create, intent, None));
  }

  lemma ReuseAnswers(t: Tables, intent: OrderIntent, scan: string, meta: EventMeta, cid: IdempotencyKey -> string)
    requires Inv(t, cid) && intent.Action() in t.selections && t.selections[intent.Action()].intentId == intent.Id()
    ensures RecordAnswers(t, intent, meta, RecordIntent(t, intent, scan, meta))
  {
    InvBinds(t, intent.Action(), cid);
    hide Inv, CreateAction, Append, Logs, HasReservation, HasMutation, IsUnused, MaxSequence;
    var existing := t.intents[intent.Id()].intent;
    AppendLogs(t, t, NewEvent(t, existing, scan, meta, IntentReused(existing.Id(), scan)), Plan(Reuse, existing, None));
  }

  /** The tables in which the intent supersedes the selected one. */
  function Superseding(t: Tables, intent: OrderIntent, scan: string): Tables
    requires intent.Action() in t.selections
  {
    var id := intent.Id();
    t.(intents := if id in t.intents then t.intents else t.intents[id := IntentRow(intent, scan)],
       selections := t.selections[intent.Action() := Selection(id, t.selections[intent.Action()].version + 1, false)])
  }

  lemma SupersedeAppends(t: Tables, intent: OrderIntent, scan: string, meta: EventMeta, cid: IdempotencyKey -> string)
    requires Inv(t, cid) && intent.Action() in t.selections && t.selections[intent.Action()].intentId != intent.Id()
    ensures var current := t.selections[intent.Action()];
      RecordIntent(t, intent, scan, meta) ==
        if HasReservation(t, intent.Action()) || !IsNotOther(t, intent) then Abort(Conflict)
        else Append(Superseding(t, intent, scan),
                    NewEvent(t, intent, scan, meta, IntentSuperseded(current.intentId, intent.Id(), current.version + 1)),
                    Plan(Supersede, intent, Some(current.intentId)))
  {
    var id := intent.Id();
    InvBinds(t, intent.Action(), cid);
    assert id in t.intents ==> t.intents[id].intent.Id() == id;
    hide Inv, CreateAction, Append, HasReservation, NewEvent;
  }

  lemma SupersedeAnswers(t: Tables, intent: OrderIntent, scan: string, meta: EventMeta, cid: IdempotencyKey -> string)
    requires Inv(t, cid) && intent.Action() in t.selections && t.selections[intent.Action()].intentId != intent.Id()
    ensures RecordAnswers(t, intent, meta, RecordIntent(t, intent, scan, meta))
  {
    var current := t.selections[intent.Action()];
    var e := NewEvent(t, intent, scan, meta, IntentSuperseded(current.intentId, intent.Id(), current.version + 1));
    hide Inv, RecordIntent, Append, Logs, HasReservation, HasMutation, IsUnused, MaxSequence;
    SupersedeAppends(t, intent, scan, meta, cid);
    HasMutationMeans(t, intent.Action());
    AppendLogs(t, Superseding(t, intent, scan), e, Plan(Supersede, intent, Some(current.intentId)));
  }

  lemma RecordAnswersExactly(t: Tables, intent: OrderIntent, scan: string, meta: EventMeta, cid: IdempotencyKey -> string)
    requires Inv(t, cid)
    ensures RecordAnswers(t, intent, meta, RecordIntent(t, intent, scan, meta))
  {
    hide Inv, RecordAnswers, RecordIntent;
    if intent.Action() !in t.selections {
      CreateAnswers(t, intent, scan, meta, cid);
    } else if t.selections[intent.Action()].intentId == intent.Id() {
      ReuseAnswers(t, intent, scan, meta, cid);
    } else {
      SupersedeAnswers(t, intent, scan, meta, cid);
    }
  }

  // ---- reserve_mutation ----

  /** The mutation named is the only one the operation has on this intent; a cancel says why and by
      which policy, nothing else does. */
  predicate IsCanonical(q: ReserveRequest) {
    match q.operation
    case SubmitEntry => q.mutation == SubmitId(q.intent.Action()) && q.reason.None? && q.policy.None?
    case ConfigureLeverage => q.mutation == LeverageId(q.intent.Action(), q.intent.leverage) && q.reason.None? && q.policy.None?
    case CancelOrder =>
      q.reason.Some? && q.policy.Some? && q.mutation == CancelId(q.intent.Action(), q.orderLineage, q.reason.value, q.policy.value)
  }

  /** The request is for the selected revision, exactly as it was stored. */
  predicate IsForSelected(t: Tables, q: ReserveRequest) {
    var a, id := q.intent.Action(), q.intent.Id();
    a in t.selections && t.selections[a].intentId == id && id in t.intents && t.intents[id].intent == q.intent
  }

  /** The reservation is of what the request asks for, whatever became of it. */
  predicate IsSameRequest(r: Reservation, q: ReserveRequest) {
    r.key == q.Key() && r.action == q.intent.Action() && r.intentId == q.intent.Id()
    && r.orderLineage == q.orderLineage && r.reason == q.reason && r.policy == q.policy
  }

  predicate IsFree(t: Tables, q: ReserveRequest, cid: IdempotencyKey -> string) {
    match q.operation
    case SubmitEntry => forall r :: r in t.reservations.Values ==> r.clientOrderId != Some(cid(q.Key()))
    case ConfigureLeverage => true
    case CancelOrder =>
      forall r :: r in t.reservations.Values && r.state != Rejected && r.key.operation.CancelOrder? ==>
        r.key.environment != q.intent.environment || r.orderLineage != q.orderLineage
  }

  lemma FreeMeans(t: Tables, q: ReserveRequest, cid: IdempotencyKey -> string)
    requires ReservationsOk(t, cid) && q.Key() !in t.reservations
    ensures IsFree(t, q, cid) <==>
      && !ClientIdTaken(t, NewReservation(q, cid).clientOrderId, q.Key())
      && (q.operation.CancelOrder? ==> RequireCancelSlot(t, q.intent.environment, q.orderLineage, cid).Ok?)
    ensures q.operation.CancelOrder? ==> RequireCancelSlot(t, q.intent.environment, q.orderLineage, cid) != Err(InvariantViolation)
  {
    hide ReservationBound, ReservationRowSound;
    assert forall k :: k in t.reservations ==> ReservationSound(t, k, cid);
    forall k | k in t.reservations ensures t.reservations[k] in t.reservations.Values && t.reservations[k].key == k { }
  }

  /** A reserved request answers its reservation as it stands and changes nothing; a new one is reserved
      when its client order id, or its cancel slot, is free. */
  ghost predicate ReserveAnswers(t: Tables, q: ReserveRequest, meta: EventMeta, cid: IdempotencyKey -> string, o: Outcome<Reservation>) {
    var key, a := q.Key(), q.intent.Action();
    if key in t.reservations then
      && (o.Commit? <==> IsCanonical(q) && IsForSelected(t, q) && IsSameRequest(t.reservations[key], q))
      && (o.Commit? ==> o.tables == t && o.value == t.reservations[key])
    else
      && (o.Commit? <==> IsCanonical(q) && IsForSelected(t, q) && IsFree(t, q, cid) && IsUnused(t, meta.eventId))
      && (o.Commit? ==>
            && IsSameRequest(o.value, q) && o.value.state == Reserved
            && o.value.clientOrderId == (if q.operation.SubmitEntry? then Some(cid(key)) else None)
            && a in t.selections
            && o.tables == Tables(t.intents, t.selections[a := t.selections[a].(reserved := true)], t.reservations[key := o.value], o.tables.events)
            && Logs(t, o.tables, meta))
  }

  lemma CanonicalMeans(q: ReserveRequest)
    ensures IsCanonical(q) <==> ValidateMutation(q.intent, q.operation, q.mutation, q.orderLineage, q.reason, q.policy).Ok?
  {
  }

  lemma ReserveAnswersExactly(t: Tables, q: ReserveRequest, meta: EventMeta, cid: IdempotencyKey -> string)
    requires Inv(t, cid)
    ensures ReserveAnswers(t, q, meta, cid, ReserveMutation(t, q, meta, cid))
  {
    hide Inv, ReserveAnswers, ReserveMutation;
    if q.Key() in t.reservations { RepeatAnswers(t, q, meta, cid); } else { FirstAnswers(t, q, meta, cid); }
  }

  lemma RepeatAnswers(t: Tables, q: ReserveRequest, meta: EventMeta, cid: IdempotencyKey -> string)
    requires Inv(t, cid) && q.Key() in t.reservations
    ensures ReserveAnswers(t, q, meta, cid, ReserveMutation(t, q, meta, cid))
  {
    CanonicalMeans(q);
    if q.intent.Action() in t.selections { InvBinds(t, q.intent.Action(), cid); }
    assert ReservationSound(t, q.Key(), cid);
    hide ValidateMutation, IsCanonical, SelectionsOk, ReservationsOk, ReservationBound, InsertReservation;
  }

  lemma InsertAnswers(t: Tables, q: ReserveRequest, meta: EventMeta, cid: IdempotencyKey -> string)
    requires ReservationsOk(t, cid) && q.Key() !in t.reservations && q.intent.Action() in t.selections
    ensures var a, r := q.intent.Action(), NewReservation(q, cid);
      var o := InsertReservation(t, t.selections[a], q, meta, cid);
      && (o.Commit? <==> IsFree(t, q, cid) && IsUnused(t, meta.eventId))
      && (o.Commit? ==>
            && o.value == r && Logs(t, o.tables, meta)
            && o.tables == Tables(t.intents, t.selections[a := t.selections[a].(reserved := true)], t.reservations[q.Key() := r], o.tables.events))
  {
    var r, a := NewReservation(q, cid), q.intent.Action();
    hide ReservationsOk, ClientIdTaken, RequireCancelSlot, IsFree, IsUnused, Append, Logs, MaxSequence;
    FreeMeans(t, q, cid);
    var u := t.(reservations := t.reservations[r.key := r], selections := t.selections[a := t.selections[a].(reserved := true)]);
    var scan := if q.intent.Id() in t.intents then t.intents[q.intent.Id()].sourceScan else "";
    AppendLogs(t, u, NewEvent(t, q.intent, scan, meta, KeyReserved(r.key, r.orderLineage, r.clientOrderId, r.reason, r.policy)), r);
  }

  lemma FirstAnswers(t: Tables, q: ReserveRequest, meta: EventMeta, cid: IdempotencyKey -> string)
    requires Inv(t, cid) && q.Key() !in t.reservations
    ensures ReserveAnswers(t, q, meta, cid, ReserveMutation(t, q, meta, cid))
  {
    assert ReservationsOk(t, cid);
    CanonicalMeans(q);
    if q.intent.Action() in t.selections {
      InvBinds(t, q.intent.Action(), cid);
      InsertAnswers(t, q, meta, cid);
    }
    hide Inv, ReservationsOk, ValidateMutation, IsCanonical, InsertReservation, IsFree, IsUnused, Logs, HasReservation;
  }

  // ---- transition_reservation ----

  /** A reservation moves exactly from the state its caller expects, along the automaton; the answer is
      the row as it then is, and no other row changes. */
  ghost predicate TransitionAnswers(t: Tables, key: IdempotencyKey, expected: ReservationState, next: ReservationState, meta: EventMeta,
                                    o: Outcome<Reservation>) {
    && (o.Commit? <==>
          && IsTransitionAllowed(expected, next) && key in t.reservations && t.reservations[key].state == expected
          && IsUnused(t, meta.eventId))
    && (o.Abort? ==> o.error == Conflict)
    && (o.Commit? ==>
          && key in t.reservations && o.value == t.reservations[key].(state := next)
          && o.tables == t.(reservations := t.reservations[key := o.value], events := o.tables.events) && Logs(t, o.tables, meta))
  }

  lemma TransitionAnswersExactly(t: Tables, key: IdempotencyKey, expected: ReservationState, next: ReservationState, meta: EventMeta,
                                 cid: IdempotencyKey -> string)
    requires Inv(t, cid)
    ensures TransitionAnswers(t, key, expected, next, meta, TransitionReservation(t, key, expected, next, meta, cid))
  {
    UnusedMeans(t, meta.eventId);
    assert key in t.reservations ==> ReservationSound(t, key, cid);
    hide SelectionsOk, ReservationsOk, MaxSequence, EventIdUsed, IsUnused, IsTransitionAllowed;
  }

  // ---- over runs ----

  /** What each of the three transactions answers on any database the store can reach. */
  lemma RunAnswers(calls: seq<Call>, cid: IdempotencyKey -> string)
    ensures var t := Run(calls, cid);
      && (forall intent, scan, meta :: RecordAnswers(t, intent, meta, RecordIntent(t, intent, scan, meta)))
      && (forall q, meta :: ReserveAnswers(t, q, meta, cid, ReserveMutation(t, q, meta, cid)))
      && (forall key, from, next, meta ::
            TransitionAnswers(t, key, from, next, meta, TransitionReservation(t, key, from, next, meta, cid)))
  {
    var t := Run(calls, cid);
    RunKeepsInvariant(calls, cid);
    hide *;
    forall intent, scan, meta ensures RecordAnswers(t, intent, meta, RecordIntent(t, intent, scan, meta)) {
      RecordAnswersExactly(t, intent, scan, meta, cid);
    }
    forall q, meta ensures ReserveAnswers(t, q, meta, cid, ReserveMutation(t, q, meta, cid)) { ReserveAnswersExactly(t, q, meta, cid); }
    forall key, from, next, meta
      ensures TransitionAnswers(t, key, from, next, meta, TransitionReservation(t, key, from, next, meta, cid))
    {
      TransitionAnswersExactly(t, key, from, next, meta, cid);
    }
  }

  /** Stored intents stay as they are, and reservations but for their state. */
  ghost predicate Persists(t: Tables, u: Tables) {
    && (forall id :: id in t.intents ==> id in u.intents && u.intents[id] == t.intents[id])
    && (forall k :: k in t.reservations ==> k in u.reservations && u.reservations[k] == t.reservations[k].(state := u.reservations[k].state))
  }

  lemma StepPersists(t: Tables, call: Call, cid: IdempotencyKey -> string)
    requires Inv(t, cid)
    ensures Persists(t, Step(t, call, cid))
  {
    hide Inv, RecordIntent, ReserveMutation, TransitionReservation, HasMutation, IsUnused, IsCanonical, IsFree, IsTransitionAllowed;
    match call
    case Record(intent, scan, meta) => RecordAnswersExactly(t, intent, scan, meta, cid);
    case Reserve(q, meta) => ReserveAnswersExactly(t, q, meta, cid);
    case Transition(key, from, next, meta) => TransitionAnswersExactly(t, key, from, next, meta, cid);
  }

  lemma {:induction false} RunPersists(calls: seq<Call>, more: seq<Call>, cid: IdempotencyKey -> string)
    ensures Persists(Run(calls, cid), Run(calls + more, cid))
  {
    hide Step, Inv;
    if more == [] {
      assert calls + more == calls;
    } else {
      var shorter, last := more[..|more| - 1], more[|more| - 1];
      RunPersists(calls, shorter, cid);
      assert (calls + more)[..|calls + more| - 1] == calls + shorter;
      RunKeepsInvariant(calls + shorter, cid);
      StepPersists(Run(calls + shorter, cid), last, cid);
    }
  }

  /** The request was answered before: it is bound to the selected revision, and its reservation is there. */
  ghost predicate IsBound(t: Tables, q: ReserveRequest) {
    && IsForSelected(t, q) && t.selections[q.intent.Action()].reserved
    && q.Key() in t.reservations && IsSameRequest(t.reservations[q.Key()], q)
  }

  /** What a committed reservation leaves, whether it was there before or not. */
  lemma ReservedIsBound(t: Tables, q: ReserveRequest, meta: EventMeta, cid: IdempotencyKey -> string)
    requires Inv(t, cid) && ReserveMutation(t, q, meta, cid).Commit?
    ensures var o := ReserveMutation(t, q, meta, cid);
      IsCanonical(q) && IsBound(o.tables, q)
  {
    ReserveAnswersExactly(t, q, meta, cid);
    assert q.intent.Action() in t.selections ==> SelectionBound(t, q.intent.Action());
    hide Inv, ReserveMutation, IsCanonical, IsFree, IsUnused;
  }

  lemma BoundPersists(t: Tables, u: Tables, q: ReserveRequest)
    requires IsBound(t, q) && Persists(t, u) && q.intent.Action() in u.selections
    requires u.selections[q.intent.Action()] == t.selections[q.intent.Action()]
    ensures IsBound(u, q)
  {
  }

  lemma BoundOverRuns(calls: seq<Call>, q: ReserveRequest, meta: EventMeta, more: seq<Call>, cid: IdempotencyKey -> string)
    requires ReserveMutation(Run(calls, cid), q, meta, cid).Commit?
    ensures IsCanonical(q) && IsBound(Run(calls + [Reserve(q, meta)] + more, cid), q)
  {
    var first := calls + [Reserve(q, meta)];
    assert first[..|first| - 1] == calls;
    assert Run(first, cid) == ReserveMutation(Run(calls, cid), q, meta, cid).tables;
    hide Inv, ReserveMutation, Run, IsCanonical, Persists;
    RunKeepsInvariant(calls, cid);
    ReservedIsBound(Run(calls, cid), q, meta, cid);
    FrozenOnceReserved(first, more, cid, q.intent.Action());
    RunPersists(first, more, cid);
    BoundPersists(Run(first, cid), Run(first + more, cid), q);
  }

  lemma BoundAnswers(t: Tables, q: ReserveRequest, again: EventMeta, cid: IdempotencyKey -> string)
    requires Inv(t, cid) && IsCanonical(q) && IsBound(t, q)
    ensures ReserveMutation(t, q, again, cid) == Commit(t, t.reservations[q.Key()])
  {
    hide Inv, ReserveMutation, IsCanonical, IsFree, IsUnused, Logs;
    ReserveAnswersExactly(t, q, again, cid);
  }

  /** Once a request was answered, the same request answers at any later time, changes nothing, and tells
      what has become of the reservation: the last state the log gives it. */
  lemma RepeatAnswersThePresent(calls: seq<Call>, q: ReserveRequest, meta: EventMeta, more: seq<Call>, again: EventMeta, cid: IdempotencyKey -> string)
    requires ReserveMutation(Run(calls, cid), q, meta, cid).Commit?
    ensures var t := Run(calls + [Reserve(q, meta)] + more, cid);
      var history := StateHistory(t.events, q.Key());
      && q.Key() in t.reservations && IsSameRequest(t.reservations[q.Key()], q)
      && ReserveMutation(t, q, again, cid) == Commit(t, t.reservations[q.Key()])
      && history != [] && t.reservations[q.Key()].state == history[|history| - 1]
  {
    var all := calls + [Reserve(q, meta)] + more;
    hide Inv, ReserveMutation, Run, IsCanonical, StateHistory, IsForSelected, LogComplete, LogNumbered, PathOk, IsSameRequest;
    BoundOverRuns(calls, q, meta, more, cid);
    RunKeepsInvariant(all, cid);
    BoundAnswers(Run(all, cid), q, again, cid);
    RunIsAccounted(all, cid);
    PathIsNotEmpty(Run(all, cid), q.Key());
  }

  lemma PathIsNotEmpty(t: Tables, key: IdempotencyKey)
    requires PathOk(t, key) && key in t.reservations
    ensures var path := StateHistory(t.events, key); path != [] && path[|path| - 1] == t.reservations[key].state
  {
  }

  /** Recording an intent again reuses it as it was answered the first time. */
  lemma RepeatReuses(calls: seq<Call>, cid: IdempotencyKey -> string, intent: OrderIntent, scan: string, meta: EventMeta, again: EventMeta)
    requires RecordIntent(Run(calls, cid), intent, scan, meta).Commit?
    ensures var o := RecordIntent(Run(calls, cid), intent, scan, meta);
      var r := RecordIntent(o.tables, intent, scan, again);
      if IsUnused(o.tables, again.eventId) then r.Commit? && r.value == Plan(Reuse, o.value.intent, None) else r == Abort(Conflict)
  {
    var t := Run(calls, cid);
    hide Inv, Run, RecordIntent, IsUnused, HasMutation, Logs;
    RunKeepsInvariant(calls, cid);
    RecordAnswersExactly(t, intent, scan, meta, cid);
    var o := RecordIntent(t, intent, scan, meta);
    StepKeepsInvariant(t, Record(intent, scan, meta), cid);
    RecordAnswersExactly(o.tables, intent, scan, again, cid);
  }

  /** Moving a reservation again is refused: it has left the state its caller expects. */
  lemma RepeatIsRefused(calls: seq<Call>, cid: IdempotencyKey -> string, key: IdempotencyKey, from: ReservationState, next: ReservationState,
                        meta: EventMeta, again: EventMeta)
    requires TransitionReservation(Run(calls, cid), key, from, next, meta, cid).Commit?
    ensures TransitionReservation(TransitionReservation(Run(calls, cid), key, from, next, meta, cid).tables, key, from, next, again, cid) == Abort(Conflict)
  {
    var t := Run(calls, cid);
    hide Inv, Run, TransitionReservation, IsUnused, Logs;
    RunKeepsInvariant(calls, cid);
    TransitionAnswersExactly(t, key, from, next, meta, cid);
    var o := TransitionReservation(t, key, from, next, meta, cid);
    StepKeepsInvariant(t, Transition(key, from, next, meta), cid);
    TransitionAnswersExactly(o.tables, key, from, next, again, cid);
  }
}
