/** The audit log is a complete account of the tables, over every run. */
module ExecutionReplay {
  import opened Basics
  import opened ExecutionAudit
  import opened ExecutionTables
  import opened ExecutionInvariants

  /** Everything the tables say about one business action. */
  datatype ActionView = ActionView(selection: Option<Selection>, reservations: map<IdempotencyKey, Reservation>)

  ghost function ViewOf(t: Tables, a: BusinessActionId): ActionView {
    ActionView(if a in t.selections then Some(t.selections[a]) else None,
               map k | k in t.reservations && t.reservations[k].action == a :: t.reservations[k])
  }

  /** The events of one action, in insertion order. */
  function EventsOf(events: seq<AuditEvent>, a: BusinessActionId): seq<AuditEvent> {
    if events == [] then [] else
      var rest, last := EventsOf(events[..|events| - 1], a), events[|events| - 1];
      if last.action == a then rest + [last] else rest
  }

  function ReplayEvent(v: ActionView, e: AuditEvent): ActionView {
    match e.payload
    case IntentCreated(_) => v.(selection := Some(Selection(e.intentId, 1, false)))
    case IntentReused(_, _) => v
    case IntentSuperseded(_, newIntent, version) => v.(selection := Some(Selection(newIntent, version, false)))
    case KeyReserved(key, lineage, clientOrderId, reason, policy) =>
      ActionView(if v.selection.Some? then Some(v.selection.value.(reserved := true)) else None,
                 v.reservations[key := Reservation(key, e.action, e.intentId, lineage, clientOrderId, reason, policy, Reserved)])
    case StateChanged(key, _, newState) =>
      if key in v.reservations then v.(reservations := v.reservations[key := v.reservations[key].(state := newState)]) else v
  }

  function Replay(events: seq<AuditEvent>): ActionView {
    if events == [] then ActionView(None, map[])
    else ReplayEvent(Replay(events[..|events| - 1]), events[|events| - 1])
  }

  /** The states a reservation went through, as the log tells it. */
  function StateHistory(events: seq<AuditEvent>, key: IdempotencyKey): seq<ReservationState> {
    if events == [] then [] else
      var rest := StateHistory(events[..|events| - 1], key);
      match events[|events| - 1].payload
      case KeyReserved(k, _, _, _, _) => if k == key then rest + [Reserved] else rest
      case StateChanged(k, _, newState) => if k == key then rest + [newState] else rest
      case _ => rest
  }

  ghost predicate LogComplete(t: Tables) {
    forall a :: Replay(EventsOf(t.events, a)) == ViewOf(t, a)
  }

  /** The events of an action are numbered one, two, three and so on. */
  ghost predicate Numbered(events: seq<AuditEvent>, a: BusinessActionId) {
    forall i :: 0 <= i < |EventsOf(events, a)| ==> EventsOf(events, a)[i].sequence == i + 1
  }

  ghost predicate LogNumbered(t: Tables) {
    forall a :: Numbered(t.events, a)
  }

  /** A reservation's logged states form a path of the automaton that ends in its current state. */
  ghost predicate PathOk(t: Tables, key: IdempotencyKey) {
    var path := StateHistory(t.events, key);
    if key in t.reservations then IsPath(path) && path[|path| - 1] == t.reservations[key].state else path == []
  }

  ghost predicate PathsOk(t: Tables) {
    forall key :: PathOk(t, key)
  }

  // ---- the effect of one logged event ----

  lemma EventsOfAppend(events: seq<AuditEvent>, e: AuditEvent, a: BusinessActionId)
    ensures EventsOf(events + [e], a) == EventsOf(events, a) + (if e.action == a then [e] else [])
  {
    assert (events + [e])[..|events|] == events;
  }

  lemma ReplayAppend(events: seq<AuditEvent>, e: AuditEvent)
    ensures Replay(events + [e]) == ReplayEvent(Replay(events), e)
  {
    assert (events + [e])[..|events|] == events;
  }

  lemma StateHistoryAppend(events: seq<AuditEvent>, e: AuditEvent, key: IdempotencyKey)
    ensures StateHistory(events + [e], key) == StateHistory(events, key) +
      (if e.payload.KeyReserved? && e.payload.key == key then [Reserved]
       else if e.payload.StateChanged? && e.payload.changed == key then [e.payload.newState]
       else [])
  {
    assert (events + [e])[..|events|] == events;
  }

  lemma {:induction false} MaxSequenceIsCount(events: seq<AuditEvent>, a: BusinessActionId)
    requires Numbered(events, a)
    ensures MaxSequence(events, a) == |EventsOf(events, a)|
  {
    if events != [] {
      var rest, last := events[..|events| - 1], events[|events| - 1];
      EventsOfAppend(rest, last, a);
      assert rest + [last] == events;
      assert forall i :: 0 <= i < |EventsOf(rest, a)| ==> EventsOf(events, a)[i] == EventsOf(rest, a)[i];
      MaxSequenceIsCount(rest, a);
      if last.action == a {
        assert EventsOf(events, a)[|EventsOf(rest, a)|] == last;
      }
    }
  }

  lemma NumberedAppend(events: seq<AuditEvent>, e: AuditEvent, a: BusinessActionId)
    requires Numbered(events, a) && (e.action == a ==> e.sequence == MaxSequence(events, a) + 1)
    ensures Numbered(events + [e], a)
  {
    MaxSequenceIsCount(events, a);
    EventsOfAppend(events, e, a);
  }

  /** A transaction that changes one action's view as its event says keeps the log complete. */
  lemma CompleteStep(t: Tables, u: Tables, e: AuditEvent)
    requires LogComplete(t) && LogNumbered(t)
    requires u.events == t.events + [e] && e.sequence == MaxSequence(t.events, e.action) + 1
    requires ViewOf(u, e.action) == ReplayEvent(ViewOf(t, e.action), e)
    requires forall a :: a != e.action ==> ViewOf(u, a) == ViewOf(t, a)
    ensures LogComplete(u) && LogNumbered(u)
  {
    forall a ensures Replay(EventsOf(u.events, a)) == ViewOf(u, a) && Numbered(u.events, a) {
      EventsOfAppend(t.events, e, a);
      assert Replay(EventsOf(t.events, a)) == ViewOf(t, a);
      assert Numbered(t.events, a);
      NumberedAppend(t.events, e, a);
      if a == e.action { ReplayAppend(EventsOf(t.events, a), e); }
    }
  }

  // ---- each transaction ----

  ghost predicate Accounted(t: Tables) {
    LogComplete(t) && LogNumbered(t) && PathsOk(t)
  }

  /** A transaction that only selects or reuses an intent. */
  lemma SelectAccounted(t: Tables, u: Tables, e: AuditEvent)
    requires Accounted(t)
    requires u.events == t.events + [e] && e.sequence == MaxSequence(t.events, e.action) + 1
    requires u.reservations == t.reservations
    requires !e.payload.KeyReserved? && !e.payload.StateChanged?
    requires ViewOf(u, e.action) == ReplayEvent(ViewOf(t, e.action), e)
    requires forall a :: a != e.action ==> (a in u.selections <==> a in t.selections) && (a in t.selections ==> u.selections[a] == t.selections[a])
    ensures Accounted(u)
  {
    forall a | a != e.action ensures ViewOf(u, a) == ViewOf(t, a) { }
    CompleteStep(t, u, e);
    forall key ensures PathOk(u, key) {
      StateHistoryAppend(t.events, e, key);
      assert PathOk(t, key);
    }
  }

  lemma CreateAccounted(t: Tables, intent: OrderIntent, scan: string, meta: EventMeta)
    requires Accounted(t) && intent.Action() !in t.selections
    ensures var o := CreateAction(t, intent, scan, meta); o.Commit? ==> Accounted(o.tables)
  {
    hide Accounted;
    var o := CreateAction(t, intent, scan, meta);
    if o.Commit? {
      var e := NewEvent(t, intent, scan, meta, IntentCreated(intent));
      assert ViewOf(o.tables, intent.Action()) == ReplayEvent(ViewOf(t, intent.Action()), e);
      SelectAccounted(t, o.tables, e);
    }
  }

  lemma ReviseAccounted(t: Tables, intent: OrderIntent, scan: string, meta: EventMeta)
    requires Accounted(t) && intent.Action() in t.selections && SelectionBound(t, intent.Action())
    ensures var o := ReviseAction(t, t.selections[intent.Action()], intent, scan, meta); o.Commit? ==> Accounted(o.tables)
  {
    var a := intent.Action();
    var current := t.selections[a];
    var o := ReviseAction(t, current, intent, scan, meta);
    if o.Commit? {
      var existing := t.intents[current.intentId].intent;
      var e := if existing.Id() == intent.Id() then NewEvent(t, existing, scan, meta, IntentReused(existing.Id(), scan))
        else NewEvent(t, intent, scan, meta, IntentSuperseded(existing.Id(), intent.Id(), current.version + 1));
      assert ViewOf(o.tables, a) == ReplayEvent(ViewOf(t, a), e);
      SelectAccounted(t, o.tables, e);
    }
  }

  lemma RecordAccounted(t: Tables, intent: OrderIntent, scan: string, meta: EventMeta, cid: IdempotencyKey -> string)
    requires Inv(t, cid) && Accounted(t)
    ensures var o := RecordIntent(t, intent, scan, meta); o.Commit? ==> Accounted(o.tables)
  {
    hide Accounted, CreateAction, ReviseAction;
    if intent.Action() in t.selections {
      assert SelectionBound(t, intent.Action());
      ReviseAccounted(t, intent, scan, meta);
    } else {
      CreateAccounted(t, intent, scan, meta);
    }
  }

  lemma ReserveAccounted(t: Tables, u: Tables, q: ReserveRequest, e: AuditEvent, cid: IdempotencyKey -> string)
    requires Accounted(t) && DidReserve(t, u, q, e, cid)
    ensures Accounted(u)
  {
    var a, r := e.action, NewReservation(q, cid);
    forall b | b != a ensures ViewOf(u, b) == ViewOf(t, b) { }
    assert ViewOf(u, a).reservations == ViewOf(t, a).reservations[r.key := r];
    CompleteStep(t, u, e);
    forall key ensures PathOk(u, key) {
      StateHistoryAppend(t.events, e, key);
      assert PathOk(t, key);
    }
  }

  lemma TransitionAccounted(t: Tables, u: Tables, key: IdempotencyKey, next: ReservationState, e: AuditEvent, cid: IdempotencyKey -> string)
    requires Accounted(t) && DidTransition(t, u, key, next, e, cid)
    ensures Accounted(u)
  {
    var a, r := e.action, t.reservations[key];
    forall b | b != a ensures ViewOf(u, b) == ViewOf(t, b) { }
    assert ViewOf(u, a).reservations == ViewOf(t, a).reservations[key := r.(state := next)];
    CompleteStep(t, u, e);
    TransitionPaths(t, u, key, next, e, cid);
  }

  lemma TransitionPaths(t: Tables, u: Tables, key: IdempotencyKey, next: ReservationState, e: AuditEvent, cid: IdempotencyKey -> string)
    requires PathsOk(t) && DidTransition(t, u, key, next, e, cid)
    ensures PathsOk(u)
  {
    hide EventContract;
    forall k ensures PathOk(u, k) {
      StateHistoryAppend(t.events, e, k);
      assert PathOk(t, k);
      if k == key { PathExtend(StateHistory(t.events, k), next); }
    }
  }

  lemma PathExtend(path: seq<ReservationState>, next: ReservationState)
    requires IsPath(path) && IsTransitionAllowed(path[|path| - 1], next)
    ensures IsPath(path + [next])
  {
    var longer := path + [next];
    forall i {:trigger longer[i]} | 0 < i < |longer| ensures IsTransitionAllowed(longer[i - 1], longer[i]) {
      if i < |path| { assert longer[i] == path[i]; assert IsTransitionAllowed(path[i - 1], path[i]); }
    }
  }

  lemma StepAccounted(t: Tables, call: Call, cid: IdempotencyKey -> string)
    requires Inv(t, cid) && Accounted(t)
    ensures Accounted(Step(t, call, cid))
  {
    match call
    case Record(intent, scan, meta) => RecordAccounted(t, intent, scan, meta, cid);
    case Reserve(q, meta) =>
      if ReserveMutation(t, q, meta, cid).Commit? && q.Key() !in t.reservations {
        var event := ReserveCommits(t, q, meta, cid);
        ReserveAccounted(t, Step(t, call, cid), q, event, cid);
      }
    case Transition(key, expected, next, meta) =>
      if TransitionReservation(t, key, expected, next, meta, cid).Commit? {
        var event := TransitionCommits(t, key, expected, next, meta, cid);
        TransitionAccounted(t, Step(t, call, cid), key, next, event, cid);
      }
  }

  // ---- the results over runs ----

  /** After any run: replaying the events of any action from nothing rebuilds its selection and all
      its reservations with their states, the events are numbered from one without gaps, and each
      reservation's logged states are a path of the automaton ending in its current state. */
  lemma {:induction false} RunIsAccounted(calls: seq<Call>, cid: IdempotencyKey -> string)
    ensures Accounted(Run(calls, cid))
  {
    if calls == [] {
      forall a ensures Replay(EventsOf(EMPTY.events, a)) == ViewOf(EMPTY, a) { }
    } else {
      RunIsAccounted(calls[..|calls| - 1], cid);
      RunKeepsInvariant(calls[..|calls| - 1], cid);
      StepAccounted(Run(calls[..|calls| - 1], cid), calls[|calls| - 1], cid);
    }
  }

  /** Over any run a reservation reaches at most one terminal outcome and stays there, and between
      two dispatches of it the log holds a state that proves nothing was sent. */
  lemma OutcomesOverRuns(calls: seq<Call>, cid: IdempotencyKey -> string, key: IdempotencyKey)
    requires key in Run(calls, cid).reservations
    ensures var path := StateHistory(Run(calls, cid).events, key);
      && path != []
      && path[|path| - 1] == Run(calls, cid).reservations[key].state
      && (forall i :: 0 <= i < |path| && IsTerminal(path[i]) ==> i == |path| - 1)
      && (forall i, j :: 0 <= i < j < |path| && path[i] == path[j] == Dispatching ==> path[i + 1] == NotSentFailed)
  {
    RunIsAccounted(calls, cid);
    assert PathOk(Run(calls, cid), key);
    var path := StateHistory(Run(calls, cid).events, key);
    forall i | 0 <= i < |path| && IsTerminal(path[i]) ensures i == |path| - 1 { TerminalOnce(path, i); }
    forall i, j | 0 <= i < j < |path| && path[i] == path[j] == Dispatching ensures path[i + 1] == NotSentFailed {
      DispatchesAreSeparated(path, i, j);
    }
  }

  /** An action has at most one submit reservation; it carries the client order id of its own key. */
  lemma OneSubmitPerAction(calls: seq<Call>, cid: IdempotencyKey -> string, j: IdempotencyKey, k: IdempotencyKey)
    requires j in Run(calls, cid).reservations && k in Run(calls, cid).reservations
    requires j.operation.SubmitEntry? && k.operation.SubmitEntry?
    requires Run(calls, cid).reservations[j].action == Run(calls, cid).reservations[k].action
    ensures j == k && Run(calls, cid).reservations[j].clientOrderId == Some(cid(j))
  {
    var t := Run(calls, cid);
    RunKeepsInvariant(calls, cid);
    assert ReservationSound(t, j, cid) && ReservationSound(t, k, cid);
  }

  /** Client order ids stay distinct whatever the truncated hash does, and an environment's order
      lineage has at most one cancel that was not rejected. */
  lemma ExclusiveSlots(calls: seq<Call>, cid: IdempotencyKey -> string, j: IdempotencyKey, k: IdempotencyKey)
    requires j in Run(calls, cid).reservations && k in Run(calls, cid).reservations && j != k
    ensures var r, s := Run(calls, cid).reservations[j], Run(calls, cid).reservations[k];
            (r.clientOrderId.Some? ==> r.clientOrderId != s.clientOrderId)
            && (j.operation.CancelOrder? && k.operation.CancelOrder? && j.environment == k.environment && r.orderLineage == s.orderLineage
                ==> r.state == Rejected || s.state == Rejected)
  {
    RunKeepsInvariant(calls, cid);
  }

  /** The selected intent never changes after the first reservation, whatever is called later. */
  lemma {:induction false} FrozenOnceReserved(calls: seq<Call>, more: seq<Call>, cid: IdempotencyKey -> string, a: BusinessActionId)
    requires a in Run(calls, cid).selections && Run(calls, cid).selections[a].reserved
    ensures a in Run(calls + more, cid).selections && Run(calls + more, cid).selections[a] == Run(calls, cid).selections[a]
  {
    hide Step;
    if more == [] {
      assert calls + more == calls;
    } else {
      var shorter, last := more[..|more| - 1], more[|more| - 1];
      FrozenOnceReserved(calls, shorter, cid, a);
      assert (calls + more)[..|calls + more| - 1] == calls + shorter;
      FrozenStep(Run(calls + shorter, cid), last, cid, a);
    }
  }

  lemma FrozenStep(t: Tables, call: Call, cid: IdempotencyKey -> string, a: BusinessActionId)
    requires a in t.selections && t.selections[a].reserved
    ensures a in Step(t, call, cid).selections && Step(t, call, cid).selections[a] == t.selections[a]
  {
    hide RecordIntent, ReserveMutation, TransitionReservation;
    match call
    case Record(intent, scan, meta) => FrozenRecord(t, intent, scan, meta, a);
    case Reserve(q, meta) => FrozenReserve(t, q, meta, cid, a);
    case Transition(key, expected, next, meta) => FrozenTransition(t, key, expected, next, meta, cid, a);
  }

  lemma FrozenRecord(t: Tables, intent: OrderIntent, scan: string, meta: EventMeta, a: BusinessActionId)
    requires a in t.selections && t.selections[a].reserved
    ensures var o := RecordIntent(t, intent, scan, meta);
      o.Commit? ==> a in o.tables.selections && o.tables.selections[a] == t.selections[a]
  {
  }

  lemma FrozenReserve(t: Tables, q: ReserveRequest, meta: EventMeta, cid: IdempotencyKey -> string, a: BusinessActionId)
    requires a in t.selections && t.selections[a].reserved
    ensures var o := ReserveMutation(t, q, meta, cid);
      o.Commit? ==> a in o.tables.selections && o.tables.selections[a] == t.selections[a]
  {
  }

  lemma FrozenTransition(t: Tables, key: IdempotencyKey, expected: ReservationState, next: ReservationState, meta: EventMeta,
                         cid: IdempotencyKey -> string, a: BusinessActionId)
    requires a in t.selections
    ensures var o := TransitionReservation(t, key, expected, next, meta, cid);
      o.Commit? ==> a in o.tables.selections && o.tables.selections[a] == t.selections[a]
  {
  }

  /** The caller's intent has the selected fingerprint but not the stored creation time. */
  predicate StoredBytesDiffer(t: Tables, q: ReserveRequest) {
    && ValidateMutation(q.intent, q.operation, q.mutation, q.orderLineage, q.reason, q.policy).Ok?
    && q.intent.Action() in t.selections
    && t.selections[q.intent.Action()].intentId == q.intent.Id()
    && q.intent.Id() in t.intents
    && t.intents[q.intent.Id()].intent.createdAtMs != q.intent.createdAtMs
  }

  /** On a database written only by the store its corruption checks stay silent, with exactly one
      exception: a reservation whose intent agrees with the selected one in everything the
      fingerprint covers and differs in the creation time, which the fingerprint leaves out. */
  lemma CorruptionReportedExactlyWhenBytesDiffer(calls: seq<Call>, call: Call, cid: IdempotencyKey -> string)
    ensures CallError(Run(calls, cid), call, cid) == Some(InvariantViolation)
      <==> call.Reserve? && StoredBytesDiffer(Run(calls, cid), call.request)
  {
    var t := Run(calls, cid);
    RunKeepsInvariant(calls, cid);
    match call
    case Record(intent, scan, meta) => RecordIsSilent(t, intent, scan, meta, cid);
    case Reserve(q, meta) => ReserveReports(t, q, meta, cid);
    case Transition(key, expected, next, meta) => assert key in t.reservations ==> ReservationSound(t, key, cid);
  }

  /** One such run: the intent is recorded, then a copy created a millisecond later is reserved. */
  lemma RebuiltIntentIsReportedCorrupt(intent: OrderIntent, scan: string, meta: EventMeta, cid: IdempotencyKey -> string)
    ensures var later := intent.(createdAtMs := intent.createdAtMs + 1);
      CallError(Run([Record(intent, scan, meta)], cid),
                Reserve(ReserveRequest(later, SubmitEntry, SubmitId(later.Action()), "lineage", None, None), meta), cid)
      == Some(InvariantViolation)
  {
    var calls := [Record(intent, scan, meta)];
    var later := intent.(createdAtMs := intent.createdAtMs + 1);
    var q := ReserveRequest(later, SubmitEntry, SubmitId(later.Action()), "lineage", None, None);
    assert calls[..0] == [];
    assert Run(calls[..0], cid) == EMPTY;
    var o := CreateAction(EMPTY, intent, scan, meta);
    assert !HasOrphanedEvidence(EMPTY, intent.Action());
    assert o.Commit?;
    assert Run(calls, cid) == o.tables;
    CorruptionReportedExactlyWhenBytesDiffer(calls, Reserve(q, meta), cid);
  }

  lemma RecordIsSilent(t: Tables, intent: OrderIntent, scan: string, meta: EventMeta, cid: IdempotencyKey -> string)
    requires Inv(t, cid)
    ensures RecordIntent(t, intent, scan, meta) != Abort(InvariantViolation)
  {
    var a := intent.Action();
    if a in t.selections { assert SelectionBound(t, a); }
    if HasReservation(t, a) {
      var k :| k in t.reservations && t.reservations[k].action == a;
      assert ReservationSound(t, k, cid);
    }
  }

  lemma ReserveReports(t: Tables, q: ReserveRequest, meta: EventMeta, cid: IdempotencyKey -> string)
    requires Inv(t, cid)
    ensures ReserveMutation(t, q, meta, cid) == Abort(InvariantViolation) <==> StoredBytesDiffer(t, q)
  {
    var a := q.intent.Action();
    if a in t.selections {
      assert SelectionBound(t, a);
      if t.selections[a].intentId == q.intent.Id() {
        var stored := t.intents[q.intent.Id()].intent;
        assert stored.Id() == q.intent.Id();
        assert stored == q.intent <==> stored.createdAtMs == q.intent.createdAtMs;
      }
    }
    assert forall k :: k in t.reservations ==> ReservationSound(t, k, cid);
  }
}
