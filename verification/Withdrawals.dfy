/** When a reminder is withdrawn, why, and whether the withdrawal is mailed. */
module Withdrawals {
  import opened Basics
  import opened Alerts
  import opened Outbox
  import opened OutboxViews
  import opened SignalStreams

  /** The reminder may have reached its reader. */
  predicate MayBeSeen(entry: Row) {
    entry.state.Confirmed? || entry.state.Unknown?
  }

  /** The withdrawal of an entry as it is recorded: due at once when the entry may have been seen, else kept
      for review only. */
  predicate IsWithdrawal(row: Option<Row>, entry: Row, reason: Reason, evidence: Option<Observation>, now: int) {
    && row.Some?
    && row.value.alert == Alert(InvalidationId(entry.alert.id, reason), now, None, reason, evidence, [])
    && row.value.state.Pending? && row.value.attempts == 0 && row.value.nextAttemptMs == now
    && row.value.suppressed == (if MayBeSeen(entry) then None else Some(HistoricalEvent))
    && (Eligible(row.value, now) <==> MayBeSeen(entry))
  }

  /** What withdrawing an entry leaves in the outbox: its row suppressed for the reason, unless it already was,
      and its withdrawal, which was not there before. */
  ghost predicate IsWithdrawn(o: Box, u: Box, id: AlertId, reason: Reason, evidence: Option<Observation>, now: int) {
    && RowOf(o, id).Some? && RowOf(o, InvalidationId(id, reason)).None?
    && var entry := RowOf(o, id).value;
       && entry.alert.id == id
       && RowOf(u, id) == Some(if entry.suppressed.Some? then entry else entry.(suppressed := Some(reason)))
       && IsWithdrawal(RowOf(u, InvalidationId(id, reason)), entry, reason, if evidence.Some? then evidence else entry.alert.observation, now)
  }

  lemma ActiveIsRecorded(d: Signals, symbol: string, reason: Reason)
    requires Lifecycle(d) && StreamOf(d.streams, symbol).active.Some?
    ensures var id := StreamOf(d.streams, symbol).active.value;
      id.EntryId? && id.signal.symbol == symbol && RowOf(d.box, id).Some? && RowOf(d.box, id).value.alert.id == id
      && RowOf(d.box, InvalidationId(id, reason)).None?
  {
    var v, id := ViewOf(d.box), StreamOf(d.streams, symbol).active.value;
    assert StreamOk(v, symbol, d.streams[symbol]);
    assert EntryOk(v, d.streams, id) && InvalidationOk(v, d.streams, InvalidationId(id, reason));
    assert v(id) == RowOf(d.box, id) && v(InvalidationId(id, reason)) == RowOf(d.box, InvalidationId(id, reason));
  }

  lemma WithdrawingRows(o: Box, id: AlertId, alert: Alert, suppressed: Option<Reason>, reason: Reason, now: int)
    requires BoxOk(o) && alert.id != id && RowOf(o, alert.id).None? && Enqueue(o, alert, now, suppressed).Ok?
    requires Suppress(Enqueue(o, alert, now, suppressed).value, id, reason, now).Ok? && RowOf(o, id).Some?
    ensures var u := Suppress(Enqueue(o, alert, now, suppressed).value, id, reason, now).value;
      && RowOf(u, alert.id) == Some(Row(alert, Pending, 0, now, false, suppressed))
      && RowOf(u, id) == Some(if RowOf(o, id).value.suppressed.Some? then RowOf(o, id).value else RowOf(o, id).value.(suppressed := Some(reason)))
  {
    var m := Enqueue(o, alert, now, suppressed).value;
    EnqueueView(o, alert, now, suppressed);
    ChangeKeepsBox(o, DoEnqueue(alert, suppressed), now);
    SuppressView(m, id, reason, now);
    var u := Suppress(m, id, reason, now).value;
    hide BoxOk, Enqueue, Suppress, RowOf;
    assert ViewOf(m)(id) == ViewOf(o)(id) && ViewOf(u)(alert.id) == ViewOf(m)(alert.id);
  }

  /** Withdrawing an active reminder always succeeds; the withdrawal is mailed exactly when the reminder may
      have been. */
  lemma WithdrawalMeans(d: Signals, symbol: string, s: Stream, reason: Reason, now: int, evidence: Option<Observation>)
    requires Lifecycle(d) && Compatible(d, symbol, s) && s.active.Some?
    ensures var r := Invalidate(d, symbol, s, reason, now, evidence);
      && r.Ok? && IsWithdrawn(d.box, r.value.0.box, s.active.value, reason, evidence, now)
      && r.value.0.streams == d.streams[symbol := s.(active := None, signalKey := None)]
  {
    var id := s.active.value;
    ActiveIsRecorded(d, symbol, reason);
    InvalidateSucceeds(d, symbol, s, reason, now, evidence);
    RecordNeverFails(d.box, id);
    var entry := RowOf(d.box, id).value;
    var suppressed := if MayBeSeen(entry) then None else Some(HistoricalEvent);
    var alert := InvalidationAlert(id, reason, now, if evidence.Some? then evidence else entry.alert.observation);
    hide Lifecycle, Enqueue, Suppress, StreamsOk;
    WithdrawingRows(d.box, id, alert, suppressed, reason, now);
  }

  // ---- what an observation withdraws ----

  /** A new service run starts a new epoch, in which nothing was seen yet. */
  predicate StartsEpoch(saved: Stream, run: Option<string>) {
    run.Some? && saved.serviceRun != run
  }

  /** From the future, or older than what the stream was last told in this epoch, or just that again. */
  predicate TellsNothing(saved: Stream, o: Observation, now: int, run: Option<string>) {
    || now < o.createdAtMs || now < o.observedAtMs
    || (if StartsEpoch(saved, run) then o.createdAtMs < 0 || o.observedAtMs < 0
        else
          || o.createdAtMs < saved.createdAtMs || o.observedAtMs < saved.observedAtMs
          || (saved.lastResult.Some? && o.createdAtMs == saved.createdAtMs && o.observedAtMs == saved.observedAtMs))
  }

  datatype Cause = Cause(reason: Reason, evidence: Option<Observation>)

  /** Why an observation withdraws the active reminder of its symbol, if it does: the reminder was seen later
      than a new epoch's evidence; or what it tells is that nothing is to be done, that nothing is known, or
      that there is another signal. */
  function CauseOf(saved: Stream, o: Observation, now: int, run: Option<string>): Option<Cause> {
    if StartsEpoch(saved, run) && o.observedAtMs < saved.lastSeenMs then Some(Cause(SourceUnavailable, None))
    else if TellsNothing(saved, o, now, run) then None
    else
      match o.outcome
      case ReadyForReview(_, _, _, _) => if saved.signalKey == KeyOf(o) then None else Some(Cause(SignalReplaced, None))
      case NormalNoAction => Some(Cause(DecisionChanged, Some(o)))
      case Unavailable => Some(Cause(SourceUnavailable, Some(o)))
  }

  lemma EnteringLeaves(d: Signals, o: Observation, s: Stream, key: SignalKey, now: int, reviewMs: int, id: AlertId)
    requires Lifecycle(d) && Enter(d, o, s, key, now, reviewMs).Ok? && (id.EntryId? ==> id.transition <= s.counter)
    ensures RowOf(Enter(d, o, s, key, now, reviewMs).value.box, id) == RowOf(d.box, id)
  {
    var alert := EntryAlert(o, key, s.counter + 1, reviewMs);
    EnqueueView(d.box, alert, now, LateReview(o, now, reviewMs));
    var u := Enter(d, o, s, key, now, reviewMs).value;
    assert ViewOf(u.box)(id) == ViewOf(d.box)(id);
  }

  lemma ActiveIsOld(d: Signals, symbol: string)
    requires Lifecycle(d) && StreamOf(d.streams, symbol).active.Some?
    ensures var stream := StreamOf(d.streams, symbol); stream.active.value.EntryId? && stream.active.value.transition <= stream.counter
  {
    assert StreamOk(ViewOf(d.box), symbol, d.streams[symbol]);
  }

  lemma ConfirmWithdraws(d: Signals, o: Observation, s: Stream, now: int, reviewMs: int)
    requires Lifecycle(d) && Compatible(d, o.symbol, s) && s.active.Some? && s.signalKey != KeyOf(o) && Confirm(d, o, s, now, reviewMs).Ok?
    ensures IsWithdrawn(d.box, Confirm(d, o, s, now, reviewMs).value.box, s.active.value, SignalReplaced, None, now)
  {
    hide Invalidate, Enter, Lifecycle, RowOf, SignalMove, IsWithdrawal;
    var key, id := KeyOf(o).value, s.active.value;
    WithdrawalMeans(d, o.symbol, s, SignalReplaced, now, None);
    InvalidateKeeps(d, o.symbol, s, SignalReplaced, now, None);
    var i := Invalidate(d, o.symbol, s, SignalReplaced, now, None).value;
    ActiveIsOld(d, o.symbol);
    EnteringLeaves(i.0, o, i.1, key, now, reviewMs, id);
    EnteringLeaves(i.0, o, i.1, key, now, reviewMs, InvalidationId(id, SignalReplaced));
  }

  /** Accepting an observation in its epoch, with an active reminder. */
  lemma AcceptWithdraws(d: Signals, o: Observation, s: Stream, now: int, reviewMs: int, collection: Option<string>)
    requires Lifecycle(d) && Compatible(d, o.symbol, s) && s.active.Some? && Accept(d, o, s, now, reviewMs, collection).Ok?
    ensures var u, cause := Accept(d, o, s, now, reviewMs, collection).value, CauseOf(s, o, now, None);
      if cause.Some? then IsWithdrawn(d.box, u.box, s.active.value, cause.value.reason, cause.value.evidence, now) else u.box == d.box
  {
    hide Invalidate, Enter, Lifecycle, RowOf, IsWithdrawn;
    var s2 := s.(createdAtMs := o.createdAtMs, observedAtMs := o.observedAtMs, lastResult := Some(o.fingerprint), collectionRun := collection);
    if !TellsNothing(s, o, now, None) {
      if o.outcome.ReadyForReview? {
        if s.signalKey != KeyOf(o) { ConfirmWithdraws(d, o, s2, now, reviewMs); }
      } else {
        WithdrawalMeans(d, o.symbol, s2, if o.outcome.NormalNoAction? then DecisionChanged else SourceUnavailable, now, Some(o));
      }
    }
  }

  lemma EnteredLater(d: Signals, m: Signals, o: Observation, s: Stream, now: int, reviewMs: int, collection: Option<string>, id: AlertId)
    requires Lifecycle(m) && Compatible(m, o.symbol, s) && s.active.None? && Accept(m, o, s, now, reviewMs, collection).Ok?
    requires id.EntryId? ==> id.transition <= s.counter
    ensures RowOf(Accept(m, o, s, now, reviewMs, collection).value.box, id) == RowOf(m.box, id)
  {
    hide Enter, Lifecycle, RowOf;
    var s2 := s.(createdAtMs := o.createdAtMs, observedAtMs := o.observedAtMs, lastResult := Some(o.fingerprint), collectionRun := collection);
    if KeyOf(o).Some? && Enter(m, o, s2, KeyOf(o).value, now, reviewMs).Ok? { EnteringLeaves(m, o, s2, KeyOf(o).value, now, reviewMs, id); }
  }

  lemma EpochWithdraws(d: Signals, o: Observation, now: int, reviewMs: int, run: Option<string>, collection: Option<string>)
    requires Lifecycle(d) && StreamOf(d.streams, o.symbol).active.Some? && Observe(d, o, now, reviewMs, run, collection).Ok?
    requires StartsEpoch(StreamOf(d.streams, o.symbol), run) && o.observedAtMs < StreamOf(d.streams, o.symbol).lastSeenMs
    ensures IsWithdrawn(d.box, Observe(d, o, now, reviewMs, run, collection).value.box, StreamOf(d.streams, o.symbol).active.value,
                        SourceUnavailable, None, now)
  {
    var saved := StreamOf(d.streams, o.symbol);
    var id := saved.active.value;
    hide Invalidate, Accept, Lifecycle, RowOf, IsWithdrawal, SignalMove;
    EpochKeeps(d, o, now, run);
    var (m, s) := EnterEpoch(d, o, saved, now, run).value;
    WithdrawalMeans(d, o.symbol, saved, SourceUnavailable, now, None);
    ActiveIsOld(d, o.symbol);
    EnteredLater(d, m, o, s, now, reviewMs, collection, id);
    EnteredLater(d, m, o, s, now, reviewMs, collection, InvalidationId(id, SourceUnavailable));
  }

  /** An observation withdraws the active reminder of its symbol exactly for one of the causes, and otherwise
      leaves the outbox as it was. */
  lemma ObservationWithdraws(d: Signals, o: Observation, now: int, reviewMs: int, run: Option<string>, collection: Option<string>)
    requires Lifecycle(d) && StreamOf(d.streams, o.symbol).active.Some? && Observe(d, o, now, reviewMs, run, collection).Ok?
    ensures var saved, u := StreamOf(d.streams, o.symbol), Observe(d, o, now, reviewMs, run, collection).value;
      var cause := CauseOf(saved, o, now, run);
      if cause.Some? then IsWithdrawn(d.box, u.box, saved.active.value, cause.value.reason, cause.value.evidence, now) else u.box == d.box
  {
    var saved := StreamOf(d.streams, o.symbol);
    hide Invalidate, Accept, Lifecycle, IsWithdrawn, SignalMove, RowOf;
    if StartsEpoch(saved, run) && o.observedAtMs < saved.lastSeenMs {
      EpochWithdraws(d, o, now, reviewMs, run, collection);
    } else {
      EpochKeeps(d, o, now, run);
      AcceptWithdraws(d, o, EnterEpoch(d, o, saved, now, run).value.1, now, reviewMs, collection);
    }
  }

  /** Observations from the future or the past of their epoch are counted, and nothing else is. */
  lemma OutOfOrderIsCounted(d: Signals, o: Observation, now: int, reviewMs: int, run: Option<string>, collection: Option<string>)
    requires Lifecycle(d) && Observe(d, o, now, reviewMs, run, collection).Ok?
    ensures var saved, u := StreamOf(d.streams, o.symbol), Observe(d, o, now, reviewMs, run, collection).value;
      var anew := StartsEpoch(saved, run);
      var stray := now < o.createdAtMs || now < o.observedAtMs || o.createdAtMs < (if anew then 0 else saved.createdAtMs)
                   || o.observedAtMs < (if anew then 0 else saved.observedAtMs);
      u.outOfOrder == d.outOfOrder + if stray then 1 else 0
  {
    hide Lifecycle, Enqueue, Suppress, Record;
  }
}
