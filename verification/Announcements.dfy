/** A ready signal that is news becomes a reminder: what an observation, and a whole poll, records for it,
  and when that reminder may be sent. */
module Announcements {
  import opened Basics
  import opened Alerts
  import opened Outbox
  import opened OutboxViews
  import opened SignalStreams
  import opened HealthJournal
  import opened Collector
  import opened CollectorRuns
  import opened CollectorRows
  import opened CollectorSystem
  import opened Refusals

  // ---- one observation ----

  /** The review window of an observation contains the moment. */
  predicate IsTimely(o: Observation, now: int, reviewMs: int) {
    o.observedAtMs <= now < o.observedAtMs + reviewMs
  }

  /** The reminder of a signal as it is first recorded: due at once if it is timely, else suppressed as expired. */
  predicate IsAnnounced(row: Option<Row>, o: Observation, key: SignalKey, transition: nat, now: int, reviewMs: int) {
    && row.Some?
    && row.value.alert == Alert(EntryId(key, transition), o.observedAtMs, Some(o.observedAtMs + reviewMs), Ready, Some(o), [])
    && row.value.state.Pending? && row.value.attempts == 0 && row.value.nextAttemptMs == now
    && row.value.suppressed == (if IsTimely(o, now, reviewMs) then None else Some(ReviewExpired))
    && (Eligible(row.value, now) <==> IsTimely(o, now, reviewMs))
  }

  lemma EnterAnnounces(d: Signals, o: Observation, s: Stream, key: SignalKey, now: int, reviewMs: int)
    requires Lifecycle(d) && KeyOf(o) == Some(key) && s.counter == StreamOf(d.streams, o.symbol).counter && Enter(d, o, s, key, now, reviewMs).Ok?
    ensures var u := Enter(d, o, s, key, now, reviewMs).value;
      && IsAnnounced(RowOf(u.box, EntryId(key, s.counter + 1)), o, key, s.counter + 1, now, reviewMs)
      && StreamOf(u.streams, o.symbol).active == Some(EntryId(key, s.counter + 1))
  {
    hide Lifecycle, Enter, RowOf;
    NextIsAbsent(d, key);
    EnteredRow(d, o, s, key, now, reviewMs);
  }

  lemma EnteredRow(d: Signals, o: Observation, s: Stream, key: SignalKey, now: int, reviewMs: int)
    requires Lifecycle(d) && RowOf(d.box, EntryId(key, s.counter + 1)).None? && Enter(d, o, s, key, now, reviewMs).Ok?
    ensures var u := Enter(d, o, s, key, now, reviewMs).value;
      && RowOf(u.box, EntryId(key, s.counter + 1)) ==
         Some(Row(EntryAlert(o, key, s.counter + 1, reviewMs), Pending, 0, now, false, LateReview(o, now, reviewMs)))
      && StreamOf(u.streams, o.symbol).active == Some(EntryId(key, s.counter + 1))
  {
    EnqueueView(d.box, EntryAlert(o, key, s.counter + 1, reviewMs), now, LateReview(o, now, reviewMs));
    hide Lifecycle, Enqueue, RowOf, LateReview;
  }

  lemma ConfirmAnnounces(d: Signals, o: Observation, s: Stream, key: SignalKey, now: int, reviewMs: int)
    requires Lifecycle(d) && Compatible(d, o.symbol, s) && KeyOf(o) == Some(key) && s.signalKey != Some(key) && Confirm(d, o, s, now, reviewMs).Ok?
    ensures var u := Confirm(d, o, s, now, reviewMs).value;
      && IsAnnounced(RowOf(u.box, EntryId(key, s.counter + 1)), o, key, s.counter + 1, now, reviewMs)
      && StreamOf(u.streams, o.symbol).active == Some(EntryId(key, s.counter + 1))
  {
    hide Invalidate, Enter, Lifecycle, IsAnnounced, KeyOf, SignalMove, RowOf;
    if s.active.Some? {
      InvalidateKeeps(d, o.symbol, s, SignalReplaced, now, None);
      var i := Invalidate(d, o.symbol, s, SignalReplaced, now, None).value;
      EnterAnnounces(i.0, o, i.1, key, now, reviewMs);
    } else {
      EnterAnnounces(d, o, s, key, now, reviewMs);
    }
  }

  /** The observation is ready, neither from the future nor older than its stream, not a repetition of what the
      stream was last told, and shows another signal than the stream's: it is news. */
  predicate IsNews(o: Observation, s: Stream, now: int) {
    && o.outcome.ReadyForReview? && o.outcome.signalTimeMs.Some?
    && o.createdAtMs <= now && o.observedAtMs <= now && s.createdAtMs <= o.createdAtMs && s.observedAtMs <= o.observedAtMs
    && !(s.lastResult.Some? && s.createdAtMs == o.createdAtMs && s.observedAtMs == o.observedAtMs)
    && s.signalKey != Some(SignalOf(o))
  }

  /** What identifies a signal. */
  function SignalOf(o: Observation): SignalKey
    requires o.outcome.ReadyForReview? && o.outcome.signalTimeMs.Some?
  {
    SignalKey(o.symbol, o.strategy, o.config, o.outcome.signalTimeMs.value, o.outcome.decision)
  }

  /** News is refused exactly without a trigger price or an initial stop; otherwise it is announced, and its
      reminder is the active event of its symbol's stream. */
  lemma NewsIsAnnounced(d: Signals, o: Observation, now: int, reviewMs: int, run: Option<string>, collection: Option<string>)
    requires Lifecycle(d) && IsNews(o, Compared(StreamOf(d.streams, o.symbol), o, run), now)
    ensures var r := Observe(d, o, now, reviewMs, run, collection);
      var transition := StreamOf(d.streams, o.symbol).counter + 1;
      var id := EntryId(SignalOf(o), transition);
      && (r.Ok? <==> o.outcome.triggerPrice.Some? && o.outcome.initialStop.Some?)
      && (r.Ok? ==>
            && RowOf(d.box, id).None? && IsAnnounced(RowOf(r.value.box, id), o, SignalOf(o), transition, now, reviewMs)
            && StreamOf(r.value.streams, o.symbol).active == Some(id))
  {
    var saved := StreamOf(d.streams, o.symbol);
    NewsIsAccepted(d, o, now, reviewMs, run, collection);
    NextIsAbsent(d, SignalOf(o));
    hide Lifecycle, IsAnnounced, Confirm, SignalMove;
    EpochSucceeds(d, o, now, run);
    EpochKeeps(d, o, now, run);
    var (d1, s1) := EnterEpoch(d, o, saved, now, run).value;
    hide EnterEpoch;
    var s2 := s1.(createdAtMs := o.createdAtMs, observedAtMs := o.observedAtMs, lastResult := Some(o.fingerprint), collectionRun := collection);
    if Observe(d, o, now, reviewMs, run, collection).Ok? { ConfirmAnnounces(d1, o, s2, SignalOf(o), now, reviewMs); }
  }

  lemma NewsIsAccepted(d: Signals, o: Observation, now: int, reviewMs: int, run: Option<string>, collection: Option<string>)
    requires Lifecycle(d) && IsNews(o, Compared(StreamOf(d.streams, o.symbol), o, run), now)
    ensures Observe(d, o, now, reviewMs, run, collection).Ok? <==> o.outcome.triggerPrice.Some? && o.outcome.initialStop.Some?
  {
    hide Lifecycle, Observe, Tracked, Compared;
    ObserveFailsExactly(d, o, now, reviewMs, run, collection);
  }

  lemma NextIsAbsent(d: Signals, key: SignalKey)
    requires Lifecycle(d)
    ensures RowOf(d.box, EntryId(key, StreamOf(d.streams, key.symbol).counter + 1)).None?
  {
    var id := EntryId(key, StreamOf(d.streams, key.symbol).counter + 1);
    assert EntryOk(ViewOf(d.box), d.streams, id);
    assert ViewOf(d.box)(id) == RowOf(d.box, id);
  }

  // ---- what later steps leave of a reminder ----

  /** A row that is open, or whose window is over. */
  predicate IsOpenOrOver(row: Option<Row>, now: int) {
    row.Some? && (row.value.suppressed.None? || (row.value.alert.reviewUntilMs.Some? && now >= row.value.alert.reviewUntilMs.value))
  }

  /** A step about one symbol: no other symbol's stream or entry changes, no entry vanishes, and the entry that
      is active afterwards was active with the same row before, or is open or over. */
  ghost predicate StepsSymbol(d: Signals, u: Signals, symbol: string, now: int) {
    && OnlySymbol(d, u, symbol)
    && (forall x: AlertId {:trigger ViewOf(u.box)(x)} :: x.EntryId? && ViewOf(d.box)(x).Some? ==> ViewOf(u.box)(x).Some?)
    && var active := StreamOf(u.streams, symbol).active;
       active.Some? ==>
         (StreamOf(d.streams, symbol).active == active && ViewOf(u.box)(active.value) == ViewOf(d.box)(active.value))
         || IsOpenOrOver(ViewOf(u.box)(active.value), now)
  }

  lemma StepsTwice(d: Signals, m: Signals, u: Signals, symbol: string, now: int)
    requires StepsSymbol(d, m, symbol, now) && StepsSymbol(m, u, symbol, now)
    ensures StepsSymbol(d, u, symbol, now)
  {
    forall x: AlertId | x.EntryId? && x.signal.symbol != symbol ensures ViewOf(u.box)(x) == ViewOf(d.box)(x) {
      assert ViewOf(u.box)(x) == ViewOf(m.box)(x);
    }
    forall x: AlertId | x.EntryId? && ViewOf(d.box)(x).Some? ensures ViewOf(u.box)(x).Some? { assert ViewOf(m.box)(x).Some?; }
  }

  /** One entry of the symbol changes, and is inactive, or open or over, afterwards. */
  lemma OneEntrySteps(d: Signals, u: Signals, symbol: string, id: AlertId, now: int)
    requires id.EntryId? && id.signal.symbol == symbol && ViewOf(u.box)(id).Some?
    requires forall x: AlertId {:trigger ViewOf(u.box)(x)} :: x.EntryId? && x != id ==> ViewOf(u.box)(x) == ViewOf(d.box)(x)
    requires forall y :: y != symbol ==> StreamOf(u.streams, y) == StreamOf(d.streams, y)
    requires StreamOf(u.streams, symbol).active in {None, Some(id)}
    requires StreamOf(u.streams, symbol).active == Some(id) ==>
      IsOpenOrOver(ViewOf(u.box)(id), now) || (StreamOf(d.streams, symbol).active == Some(id) && ViewOf(u.box)(id) == ViewOf(d.box)(id))
    ensures StepsSymbol(d, u, symbol, now)
  {
    hide ViewOf, StreamOf, IsOpenOrOver;
  }

  lemma WithdrawnEntries(d: Signals, symbol: string, s: Stream, reason: Reason, now: int, evidence: Option<Observation>)
    requires Lifecycle(d) && s.active.Some? && s.active.value.EntryId? && Invalidate(d, symbol, s, reason, now, evidence).Ok?
    ensures var u := Invalidate(d, symbol, s, reason, now, evidence).value.0;
      && (forall x: AlertId {:trigger ViewOf(u.box)(x)} :: x.EntryId? && x != s.active.value ==> ViewOf(u.box)(x) == ViewOf(d.box)(x))
      && ViewOf(u.box)(s.active.value).Some?
  {
    var id := s.active.value;
    var entry := d.box.rows[Find(d.box.rows, id).value];
    var suppressed := if !entry.state.Confirmed? && !entry.state.Unknown? then Some(HistoricalEvent) else None;
    var alert := InvalidationAlert(id, reason, now, if evidence.Some? then evidence else entry.alert.observation);
    WithdrawViews(d.box, alert, suppressed, id, reason, now);
    var m := Enqueue(d.box, alert, now, suppressed).value;
    var u := Invalidate(d, symbol, s, reason, now, evidence).value.0;
    hide Lifecycle, Enqueue, Suppress, RowOf, ViewOf;
    forall x: AlertId | x.EntryId? && x != id ensures ViewOf(u.box)(x) == ViewOf(d.box)(x) {
      assert ViewOf(u.box)(x) == ViewOf(m)(x) == ViewOf(d.box)(x);
    }
  }

  lemma InvalidateSteps(d: Signals, symbol: string, s: Stream, reason: Reason, now: int, evidence: Option<Observation>)
    requires Lifecycle(d) && s.active.Some? && StreamOf(d.streams, symbol).active == s.active && s.counter == StreamOf(d.streams, symbol).counter
    requires Invalidate(d, symbol, s, reason, now, evidence).Ok?
    ensures StepsSymbol(d, Invalidate(d, symbol, s, reason, now, evidence).value.0, symbol, now)
  {
    assert StreamOk(ViewOf(d.box), symbol, d.streams[symbol]);
    hide Invalidate, Lifecycle, StepsSymbol, SignalMove, RowOf, ViewOf, StreamOk;
    InvalidateKeeps(d, symbol, s, reason, now, evidence);
    WithdrawnEntries(d, symbol, s, reason, now, evidence);
    OneEntrySteps(d, Invalidate(d, symbol, s, reason, now, evidence).value.0, symbol, s.active.value, now);
  }

  lemma EnterSteps(d: Signals, o: Observation, s: Stream, key: SignalKey, now: int, reviewMs: int)
    requires Lifecycle(d) && KeyOf(o) == Some(key) && s.counter == StreamOf(d.streams, o.symbol).counter && Enter(d, o, s, key, now, reviewMs).Ok?
    requires o.observedAtMs <= now
    ensures StepsSymbol(d, Enter(d, o, s, key, now, reviewMs).value, o.symbol, now)
  {
    var id := EntryId(key, s.counter + 1);
    hide Lifecycle, Enter, RowOf, ViewOf, StepsSymbol;
    EnterViews(d, o, s, key, now, reviewMs);
    EnterAnnounces(d, o, s, key, now, reviewMs);
    var u := Enter(d, o, s, key, now, reviewMs).value;
    OneEntrySteps(d, u, o.symbol, id, now);
  }

  lemma EnterViews(d: Signals, o: Observation, s: Stream, key: SignalKey, now: int, reviewMs: int)
    requires Lifecycle(d) && Enter(d, o, s, key, now, reviewMs).Ok?
    ensures var u, id := Enter(d, o, s, key, now, reviewMs).value, EntryId(key, s.counter + 1);
      && OnlyRow(ViewOf(d.box), ViewOf(u.box), id) && ViewOf(u.box)(id) == RowOf(u.box, id)
      && forall y :: y != o.symbol ==> StreamOf(u.streams, y) == StreamOf(d.streams, y)
  {
    EnqueueView(d.box, EntryAlert(o, key, s.counter + 1, reviewMs), now, LateReview(o, now, reviewMs));
    hide Lifecycle, Enqueue, RowOf;
  }

  lemma SaveSteps(d: Signals, symbol: string, s: Stream, now: int)
    requires Compatible(d, symbol, s)
    ensures StepsSymbol(d, Save(d, symbol, s), symbol, now)
  {
  }

  lemma ConfirmSteps(d: Signals, o: Observation, s: Stream, now: int, reviewMs: int)
    requires Lifecycle(d) && Compatible(d, o.symbol, s) && o.observedAtMs <= now && Confirm(d, o, s, now, reviewMs).Ok?
    ensures StepsSymbol(d, Confirm(d, o, s, now, reviewMs).value, o.symbol, now)
  {
    hide Invalidate, Enter, Lifecycle, StepsSymbol, SignalMove, RowOf;
    var key := KeyOf(o).value;
    if s.signalKey == Some(key) {
      SaveSteps(d, o.symbol, s.(lastSeenMs := o.observedAtMs), now);
    } else if s.active.Some? {
      InvalidateKeeps(d, o.symbol, s, SignalReplaced, now, None);
      InvalidateSteps(d, o.symbol, s, SignalReplaced, now, None);
      var i := Invalidate(d, o.symbol, s, SignalReplaced, now, None).value;
      EnterSteps(i.0, o, i.1, key, now, reviewMs);
      StepsTwice(d, i.0, Enter(i.0, o, i.1, key, now, reviewMs).value, o.symbol, now);
    } else {
      EnterSteps(d, o, s, key, now, reviewMs);
    }
  }

  lemma WithdrawSteps(d: Signals, o: Observation, s: Stream, reason: Reason, now: int)
    requires Lifecycle(d) && Compatible(d, o.symbol, s) && s.active.Some? && Invalidate(d, o.symbol, s, reason, now, Some(o)).Ok?
    ensures var i := Invalidate(d, o.symbol, s, reason, now, Some(o)).value; StepsSymbol(d, Save(i.0, o.symbol, i.1), o.symbol, now)
  {
    hide Invalidate, Lifecycle, StepsSymbol, SignalMove, RowOf;
    InvalidateKeeps(d, o.symbol, s, reason, now, Some(o));
    InvalidateSteps(d, o.symbol, s, reason, now, Some(o));
    var i := Invalidate(d, o.symbol, s, reason, now, Some(o)).value;
    SaveSteps(i.0, o.symbol, i.1, now);
    StepsTwice(d, i.0, Save(i.0, o.symbol, i.1), o.symbol, now);
  }

  lemma AcceptSteps(d: Signals, o: Observation, s: Stream, now: int, reviewMs: int, collection: Option<string>)
    requires Lifecycle(d) && Compatible(d, o.symbol, s) && Accept(d, o, s, now, reviewMs, collection).Ok?
    ensures StepsSymbol(d, Accept(d, o, s, now, reviewMs, collection).value, o.symbol, now)
  {
    var s2 := s.(createdAtMs := o.createdAtMs, observedAtMs := o.observedAtMs, lastResult := Some(o.fingerprint), collectionRun := collection);
    var u := Accept(d, o, s, now, reviewMs, collection).value;
    hide Invalidate, Confirm, Lifecycle, RowOf, ViewOf, IsOpenOrOver;
    if IsOutOfOrder(o, s, now) {
      assert u.box == d.box && u.streams == d.streams;
    } else if s.lastResult.Some? && o.createdAtMs == s.createdAtMs && o.observedAtMs == s.observedAtMs {
      SaveSteps(d, o.symbol, s.(collectionRun := collection), now);
    } else if o.outcome.ReadyForReview? {
      ConfirmSteps(d, o, s2, now, reviewMs);
    } else if s2.active.Some? {
      WithdrawSteps(d, o, s2, if o.outcome.NormalNoAction? then DecisionChanged else SourceUnavailable, now);
    } else {
      SaveSteps(d, o.symbol, s2, now);
    }
  }

  lemma ObserveSteps(d: Signals, o: Observation, now: int, reviewMs: int, run: Option<string>, collection: Option<string>)
    requires Lifecycle(d) && Observe(d, o, now, reviewMs, run, collection).Ok?
    ensures StepsSymbol(d, Observe(d, o, now, reviewMs, run, collection).value, o.symbol, now)
  {
    hide Invalidate, Accept, Lifecycle, StepsSymbol, SignalMove, RowOf;
    var stream := StreamOf(d.streams, o.symbol);
    EpochKeeps(d, o, now, run);
    var (d1, s1) := EnterEpoch(d, o, stream, now, run).value;
    AcceptSteps(d1, o, s1, now, reviewMs, collection);
    if d1 != d {
      InvalidateSteps(d, o.symbol, stream, SourceUnavailable, now, None);
      StepsTwice(d, d1, Accept(d1, o, s1, now, reviewMs, collection).value, o.symbol, now);
    }
  }

  lemma ExpiresOver(o: Box, id: AlertId, now: int)
    requires BoxOk(o) && Expire(o, id, now).Ok?
    ensures var u := Expire(o, id, now).value; u == o || IsOpenOrOver(RowOf(u, id), now)
  {
    SuppressMeans(o, id, ReviewExpired, now);
  }

  lemma ExpireSteps(d: Signals, symbol: string, now: int)
    requires Lifecycle(d) && StreamOf(d.streams, symbol).active.Some?
    ensures var r := Expire(d.box, StreamOf(d.streams, symbol).active.value, now);
      r.Ok? && Lifecycle(d.(box := r.value)) && StepsSymbol(d, d.(box := r.value), symbol, now)
  {
    var id := StreamOf(d.streams, symbol).active.value;
    assert StreamOk(ViewOf(d.box), symbol, d.streams[symbol]);
    ExpireKeeps(d, symbol, now);
    ExpiresOver(d.box, id, now);
    hide Lifecycle, RowOf, StepsSymbol, Expire, SignalMove, StreamOk;
    OneEntrySteps(d, d.(box := Expire(d.box, id, now).value), symbol, id, now);
  }

  lemma SweepOneSteps(d: Signals, symbol: string, s: Snapshot, caughtUp: bool, now: int)
    requires Lifecycle(d)
    ensures SweepOne(d, symbol, s, caughtUp, now).Ok? && StepsSymbol(d, SweepOne(d, symbol, s, caughtUp, now).value, symbol, now)
  {
    SweepOneSettles(d, symbol, s, caughtUp, now);
    var stream := StreamOf(d.streams, symbol);
    if stream.active.Some? {
      ExpireSteps(d, symbol, now);
      hide Invalidate, Lifecycle, SourceLost, Expire, RowOf, SignalMove, StepsSymbol;
      var d1 := d.(box := Expire(d.box, stream.active.value, now).value);
      if SourceLost(s, stream, symbol, caughtUp, now) {
        InvalidateSucceeds(d1, symbol, stream, SourceUnavailable, now, None);
        InvalidateSteps(d1, symbol, stream, SourceUnavailable, now, None);
        StepsTwice(d, d1, Invalidate(d1, symbol, stream, SourceUnavailable, now, None).value.0, symbol, now);
      }
    }
  }
}
