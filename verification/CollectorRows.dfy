/** Collecting adds and suppresses rows of the outbox; it never touches what the senders work on. */
module CollectorRows {
  import opened Basics
  import opened Alerts
  import opened Outbox
  import opened OutboxViews
  import opened SignalStreams
  import opened HealthJournal
  import opened Collector

  ghost predicate KeepsRows(d: Signals, r: Checked<Signals>) {
    r.Ok? ==> RowsKept(d.box, r.value.box)
  }

  lemma InvalidateRows(d: Signals, symbol: string, stream: Stream, reason: Reason, now: int, evidence: Option<Observation>)
    requires stream.active.Some?
    ensures var r := Invalidate(d, symbol, stream, reason, now, evidence); r.Ok? ==> RowsKept(d.box, r.value.0.box)
  {
    hide Enqueue, Suppress;
    var r := Invalidate(d, symbol, stream, reason, now, evidence);
    if r.Ok? {
      var id := stream.active.value;
      var entry := d.box.rows[Record(d.box, id).value.value];
      var alert := InvalidationAlert(id, reason, now, if evidence.Some? then evidence else entry.alert.observation);
      var suppressed := if !entry.state.Confirmed? && !entry.state.Unknown? then Some(HistoricalEvent) else None;
      EnqueueKeepsRows(d.box, alert, now, suppressed);
      var b := Enqueue(d.box, alert, now, suppressed).value;
      SuppressKeepsRows(b, id, reason, now);
      RowsKeptTwice(d.box, b, r.value.0.box);
    }
  }

  lemma EnterRows(d: Signals, o: Observation, stream: Stream, key: SignalKey, now: int, reviewMs: int)
    ensures KeepsRows(d, Enter(d, o, stream, key, now, reviewMs))
  {
    EnqueueKeepsRows(d.box, EntryAlert(o, key, stream.counter + 1, reviewMs), now, LateReview(o, now, reviewMs));
  }

  lemma ConfirmRows(d: Signals, o: Observation, stream: Stream, now: int, reviewMs: int)
    ensures KeepsRows(d, Confirm(d, o, stream, now, reviewMs))
  {
    hide Invalidate, Enter;
    var key := KeyOf(o);
    if key.Some? && stream.signalKey != key {
      if stream.active.Some? {
        InvalidateRows(d, o.symbol, stream, SignalReplaced, now, None);
        var i := Invalidate(d, o.symbol, stream, SignalReplaced, now, None);
        if i.Ok? {
          EnterRows(i.value.0, o, i.value.1, key.value, now, reviewMs);
          var r := Enter(i.value.0, o, i.value.1, key.value, now, reviewMs);
          if r.Ok? { RowsKeptTwice(d.box, i.value.0.box, r.value.box); }
        }
      } else {
        EnterRows(d, o, stream, key.value, now, reviewMs);
      }
    }
  }

  lemma AcceptRows(d: Signals, o: Observation, s: Stream, now: int, reviewMs: int, collection: Option<string>)
    ensures KeepsRows(d, Accept(d, o, s, now, reviewMs, collection))
  {
    hide Invalidate, Confirm, IsOutOfOrder;
    var s2 := s.(createdAtMs := o.createdAtMs, observedAtMs := o.observedAtMs, lastResult := Some(o.fingerprint), collectionRun := collection);
    ConfirmRows(d, o, s2, now, reviewMs);
    if s2.active.Some? {
      InvalidateRows(d, o.symbol, s2, if o.outcome.NormalNoAction? then DecisionChanged else SourceUnavailable, now, Some(o));
    }
  }

  lemma ObserveRows(d: Signals, o: Observation, now: int, reviewMs: int, run: Option<string>, collection: Option<string>)
    ensures KeepsRows(d, Observe(d, o, now, reviewMs, run, collection))
  {
    hide Invalidate, Accept;
    var stream := StreamOf(d.streams, o.symbol);
    if stream.active.Some? { InvalidateRows(d, o.symbol, stream, SourceUnavailable, now, None); }
    var e := EnterEpoch(d, o, stream, now, run);
    if e.Ok? {
      AcceptRows(e.value.0, o, e.value.1, now, reviewMs, collection);
      var r := Accept(e.value.0, o, e.value.1, now, reviewMs, collection);
      if r.Ok? { RowsKeptTwice(d.box, e.value.0.box, r.value.box); }
    }
  }

  lemma {:induction false} ObserveAllRows(d: Signals, seen: seq<Observation>, now: int, reviewMs: int, run: Option<string>, collection: Option<string>)
    ensures KeepsRows(d, ObserveAll(d, seen, now, reviewMs, run, collection))
  {
    hide Observe;
    if seen != [] {
      ObserveAllRows(d, seen[..|seen| - 1], now, reviewMs, run, collection);
      var m := ObserveAll(d, seen[..|seen| - 1], now, reviewMs, run, collection);
      var r := ObserveAll(d, seen, now, reviewMs, run, collection);
      if m.Ok? { ObserveRows(m.value, seen[|seen| - 1], now, reviewMs, run, collection); }
      if r.Ok? { RowsKeptTwice(d.box, m.value.box, r.value.box); }
    }
  }

  lemma {:induction false} ReobserveRows(d: Signals, seen: seq<Observation>, now: int, reviewMs: int, run: Option<string>)
    ensures KeepsRows(d, Reobserve(d, seen, now, reviewMs, run))
  {
    hide Observe;
    if seen != [] {
      ReobserveRows(d, seen[..|seen| - 1], now, reviewMs, run);
      var m := Reobserve(d, seen[..|seen| - 1], now, reviewMs, run);
      var r := Reobserve(d, seen, now, reviewMs, run);
      if m.Ok? { ObserveRows(m.value, seen[|seen| - 1], now, reviewMs, run, run); }
      if r.Ok? { RowsKeptTwice(d.box, m.value.box, r.value.box); }
    }
  }

  lemma {:induction false} SweepRows(d: Signals, order: seq<string>, s: Snapshot, caughtUp: bool, now: int)
    ensures KeepsRows(d, Sweep(d, order, s, caughtUp, now))
  {
    hide SweepOne;
    if order != [] {
      var init, symbol := order[..|order| - 1], order[|order| - 1];
      SweepRows(d, init, s, caughtUp, now);
      var m := Sweep(d, init, s, caughtUp, now);
      var r := Sweep(d, order, s, caughtUp, now);
      if m.Ok? { SweepOneRows(m.value, symbol, s, caughtUp, now); }
      if r.Ok? { RowsKeptTwice(d.box, m.value.box, r.value.box); }
    }
  }

  lemma SweepOneRows(d: Signals, symbol: string, s: Snapshot, caughtUp: bool, now: int)
    ensures KeepsRows(d, SweepOne(d, symbol, s, caughtUp, now))
  {
    hide Invalidate, SourceLost, Suppress;
    var stream := StreamOf(d.streams, symbol);
    if stream.active.Some? {
      SuppressKeepsRows(d.box, stream.active.value, ReviewExpired, now);
      var b := Expire(d.box, stream.active.value, now);
      if b.Ok? {
        InvalidateRows(d.(box := b.value), symbol, stream, SourceUnavailable, now, None);
        var r := SweepOne(d, symbol, s, caughtUp, now);
        if r.Ok? { RowsKeptTwice(d.box, b.value, r.value.box); }
      }
    }
  }

  lemma {:induction false} WithdrawAllRows(d: Signals, order: seq<string>, now: int)
    ensures KeepsRows(d, WithdrawAll(d, order, now))
  {
    hide Invalidate;
    if order != [] {
      var init, symbol := order[..|order| - 1], order[|order| - 1];
      WithdrawAllRows(d, init, now);
      var m := WithdrawAll(d, init, now);
      if m.Ok? {
        var stream := StreamOf(m.value.streams, symbol);
        if stream.active.Some? { InvalidateRows(m.value, symbol, stream, SourceUnavailable, now, None); }
        var r := WithdrawAll(d, order, now);
        if r.Ok? { RowsKeptTwice(d.box, m.value.box, r.value.box); }
      }
    }
  }

  // ---- on the database ----

  ghost predicate DbKeepsRows(db: Db, r: Result<Db, Failure>) {
    r.Ok? ==> RowsKept(db.signals.box, r.value.signals.box)
  }

  lemma {:induction false} ConsumeRows(db: Db, cycles: seq<Cycle>, s: Snapshot, now: int, reviewMs: int)
    ensures DbKeepsRows(db, Consume(db, cycles, s, now, reviewMs))
  {
    hide ObserveAll;
    if cycles != [] {
      var init, c := cycles[..|cycles| - 1], cycles[|cycles| - 1];
      ConsumeRows(db, init, s, now, reviewMs);
      var m := Consume(db, init, s, now, reviewMs);
      if m.Ok? {
        ObserveAllRows(m.value.signals, c.observations, now, reviewMs, if Current(s) == Some(c) then CurrentRun(s) else None, RunOf(s));
        var r := Consume(db, cycles, s, now, reviewMs);
        if r.Ok? { RowsKeptTwice(db.signals.box, m.value.signals.box, r.value.signals.box); }
      }
    }
  }

  lemma {:induction false} ReportAllRows(db: Db, events: seq<HealthEvent>, run: string, now: int)
    ensures DbKeepsRows(db, ReportAll(db, events, run, now))
  {
    hide Enqueue;
    if events != [] {
      var init, e := events[..|events| - 1], events[|events| - 1];
      ReportAllRows(db, init, run, now);
      var m := ReportAll(db, init, run, now);
      if m.Ok? {
        EnqueueKeepsRows(m.value.signals.box, HealthAlert(e), now, None);
        var r := ReportAll(db, events, run, now);
        if r.Ok? { RowsKeptTwice(db.signals.box, m.value.signals.box, r.value.signals.box); }
      }
    }
  }

  lemma HealthRows(db: Db, state: Option<ServiceState>, now: int)
    ensures DbKeepsRows(db, HealthEvents(db, state, now))
  {
    if state.Some? {
      var events := EventsSince(state.value.journal, db.healthCursor);
      if events.Ok? { ReportAllRows(db, events.value, state.value.runId, now); }
    }
  }

  lemma RuntimeRows(db: Db, runtime: RuntimeState, run: Option<string>, now: int)
    ensures DbKeepsRows(db, RuntimeStep(db, runtime, run, now))
  {
    hide Enqueue;
    EnqueueKeepsRows(db.signals.box, RuntimeAlert(db.runtimeSequence + 1, runtime, now), now, None);
  }

  lemma ReadObservationsRows(db: Db, cycles: seq<Cycle>, next: LogReader.Cursor, s: Snapshot, now: int, reviewMs: int)
    ensures DbKeepsRows(db, ReadObservations(db, cycles, next, s, now, reviewMs))
  {
    hide Consume, Reobserve;
    ConsumeRows(db, cycles, s, now, reviewMs);
    var m := Consume(db, cycles, s, now, reviewMs);
    if m.Ok? && Current(s).Some? {
      ReobserveRows(m.value.signals, Current(s).value.observations, now, reviewMs, CurrentRun(s));
      var r := ReadObservations(db, cycles, next, s, now, reviewMs);
      if r.Ok? { RowsKeptTwice(db.signals.box, m.value.signals.box, r.value.signals.box); }
    }
  }

  lemma ReadServicesRows(db: Db, s: Snapshot, order: seq<string>, now: int)
    ensures DbKeepsRows(db, ReadServices(db, s, order, now))
  {
    hide HealthEvents, RuntimeStep, Sweep;
    HealthRows(db, s.state, now);
    var h := HealthEvents(db, s.state, now);
    if h.Ok? {
      RuntimeRows(h.value, s.runtime, RunOf(s), now);
      var m := Runtime(h.value, s, now);
      if m.Ok? {
        RowsKeptTwice(db.signals.box, h.value.signals.box, m.value.signals.box);
        SweepRows(m.value.signals, order, s, CaughtUp(m.value, s), now);
        var r := ReadServices(db, s, order, now);
        if r.Ok? { RowsKeptTwice(db.signals.box, m.value.signals.box, r.value.signals.box); }
      }
    }
  }

  /** A poll changes no delivery state, attempt count or due time of any row. */
  lemma CollectRows(db: Db, cycles: seq<Cycle>, next: LogReader.Cursor, s: Snapshot, order: seq<string>, now: int, reviewMs: int)
    ensures DbKeepsRows(db, Collect(db, cycles, next, s, order, now, reviewMs))
  {
    hide ReadObservations, ReadServices;
    ReadObservationsRows(db, cycles, next, s, now, reviewMs);
    var m := ReadObservations(db, cycles, next, s, now, reviewMs);
    if m.Ok? {
      ReadServicesRows(m.value, s, order, now);
      var r := ReadServices(m.value, s, order, now);
      if r.Ok? { RowsKeptTwice(db.signals.box, m.value.signals.box, r.value.signals.box); }
    }
  }

  lemma LoseSourceRows(db: Db, order: seq<string>, now: int)
    ensures DbKeepsRows(db, LoseSource(db, order, now))
  {
    hide RuntimeStep, WithdrawAll;
    var db0 := db.(sourceReady := false);
    RuntimeRows(db0, SourceUnreadable, None, now);
    var m := RuntimeStep(db0, SourceUnreadable, None, now);
    if m.Ok? {
      WithdrawAllRows(m.value.signals, order, now);
      var r := LoseSource(db, order, now);
      if r.Ok? { RowsKeptTwice(db.signals.box, m.value.signals.box, r.value.signals.box); }
    }
  }
}
