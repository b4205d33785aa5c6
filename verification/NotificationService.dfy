/** The store's tables as the service changes them, in place, statement by statement.  Each method
  computes what the functions of Outbox, SignalStreams and Collector say, and a failed poll is rolled back.
 */
module NotificationService {
  import opened Basics
  import opened Alerts
  import Outbox
  import SignalStreams
  import Collector
  import HealthJournal
  import LogReader

  class NotificationStore {
    var rows: seq<Outbox.Row>
    var history: seq<Outbox.HistoryEntry>
    var streams: map<string, SignalStreams.Stream>
    var outOfOrder: nat
    var consumed: map<string, Collector.Cycle>
    var cursor: LogReader.Cursor
    var lastCycle: Option<Collector.Cycle>
    var healthCursor: nat
    var runtime: Option<Collector.RuntimeKey>
    var runtimeSequence: nat
    var sourceReady: bool
    var lastCollectionMs: Option<int>
    var logUnavailableSinceMs: Option<int>

    function Box(): Outbox.Box
      reads this
    {
      Outbox.Box(rows, history)
    }

    /** What the transactions keep: see Outbox.BoxOk. */
    ghost predicate Valid()
      reads this
    {
      Outbox.BoxOk(Box())
    }

    function Signals(): SignalStreams.Signals
      reads this
    {
      SignalStreams.Signals(Box(), streams, outOfOrder)
    }

    function Tables(): Collector.Db
      reads this
    {
      Collector.Db(Signals(), consumed, cursor, lastCycle, healthCursor, runtime, runtimeSequence, sourceReady,
                   lastCollectionMs, logUnavailableSinceMs)
    }

    constructor ()
      ensures Valid()
      ensures Tables() == Collector.Db(SignalStreams.Signals(Outbox.Box([], []), map[], 0), map[], LogReader.START, None, 0, None, 0, false, None, None)
    {
      rows, history, streams, outOfOrder, consumed := [], [], map[], 0, map[];
      cursor, lastCycle, healthCursor, runtime, runtimeSequence := LogReader.START, None, 0, None, 0;
      sourceReady, lastCollectionMs, logUnavailableSinceMs := false, None, None;
    }

    method RestoreSignals(saved: SignalStreams.Signals)
      modifies this`rows, this`history, this`streams, this`outOfOrder
      ensures Signals() == saved
    {
      rows, history := saved.box.rows, saved.box.history;
      streams, outOfOrder := saved.streams, saved.outOfOrder;
    }

    /** ROLLBACK. */
    method Restore(saved: Collector.Db)
      modifies this
      ensures Tables() == saved
    {
      RestoreSignals(saved.signals);
      consumed, cursor, lastCycle, healthCursor := saved.consumed, saved.cursor, saved.lastCycle, saved.healthCursor;
      runtime, runtimeSequence, sourceReady := saved.runtime, saved.runtimeSequence, saved.sourceReady;
      lastCollectionMs, logUnavailableSinceMs := saved.lastCollectionMs, saved.logUnavailableSinceMs;
      assert Signals() == saved.signals;
      hide Signals;
    }

    method Enqueue(alert: Alert, now: int, suppressed: Option<Reason>) returns (ok: bool)
      modifies this`rows, this`history
      ensures var r := Outbox.Enqueue(old(Box()), alert, now, suppressed);
        ok == r.Ok? && Box() == if r.Ok? then r.value else old(Box())
      ensures old(Valid()) ==> Valid()
    {
      hide Outbox.BoxOk;
      Outbox.EnqueueKeepsBox(Box(), alert, now, suppressed);
      var found := Outbox.Record(Box(), alert.id);
      if found.Err? { return false; }
      if found.value.Some? { return rows[found.value.value].alert == alert; }
      rows := rows + [Outbox.Row(alert, Outbox.Pending, 0, now, false, suppressed)];
      history := history + [Outbox.HistoryEntry(alert.id, now, Outbox.Recorded, Outbox.RecordedCode(suppressed))];
      return true;
    }

    method Suppress(id: AlertId, reason: Reason, now: int) returns (ok: bool)
      modifies this`rows, this`history
      ensures var r := Outbox.Suppress(old(Box()), id, reason, now);
        ok == r.Ok? && Box() == if r.Ok? then r.value else old(Box())
      ensures old(Valid()) ==> Valid()
    {
      hide Outbox.BoxOk;
      Outbox.SuppressKeepsBox(Box(), id, reason, now);
      var found := Outbox.Record(Box(), id);
      if found.Err? || found.value.None? { return false; }
      var i := found.value.value;
      if rows[i].suppressed.None? {
        rows := rows[i := rows[i].(suppressed := Some(reason))];
        history := history + [Outbox.HistoryEntry(id, now, Outbox.SuppressedEntry, Outbox.ReasonName(reason))];
      }
      return true;
    }

    method Claim(now: int) returns (ok: bool, claimed: Option<Outbox.Claimed>)
      modifies this`rows, this`history
      ensures var r := Outbox.Claim(old(Box()), now);
        ok == r.Ok? && (Box(), claimed) == if r.Ok? then r.value else (old(Box()), None)
      ensures old(Valid()) ==> Valid()
    {
      hide Outbox.BoxOk;
      Outbox.ClaimKeepsBox(Box(), now);
      var due := Outbox.FirstEligible(rows, now);
      if due.None? { return true, None; }
      var i := due.value;
      var row := rows[i];
      if !row.state.Pending? && row.attempts == 0 { return false, None; }
      rows := rows[i := row.(state := Outbox.Unknown, attempts := row.attempts + 1, retryable := false)];
      history := history + [Outbox.HistoryEntry(row.alert.id, now, Outbox.AttemptStarted, "unknown")];
      return true, Some(Outbox.Claimed(row.alert.id, row.attempts + 1));
    }

    method Finish(id: AlertId, state: Outbox.DeliveryState, now: int, code: string, retryable: bool) returns (ok: bool)
      modifies this`rows, this`history
      ensures var r := Outbox.Finish(old(Box()), id, state, now, code, retryable);
        ok == r.Ok? && Box() == if r.Ok? then r.value else old(Box())
      ensures old(Valid()) ==> Valid()
    {
      hide Outbox.BoxOk, Outbox.Find, Outbox.DelayMs;
      Outbox.FinishKeepsBox(Box(), id, state, now, code, retryable);
      var found := Outbox.Record(Box(), id);
      if found.Err? || found.value.None? { return false; }
      var i := found.value.value;
      var row := rows[i];
      if !row.state.Unknown? || state.Pending? || row.attempts < 1 { return false; }
      var delay := Outbox.DelayMs(row.attempts);
      rows := rows[i := row.(state := state, retryable := retryable && state.Failed?, nextAttemptMs := now + delay)];
      history := history + [Outbox.HistoryEntry(id, now, Outbox.AttemptFinished, code)];
      return true;
    }

    method DeferUnstarted(id: AlertId, now: int, code: string) returns (ok: bool)
      modifies this`rows, this`history
      ensures var r := Outbox.DeferUnstarted(old(Box()), id, now, code);
        ok == r.Ok? && Box() == if r.Ok? then r.value else old(Box())
      ensures old(Valid()) ==> Valid()
    {
      hide Outbox.BoxOk;
      Outbox.DeferKeepsBox(Box(), id, now, code);
      var found := Outbox.Record(Box(), id);
      if found.Err? || found.value.None? { return false; }
      var i := found.value.value;
      var row := rows[i];
      if !row.state.Unknown? || row.attempts < 1 { return false; }
      rows := rows[i := row.(state := Outbox.Pending, attempts := row.attempts - 1, retryable := false, nextAttemptMs := now + Outbox.DEFER_MS)];
      history := history + [Outbox.HistoryEntry(id, now, Outbox.AttemptNotStarted, code)];
      return true;
    }

    method Resolve(id: AlertId, outcome: Outbox.DeliveryState, now: int) returns (ok: bool)
      modifies this`rows, this`history
      ensures var r := Outbox.Resolve(old(Box()), id, outcome, now);
        ok == r.Ok? && Box() == if r.Ok? then r.value else old(Box())
      ensures old(Valid()) ==> Valid()
    {
      if !outcome.Confirmed? && !outcome.Failed? { return false; }
      ok := Finish(id, outcome, now, "operator_checked", false);
    }

    method RetryFailed(id: AlertId, now: int) returns (ok: bool)
      modifies this`rows, this`history
      ensures var r := Outbox.RetryFailed(old(Box()), id, now);
        ok == r.Ok? && Box() == if r.Ok? then r.value else old(Box())
      ensures old(Valid()) ==> Valid()
    {
      hide Outbox.BoxOk, Outbox.Find;
      Outbox.RetryKeepsBox(Box(), id, now);
      var found := Outbox.Record(Box(), id);
      if found.Err? || found.value.None? { return false; }
      var i := found.value.value;
      var row := rows[i];
      if !row.state.Failed? || row.attempts >= Outbox.MAX_ATTEMPTS || row.suppressed.Some? { return false; }
      rows := rows[i := row.(retryable := true, nextAttemptMs := now)];
      history := history + [Outbox.HistoryEntry(id, now, Outbox.OperatorRetry, "cause_fixed")];
      return true;
    }
  }

  class EmailAlerts {
    const store: NotificationStore
    const reviewMs: int

    constructor (store: NotificationStore, reviewMs: int)
      ensures this.store == store && this.reviewMs == reviewMs
    {
      this.store, this.reviewMs := store, reviewMs;
    }

    method Invalidate(symbol: string, stream: SignalStreams.Stream, reason: Reason, now: int, evidence: Option<Observation>)
      returns (ok: bool, next: SignalStreams.Stream)
      requires stream.active.Some?
      modifies store`rows, store`history, store`streams
      ensures var r := SignalStreams.Invalidate(old(store.Signals()), symbol, stream, reason, now, evidence);
        ok == r.Ok? && (ok ==> store.Signals() == r.value.0 && next == r.value.1)
    {
      var id := stream.active.value;
      next := stream;
      var found := Outbox.Record(store.Box(), id);
      if found.Err? || found.value.None? { return false, next; }
      var entry := store.rows[found.value.value];
      var alert := SignalStreams.InvalidationAlert(id, reason, now, if evidence.Some? then evidence else entry.alert.observation);
      var unseen := !entry.state.Confirmed? && !entry.state.Unknown?;
      ok := store.Enqueue(alert, now, if unseen then Some(HistoricalEvent) else None);
      if !ok { return; }
      ok := store.Suppress(id, reason, now);
      if !ok { return; }
      next := next.(active := None, signalKey := None);
      store.streams := store.streams[symbol := next];
    }

    method Observe(o: Observation, now: int, run: Option<string>, collection: Option<string>) returns (ok: bool)
      modifies store`rows, store`history, store`streams, store`outOfOrder
      ensures var r := SignalStreams.Observe(old(store.Signals()), o, now, reviewMs, run, collection);
        ok == r.Ok? && (ok ==> store.Signals() == r.value)
    {
      hide SignalStreams.Invalidate, SignalStreams.Accept;
      var stream := SignalStreams.StreamOf(store.streams, o.symbol);
      if run.Some? && stream.serviceRun != run {
        if stream.active.Some? && o.observedAtMs < stream.lastSeenMs {
          ok, stream := Invalidate(o.symbol, stream, SourceUnavailable, now, None);
          if !ok { return; }
        }
        stream := stream.(serviceRun := run, createdAtMs := 0, observedAtMs := 0, lastResult := None);
      }
      ok := Accept(o, stream, now, collection);
    }

    method Accept(o: Observation, saved: SignalStreams.Stream, now: int, collection: Option<string>) returns (ok: bool)
      modifies store`rows, store`history, store`streams, store`outOfOrder
      ensures var r := SignalStreams.Accept(old(store.Signals()), o, saved, now, reviewMs, collection);
        ok == r.Ok? && (ok ==> store.Signals() == r.value)
    {
      hide SignalStreams.Invalidate, SignalStreams.Confirm;
      var stream := saved;
      if SignalStreams.IsOutOfOrder(o, stream, now) {
        store.outOfOrder := store.outOfOrder + 1;
        return true;
      }
      if stream.lastResult.Some? && o.createdAtMs == stream.createdAtMs && o.observedAtMs == stream.observedAtMs {
        if stream.lastResult != Some(o.fingerprint) { return false; }
        store.streams := store.streams[o.symbol := stream.(collectionRun := collection)];
        return true;
      }
      stream := stream.(createdAtMs := o.createdAtMs, observedAtMs := o.observedAtMs,
                        lastResult := Some(o.fingerprint), collectionRun := collection);
      if o.outcome.ReadyForReview? {
        ok := Confirm(o, stream, now);
        return;
      }
      if stream.active.Some? {
        var reason := if o.outcome.NormalNoAction? then DecisionChanged else SourceUnavailable;
        ok, stream := Invalidate(o.symbol, stream, reason, now, Some(o));
        if !ok { return; }
      }
      store.streams := store.streams[o.symbol := stream];
      return true;
    }

    method Enter(o: Observation, from: SignalStreams.Stream, key: SignalKey, now: int) returns (ok: bool)
      modifies store`rows, store`history, store`streams
      ensures var r := SignalStreams.Enter(old(store.Signals()), o, from, key, now, reviewMs);
        ok == r.Ok? && (ok ==> store.Signals() == r.value)
    {
      var alert := SignalStreams.EntryAlert(o, key, from.counter + 1, reviewMs);
      if !SignalStreams.IsComplete(o) { return false; }
      var expired := now < o.observedAtMs || now >= o.observedAtMs + reviewMs;
      ok := store.Enqueue(alert, now, if expired then Some(ReviewExpired) else None);
      if ok {
        var stream := from.(counter := from.counter + 1, active := Some(alert.id), signalKey := Some(key), lastSeenMs := o.observedAtMs);
        store.streams := store.streams[o.symbol := stream];
      }
    }

    method Confirm(o: Observation, from: SignalStreams.Stream, now: int) returns (ok: bool)
      modifies store`rows, store`history, store`streams
      ensures var r := SignalStreams.Confirm(old(store.Signals()), o, from, now, reviewMs);
        ok == r.Ok? && (ok ==> store.Signals() == r.value)
    {
      var stream := from;
      var key := SignalStreams.KeyOf(o);
      if key.None? { return false; }
      if stream.signalKey == key {
        store.streams := store.streams[o.symbol := stream.(lastSeenMs := o.observedAtMs)];
        return true;
      }
      if stream.active.Some? {
        ok, stream := Invalidate(o.symbol, stream, SignalReplaced, now, None);
        if !ok { return; }
      }
      ok := Enter(o, stream, key.value, now);
    }

    method ObserveAll(seen: seq<Observation>, now: int, run: Option<string>, collection: Option<string>) returns (ok: bool)
      modifies store`rows, store`history, store`streams, store`outOfOrder
      ensures var spec := Collector.ObserveAll(old(store.Signals()), seen, now, reviewMs, run, collection);
        ok == spec.Ok? && (ok ==> store.Signals() == spec.value)
    {
      ghost var d := store.Signals();
      for k := 0 to |seen|
        invariant Collector.ObserveAll(d, seen[..k], now, reviewMs, run, collection) == Ok(store.Signals())
      {
        assert seen[..k + 1][..k] == seen[..k];
        ok := Observe(seen[k], now, run, collection);
        if !ok {
          ObserveAllFails(d, seen, k + 1, now, run, collection);
          return;
        }
      }
      assert seen[..|seen|] == seen;
      return true;
    }

    method ConsumeCycle(c: Collector.Cycle, s: Collector.Snapshot, now: int) returns (r: Result<(), Collector.Failure>)
      modifies store
      ensures var spec := Collector.ConsumeCycle(old(store.Tables()), c, s, now, reviewMs);
        r.Ok? == spec.Ok? && (r.Err? ==> r.error == spec.error) && (r.Ok? ==> store.Tables() == spec.value)
    {
      if c.id in store.consumed {
        return if store.consumed[c.id] != c then Err(Collector.CorruptionFailure) else Ok(());
      }
      store.consumed := store.consumed[c.id := c];
      var run := if Collector.Current(s) == Some(c) then Collector.CurrentRun(s) else None;
      var ok := ObserveAll(c.observations, now, run, Collector.RunOf(s));
      if !ok { return Err(Collector.NotificationFailure); }
      store.lastCycle := Some(c);
      return Ok(());
    }

    /** What fails on a prefix fails on the whole. */
    lemma {:induction false} ObserveAllFails(d: SignalStreams.Signals, seen: seq<Observation>, k: nat, now: int, run: Option<string>, collection: Option<string>)
      requires k <= |seen| && Collector.ObserveAll(d, seen[..k], now, reviewMs, run, collection).Err?
      ensures Collector.ObserveAll(d, seen, now, reviewMs, run, collection).Err?
      decreases |seen|
    {
      if k < |seen| {
        assert seen[..|seen| - 1][..k] == seen[..k];
        ObserveAllFails(d, seen[..|seen| - 1], k, now, run, collection);
      } else {
        assert seen[..k] == seen;
      }
    }

    method Consume(cycles: seq<Collector.Cycle>, s: Collector.Snapshot, now: int) returns (r: Result<(), Collector.Failure>)
      modifies store
      ensures var spec := Collector.Consume(old(store.Tables()), cycles, s, now, reviewMs);
        r.Ok? == spec.Ok? && (r.Err? ==> r.error == spec.error) && (r.Ok? ==> store.Tables() == spec.value)
    {
      ghost var db := store.Tables();
      for k := 0 to |cycles|
        invariant Collector.Consume(db, cycles[..k], s, now, reviewMs) == Ok(store.Tables())
      {
        assert cycles[..k + 1][..k] == cycles[..k];
        r := ConsumeCycle(cycles[k], s, now);
        if r.Err? {
          ConsumeFails(db, cycles, k + 1, s, now);
          return;
        }
      }
      assert cycles[..|cycles|] == cycles;
      return Ok(());
    }

    lemma {:induction false} ConsumeFails(db: Collector.Db, cycles: seq<Collector.Cycle>, k: nat, s: Collector.Snapshot, now: int)
      requires k <= |cycles| && Collector.Consume(db, cycles[..k], s, now, reviewMs).Err?
      ensures Collector.Consume(db, cycles, s, now, reviewMs) == Collector.Consume(db, cycles[..k], s, now, reviewMs)
      decreases |cycles|
    {
      if k < |cycles| {
        assert cycles[..|cycles| - 1][..k] == cycles[..k];
        ConsumeFails(db, cycles[..|cycles| - 1], k, s, now);
      } else {
        assert cycles[..k] == cycles;
      }
    }

    method Reobserve(seen: seq<Observation>, now: int, run: Option<string>) returns (ok: bool)
      modifies store`rows, store`history, store`streams, store`outOfOrder
      ensures var spec := Collector.Reobserve(old(store.Signals()), seen, now, reviewMs, run);
        ok == spec.Ok? && (ok ==> store.Signals() == spec.value)
    {
      ghost var d := store.Signals();
      for k := 0 to |seen|
        invariant Collector.Reobserve(d, seen[..k], now, reviewMs, run) == Ok(store.Signals())
      {
        assert seen[..k + 1][..k] == seen[..k];
        if SignalStreams.StreamOf(store.streams, seen[k].symbol).serviceRun != run {
          ok := Observe(seen[k], now, run, run);
          if !ok {
            ReobserveFails(d, seen, k + 1, now, run);
            return;
          }
        }
      }
      assert seen[..|seen|] == seen;
      return true;
    }

    lemma {:induction false} ReobserveFails(d: SignalStreams.Signals, seen: seq<Observation>, k: nat, now: int, run: Option<string>)
      requires k <= |seen| && Collector.Reobserve(d, seen[..k], now, reviewMs, run).Err?
      ensures Collector.Reobserve(d, seen, now, reviewMs, run).Err?
      decreases |seen|
    {
      if k < |seen| {
        assert seen[..|seen| - 1][..k] == seen[..k];
        ReobserveFails(d, seen[..|seen| - 1], k, now, run);
      } else {
        assert seen[..k] == seen;
      }
    }

    method HealthEvents(state: Option<Collector.ServiceState>, now: int) returns (r: Result<(), Collector.Failure>)
      modifies store`rows, store`history, store`runtime, store`healthCursor
      ensures var spec := Collector.HealthEvents(old(store.Tables()), state, now);
        r.Ok? == spec.Ok? && (r.Err? ==> r.error == spec.error) && (r.Ok? ==> store.Tables() == spec.value)
    {
      ghost var db := store.Tables();
      if state.None? {
        return if store.healthCursor != 0 then Err(Collector.HealthFailure) else Ok(());
      }
      var journal, run := state.value.journal, state.value.runId;
      var since := HealthJournal.EventsSince(journal, store.healthCursor);
      if since.Err? { return Err(Collector.HealthFailure); }
      var events := since.value;
      for k := 0 to |events|
        invariant Collector.ReportAll(db, events[..k], run, now) == Ok(store.Tables())
      {
        assert events[..k + 1][..k] == events[..k];
        var e := events[k];
        if Collector.IsReported(e.kind) {
          var ok := store.Enqueue(Collector.HealthAlert(e), now, None);
          if !ok {
            ReportAllFails(db, events, k + 1, run, now);
            return Err(Collector.NotificationFailure);
          }
          if e.kind.Stopped? { store.runtime := Some(Collector.RuntimeKey(Halted, Some(run))); }
        }
      }
      assert events[..|events|] == events;
      store.healthCursor := journal.sequence;
      return Ok(());
    }

    lemma {:induction false} ReportAllFails(db: Collector.Db, events: seq<HealthEvent>, k: nat, run: string, now: int)
      requires k <= |events| && Collector.ReportAll(db, events[..k], run, now).Err?
      ensures Collector.ReportAll(db, events, run, now) == Collector.ReportAll(db, events[..k], run, now)
      decreases |events|
    {
      if k < |events| {
        assert events[..|events| - 1][..k] == events[..k];
        ReportAllFails(db, events[..|events| - 1], k, run, now);
      } else {
        assert events[..k] == events;
      }
    }

    method Runtime(runtime: RuntimeState, run: Option<string>, now: int) returns (r: Result<(), Collector.Failure>)
      modifies store`rows, store`history, store`runtime, store`runtimeSequence
      ensures var spec := Collector.RuntimeStep(old(store.Tables()), runtime, run, now);
        r.Ok? == spec.Ok? && (r.Err? ==> r.error == spec.error) && (r.Ok? ==> store.Tables() == spec.value)
    {
      hide Outbox.Enqueue;
      if runtime.NotStarted? || runtime.Starting? { return Ok(()); }
      var fault := !runtime.Running?;
      var key := if fault then Collector.RuntimeKey(runtime, run) else Collector.RuntimeKey(Running, None);
      if store.runtime == Some(key) { return Ok(()); }
      if fault || (store.runtime.Some? && !store.runtime.value.state.Running?) {
        var sequence := store.runtimeSequence + 1;
        var ok := store.Enqueue(Collector.RuntimeAlert(sequence, runtime, now), now, None);
        if !ok { return Err(Collector.NotificationFailure); }
        store.runtimeSequence := sequence;
      }
      store.runtime := Some(key);
      return Ok(());
    }

    method SweepOne(symbol: string, s: Collector.Snapshot, caughtUp: bool, now: int) returns (ok: bool)
      modifies store`rows, store`history, store`streams
      ensures var spec := Collector.SweepOne(old(store.Signals()), symbol, s, caughtUp, now);
        ok == spec.Ok? && (ok ==> store.Signals() == spec.value)
    {
      var stream := SignalStreams.StreamOf(store.streams, symbol);
      if stream.active.None? { return true; }
      var id := stream.active.value;
      var found := Outbox.Record(store.Box(), id);
      if found.Err? || found.value.None? { return false; }
      var until := store.rows[found.value.value].alert.reviewUntilMs;
      if until.None? { return false; }
      if now >= until.value {
        ok := store.Suppress(id, ReviewExpired, now);
        if !ok { return; }
      }
      ok := true;
      if Collector.SourceLost(s, stream, symbol, caughtUp, now) {
        ok, stream := Invalidate(symbol, stream, SourceUnavailable, now, None);
      }
    }

    method Sweep(order: seq<string>, s: Collector.Snapshot, caughtUp: bool, now: int) returns (ok: bool)
      modifies store`rows, store`history, store`streams
      ensures var spec := Collector.Sweep(old(store.Signals()), order, s, caughtUp, now);
        ok == spec.Ok? && (ok ==> store.Signals() == spec.value)
    {
      ghost var d := store.Signals();
      for k := 0 to |order|
        invariant Collector.Sweep(d, order[..k], s, caughtUp, now) == Ok(store.Signals())
      {
        assert order[..k + 1][..k] == order[..k];
        ok := SweepOne(order[k], s, caughtUp, now);
        if !ok {
          SweepFails(d, order, k + 1, s, caughtUp, now);
          return;
        }
      }
      assert order[..|order|] == order;
      return true;
    }

    lemma {:induction false} SweepFails(d: SignalStreams.Signals, order: seq<string>, k: nat, s: Collector.Snapshot, caughtUp: bool, now: int)
      requires k <= |order| && Collector.Sweep(d, order[..k], s, caughtUp, now).Err?
      ensures Collector.Sweep(d, order, s, caughtUp, now).Err?
      decreases |order|
    {
      if k < |order| {
        assert order[..|order| - 1][..k] == order[..k];
        SweepFails(d, order[..|order| - 1], k, s, caughtUp, now);
      } else {
        assert order[..k] == order;
      }
    }

    method ReadObservations(cycles: seq<Collector.Cycle>, next: LogReader.Cursor, s: Collector.Snapshot, now: int)
      returns (r: Result<(), Collector.Failure>)
      modifies store
      ensures var spec := Collector.ReadObservations(old(store.Tables()), cycles, next, s, now, reviewMs);
        r.Ok? == spec.Ok? && (r.Err? ==> r.error == spec.error) && (r.Ok? ==> store.Tables() == spec.value)
    {
      r := Consume(cycles, s, now);
      if r.Err? { return; }
      store.cursor := next;
      if Collector.CaughtUp(store.Tables(), s) && Collector.CurrentRun(s).Some? {
        var ok := Reobserve(Collector.Current(s).value.observations, now, Collector.CurrentRun(s));
        if !ok { return Err(Collector.NotificationFailure); }
      }
      return Ok(());
    }

    method ReadServices(s: Collector.Snapshot, order: seq<string>, now: int) returns (r: Result<(), Collector.Failure>)
      modifies store
      ensures var spec := Collector.ReadServices(old(store.Tables()), s, order, now);
        r.Ok? == spec.Ok? && (r.Err? ==> r.error == spec.error) && (r.Ok? ==> store.Tables() == spec.value)
    {
      hide Collector.HealthEvents, Collector.RuntimeStep, Collector.Sweep;
      r := HealthEvents(s.state, now);
      if r.Err? { return; }
      if !s.runtime.Running? || s.healthy {
        r := Runtime(s.runtime, Collector.RunOf(s), now);
        if r.Err? { return; }
      }
      var caughtUp := Collector.CaughtUp(store.Tables(), s);
      var ok := Sweep(order, s, caughtUp, now);
      if !ok { return Err(Collector.NotificationFailure); }
      store.sourceReady := s.healthy && caughtUp;
      store.lastCollectionMs := Some(now);
      store.logUnavailableSinceMs := None;
      return Ok(());
    }

    /** One poll: all of it is committed, or none. */
    method Collect(cycles: seq<Collector.Cycle>, next: LogReader.Cursor, s: Collector.Snapshot, order: seq<string>, now: int)
      returns (r: Result<(), Collector.Failure>)
      modifies store
      ensures var spec := Collector.Collect(old(store.Tables()), cycles, next, s, order, now, reviewMs);
        r.Ok? == spec.Ok? && (r.Err? ==> r.error == spec.error) && store.Tables() == if spec.Ok? then spec.value else old(store.Tables())
    {
      var saved := store.Tables();
      r := ReadObservations(cycles, next, s, now);
      if r.Ok? {
        r := ReadServices(s, order, now);
      }
      if r.Err? { store.Restore(saved); }
    }

    method Refuse(id: AlertId, reason: Reason, now: int) returns (ok: bool)
      modifies store`rows, store`history
      ensures var spec := Collector.Refuse(old(store.Signals()), id, reason, now);
        ok == spec.Ok? && (ok ==> store.Signals() == spec.value)
    {
      ok := store.DeferUnstarted(id, now, "entry_not_reviewable");
      if ok { ok := store.Suppress(id, reason, now); }
    }

    /** The last check before a claimed entry is sent: whether it may be, or else why it was given back. */
    method PrepareEntry(row: Outbox.Row, snapshot: Option<Collector.Snapshot>, remaining: bool, now: int) returns (ok: bool, ready: bool)
      requires row.alert.reviewUntilMs.Some? && row.alert.observation.Some?
      modifies store`rows, store`history
      ensures var spec := Collector.PrepareEntry(old(store.Tables()), row, snapshot, remaining, now);
        ok == spec.Ok? && (ok ==> store.Tables() == spec.value.0 && ready == spec.value.1)
    {
      hide Outbox.DeferUnstarted, Outbox.Suppress;
      var id := row.alert.id;
      ready := false;
      if row.suppressed.Some? {
        ok := Refuse(id, row.suppressed.value, now);
        return;
      }
      if !(row.alert.occurredAtMs <= now < row.alert.reviewUntilMs.value) {
        ok := Refuse(id, ReviewExpired, now);
        return;
      }
      if snapshot.None? {
        ok := store.DeferUnstarted(id, now, "source_snapshot_unavailable");
        return;
      }
      var s := snapshot.value;
      if !s.healthy || !store.sourceReady || !Collector.CaughtUp(store.Tables(), s) || remaining {
        ok := store.DeferUnstarted(id, now, "source_not_caught_up");
        return;
      }
      var symbol := row.alert.observation.value.symbol;
      var stream := SignalStreams.StreamOf(store.streams, symbol);
      var evidence := Collector.EvidenceFor(Collector.Current(s).value.observations, symbol);
      if symbol !in s.state.value.symbols || evidence.None? {
        ok := Refuse(id, SourceUnavailable, now);
      } else if SignalStreams.KeyOf(evidence.value) != stream.signalKey || stream.active != Some(id) {
        ok := Refuse(id, DecisionChanged, now);
      } else {
        ok, ready := true, true;
      }
    }
  }
}
