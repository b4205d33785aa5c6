/** One poll as a whole: the database is exact up to both new cursors and every reminder settled, or
  nothing changed.  NotificationWorld puts polls beside the writers, the senders and the operator. */
module CollectorSystem {
  import opened Basics
  import opened Alerts
  import opened Outbox
  import opened OutboxViews
  import opened SignalStreams
  import opened HealthJournal
  import opened Collector
  import opened CollectorRuns
  import opened LogReader
  import opened Refusals

  type Decoder = Bytes -> Option<Cycle>

  // ---- the sweep ----

  /** An active reminder survives the sweep only with its source, and unsuppressed only before its deadline. */
  ghost predicate Settled(d: Signals, symbol: string, s: Snapshot, caughtUp: bool, now: int) {
    var stream := StreamOf(d.streams, symbol);
    stream.active.Some? ==>
      && !SourceLost(s, stream, symbol, caughtUp, now)
      && var row := ViewOf(d.box)(stream.active.value);
         && row.Some? && row.value.alert.reviewUntilMs.Some?
         && (row.value.suppressed.None? ==> now < row.value.alert.reviewUntilMs.value)
  }

  lemma SuppressEntryKeeps(v: View, w: View, streams: Streams, id: AlertId)
    requires StreamsOk(v, streams) && id.EntryId? && OnlyRow(v, w, id)
    requires v(id).Some? && w(id).Some? && w(id).value.alert == v(id).value.alert && w(id).value.suppressed.Some?
    ensures StreamsOk(w, streams) && SignalMove(v, w)
  {
    forall x: AlertId | x.EntryId? ensures EntryOk(w, streams, x) {
      assert EntryOk(v, streams, x);
      if x != id { assert w(x) == v(x); }
    }
    forall x: AlertId | x.InvalidationId? ensures InvalidationOk(w, streams, x) {
      assert w(x) == v(x) && InvalidationOk(v, streams, x);
      if w(x).Some? && x.entry != id { assert w(x.entry) == v(x.entry); }
    }
    forall y | y in streams ensures StreamOk(w, y, streams[y]) {
      assert StreamOk(v, y, streams[y]);
      if streams[y].active.Some? && streams[y].active.value != id { assert w(streams[y].active.value) == v(streams[y].active.value); }
    }
    forall x: AlertId, r: Reason, q: Reason | w(InvalidationId(x, r)).Some? && w(InvalidationId(x, q)).Some? ensures r == q {
      assert w(InvalidationId(x, r)) == v(InvalidationId(x, r)) && w(InvalidationId(x, q)) == v(InvalidationId(x, q));
    }
  }

  /** Checking the deadline of an active reminder always succeeds and suppresses it exactly when it has passed. */
  lemma ExpireKeeps(d: Signals, symbol: string, now: int)
    requires Lifecycle(d) && StreamOf(d.streams, symbol).active.Some?
    ensures var id := StreamOf(d.streams, symbol).active.value;
      var r := Expire(d.box, id, now);
      && r.Ok? && SignalsMoved(d, d.(box := r.value)) && OnlyRow(ViewOf(d.box), ViewOf(r.value), id)
      && var row := ViewOf(r.value)(id);
         && row.Some? && row.value.alert.reviewUntilMs.Some?
         && (row.value.suppressed.None? ==> now < row.value.alert.reviewUntilMs.value)
  {
    var id := StreamOf(d.streams, symbol).active.value;
    var v := ViewOf(d.box);
    assert StreamOk(v, symbol, d.streams[symbol]) && EntryOk(v, d.streams, id) && v(id) == RowOf(d.box, id);
    RecordNeverFails(d.box, id);
    PresentSuppresses(d.box, id, ReviewExpired, now);
    SuppressView(d.box, id, ReviewExpired, now);
    ChangeKeepsBox(d.box, DoSuppress(id, ReviewExpired), now);
    var b := Suppress(d.box, id, ReviewExpired, now).value;
    assert ViewOf(b)(id) == RowOf(b, id);
    SuppressEntryKeeps(v, ViewOf(b), d.streams, id);
  }

  lemma InvalidateFrame(d: Signals, symbol: string, s: Stream, reason: Reason, now: int)
    requires Lifecycle(d) && s.active.Some? && s.active.value.EntryId? && Invalidate(d, symbol, s, reason, now, None).Ok?
    ensures var u := Invalidate(d, symbol, s, reason, now, None).value.0;
      forall id: AlertId {:trigger ViewOf(u.box)(id)} :: id.EntryId? && id != s.active.value ==> ViewOf(u.box)(id) == ViewOf(d.box)(id)
  {
    var id := s.active.value;
    var entry := d.box.rows[Find(d.box.rows, id).value];
    var suppressed := if !entry.state.Confirmed? && !entry.state.Unknown? then Some(HistoricalEvent) else None;
    var alert := InvalidationAlert(id, reason, now, entry.alert.observation);
    WithdrawViews(d.box, alert, suppressed, id, reason, now);
    var m := Enqueue(d.box, alert, now, suppressed).value;
    var u := Invalidate(d, symbol, s, reason, now, None).value.0;
    forall x: AlertId | x.EntryId? && x != id ensures ViewOf(u.box)(x) == ViewOf(d.box)(x) {
      assert ViewOf(u.box)(x) == ViewOf(m)(x) == ViewOf(d.box)(x);
    }
  }

  /** One symbol's step changes no other symbol's stream, nor the row of its active reminder. */
  ghost predicate OnlySymbol(d: Signals, u: Signals, symbol: string) {
    && (forall y :: y != symbol ==> StreamOf(u.streams, y) == StreamOf(d.streams, y))
    && (forall id: AlertId {:trigger ViewOf(u.box)(id)} :: id.EntryId? && id.signal.symbol != symbol ==> ViewOf(u.box)(id) == ViewOf(d.box)(id))
  }

  lemma OnlySymbolKeepsSettled(d: Signals, u: Signals, symbol: string, y: string, s: Snapshot, caughtUp: bool, now: int)
    requires Lifecycle(d) && OnlySymbol(d, u, symbol) && y != symbol && Settled(d, y, s, caughtUp, now)
    ensures Settled(u, y, s, caughtUp, now)
  {
    var stream := StreamOf(d.streams, y);
    if stream.active.Some? {
      assert StreamOk(ViewOf(d.box), y, d.streams[y]);
      assert ViewOf(u.box)(stream.active.value) == ViewOf(d.box)(stream.active.value);
    }
  }

  lemma SweepOneSettles(d: Signals, symbol: string, s: Snapshot, caughtUp: bool, now: int)
    requires Lifecycle(d)
    ensures var r := SweepOne(d, symbol, s, caughtUp, now);
      && r.Ok? && SignalsMoved(d, r.value) && Settled(r.value, symbol, s, caughtUp, now) && OnlySymbol(d, r.value, symbol)
  {
    var stream := StreamOf(d.streams, symbol);
    if stream.active.Some? {
      var id := stream.active.value;
      assert StreamOk(ViewOf(d.box), symbol, d.streams[symbol]);
      ExpireKeeps(d, symbol, now);
      var d1 := d.(box := Expire(d.box, id, now).value);
      if SourceLost(s, stream, symbol, caughtUp, now) {
        InvalidateSucceeds(d1, symbol, stream, SourceUnavailable, now, None);
        InvalidateKeeps(d1, symbol, stream, SourceUnavailable, now, None);
        InvalidateFrame(d1, symbol, stream, SourceUnavailable, now);
        var u := Invalidate(d1, symbol, stream, SourceUnavailable, now, None).value.0;
        ChainMoves(ViewOf(d.box), ViewOf(d1.box), ViewOf(u.box));
        forall x: AlertId | x.EntryId? && x.signal.symbol != symbol ensures ViewOf(u.box)(x) == ViewOf(d.box)(x) {
          assert ViewOf(u.box)(x) == ViewOf(d1.box)(x);
        }
      }
    }
  }

  /** The sweep always succeeds and settles every symbol it is given. */
  lemma {:induction false} SweepSettles(d: Signals, order: seq<string>, s: Snapshot, caughtUp: bool, now: int)
    requires Lifecycle(d)
    ensures var r := Sweep(d, order, s, caughtUp, now);
      && r.Ok? && SignalsMoved(d, r.value) && forall y :: y in order ==> Settled(r.value, y, s, caughtUp, now)
  {
    if order != [] {
      var init, last := order[..|order| - 1], order[|order| - 1];
      SweepSettles(d, init, s, caughtUp, now);
      var d1 := Sweep(d, init, s, caughtUp, now).value;
      SweepOneSettles(d1, last, s, caughtUp, now);
      var u := SweepOne(d1, last, s, caughtUp, now).value;
      ChainMoves(ViewOf(d.box), ViewOf(d1.box), ViewOf(u.box));
      forall y | y in order ensures Settled(u, y, s, caughtUp, now) {
        if y != last { assert y in init; OnlySymbolKeepsSettled(d1, u, last, y, s, caughtUp, now); }
      }
    }
  }

  /** Losing the source withdraws every active reminder, and always succeeds. */
  lemma {:induction false} WithdrawAllWithdraws(d: Signals, order: seq<string>, now: int)
    requires Lifecycle(d)
    ensures var r := WithdrawAll(d, order, now);
      && r.Ok? && SignalsMoved(d, r.value) && forall y :: y in order ==> StreamOf(r.value.streams, y).active.None?
  {
    if order != [] {
      var init, last := order[..|order| - 1], order[|order| - 1];
      WithdrawAllWithdraws(d, init, now);
      var d1 := WithdrawAll(d, init, now).value;
      var stream := StreamOf(d1.streams, last);
      forall y | y in order ensures y == last || y in init { }
      if stream.active.Some? {
        InvalidateSucceeds(d1, last, stream, SourceUnavailable, now, None);
        InvalidateKeeps(d1, last, stream, SourceUnavailable, now, None);
        ChainMoves(ViewOf(d.box), ViewOf(d1.box), ViewOf(Invalidate(d1, last, stream, SourceUnavailable, now, None).value.0.box));
      }
    }
  }

  // ---- one poll ----

  /** The consumed cycles are exactly the cycles of the log before the cursor. */
  ghost predicate ConsumedExactly(db: Db, log: Bytes, decode: Decoder) {
    AtPrefix(log, db.cursor, decode) && Ids(Cycles(log[..db.cursor.offset], decode).value) == Some(db.consumed)
  }

  ghost predicate DbOk(db: Db, log: Bytes, history: seq<HealthEvent>, decode: Decoder) {
    ConsumedExactly(db, log, decode) && db.healthCursor <= |history| && ServicesOk(db, history, db.healthCursor)
  }

  /** Up to the cursor, the log gives one cycle identity to different contents. */
  predicate Reused(log: Bytes, next: Cursor, decode: Decoder) {
    && 0 <= next.offset <= |log| && Cycles(log[..next.offset], decode).Some?
    && Ids(Cycles(log[..next.offset], decode).value).None?
  }

  predicate HistoryLost(db: Db, state: Option<ServiceState>, history: seq<HealthEvent>) {
    if state.None? then db.healthCursor != 0 else db.healthCursor + EVENT_LIMIT < |history|
  }

  /** The parts of the database an operation on signals leaves to the other invariants. */
  lemma SignalsChange(db: Db, d: Signals, log: Bytes, history: seq<HealthEvent>, decode: Decoder)
    requires DbOk(db, log, history, decode) && SignalsMoved(db.signals, d)
    ensures DbOk(db.(signals := d), log, history, decode)
  {
    SignalMoveKeepsServices(ViewOf(db.signals.box), ViewOf(d.box), history, db.healthCursor, db.runtimeSequence);
  }

  lemma ConsumeKeeps(db: Db, log: Bytes, history: seq<HealthEvent>, decode: Decoder, limit: nat, cycles: seq<Cycle>, next: Cursor,
                     s: Snapshot, now: int, reviewMs: int)
    requires DbOk(db, log, history, decode) && IsPage(log, db.cursor, limit, decode, cycles, next)
    ensures var r := Consume(db, cycles, s, now, reviewMs);
      r.Ok? ==> DbOk(r.value.(cursor := next), log, history, decode) && r.value.healthCursor == db.healthCursor
  {
    PageExtendsPrefix(log, db.cursor, limit, decode, cycles, next);
    ConsumeIsExact(db, Cycles(log[..db.cursor.offset], decode).value, cycles, s, now, reviewMs);
    var r := Consume(db, cycles, s, now, reviewMs);
    if r.Ok? { SignalsChange(db, r.value.signals, log, history, decode); }
  }

  lemma EpochsKeep(db: Db, log: Bytes, history: seq<HealthEvent>, decode: Decoder, s: Snapshot, now: int, reviewMs: int)
    requires DbOk(db, log, history, decode)
    ensures var r := Epochs(db, s, now, reviewMs); r.Ok? ==> DbOk(r.value, log, history, decode) && r.value == db.(signals := r.value.signals)
  {
    if CaughtUp(db, s) && CurrentRun(s).Some? {
      var seen := Current(s).value.observations;
      ReobserveKeeps(db.signals, seen, now, reviewMs, CurrentRun(s));
      var u := Reobserve(db.signals, seen, now, reviewMs, CurrentRun(s));
      if u.Ok? { SignalsChange(db, u.value, log, history, decode); }
    }
  }

  /** The observations of a poll: exact up to the new cursor, or refused, exactly when an identity was
      reused with other content or a sighting contradicts the streams made so far. */
  lemma ReadObservationsKeeps(db: Db, log: Bytes, history: seq<HealthEvent>, decode: Decoder, limit: nat, cycles: seq<Cycle>, next: Cursor,
                              s: Snapshot, now: int, reviewMs: int)
    requires DbOk(db, log, history, decode) && IsPage(log, db.cursor, limit, decode, cycles, next)
    ensures var r := ReadObservations(db, cycles, next, s, now, reviewMs);
      && (r.Ok? ==> DbOk(r.value, log, history, decode) && r.value.cursor == next && r.value.healthCursor == db.healthCursor)
      && (r.Err? <==> Reused(log, next, decode) || Conflict(db.signals.streams, PollFeed(db, cycles, s, now), now))
  {
    hide Lifecycle, Consume, Epochs, HealthOk, RuntimeOk, Conflict, PollFeed;
    PageExtendsPrefix(log, db.cursor, limit, decode, cycles, next);
    ReadObservationsFailsExactly(db, Cycles(log[..db.cursor.offset], decode).value, cycles, next, s, now, reviewMs);
    ConsumeKeeps(db, log, history, decode, limit, cycles, next, s, now, reviewMs);
    var c := Consume(db, cycles, s, now, reviewMs);
    if c.Ok? { EpochsKeep(c.value.(cursor := next), log, history, decode, s, now, reviewMs); }
  }

  lemma CloseSettles(db: Db, log: Bytes, history: seq<HealthEvent>, decode: Decoder, s: Snapshot, order: seq<string>, now: int)
    requires DbOk(db, log, history, decode)
    ensures var r := Close(db, order, s, CaughtUp(db, s), now);
      && r.Ok? && DbOk(r.value, log, history, decode) && r.value.cursor == db.cursor && r.value.healthCursor == db.healthCursor
      && (forall y :: y in order ==> Settled(r.value.signals, y, s, CaughtUp(r.value, s), now))
      && r.value.sourceReady == (s.healthy && CaughtUp(r.value, s))
      && r.value.lastCollectionMs == Some(now) && r.value.logUnavailableSinceMs.None?
  {
    SweepSettles(db.signals, order, s, CaughtUp(db, s), now);
    SignalsChange(db, Sweep(db.signals, order, s, CaughtUp(db, s), now).value, log, history, decode);
  }

  lemma ReadServicesKeeps(db: Db, log: Bytes, history: seq<HealthEvent>, decode: Decoder, s: Snapshot, order: seq<string>, now: int)
    requires DbOk(db, log, history, decode) && Depicts(s.state, history)
    ensures var r := ReadServices(db, s, order, now);
      && (r.Err? <==> HistoryLost(db, s.state, history))
      && (r.Ok? ==>
            && DbOk(r.value, log, history, decode) && r.value.cursor == db.cursor
            && (s.state.Some? ==> r.value.healthCursor == |history|)
            && (forall y :: y in order ==> Settled(r.value.signals, y, s, CaughtUp(r.value, s), now))
            && r.value.sourceReady == (s.healthy && CaughtUp(r.value, s))
            && r.value.lastCollectionMs == Some(now) && r.value.logUnavailableSinceMs.None?)
  {
    HealthEventsAreExact(db, s.state, history, now);
    var h := HealthEvents(db, s.state, now);
    if h.Ok? {
      RuntimeStepKeeps(h.value, s.runtime, RunOf(s), history, now);
      CloseSettles(Runtime(h.value, s, now).value, log, history, decode, s, order, now);
    }
  }

  /** A poll fails exactly when the log reuses an identity with other content, an observation contradicts
      the streams made so far, or health history was lost; otherwise the database is exact again, up to
      the new cursors, and every reminder is settled. */
  lemma CollectIsExact(db: Db, log: Bytes, history: seq<HealthEvent>, decode: Decoder, limit: nat, cycles: seq<Cycle>, next: Cursor,
                       s: Snapshot, order: seq<string>, now: int, reviewMs: int)
    requires DbOk(db, log, history, decode) && IsPage(log, db.cursor, limit, decode, cycles, next) && Depicts(s.state, history)
    ensures var r := Collect(db, cycles, next, s, order, now, reviewMs);
      && (r.Err? <==>
            || Reused(log, next, decode) || Conflict(db.signals.streams, PollFeed(db, cycles, s, now), now)
            || HistoryLost(db, s.state, history))
      && (r.Ok? ==>
            && DbOk(r.value, log, history, decode) && r.value.cursor == next
            && (s.state.Some? ==> r.value.healthCursor == |history|)
            && (forall y :: y in order ==> Settled(r.value.signals, y, s, CaughtUp(r.value, s), now))
            && r.value.sourceReady == (s.healthy && CaughtUp(r.value, s))
            && r.value.lastCollectionMs == Some(now) && r.value.logUnavailableSinceMs.None?)
  {
    hide Lifecycle, ReadObservations, ReadServices, Reused, Conflict, PollFeed, ServicesOk, Settled, CaughtUp;
    ReadObservationsKeeps(db, log, history, decode, limit, cycles, next, s, now, reviewMs);
    var a := ReadObservations(db, cycles, next, s, now, reviewMs);
    if a.Ok? { ReadServicesKeeps(a.value, log, history, decode, s, order, now); }
  }

  /** Losing the source cannot fail, keeps the database exact and leaves no reminder active. */
  lemma LoseSourceKeeps(db: Db, log: Bytes, history: seq<HealthEvent>, decode: Decoder, order: seq<string>, now: int)
    requires DbOk(db, log, history, decode)
    ensures var r := LoseSource(db, order, now);
      && r.Ok? && DbOk(r.value, log, history, decode) && !r.value.sourceReady
      && forall y :: y in order ==> StreamOf(r.value.signals.streams, y).active.None?
  {
    var db0 := db.(sourceReady := false);
    RuntimeStepKeeps(db0, SourceUnreadable, None, history, now);
    var db1 := RuntimeStep(db0, SourceUnreadable, None, now).value;
    WithdrawAllWithdraws(db1.signals, order, now);
    var u := WithdrawAll(db1.signals, order, now).value;
    SignalMoveKeepsServices(ViewOf(db1.signals.box), ViewOf(u.box), history, db1.healthCursor, db1.runtimeSequence);
  }
}
