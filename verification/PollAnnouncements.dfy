/** News over one poll: a poll feeds its sightings to the streams one after the other, every sighting that
  is news gets its reminder, and the reminder can be sent unless a later step of the poll withdrew it. */
module PollAnnouncements {
  import opened Basics
  import opened Alerts
  import opened Outbox
  import opened OutboxViews
  import opened SignalStreams
  import opened HealthJournal
  import opened Collector
  import opened CollectorRuns
  import opened CollectorRows
  import opened CollectorSystem
  import opened Refusals
  import opened Announcements

  // ---- a poll is one pass over its feed ----

  function FeedAll(d: Signals, feed: seq<Sighting>, now: int, reviewMs: int): Checked<Signals> {
    if feed == [] then Ok(d)
    else
      var d1 :- FeedAll(d, feed[..|feed| - 1], now, reviewMs);
      var x := feed[|feed| - 1];
      Observe(d1, x.seen, now, reviewMs, x.run, x.collection)
  }

  lemma {:induction false} FeedAllConcat(d: Signals, f: seq<Sighting>, g: seq<Sighting>, now: int, reviewMs: int)
    ensures FeedAll(d, f + g, now, reviewMs) ==
      if FeedAll(d, f, now, reviewMs).Ok? then FeedAll(FeedAll(d, f, now, reviewMs).value, g, now, reviewMs) else FeedAll(d, f, now, reviewMs)
  {
    hide Observe;
    if g == [] {
      assert f + g == f;
    } else {
      FeedAllConcat(d, f, g[..|g| - 1], now, reviewMs);
      assert (f + g)[..|f + g| - 1] == f + g[..|g| - 1];
    }
  }

  lemma {:induction false} ObserveAllFeeds(d: Signals, seen: seq<Observation>, now: int, reviewMs: int, run: Option<string>, collection: Option<string>)
    ensures ObserveAll(d, seen, now, reviewMs, run, collection) == FeedAll(d, Sightings(seen, run, collection), now, reviewMs)
  {
    hide Observe;
    if seen != [] {
      var init := seen[..|seen| - 1];
      ObserveAllFeeds(d, init, now, reviewMs, run, collection);
      var feed := Sightings(seen, run, collection);
      assert feed[..|feed| - 1] == Sightings(init, run, collection);
    }
  }

  lemma {:induction false} ReobserveFeeds(d: Signals, streams: Streams, seen: seq<Observation>, now: int, reviewMs: int, run: Option<string>)
    requires Lifecycle(d) && Alike(d.streams, streams)
    ensures Reobserve(d, seen, now, reviewMs, run) == FeedAll(d, Lagging(streams, seen, run, now), now, reviewMs)
  {
    hide Lifecycle, Observe, TrackAll, Conflict;
    if seen != [] {
      var init, o := seen[..|seen| - 1], seen[|seen| - 1];
      ReobserveFeeds(d, streams, init, now, reviewMs, run);
      ReobserveTracks(d, streams, init, now, reviewMs, run);
      var before := Lagging(streams, init, run, now);
      assert (before + [Sighting(o, run, run)])[..|before|] == before;
    }
  }

  lemma {:induction false} ConsumeFeeds(db: Db, before: seq<Cycle>, cycles: seq<Cycle>, s: Snapshot, now: int, reviewMs: int)
    requires Lifecycle(db.signals) && Ids(before) == Some(db.consumed) && Consume(db, cycles, s, now, reviewMs).Ok?
    ensures FeedAll(db.signals, NewSightings(db.consumed, cycles, s), now, reviewMs) == Ok(Consume(db, cycles, s, now, reviewMs).value.signals)
  {
    if cycles != [] {
      var init, c := cycles[..|cycles| - 1], cycles[|cycles| - 1];
      assert init + [c] == cycles;
      hide Lifecycle, Ids, TrackAll, Conflict, LastNew, Alike, ObserveAll, IsNew, FeedAll;
      ConsumeFeeds(db, before, init, s, now, reviewMs);
      ConsumeTracks(db, before, init, s, now, reviewMs);
      var m := Consume(db, init, s, now, reviewMs).value;
      var run := if Current(s) == Some(c) then CurrentRun(s) else None;
      KnowsOneMore(m.consumed, db.consumed, init, c);
      ObserveAllFeeds(m.signals, c.observations, now, reviewMs, run, RunOf(s));
      FeedAllConcat(db.signals, NewSightings(db.consumed, init, s), CycleFeed(c, s), now, reviewMs);
      assert NewSightings(db.consumed, init, s) + [] == NewSightings(db.consumed, init, s);
    }
  }

  /** Reading the log tail is observing the sightings of its feed, in their order. */
  lemma ReadObservationsFeeds(db: Db, before: seq<Cycle>, cycles: seq<Cycle>, next: LogReader.Cursor, s: Snapshot, now: int, reviewMs: int)
    requires Lifecycle(db.signals) && Ids(before) == Some(db.consumed) && ReadObservations(db, cycles, next, s, now, reviewMs).Ok?
    ensures var u := ReadObservations(db, cycles, next, s, now, reviewMs).value;
      FeedAll(db.signals, PollFeed(db, cycles, s, now), now, reviewMs) == Ok(u.signals) && u.lastCycle == LastNew(db, cycles)
  {
    hide Lifecycle, Consume, Reobserve, NewSightings, Knows, Lagging, TrackAll, Conflict, FeedAll, Ids, Alike;
    ConsumeTracks(db, before, cycles, s, now, reviewMs);
    ConsumeFeeds(db, before, cycles, s, now, reviewMs);
    var unread := NewSightings(db.consumed, cycles, s);
    var streams := TrackAll(db.signals.streams, unread, now);
    if Current(s).Some? && CurrentRun(s).Some? {
      var m := Consume(db, cycles, s, now, reviewMs).value;
      var seen := Current(s).value.observations;
      ReobserveFeeds(m.signals, streams, seen, now, reviewMs, CurrentRun(s));
      FeedAllConcat(db.signals, unread, Lagging(streams, seen, CurrentRun(s), now), now, reviewMs);
    }
  }

  // ---- the news in a feed ----

  /** The i-th sighting is news to the stream that those before it made. */
  predicate NewsAt(streams: Streams, feed: seq<Sighting>, i: nat, now: int)
    requires i < |feed|
  {
    var before := TrackAll(streams, feed[..i], now);
    IsNews(feed[i].seen, Compared(StreamOf(before, feed[i].seen.symbol), feed[i].seen, feed[i].run), now)
  }

  /** The number the reminder of the i-th sighting gets. */
  function NumberAt(streams: Streams, feed: seq<Sighting>, i: nat, now: int): nat
    requires i < |feed|
  {
    StreamOf(TrackAll(streams, feed[..i], now), feed[i].seen.symbol).counter + 1
  }

  function ReminderAt(streams: Streams, feed: seq<Sighting>, i: nat, now: int): AlertId
    requires i < |feed| && NewsAt(streams, feed, i, now)
  {
    EntryId(SignalOf(feed[i].seen), NumberAt(streams, feed, i, now))
  }

  /** The reminder of a signal with no attempt made, suppressed if it was not timely. */
  predicate IsRecorded(row: Option<Row>, o: Observation, id: AlertId, now: int, reviewMs: int) {
    && row.Some?
    && row.value.alert == Alert(id, o.observedAtMs, Some(o.observedAtMs + reviewMs), Ready, Some(o), [])
    && row.value.state.Pending? && row.value.attempts == 0 && row.value.nextAttemptMs == now
    && (row.value.suppressed.None? ==> IsTimely(o, now, reviewMs))
  }

  /** Each sighting that is news has its reminder, which was not there before. */
  ghost predicate AllRecorded(d: Signals, u: Signals, feed: seq<Sighting>, now: int, reviewMs: int) {
    forall i {:trigger NewsAt(d.streams, feed, i, now)} :: 0 <= i < |feed| && NewsAt(d.streams, feed, i, now) ==>
      var id := ReminderAt(d.streams, feed, i, now);
      ViewOf(d.box)(id).None? && IsRecorded(ViewOf(u.box)(id), feed[i].seen, id, now, reviewMs)
  }

  /** An active reminder that was not there before is open, or its window is over. */
  ghost predicate NewAreOpen(d: Signals, u: Signals, now: int) {
    forall x: AlertId {:trigger ViewOf(u.box)(x)} ::
      x.EntryId? && ViewOf(d.box)(x).None? && ViewOf(u.box)(x).Some? && StreamOf(u.streams, x.signal.symbol).active == Some(x) ==>
        IsOpenOrOver(ViewOf(u.box)(x), now)
  }

  lemma StepKeepsOpen(d: Signals, m: Signals, u: Signals, symbol: string, now: int)
    requires NewAreOpen(d, m, now) && StepsSymbol(m, u, symbol, now)
    ensures NewAreOpen(d, u, now)
  {
    hide ViewOf, StreamOf, IsOpenOrOver;
    forall x: AlertId
      | x.EntryId? && ViewOf(d.box)(x).None? && ViewOf(u.box)(x).Some? && StreamOf(u.streams, x.signal.symbol).active == Some(x)
      ensures IsOpenOrOver(ViewOf(u.box)(x), now)
    {
      if x.signal.symbol != symbol || ViewOf(u.box)(x) == ViewOf(m.box)(x) {
        assert ViewOf(u.box)(x) == ViewOf(m.box)(x);
        if StreamOf(m.streams, x.signal.symbol).active != Some(x) { assert IsOpenOrOver(ViewOf(u.box)(x), now); }
      }
    }
  }

  lemma KeptStaysRecorded(v: View, w: View, o: Observation, id: AlertId, now: int, reviewMs: int)
    requires Kept(v, w) && IsRecorded(v(id), o, id, now, reviewMs)
    ensures IsRecorded(w(id), o, id, now, reviewMs)
  {
    assert w(id).Some?;
  }

  /** The invariant along a feed. */
  ghost predicate IsFed(d: Signals, u: Signals, feed: seq<Sighting>, now: int, reviewMs: int) {
    && Lifecycle(u) && RowsKept(d.box, u.box) && Alike(u.streams, TrackAll(d.streams, feed, now))
    && AllRecorded(d, u, feed, now, reviewMs) && NewAreOpen(d, u, now)
  }

  lemma RecordedOneMore(d: Signals, m: Signals, u: Signals, init: seq<Sighting>, x: Sighting, now: int, reviewMs: int)
    requires AllRecorded(d, m, init, now, reviewMs) && Kept(ViewOf(m.box), ViewOf(u.box))
    requires var all := init + [x]; NewsAt(d.streams, all, |init|, now) ==>
      var id := ReminderAt(d.streams, all, |init|, now);
      ViewOf(d.box)(id).None? && IsRecorded(ViewOf(u.box)(id), x.seen, id, now, reviewMs)
    ensures AllRecorded(d, u, init + [x], now, reviewMs)
  {
    var all := init + [x];
    hide TrackAll, IsNews, IsRecorded, ViewOf, Kept, Compared, StreamOf;
    forall i | 0 <= i < |all| && NewsAt(d.streams, all, i, now)
      ensures var id := ReminderAt(d.streams, all, i, now);
        ViewOf(d.box)(id).None? && IsRecorded(ViewOf(u.box)(id), all[i].seen, id, now, reviewMs)
    {
      if i < |init| {
        assert all[..i] == init[..i] && all[i] == init[i];
        assert NewsAt(d.streams, init, i, now);
        KeptStaysRecorded(ViewOf(m.box), ViewOf(u.box), init[i].seen, ReminderAt(d.streams, init, i, now), now, reviewMs);
      }
    }
  }

  lemma SightingIsRecorded(d: Signals, m: Signals, x: Sighting, init: seq<Sighting>, now: int, reviewMs: int)
    requires Lifecycle(d) && IsFed(d, m, init, now, reviewMs) && Observe(m, x.seen, now, reviewMs, x.run, x.collection).Ok?
    requires NewsAt(d.streams, init + [x], |init|, now)
    ensures var u := Observe(m, x.seen, now, reviewMs, x.run, x.collection).value;
      var id := ReminderAt(d.streams, init + [x], |init|, now);
      ViewOf(d.box)(id).None? && IsRecorded(ViewOf(u.box)(id), x.seen, id, now, reviewMs)
  {
    var all := init + [x];
    var id := ReminderAt(d.streams, all, |init|, now);
    assert all[..|init|] == init;
    hide Observe, Lifecycle, TrackAll, IsNews, RowOf, StreamOf, AllRecorded, NewAreOpen, RowsKept, Compared, Kept, ViewOf;
    assert StreamOf(m.streams, x.seen.symbol) == StreamOf(TrackAll(d.streams, init, now), x.seen.symbol);
    FirstRecorded(d, m, x, id, now, reviewMs);
  }

  lemma FirstRecorded(d: Signals, m: Signals, x: Sighting, id: AlertId, now: int, reviewMs: int)
    requires Lifecycle(d) && Lifecycle(m) && RowsKept(d.box, m.box) && Observe(m, x.seen, now, reviewMs, x.run, x.collection).Ok?
    requires var s := StreamOf(m.streams, x.seen.symbol);
      IsNews(x.seen, Compared(s, x.seen, x.run), now) && id == EntryId(SignalOf(x.seen), s.counter + 1)
    ensures var u := Observe(m, x.seen, now, reviewMs, x.run, x.collection).value;
      ViewOf(d.box)(id).None? && IsRecorded(ViewOf(u.box)(id), x.seen, id, now, reviewMs)
  {
    RowsKeptView(d.box, m.box);
    assert ViewOf(m.box)(id) == RowOf(m.box, id);
    var u := Observe(m, x.seen, now, reviewMs, x.run, x.collection).value;
    assert ViewOf(u.box)(id) == RowOf(u.box, id);
    hide Observe, Lifecycle, IsNews, RowOf, StreamOf, RowsKept, Compared;
    NewsIsAnnounced(m, x.seen, now, reviewMs, x.run, x.collection);
  }

  lemma FedOneMore(d: Signals, m: Signals, init: seq<Sighting>, x: Sighting, now: int, reviewMs: int)
    requires Lifecycle(d) && IsFed(d, m, init, now, reviewMs) && Observe(m, x.seen, now, reviewMs, x.run, x.collection).Ok?
    ensures IsFed(d, Observe(m, x.seen, now, reviewMs, x.run, x.collection).value, init + [x], now, reviewMs)
  {
    var all := init + [x];
    assert all[..|init|] == init;
    var u := Observe(m, x.seen, now, reviewMs, x.run, x.collection).value;
    if NewsAt(d.streams, all, |init|, now) { SightingIsRecorded(d, m, x, init, now, reviewMs); }
    ObserveRows(m, x.seen, now, reviewMs, x.run, x.collection);
    RowsKeptTwice(d.box, m.box, u.box);
    ObserveTracks(m, TrackAll(d.streams, init, now), x, now, reviewMs);
    ObserveSteps(m, x.seen, now, reviewMs, x.run, x.collection);
    RowsKeptView(m.box, u.box);
    hide Observe, Lifecycle, NewsAt, ReminderAt, RowsKept, Kept, IsRecorded, ViewOf, AllRecorded, NewAreOpen, StepsSymbol;
    StepKeepsOpen(d, m, u, x.seen.symbol, now);
    RecordedOneMore(d, m, u, init, x, now, reviewMs);
  }

  lemma {:induction false} FeedRecords(d: Signals, feed: seq<Sighting>, now: int, reviewMs: int)
    requires Lifecycle(d) && FeedAll(d, feed, now, reviewMs).Ok?
    ensures IsFed(d, FeedAll(d, feed, now, reviewMs).value, feed, now, reviewMs)
  {
    if feed != [] {
      hide IsFed, Lifecycle;
      var init, x := feed[..|feed| - 1], feed[|feed| - 1];
      assert init + [x] == feed;
      FeedRecords(d, init, now, reviewMs);
      FedOneMore(d, FeedAll(d, init, now, reviewMs).value, init, x, now, reviewMs);
    }
  }

  // ---- the rest of the poll ----

  /** No stream and no entry changes. */
  ghost predicate EntriesStay(d: Signals, u: Signals) {
    u.streams == d.streams && forall x: AlertId {:trigger ViewOf(u.box)(x)} :: x.EntryId? ==> ViewOf(u.box)(x) == ViewOf(d.box)(x)
  }

  lemma ServiceAlertStays(d: Signals, alert: Alert, now: int)
    requires Lifecycle(d) && !IsSignalId(alert.id) && Enqueue(d.box, alert, now, None).Ok?
    ensures var u := d.(box := Enqueue(d.box, alert, now, None).value); Lifecycle(u) && EntriesStay(d, u)
  {
    EnqueueView(d.box, alert, now, None);
    ChangeKeepsBox(d.box, DoEnqueue(alert, None), now);
    hide Enqueue, RowOf, BoxOk, ViewOf, StreamsOk;
    OtherMoveKeeps(ViewOf(d.box), ViewOf(Enqueue(d.box, alert, now, None).value), d.streams);
  }

  lemma {:induction false} ReportAllStays(db: Db, events: seq<HealthEvent>, run: string, now: int)
    requires Lifecycle(db.signals) && ReportAll(db, events, run, now).Ok?
    ensures var u := ReportAll(db, events, run, now).value;
      Lifecycle(u.signals) && EntriesStay(db.signals, u.signals) && u.lastCycle == db.lastCycle
  {
    if events != [] {
      hide Lifecycle, Enqueue, ViewOf;
      var init, e := events[..|events| - 1], events[|events| - 1];
      ReportAllStays(db, init, run, now);
      if IsReported(e.kind) { ServiceAlertStays(ReportAll(db, init, run, now).value.signals, HealthAlert(e), now); }
    }
  }

  lemma ServicesStay(db: Db, s: Snapshot, now: int)
    requires Lifecycle(db.signals) && HealthEvents(db, s.state, now).Ok? && Runtime(HealthEvents(db, s.state, now).value, s, now).Ok?
    ensures var u := Runtime(HealthEvents(db, s.state, now).value, s, now).value;
      Lifecycle(u.signals) && EntriesStay(db.signals, u.signals) && u.lastCycle == db.lastCycle
  {
    hide Lifecycle, Enqueue, ViewOf, ReportAll;
    if s.state.Some? {
      ReportAllStays(db, EventsSince(s.state.value.journal, db.healthCursor).value, s.state.value.runId, now);
    }
    var h := HealthEvents(db, s.state, now).value;
    var alert := RuntimeAlert(h.runtimeSequence + 1, s.runtime, now);
    if Enqueue(h.signals.box, alert, now, None).Ok? { ServiceAlertStays(h.signals, alert, now); }
  }

  lemma SweepOneStream(d: Signals, symbol: string, s: Snapshot, caughtUp: bool, now: int, y: string)
    requires Lifecycle(d)
    ensures var r := SweepOne(d, symbol, s, caughtUp, now);
      r.Ok? && StreamOf(r.value.streams, y) == if y == symbol then Swept(StreamOf(d.streams, y), y, s, caughtUp, now) else StreamOf(d.streams, y)
  {
    hide Lifecycle, SourceLost, Suppress, SignalMove;
    SweepOneSettles(d, symbol, s, caughtUp, now);
  }

  /** A stream after the sweep: without its reminder when its source is lost. */
  function Swept(stream: Stream, symbol: string, s: Snapshot, caughtUp: bool, now: int): Stream {
    if stream.active.Some? && SourceLost(s, stream, symbol, caughtUp, now) then stream.(active := None, signalKey := None) else stream
  }

  lemma {:induction false} SweepSteps(d0: Signals, d: Signals, order: seq<string>, s: Snapshot, caughtUp: bool, now: int, y: string)
    requires Lifecycle(d) && NewAreOpen(d0, d, now)
    ensures var r := Sweep(d, order, s, caughtUp, now);
      && r.Ok? && Lifecycle(r.value) && NewAreOpen(d0, r.value, now)
      && StreamOf(r.value.streams, y) == if y in order then Swept(StreamOf(d.streams, y), y, s, caughtUp, now) else StreamOf(d.streams, y)
  {
    if order != [] {
      var init, last := order[..|order| - 1], order[|order| - 1];
      hide Lifecycle, SweepOne, StepsSymbol, NewAreOpen, StreamOf, OnlySymbol, SignalMove, SourceLost;
      SweepSteps(d0, d, init, s, caughtUp, now, y);
      var m := Sweep(d, init, s, caughtUp, now).value;
      SweepOneSettles(m, last, s, caughtUp, now);
      SweepOneSteps(m, last, s, caughtUp, now);
      SweepOneStream(m, last, s, caughtUp, now, y);
      StepKeepsOpen(d0, m, SweepOne(m, last, s, caughtUp, now).value, last, now);
      assert y in order <==> y in init || y == last;
    }
  }

  lemma StayKeepsOpen(d: Signals, m: Signals, u: Signals, now: int)
    requires NewAreOpen(d, m, now) && EntriesStay(m, u)
    ensures NewAreOpen(d, u, now)
  {
    hide ViewOf, StreamOf, IsOpenOrOver;
    forall x: AlertId
      | x.EntryId? && ViewOf(d.box)(x).None? && ViewOf(u.box)(x).Some? && StreamOf(u.streams, x.signal.symbol).active == Some(x)
      ensures IsOpenOrOver(ViewOf(u.box)(x), now)
    {
      assert ViewOf(u.box)(x) == ViewOf(m.box)(x);
    }
  }

  lemma ReadServicesSteps(d0: Signals, db: Db, s: Snapshot, order: seq<string>, now: int, y: string)
    requires Lifecycle(db.signals) && NewAreOpen(d0, db.signals, now) && ReadServices(db, s, order, now).Ok?
    ensures var u := ReadServices(db, s, order, now).value;
      && Lifecycle(u.signals) && NewAreOpen(d0, u.signals, now)
      && StreamOf(u.signals.streams, y) ==
         if y in order then Swept(StreamOf(db.signals.streams, y), y, s, CaughtUp(db, s), now) else StreamOf(db.signals.streams, y)
  {
    hide Lifecycle, NewAreOpen, StreamOf, Sweep, HealthEvents, Runtime, ViewOf, SourceLost;
    ServicesStay(db, s, now);
    var m := Runtime(HealthEvents(db, s.state, now).value, s, now).value;
    StayKeepsOpen(d0, db.signals, m.signals, now);
    SweepSteps(d0, m.signals, order, s, CaughtUp(m, s), now, y);
  }

  // ---- what a poll announces ----

  /** The service stopped or fell silent; or its latest attempt failed, and what the stream shows was not
      collected by it nor seen after it began; or the service vouches for everything read, and is
      unhealthy or no longer scans the symbol; or the clock is behind the reminder. */
  predicate LosesSource(s: Snapshot, stream: Stream, symbol: string, caughtUp: bool, now: int) {
    || s.runtime in {Halted, Interrupted, Unresponsive}
    || now < stream.lastSeenMs
    || (s.state.Some? && s.state.value.lastCycle.Some?
        && var live, latest := s.state.value, s.state.value.lastCycle.value;
           && latest.serviceRun == live.runId
           && ((!latest.succeeded
                && (stream.collectionRun !in {None, Some(live.runId)}
                    || (stream.createdAtMs <= latest.startedAtMs && stream.observedAtMs <= latest.startedAtMs)))
               || (latest.cycle.Some? && caughtUp && (!s.healthy || symbol !in live.symbols))))
  }

  lemma LosesSourceMeans(s: Snapshot, stream: Stream, symbol: string, caughtUp: bool, now: int)
    ensures SourceLost(s, stream, symbol, caughtUp, now) <==> LosesSource(s, stream, symbol, caughtUp, now)
  {
  }

  /** The stream that the whole feed makes of the symbol shows this reminder, and its source is not lost. */
  predicate Survives(db: Db, cycles: seq<Cycle>, s: Snapshot, order: seq<string>, now: int, symbol: string, id: AlertId) {
    var stream := StreamOf(TrackAll(db.signals.streams, PollFeed(db, cycles, s, now), now), symbol);
    var caughtUp := Current(s).Some? && LastNew(db, cycles) == Current(s);
    stream.active == Some(id) && !(symbol in order && LosesSource(s, stream, symbol, caughtUp, now))
  }

  lemma ReadObservationsRecord(db: Db, before: seq<Cycle>, cycles: seq<Cycle>, next: LogReader.Cursor, s: Snapshot, now: int, reviewMs: int)
    requires Lifecycle(db.signals) && Ids(before) == Some(db.consumed) && ReadObservations(db, cycles, next, s, now, reviewMs).Ok?
    ensures var u := ReadObservations(db, cycles, next, s, now, reviewMs).value;
      IsFed(db.signals, u.signals, PollFeed(db, cycles, s, now), now, reviewMs) && u.lastCycle == LastNew(db, cycles)
  {
    hide Lifecycle, ReadObservations, PollFeed, IsFed, FeedAll, LastNew, Ids;
    ReadObservationsFeeds(db, before, cycles, next, s, now, reviewMs);
    FeedRecords(db.signals, PollFeed(db, cycles, s, now), now, reviewMs);
  }

  lemma RecordedIsEligible(d: Signals, u: Signals, o: Observation, id: AlertId, now: int, reviewMs: int)
    requires Lifecycle(u) && NewAreOpen(d, u, now) && ViewOf(d.box)(id).None? && id.EntryId? && IsRecorded(ViewOf(u.box)(id), o, id, now, reviewMs)
    ensures Eligible(ViewOf(u.box)(id).value, now) <==>
      IsTimely(o, now, reviewMs) && StreamOf(u.streams, id.signal.symbol).active == Some(id)
  {
    assert EntryOk(ViewOf(u.box), u.streams, id);
  }

  /** A poll gives every sighting that is news a reminder of its own.  It is due exactly while the review
      window is open, unless a later sighting of the poll replaced or withdrew it, or its source was lost. */
  lemma NewsIsSendable(db: Db, before: seq<Cycle>, cycles: seq<Cycle>, next: LogReader.Cursor, s: Snapshot, order: seq<string>,
                       now: int, reviewMs: int, i: nat)
    requires Lifecycle(db.signals) && Ids(before) == Some(db.consumed) && Collect(db, cycles, next, s, order, now, reviewMs).Ok?
    requires i < |PollFeed(db, cycles, s, now)| && NewsAt(db.signals.streams, PollFeed(db, cycles, s, now), i, now)
    ensures var feed := PollFeed(db, cycles, s, now);
      var o, id := feed[i].seen, ReminderAt(db.signals.streams, feed, i, now);
      var u := Collect(db, cycles, next, s, order, now, reviewMs).value;
      && RowOf(db.signals.box, id).None? && IsRecorded(RowOf(u.signals.box, id), o, id, now, reviewMs)
      && (Eligible(RowOf(u.signals.box, id).value, now) <==> IsTimely(o, now, reviewMs) && Survives(db, cycles, s, order, now, o.symbol, id))
  {
    var feed := PollFeed(db, cycles, s, now);
    var id := ReminderAt(db.signals.streams, feed, i, now);
    assert id.signal.symbol == feed[i].seen.symbol;
    var u := Collect(db, cycles, next, s, order, now, reviewMs).value;
    assert ViewOf(u.signals.box)(id) == RowOf(u.signals.box, id) && ViewOf(db.signals.box)(id) == RowOf(db.signals.box, id);
    ReadObservationsRecord(db, before, cycles, next, s, now, reviewMs);
    var m := ReadObservations(db, cycles, next, s, now, reviewMs).value;
    ReadServicesSteps(db.signals, m, s, order, now, feed[i].seen.symbol);
    ReadServicesRows(m, s, order, now);
    RowsKeptView(m.signals.box, u.signals.box);
    var tracked := StreamOf(TrackAll(db.signals.streams, feed, now), feed[i].seen.symbol);
    assert StreamOf(m.signals.streams, feed[i].seen.symbol) == tracked;
    LosesSourceMeans(s, tracked, feed[i].seen.symbol, CaughtUp(m, s), now);
    hide Lifecycle, ReadObservations, ReadServices, PollFeed, NewsAt, RowOf, ViewOf, TrackAll, LosesSource, SourceLost, LastNew, NewAreOpen,
         RowsKept, Kept, IsTimely, Alike, Ids, ReminderAt;
    KeptStaysRecorded(ViewOf(m.signals.box), ViewOf(u.signals.box), feed[i].seen, id, now, reviewMs);
    RecordedIsEligible(db.signals, u.signals, feed[i].seen, id, now, reviewMs);
  }
}
