/** What the sweep, and the loss of the source, do to every active reminder: which rows change, and why. */
module Sweeping {
  import opened Basics
  import opened Alerts
  import opened Outbox
  import opened OutboxViews
  import opened SignalStreams
  import opened Collector
  import opened CollectorRuns
  import opened CollectorSystem
  import opened PollAnnouncements
  import opened Withdrawals
  import opened HealthJournal
  import opened ServiceReports

  /** The row is a reminder of the symbol, or the withdrawal of one. */
  predicate IsAbout(id: AlertId, symbol: string) {
    match id
    case EntryId(signal, _) => signal.symbol == symbol
    case InvalidationId(entry, _) => entry.EntryId? && entry.signal.symbol == symbol
    case _ => false
  }

  /** Only one symbol's rows change. */
  ghost predicate OnlyAbout(v: View, w: View, symbol: string) {
    forall x: AlertId {:trigger w(x)} :: !IsAbout(x, symbol) ==> w(x) == v(x)
  }

  /** An active reminder after the sweep: suppressed when its window is over or its source lost, and withdrawn
      when its source is lost. */
  ghost predicate IsSwept(v: View, w: View, id: AlertId, lost: bool, now: int) {
    && v(id).Some? && v(id).value.alert.id == id && v(id).value.alert.reviewUntilMs.Some?
    && var entry := v(id).value;
       var over := now >= entry.alert.reviewUntilMs.value;
       && w(id) == Some(if entry.suppressed.Some? then entry
                        else if over then entry.(suppressed := Some(ReviewExpired))
                        else if lost then entry.(suppressed := Some(SourceUnavailable)) else entry)
       && (lost ==> IsWithdrawal(w(InvalidationId(id, SourceUnavailable)), entry, SourceUnavailable, entry.alert.observation, now))
       && (!lost ==> forall why :: w(InvalidationId(id, why)) == v(InvalidationId(id, why)))
  }

  lemma InvalidateIsAbout(d: Signals, symbol: string, s: Stream, reason: Reason, now: int, evidence: Option<Observation>)
    requires Lifecycle(d) && s.active.Some? && StreamOf(d.streams, symbol).active == s.active && Invalidate(d, symbol, s, reason, now, evidence).Ok?
    ensures OnlyAbout(ViewOf(d.box), ViewOf(Invalidate(d, symbol, s, reason, now, evidence).value.0.box), symbol)
  {
    var id := s.active.value;
    assert StreamOk(ViewOf(d.box), symbol, d.streams[symbol]);
    var entry := d.box.rows[Find(d.box.rows, id).value];
    var suppressed := if !entry.state.Confirmed? && !entry.state.Unknown? then Some(HistoricalEvent) else None;
    var alert := InvalidationAlert(id, reason, now, if evidence.Some? then evidence else entry.alert.observation);
    WithdrawViews(d.box, alert, suppressed, id, reason, now);
    var m := Enqueue(d.box, alert, now, suppressed).value;
    var u := Invalidate(d, symbol, s, reason, now, evidence).value.0;
    hide Lifecycle, Enqueue, Suppress, RowOf, ViewOf;
    forall x: AlertId | !IsAbout(x, symbol) ensures ViewOf(u.box)(x) == ViewOf(d.box)(x) { assert ViewOf(u.box)(x) == ViewOf(m)(x) == ViewOf(d.box)(x); }
  }

  lemma ExpireMeans(d: Signals, symbol: string, now: int)
    requires Lifecycle(d) && StreamOf(d.streams, symbol).active.Some?
    ensures var id := StreamOf(d.streams, symbol).active.value;
      var r := Expire(d.box, id, now);
      && r.Ok? && Lifecycle(d.(box := r.value)) && OnlyRow(ViewOf(d.box), ViewOf(r.value), id) && IsAbout(id, symbol)
      && IsSwept(ViewOf(d.box), ViewOf(r.value), id, false, now)
  {
    var id := StreamOf(d.streams, symbol).active.value;
    assert StreamOk(ViewOf(d.box), symbol, d.streams[symbol]) && EntryOk(ViewOf(d.box), d.streams, id);
    assert ViewOf(d.box)(id) == RowOf(d.box, id);
    ExpireKeeps(d, symbol, now);
    var u := Expire(d.box, id, now).value;
    assert ViewOf(u)(id) == RowOf(u, id);
    SuppressMeans(d.box, id, ReviewExpired, now);
    hide Lifecycle, Suppress, RowOf, ViewOf, StreamOk;
  }

  lemma SweepOneMeans(d: Signals, symbol: string, s: Snapshot, caughtUp: bool, now: int)
    requires Lifecycle(d)
    ensures var r, stream := SweepOne(d, symbol, s, caughtUp, now), StreamOf(d.streams, symbol);
      && r.Ok? && Lifecycle(r.value) && OnlyAbout(ViewOf(d.box), ViewOf(r.value.box), symbol)
      && (stream.active.Some? ==>
            IsSwept(ViewOf(d.box), ViewOf(r.value.box), stream.active.value, LosesSource(s, stream, symbol, caughtUp, now), now))
  {
    var stream := StreamOf(d.streams, symbol);
    if stream.active.Some? {
      var id := stream.active.value;
      hide Lifecycle, Invalidate, SourceLost, LosesSource, Expire, RowOf, SignalMove;
      LosesSourceMeans(s, stream, symbol, caughtUp, now);
      ExpireMeans(d, symbol, now);
      var m := d.(box := Expire(d.box, id, now).value);
      if SourceLost(s, stream, symbol, caughtUp, now) {
        InvalidateSucceeds(m, symbol, stream, SourceUnavailable, now, None);
        InvalidateKeeps(m, symbol, stream, SourceUnavailable, now, None);
        InvalidateIsAbout(m, symbol, stream, SourceUnavailable, now, None);
        WithdrawalMeans(m, symbol, stream, SourceUnavailable, now, None);
        var u := Invalidate(m, symbol, stream, SourceUnavailable, now, None).value.0;
        SweptThenWithdrawn(d.box, m.box, u.box, id, now);
      }
    }
  }

  lemma SweptThenWithdrawn(o: Box, m: Box, u: Box, id: AlertId, now: int)
    requires IsSwept(ViewOf(o), ViewOf(m), id, false, now) && IsWithdrawn(m, u, id, SourceUnavailable, None, now)
    ensures IsSwept(ViewOf(o), ViewOf(u), id, true, now)
  {
    hide RowOf;
    assert ViewOf(m)(id) == RowOf(m, id) && ViewOf(u)(id) == RowOf(u, id);
    var why := InvalidationId(id, SourceUnavailable);
    assert ViewOf(u)(why) == RowOf(u, why);
  }

  predicate AllDiffer(order: seq<string>) {
    forall i, j :: 0 <= i < j < |order| ==> order[i] != order[j]
  }

  lemma SweptStays(v: View, m: View, w: View, id: AlertId, lost: bool, now: int, symbol: string)
    requires IsSwept(v, m, id, lost, now) && OnlyAbout(m, w, symbol) && id.EntryId? && id.signal.symbol != symbol
    ensures IsSwept(v, w, id, lost, now)
  {
    assert w(id) == m(id) && w(InvalidationId(id, SourceUnavailable)) == m(InvalidationId(id, SourceUnavailable));
    forall why ensures w(InvalidationId(id, why)) == m(InvalidationId(id, why)) { }
  }

  lemma SweptLater(v: View, m: View, w: View, id: AlertId, lost: bool, now: int)
    requires IsSwept(m, w, id, lost, now) && m(id) == v(id) && forall why :: m(InvalidationId(id, why)) == v(InvalidationId(id, why))
    ensures IsSwept(v, w, id, lost, now)
  {
  }

  /** The rows of a symbol that was not swept yet are as they were. */
  lemma {:induction false} NotYetSwept(d: Signals, order: seq<string>, s: Snapshot, caughtUp: bool, now: int, id: AlertId)
    requires Lifecycle(d) && forall y :: y in order ==> !IsAbout(id, y)
    ensures var r := Sweep(d, order, s, caughtUp, now); r.Ok? && Lifecycle(r.value) && ViewOf(r.value.box)(id) == ViewOf(d.box)(id)
  {
    hide Lifecycle, SweepOne, LosesSource, IsSwept, ViewOf;
    if order != [] {
      var init, last := order[..|order| - 1], order[|order| - 1];
      assert last in order;
      NotYetSwept(d, init, s, caughtUp, now, id);
      SweepOneMeans(Sweep(d, init, s, caughtUp, now).value, last, s, caughtUp, now);
    }
  }

  /** The sweep judges every active reminder by what its stream was when the sweep began: its row is
      suppressed for the window or the source, and its withdrawal is recorded exactly for the source. */
  lemma {:induction false} SweepWithdraws(d: Signals, order: seq<string>, s: Snapshot, caughtUp: bool, now: int, symbol: string)
    requires Lifecycle(d) && AllDiffer(order) && symbol in order && StreamOf(d.streams, symbol).active.Some?
    ensures var r, stream := Sweep(d, order, s, caughtUp, now), StreamOf(d.streams, symbol);
      && r.Ok? && Lifecycle(r.value)
      && IsSwept(ViewOf(d.box), ViewOf(r.value.box), stream.active.value, LosesSource(s, stream, symbol, caughtUp, now), now)
  {
    var init, last := order[..|order| - 1], order[|order| - 1];
    var stream := StreamOf(d.streams, symbol);
    var id := stream.active.value;
    assert StreamOk(ViewOf(d.box), symbol, d.streams[symbol]);
    hide Lifecycle, SweepOne, LosesSource, IsSwept, ViewOf, StreamOk;
    if last == symbol {
      forall y | y in init ensures y != symbol { }
      NotYetSwept(d, init, s, caughtUp, now, id);
      forall why ensures ViewOf(Sweep(d, init, s, caughtUp, now).value.box)(InvalidationId(id, why)) == ViewOf(d.box)(InvalidationId(id, why)) {
        NotYetSwept(d, init, s, caughtUp, now, InvalidationId(id, why));
      }
      var m := Sweep(d, init, s, caughtUp, now).value;
      NotYetMoved(d, init, s, caughtUp, now, symbol);
      SweepOneMeans(m, symbol, s, caughtUp, now);
      SweptLater(ViewOf(d.box), ViewOf(m.box), ViewOf(SweepOne(m, symbol, s, caughtUp, now).value.box), id,
                 LosesSource(s, stream, symbol, caughtUp, now), now);
    } else {
      SweepWithdraws(d, init, s, caughtUp, now, symbol);
      var m := Sweep(d, init, s, caughtUp, now).value;
      SweepOneMeans(m, last, s, caughtUp, now);
      SweptStays(ViewOf(d.box), ViewOf(m.box), ViewOf(SweepOne(m, last, s, caughtUp, now).value.box), id,
                 LosesSource(s, stream, symbol, caughtUp, now), now, last);
    }
  }

  lemma {:induction false} NotYetMoved(d: Signals, order: seq<string>, s: Snapshot, caughtUp: bool, now: int, symbol: string)
    requires Lifecycle(d) && symbol !in order
    ensures var r := Sweep(d, order, s, caughtUp, now); r.Ok? && Lifecycle(r.value) && StreamOf(r.value.streams, symbol) == StreamOf(d.streams, symbol)
  {
    hide Lifecycle, SweepOne, ViewOf, Swept, StreamOf, SignalMove, Settled;
    if order != [] {
      var init, last := order[..|order| - 1], order[|order| - 1];
      NotYetMoved(d, init, s, caughtUp, now, symbol);
      var m := Sweep(d, init, s, caughtUp, now).value;
      SweepOneStream(m, last, s, caughtUp, now, symbol);
      SweepOneSettles(m, last, s, caughtUp, now);
    }
  }

  /** Losing the source withdraws every active reminder for that, whatever else was true of it. */
  lemma {:induction false} LosingWithdraws(d: Signals, order: seq<string>, now: int, symbol: string)
    requires Lifecycle(d) && AllDiffer(order) && symbol in order && StreamOf(d.streams, symbol).active.Some?
    ensures var r, id := WithdrawAll(d, order, now), StreamOf(d.streams, symbol).active.value;
      r.Ok? && IsWithdrawn(d.box, r.value.box, id, SourceUnavailable, None, now)
  {
    var init, last := order[..|order| - 1], order[|order| - 1];
    var id := StreamOf(d.streams, symbol).active.value;
    assert StreamOk(ViewOf(d.box), symbol, d.streams[symbol]);
    hide Lifecycle, Invalidate, IsWithdrawal, ViewOf, RowOf, StreamOk;
    WithdrawAllWithdraws(d, init, now);
    var m := WithdrawAll(d, init, now).value;
    if last == symbol {
      NotYetLost(d, init, now, symbol);
      WithdrawalMeans(m, symbol, StreamOf(m.streams, symbol), SourceUnavailable, now, None);
    } else {
      LosingWithdraws(d, init, now, symbol);
      if StreamOf(m.streams, last).active.Some? {
        OneMoreLost(m, last, now, symbol, id);
        OneMoreLost(m, last, now, symbol, InvalidationId(id, SourceUnavailable));
      }
    }
  }

  lemma OneMoreLost(m: Signals, last: string, now: int, symbol: string, x: AlertId)
    requires Lifecycle(m) && last != symbol && IsAbout(x, symbol) && StreamOf(m.streams, last).active.Some?
    ensures var r := Invalidate(m, last, StreamOf(m.streams, last), SourceUnavailable, now, None);
      && r.Ok? && RowOf(r.value.0.box, x) == RowOf(m.box, x) && Lifecycle(r.value.0)
      && StreamOf(r.value.0.streams, symbol) == StreamOf(m.streams, symbol)
  {
    var stream := StreamOf(m.streams, last);
    hide Lifecycle, Invalidate, RowOf, SignalMove;
    InvalidateSucceeds(m, last, stream, SourceUnavailable, now, None);
    InvalidateKeeps(m, last, stream, SourceUnavailable, now, None);
    InvalidateIsAbout(m, last, stream, SourceUnavailable, now, None);
    var u := Invalidate(m, last, stream, SourceUnavailable, now, None).value.0;
    assert ViewOf(u.box)(x) == RowOf(u.box, x) && ViewOf(m.box)(x) == RowOf(m.box, x);
  }

  lemma {:induction false} NotYetLost(d: Signals, order: seq<string>, now: int, symbol: string)
    requires Lifecycle(d) && AllDiffer(order) && symbol !in order
    ensures var r := WithdrawAll(d, order, now);
      && r.Ok? && Lifecycle(r.value) && StreamOf(r.value.streams, symbol) == StreamOf(d.streams, symbol)
      && forall x {:trigger RowOf(r.value.box, x)} :: IsAbout(x, symbol) ==> RowOf(r.value.box, x) == RowOf(d.box, x)
  {
    hide Lifecycle, Invalidate, ViewOf, RowOf;
    if order != [] {
      var init, last := order[..|order| - 1], order[|order| - 1];
      NotYetLost(d, init, now, symbol);
      var m := WithdrawAll(d, init, now).value;
      if StreamOf(m.streams, last).active.Some? {
        var u := WithdrawAll(d, order, now);
        OneMoreLost(m, last, now, symbol, EntryId(SignalKey(symbol, "", "", 0, ""), 0));
        forall x | IsAbout(x, symbol) ensures RowOf(u.value.box, x) == RowOf(d.box, x) { OneMoreLost(m, last, now, symbol, x); }
      }
    }
  }

  lemma SameWithdrawal(o: Box, m: Box, u: Box, id: AlertId, reason: Reason, evidence: Option<Observation>, now: int)
    requires IsWithdrawn(m, u, id, reason, evidence, now) && RowOf(o, id) == RowOf(m, id)
    requires RowOf(o, InvalidationId(id, reason)) == RowOf(m, InvalidationId(id, reason))
    ensures IsWithdrawn(o, u, id, reason, evidence, now)
  {
  }

  /** An unreadable source is reported once, as that, and every active reminder is withdrawn for it. */
  lemma LostSourceMeans(db: Db, history: seq<HealthEvent>, order: seq<string>, now: int, symbol: string)
    requires ServicesOk(db, history, db.healthCursor) && AllDiffer(order) && symbol in order && StreamOf(db.signals.streams, symbol).active.Some?
    ensures var r, id, report := LoseSource(db, order, now), StreamOf(db.signals.streams, symbol).active.value, RuntimeId(db.runtimeSequence + 1, true);
      && r.Ok? && !r.value.sourceReady && r.value.runtime == Some(RuntimeKey(SourceUnreadable, None))
      && IsWithdrawn(db.signals.box, r.value.signals.box, id, SourceUnavailable, None, now)
      && (if db.runtime == Some(RuntimeKey(SourceUnreadable, None)) then r.value.runtimeSequence == db.runtimeSequence
          else IsReport(RowOf(r.value.signals.box, report), Alert(report, now, None, RuntimeChanged, None, [RuntimeProblem(SourceUnreadable)]), now))
  {
    var db0 := db.(sourceReady := false);
    var id := StreamOf(db.signals.streams, symbol).active.value;
    hide ServicesOk, RuntimeStep, RowOf, IsReport, SignalMove, IsWithdrawn;
    RuntimeMeans(db0, SourceUnreadable, None, history, now);
    RuntimeStepKeeps(db0, SourceUnreadable, None, history, now);
    RuntimeLeavesOthers(db0, SourceUnreadable, None, history, now);
    var m := RuntimeStep(db0, SourceUnreadable, None, now).value;
    SignalsAreOk(m, history);
    StreamsStay(db0, SourceUnreadable, None, history, now);
    LostRows(m.signals, order, now, RuntimeId(db.runtimeSequence + 1, true));
    LosingWithdraws(m.signals, order, now, symbol);
    AboutEntry(db, history, symbol);
    SeenByRow(db.signals.box, m.signals.box, id);
    SeenByRow(db.signals.box, m.signals.box, InvalidationId(id, SourceUnavailable));
    SameWithdrawal(db.signals.box, m.signals.box, WithdrawAll(m.signals, order, now).value.box, id, SourceUnavailable, None, now);
  }

  lemma SeenByRow(o: Box, u: Box, x: AlertId)
    requires ViewOf(u)(x) == ViewOf(o)(x)
    ensures RowOf(o, x) == RowOf(u, x)
  {
    assert ViewOf(o)(x) == RowOf(o, x) && ViewOf(u)(x) == RowOf(u, x);
  }

  lemma SignalsAreOk(db: Db, history: seq<HealthEvent>)
    requires ServicesOk(db, history, db.healthCursor)
    ensures Lifecycle(db.signals)
  {
    hide Lifecycle, HealthOk, RuntimeOk;
  }

  lemma AboutEntry(db: Db, history: seq<HealthEvent>, symbol: string)
    requires ServicesOk(db, history, db.healthCursor) && StreamOf(db.signals.streams, symbol).active.Some?
    ensures StreamOf(db.signals.streams, symbol).active.value.EntryId?
  {
    assert StreamOk(ViewOf(db.signals.box), symbol, db.signals.streams[symbol]);
  }

  lemma StreamsStay(db: Db, runtime: RuntimeState, run: Option<string>, history: seq<HealthEvent>, now: int)
    requires RuntimeStep(db, runtime, run, now).Ok?
    ensures RuntimeStep(db, runtime, run, now).value.signals.streams == db.signals.streams
  {
    hide Enqueue;
  }

  lemma LostRows(d: Signals, order: seq<string>, now: int, x: AlertId)
    requires Lifecycle(d) && x.RuntimeId?
    ensures var r := WithdrawAll(d, order, now); r.Ok? && RowOf(r.value.box, x) == RowOf(d.box, x)
  {
    hide Lifecycle, WithdrawAll, RowOf;
    WithdrawAllWithdraws(d, order, now);
    SeenByRow(d.box, WithdrawAll(d, order, now).value.box, x);
  }
}
