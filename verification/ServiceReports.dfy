/** Which health events and runtime states a poll reports, what the report says, and that it can be sent. */
module ServiceReports {
  import opened Basics
  import opened Alerts
  import opened Outbox
  import opened OutboxViews
  import opened SignalStreams
  import opened HealthJournal
  import opened Collector
  import opened CollectorRuns
  import opened CollectorSystem
  import LogReader
  import Refusals

  /** A report as it is first recorded: due at once. */
  predicate IsReport(row: Option<Row>, alert: Alert, now: int) {
    row == Some(Row(alert, Pending, 0, now, false, None)) && Eligible(row.value, now)
  }

  // ---- the runtime ----

  predicate IsFault(runtime: RuntimeState) {
    runtime.Halted? || runtime.Interrupted? || runtime.Unresponsive? || runtime.SourceUnreadable?
  }

  /** A fault unless this run's same fault is the last thing known; or running again after a fault. */
  predicate IsNewState(last: Option<RuntimeKey>, runtime: RuntimeState, run: Option<string>) {
    if IsFault(runtime) then last != Some(RuntimeKey(runtime, run))
    else runtime.Running? && last.Some? && !last.value.state.Running?
  }

  /** A runtime state is reported exactly when it is new, under the next number; it is remembered unless the
      service has not started. */
  lemma RuntimeMeans(db: Db, runtime: RuntimeState, run: Option<string>, history: seq<HealthEvent>, now: int)
    requires ServicesOk(db, history, db.healthCursor)
    ensures var r := RuntimeStep(db, runtime, run, now);
      && r.Ok?
      && var u, id := r.value, RuntimeId(db.runtimeSequence + 1, IsFault(runtime));
         && (if IsNewState(db.runtime, runtime, run) then
               && u.runtimeSequence == db.runtimeSequence + 1 && RowOf(db.signals.box, id).None?
               && IsReport(RowOf(u.signals.box, id), Alert(id, now, None, RuntimeChanged, None,
                                                           if IsFault(runtime) then [RuntimeProblem(runtime)] else []), now)
             else u.runtimeSequence == db.runtimeSequence && u.signals == db.signals)
         && (runtime.NotStarted? || runtime.Starting? ==> u.runtime == db.runtime)
         && (IsFault(runtime) ==> u.runtime == Some(RuntimeKey(runtime, run)))
         && (runtime.Running? ==> u.runtime.Some? && u.runtime.value.state.Running?)
  {
    hide ServicesOk, Lifecycle, RowOf, Enqueue, IsReport, RuntimeStep, IsNewState;
    NextIsFree(db, history, IsFault(runtime));
    RuntimeCases(db, runtime, run, now);
    ReportedAtOnce(db.signals, RuntimeReport(db.runtimeSequence + 1, runtime, now), now);
  }

  function RuntimeReport(sequence: nat, runtime: RuntimeState, now: int): Alert {
    var id := RuntimeId(sequence, IsFault(runtime));
    Alert(id, now, None, RuntimeChanged, None, if IsFault(runtime) then [RuntimeProblem(runtime)] else [])
  }

  lemma RuntimeCases(db: Db, runtime: RuntimeState, run: Option<string>, now: int)
    ensures var r, b := RuntimeStep(db, runtime, run, now), Enqueue(db.signals.box, RuntimeReport(db.runtimeSequence + 1, runtime, now), now, None);
      var known := if runtime.NotStarted? || runtime.Starting? then db.runtime
                   else Some(if IsFault(runtime) then RuntimeKey(runtime, run) else RuntimeKey(Running, None));
      if !IsNewState(db.runtime, runtime, run) then r == Ok(db.(runtime := known))
      else if b.Ok? then r == Ok(db.(signals := db.signals.(box := b.value), runtimeSequence := db.runtimeSequence + 1, runtime := known))
      else r.Err?
  {
    hide Enqueue;
  }

  lemma NextIsFree(db: Db, history: seq<HealthEvent>, fault: bool)
    requires ServicesOk(db, history, db.healthCursor)
    ensures Lifecycle(db.signals) && RowOf(db.signals.box, RuntimeId(db.runtimeSequence + 1, fault)).None?
  {
    hide Lifecycle, HealthOk, RowOf;
    assert ViewOf(db.signals.box)(RuntimeId(db.runtimeSequence + 1, fault)).None?;
  }

  lemma ReportedAtOnce(d: Signals, alert: Alert, now: int)
    requires Lifecycle(d) && RowOf(d.box, alert.id).None?
    ensures Enqueue(d.box, alert, now, None).Ok? && IsReport(RowOf(Enqueue(d.box, alert, now, None).value, alert.id), alert, now)
  {
    assert ViewOf(d.box)(alert.id).None?;
    AbsentEnqueues(d.box, alert, now, None);
    EnqueueView(d.box, alert, now, None);
  }

  /** A state that was just reported, or just found unchanged, is not reported again. */
  lemma ReportedOnce(db: Db, runtime: RuntimeState, run: Option<string>, history: seq<HealthEvent>, now: int, later: int)
    requires ServicesOk(db, history, db.healthCursor)
    ensures var r := RuntimeStep(db, runtime, run, now); r.Ok? && RuntimeStep(r.value, runtime, run, later) == Ok(r.value)
  {
    RuntimeStepKeeps(db, runtime, run, history, now);
  }

  // ---- health events ----

  /** What an event's report says: a stop is a stop of the runtime, anything else names its own problems. */
  function ReportOf(e: HealthEvent): Alert {
    Alert(HealthId(e), e.atMs, None, HealthRecorded, None, if e.kind == Stopped then [RuntimeProblem(Halted)] else e.problems)
  }

  /** Of the events from one place in the history to another exactly the faults, recoveries and stops are
      reported, and each report is due. */
  ghost predicate AreReported(v: View, history: seq<HealthEvent>, from: nat, upto: nat, now: int)
    requires upto <= |history|
  {
    forall k {:trigger history[k]} :: from <= k < upto ==>
      if history[k].kind in {Fault, Recovered, Stopped} then IsReport(v(HealthId(history[k])), ReportOf(history[k]), now)
      else v(HealthId(history[k])).None?
  }

  lemma OneMoreReport(db: Db, history: seq<HealthEvent>, from: nat, cursor: nat, run: string, now: int)
    requires IsHistory(history) && from <= cursor < |history| && ServicesOk(db, history, cursor)
    requires AreReported(ViewOf(db.signals.box), history, from, cursor, now)
    ensures var r := Report(db, history[cursor], run, now);
      r.Ok? && AreReported(ViewOf(r.value.signals.box), history, from, cursor + 1, now)
  {
    var e, v := history[cursor], ViewOf(db.signals.box);
    assert v(HealthId(e)).None? && v(HealthId(e)) == RowOf(db.signals.box, HealthId(e));
    if IsReported(e.kind) {
      ReportedAtOnce(db.signals, HealthAlert(e), now);
      EnqueueView(db.signals.box, HealthAlert(e), now, None);
      var w := ViewOf(Enqueue(db.signals.box, HealthAlert(e), now, None).value);
      assert w(HealthId(e)) == RowOf(Enqueue(db.signals.box, HealthAlert(e), now, None).value, HealthId(e));
      hide ServicesOk, Enqueue, RowOf, ViewOf, IsReport;
      forall k | from <= k < cursor ensures w(HealthId(history[k])) == v(HealthId(history[k])) { assert history[k] != e; }
    }
  }

  lemma {:induction false} AllAreReported(db: Db, history: seq<HealthEvent>, cursor: nat, upto: nat, run: string, now: int)
    requires IsHistory(history) && cursor <= upto <= |history| && ServicesOk(db, history, cursor)
    ensures var r := ReportAll(db, history[cursor..upto], run, now);
      r.Ok? && AreReported(ViewOf(r.value.signals.box), history, cursor, upto, now)
    decreases upto
  {
    hide ServicesOk, Report, AreReported, ViewOf;
    if cursor < upto {
      AllAreReported(db, history, cursor, upto - 1, run, now);
      assert history[cursor..upto][..upto - 1 - cursor] == history[cursor..upto - 1];
      ReportAllKeeps(db, history, cursor, upto - 1, run, now);
      OneMoreReport(ReportAll(db, history[cursor..upto - 1], run, now).value, history, cursor, upto - 1, run, now);
    } else {
      NothingReported(ViewOf(db.signals.box), history, cursor, now);
    }
  }

  lemma NothingReported(v: View, history: seq<HealthEvent>, cursor: nat, now: int)
    requires cursor <= |history|
    ensures AreReported(v, history, cursor, cursor, now)
  {
  }

  /** The last thing known about the runtime after some events: the last stop, or what was known before. */
  lemma {:induction false} StopIsKnown(db: Db, events: seq<HealthEvent>, run: string, now: int)
    requires ReportAll(db, events, run, now).Ok?
    ensures ReportAll(db, events, run, now).value.runtime ==
      if exists e :: e in events && e.kind == Stopped then Some(RuntimeKey(Halted, Some(run))) else db.runtime
  {
    if events != [] {
      var init, e := events[..|events| - 1], events[|events| - 1];
      StopIsKnown(db, init, run, now);
      assert events == init + [e];
      hide Enqueue;
    }
  }

  // ---- the poll ----

  lemma ReportsStay(v: View, w: View, history: seq<HealthEvent>, from: nat, now: int)
    requires from <= |history| && AreReported(v, history, from, |history|, now) && forall e :: w(HealthId(e)) == v(HealthId(e))
    ensures AreReported(w, history, from, |history|, now)
  {
    hide IsReport;
    forall k | from <= k < |history| ensures w(HealthId(history[k])) == v(HealthId(history[k])) { }
  }

  lemma RuntimeLeavesOthers(db: Db, runtime: RuntimeState, run: Option<string>, history: seq<HealthEvent>, now: int)
    requires ServicesOk(db, history, db.healthCursor)
    ensures var r := RuntimeStep(db, runtime, run, now);
      r.Ok? && forall x: AlertId :: !x.RuntimeId? ==> ViewOf(r.value.signals.box)(x) == ViewOf(db.signals.box)(x)
  {
    hide ServicesOk, Enqueue, BoxOk, ViewOf;
    RuntimeStepKeeps(db, runtime, run, history, now);
    BoxIsOk(db, history);
    RuntimeEnqueued(db.signals.box, RuntimeAlert(db.runtimeSequence + 1, runtime, now), now);
  }

  lemma BoxIsOk(db: Db, history: seq<HealthEvent>)
    requires ServicesOk(db, history, db.healthCursor)
    ensures BoxOk(db.signals.box)
  {
    hide StreamsOk, HealthOk, RuntimeOk, BoxOk;
  }

  lemma RuntimeEnqueued(o: Box, alert: Alert, now: int)
    requires BoxOk(o) && alert.id.RuntimeId?
    ensures var r := Enqueue(o, alert, now, None); r.Ok? ==> forall x: AlertId :: !x.RuntimeId? ==> ViewOf(r.value)(x) == ViewOf(o)(x)
  {
    if Enqueue(o, alert, now, None).Ok? { EnqueueView(o, alert, now, None); }
    hide BoxOk, Enqueue, RowOf;
  }

  /** A poll that succeeds has reported every fault, recovery and stop since the last one, and nothing else of
      the journal; each report can be sent. */
  lemma HealthIsReported(db: Db, history: seq<HealthEvent>, s: Snapshot, order: seq<string>, now: int)
    requires Depicts(s.state, history) && s.state.Some? && db.healthCursor <= |history| && ServicesOk(db, history, db.healthCursor)
    requires ReadServices(db, s, order, now).Ok?
    ensures AreReported(ViewOf(ReadServices(db, s, order, now).value.signals.box), history, db.healthCursor, |history|, now)
  {
    hide ServicesOk, AreReported, HealthEvents, RuntimeStep, Sweep, IsHistory, ViewOf, CaughtUp;
    HealthEventsAreExact(db, s.state, history, now);
    JournalIsReported(db, history, s.state, now);
    var h := HealthEvents(db, s.state, now).value;
    RuntimeStepKeeps(h, s.runtime, RunOf(s), history, now);
    RuntimeLeavesOthers(h, s.runtime, RunOf(s), history, now);
    var m := Runtime(h, s, now).value;
    ReportsStay(ViewOf(h.signals.box), ViewOf(m.signals.box), history, db.healthCursor, now);
    SweepLeavesHealth(m, history, order, s, now);
    ReportsStay(ViewOf(m.signals.box), ViewOf(ReadServices(db, s, order, now).value.signals.box), history, db.healthCursor, now);
  }

  lemma JournalIsReported(db: Db, history: seq<HealthEvent>, state: Option<ServiceState>, now: int)
    requires Depicts(state, history) && state.Some? && db.healthCursor <= |history| && ServicesOk(db, history, db.healthCursor)
    requires HealthEvents(db, state, now).Ok?
    ensures AreReported(ViewOf(HealthEvents(db, state, now).value.signals.box), history, db.healthCursor, |history|, now)
  {
    var live := state.value;
    EventsSinceIsExact(live.journal, history, db.healthCursor);
    hide ServicesOk, AreReported, ReportAll, ViewOf;
    AllAreReported(db, history, db.healthCursor, |history|, live.runId, now);
    assert history[db.healthCursor..|history|] == history[db.healthCursor..];
  }

  lemma SweepLeavesHealth(db: Db, history: seq<HealthEvent>, order: seq<string>, s: Snapshot, now: int)
    requires ServicesOk(db, history, db.healthCursor)
    ensures var r := Sweep(db.signals, order, s, CaughtUp(db, s), now);
      r.Ok? && forall e :: ViewOf(r.value.box)(HealthId(e)) == ViewOf(db.signals.box)(HealthId(e))
  {
    assert Lifecycle(db.signals);
    hide ServicesOk, Lifecycle, Settled, ViewOf, CaughtUp, Sweep;
    SweepSettles(db.signals, order, s, CaughtUp(db, s), now);
  }

  /** The runtime last known once the journal was read: stopped, when it tells of a stop. */
  ghost predicate IsKnown(db: Db, history: seq<HealthEvent>, state: Option<ServiceState>, known: Option<RuntimeKey>)
    requires db.healthCursor <= |history|
  {
    if state.Some? && (exists e :: e in history[db.healthCursor..] && e.kind == Stopped)
    then known == Some(RuntimeKey(Halted, Some(state.value.runId)))
    else known == db.runtime
  }

  lemma HealthKnows(db: Db, history: seq<HealthEvent>, state: Option<ServiceState>, now: int)
    requires Depicts(state, history) && db.healthCursor <= |history| && ServicesOk(db, history, db.healthCursor)
    requires HealthEvents(db, state, now).Ok?
    ensures IsKnown(db, history, state, HealthEvents(db, state, now).value.runtime)
  {
    hide ServicesOk, ReportAll;
    if state.Some? {
      EventsSinceIsExact(state.value.journal, history, db.healthCursor);
      StopIsKnown(db, history[db.healthCursor..], state.value.runId, now);
    }
  }

  /** A running service that is not healthy says nothing new about the runtime. */
  predicate IsTelling(s: Snapshot) {
    !s.runtime.Running? || s.healthy
  }

  lemma SweepLeavesRuntime(db: Db, history: seq<HealthEvent>, order: seq<string>, s: Snapshot, now: int, id: AlertId)
    requires ServicesOk(db, history, db.healthCursor) && id.RuntimeId?
    ensures var r := Sweep(db.signals, order, s, CaughtUp(db, s), now); r.Ok? && RowOf(r.value.box, id) == RowOf(db.signals.box, id)
  {
    assert Lifecycle(db.signals);
    hide ServicesOk, Lifecycle, Settled, RowOf, CaughtUp, Sweep;
    SweepSettles(db.signals, order, s, CaughtUp(db, s), now);
    var u := Sweep(db.signals, order, s, CaughtUp(db, s), now).value;
    assert ViewOf(u.box)(id) == RowOf(u.box, id) && ViewOf(db.signals.box)(id) == RowOf(db.signals.box, id);
  }

  /** A poll reports a runtime state that is new against what the journal told last, and only then. */
  lemma RuntimeIsReported(db: Db, history: seq<HealthEvent>, s: Snapshot, order: seq<string>, now: int) returns (known: Option<RuntimeKey>)
    requires Depicts(s.state, history) && db.healthCursor <= |history| && ServicesOk(db, history, db.healthCursor)
    requires ReadServices(db, s, order, now).Ok?
    ensures IsKnown(db, history, s.state, known)
    ensures var u, id := ReadServices(db, s, order, now).value, RuntimeId(db.runtimeSequence + 1, IsFault(s.runtime));
      var run := if s.state.Some? then Some(s.state.value.runId) else None;
      if IsTelling(s) && IsNewState(known, s.runtime, run) then
        && u.runtimeSequence == db.runtimeSequence + 1
        && IsReport(RowOf(u.signals.box, id), Alert(id, now, None, RuntimeChanged, None,
                                                    if IsFault(s.runtime) then [RuntimeProblem(s.runtime)] else []), now)
      else u.runtimeSequence == db.runtimeSequence
  {
    HealthEventsAreExact(db, s.state, history, now);
    HealthKnows(db, history, s.state, now);
    var h := HealthEvents(db, s.state, now).value;
    known := h.runtime;
    hide ServicesOk, HealthEvents, RuntimeStep, Sweep, IsHistory, IsReport, RowOf, IsKnown, CaughtUp;
    RuntimeMeans(h, s.runtime, RunOf(s), history, now);
    RuntimeStepKeeps(h, s.runtime, RunOf(s), history, now);
    SweepLeavesRuntime(Runtime(h, s, now).value, history, order, s, now, RuntimeId(db.runtimeSequence + 1, IsFault(s.runtime)));
  }

  /** The same of a whole poll: after it, every fault, recovery and stop since the last poll has its report. */
  lemma PollReports(db: Db, log: LogReader.Bytes, history: seq<HealthEvent>, decode: Decoder, limit: nat, cycles: seq<Cycle>, next: LogReader.Cursor,
                    s: Snapshot, order: seq<string>, now: int, reviewMs: int)
    requires DbOk(db, log, history, decode) && LogReader.IsPage(log, db.cursor, limit, decode, cycles, next) && Depicts(s.state, history)
    requires s.state.Some? && Collect(db, cycles, next, s, order, now, reviewMs).Ok?
    ensures AreReported(ViewOf(Collect(db, cycles, next, s, order, now, reviewMs).value.signals.box), history, db.healthCursor, |history|, now)
  {
    ReadObservationsKeeps(db, log, history, decode, limit, cycles, next, s, now, reviewMs);
    hide ServicesOk, ReadObservations, ReadServices, AreReported, Refusals.Conflict, Refusals.PollFeed, Reused, ConsumedExactly;
    HealthIsReported(ReadObservations(db, cycles, next, s, now, reviewMs).value, history, s, order, now);
  }
}
