/** One poll of the notification collector: the log tail, the health journal and the runtime state
  become reminders, or nothing is committed at all.

  The digest of a cycle is the cycle itself.  The health view (runtime state and healthiness) of a
  snapshot is part of the snapshot.
 */
module Collector {
  import opened Basics
  import opened Alerts
  import opened Outbox
  import opened SignalStreams
  import opened HealthJournal
  import LogReader

  datatype Cycle = Cycle(id: string, observations: seq<Observation>)

  datatype RuntimeKey = RuntimeKey(state: RuntimeState, run: Option<string>)

  datatype LastCycle = LastCycle(serviceRun: string, startedAtMs: int, succeeded: bool, cycle: Option<Cycle>)

  datatype ServiceState = ServiceState(runId: string, journal: Journal, lastCycle: Option<LastCycle>, symbols: set<string>)

  datatype Snapshot = Snapshot(state: Option<ServiceState>, runtime: RuntimeState, healthy: bool)

  datatype Db = Db(
    signals: Signals,
    consumed: map<string, Cycle>,
    cursor: LogReader.Cursor,
    lastCycle: Option<Cycle>,
    healthCursor: nat,
    runtime: Option<RuntimeKey>,
    runtimeSequence: nat,
    sourceReady: bool,
    lastCollectionMs: Option<int>,
    logUnavailableSinceMs: Option<int>)

  datatype Failure = NotificationFailure | CorruptionFailure | HealthFailure

  function Guard<T>(r: Checked<T>): Result<T, Failure> {
    match r case Ok(v) => Ok(v) case Err(_) => Err(NotificationFailure)
  }

  // ---- what a snapshot says ----

  function Current(s: Snapshot): Option<Cycle> {
    if s.state.Some? && s.state.value.lastCycle.Some? then s.state.value.lastCycle.value.cycle else None
  }

  function RunOf(s: Snapshot): Option<string> {
    if s.state.Some? then Some(s.state.value.runId) else None
  }

  /** The run that vouches for the current cycle. */
  function CurrentRun(s: Snapshot): Option<string> {
    if Current(s).Some? && s.state.value.lastCycle.value.serviceRun == s.state.value.runId then RunOf(s) else None
  }

  // ---- the log tail ----

  function ObserveAll(d: Signals, seen: seq<Observation>, now: int, reviewMs: int, run: Option<string>, collection: Option<string>)
    : Checked<Signals>
  {
    if seen == [] then Ok(d)
    else
      var d1 :- ObserveAll(d, seen[..|seen| - 1], now, reviewMs, run, collection);
      Observe(d1, seen[|seen| - 1], now, reviewMs, run, collection)
  }

  function ConsumeCycle(db: Db, c: Cycle, s: Snapshot, now: int, reviewMs: int): Result<Db, Failure> {
    if c.id in db.consumed then
      if db.consumed[c.id] != c then Err(CorruptionFailure) else Ok(db)
    else
      var run := if Current(s) == Some(c) then CurrentRun(s) else None;
      var d :- Guard(ObserveAll(db.signals, c.observations, now, reviewMs, run, RunOf(s)));
      Ok(db.(signals := d, consumed := db.consumed[c.id := c], lastCycle := Some(c)))
  }

  function Consume(db: Db, cycles: seq<Cycle>, s: Snapshot, now: int, reviewMs: int): Result<Db, Failure> {
    if cycles == [] then Ok(db)
    else
      var db1 :- Consume(db, cycles[..|cycles| - 1], s, now, reviewMs);
      ConsumeCycle(db1, cycles[|cycles| - 1], s, now, reviewMs)
  }

  predicate CaughtUp(db: Db, s: Snapshot) {
    Current(s).Some? && db.lastCycle == Current(s)
  }

  /** A health cycle that commits after the log establishes the epoch of its symbols later. */
  function Reobserve(d: Signals, seen: seq<Observation>, now: int, reviewMs: int, run: Option<string>): Checked<Signals> {
    if seen == [] then Ok(d)
    else
      var d1 :- Reobserve(d, seen[..|seen| - 1], now, reviewMs, run);
      var o := seen[|seen| - 1];
      if StreamOf(d1.streams, o.symbol).serviceRun != run then Observe(d1, o, now, reviewMs, run, run) else Ok(d1)
  }

  // ---- health ----

  predicate IsReported(kind: HealthKind) {
    kind.Fault? || kind.Recovered? || kind.Stopped?
  }

  function HealthAlert(e: HealthEvent): Alert {
    Alert(HealthId(e), e.atMs, None, HealthRecorded, None, if e.kind.Stopped? then [RuntimeProblem(Halted)] else e.problems)
  }

  function Report(db: Db, e: HealthEvent, run: string, now: int): Result<Db, Failure> {
    if !IsReported(e.kind) then Ok(db)
    else
      var b :- Guard(Enqueue(db.signals.box, HealthAlert(e), now, None));
      Ok(db.(signals := db.signals.(box := b),
             runtime := if e.kind.Stopped? then Some(RuntimeKey(Halted, Some(run))) else db.runtime))
  }

  function ReportAll(db: Db, events: seq<HealthEvent>, run: string, now: int): Result<Db, Failure> {
    if events == [] then Ok(db)
    else
      var db1 :- ReportAll(db, events[..|events| - 1], run, now);
      Report(db1, events[|events| - 1], run, now)
  }

  function HealthEvents(db: Db, state: Option<ServiceState>, now: int): Result<Db, Failure> {
    match state
    case None => if db.healthCursor != 0 then Err(HealthFailure) else Ok(db)
    case Some(live) =>
      match EventsSince(live.journal, db.healthCursor)
      case Err(_) => Err(HealthFailure)
      case Ok(events) =>
        var db1 :- ReportAll(db, events, live.runId, now);
        Ok(db1.(healthCursor := live.journal.sequence))
  }

  // ---- the runtime ----

  function RuntimeAlert(sequence: nat, runtime: RuntimeState, now: int): Alert {
    var fault := !runtime.Running?;
    Alert(RuntimeId(sequence, fault), now, None, RuntimeChanged, None, if fault then [RuntimeProblem(runtime)] else [])
  }

  function ReportRuntime(db: Db, runtime: RuntimeState, now: int): Result<Db, Failure> {
    var sequence := db.runtimeSequence + 1;
    var b :- Guard(Enqueue(db.signals.box, RuntimeAlert(sequence, runtime, now), now, None));
    Ok(db.(signals := db.signals.(box := b), runtimeSequence := sequence))
  }

  /** A new fault, or the return from one, is reported once. */
  function RuntimeStep(db: Db, runtime: RuntimeState, run: Option<string>, now: int): Result<Db, Failure> {
    var fault := !runtime.Running?;
    var key := Some(if fault then RuntimeKey(runtime, run) else RuntimeKey(Running, None));
    if runtime.NotStarted? || runtime.Starting? || db.runtime == key then Ok(db)
    else if fault || (db.runtime.Some? && !db.runtime.value.state.Running?) then
      var db1 :- ReportRuntime(db, runtime, now);
      Ok(db1.(runtime := key))
    else Ok(db.(runtime := key))
  }

  // ---- the sweep over active reminders ----

  /** The latest attempt of this run failed, and the stream's evidence is older than it. */
  predicate FailedAttempt(s: Snapshot, stream: Stream) {
    && s.state.Some? && s.state.value.lastCycle.Some?
    && var latest := s.state.value.lastCycle.value;
       && latest.serviceRun == s.state.value.runId && !latest.succeeded
       && ((stream.collectionRun.Some? && stream.collectionRun != Some(latest.serviceRun))
           || (stream.createdAtMs <= latest.startedAtMs && stream.observedAtMs <= latest.startedAtMs))
  }

  predicate SourceLost(s: Snapshot, stream: Stream, symbol: string, caughtUp: bool, now: int) {
    || s.runtime.Halted? || s.runtime.Interrupted? || s.runtime.Unresponsive?
    || FailedAttempt(s, stream)
    || (caughtUp && CurrentRun(s).Some? && (!s.healthy || symbol !in s.state.value.symbols))
    || now < stream.lastSeenMs
  }

  function Expire(box: Box, id: AlertId, now: int): Checked<Box> {
    match Record(box, id)
    case Err(e) => Err(e)
    case Ok(None) => Err(NotificationError)
    case Ok(Some(i)) =>
      var until := box.rows[i].alert.reviewUntilMs;
      if until.None? then Err(NotificationError)
      else if now >= until.value then Suppress(box, id, ReviewExpired, now)
      else Ok(box)
  }

  function SweepOne(d: Signals, symbol: string, s: Snapshot, caughtUp: bool, now: int): Checked<Signals> {
    var stream := StreamOf(d.streams, symbol);
    if stream.active.None? then Ok(d)
    else
      var b :- Expire(d.box, stream.active.value, now);
      if SourceLost(s, stream, symbol, caughtUp, now) then
        var r :- Invalidate(d.(box := b), symbol, stream, SourceUnavailable, now, None);
        Ok(r.0)
      else Ok(d.(box := b))
  }

  function Sweep(d: Signals, order: seq<string>, s: Snapshot, caughtUp: bool, now: int): Checked<Signals> {
    if order == [] then Ok(d)
    else
      var d1 :- Sweep(d, order[..|order| - 1], s, caughtUp, now);
      SweepOne(d1, order[|order| - 1], s, caughtUp, now)
  }

  // ---- the transaction ----

  function Epochs(db: Db, s: Snapshot, now: int, reviewMs: int): Result<Db, Failure> {
    if CaughtUp(db, s) && CurrentRun(s).Some? then
      var d :- Guard(Reobserve(db.signals, Current(s).value.observations, now, reviewMs, CurrentRun(s)));
      Ok(db.(signals := d))
    else Ok(db)
  }

  function Runtime(db: Db, s: Snapshot, now: int): Result<Db, Failure> {
    if !s.runtime.Running? || s.healthy then RuntimeStep(db, s.runtime, RunOf(s), now) else Ok(db)
  }

  function Close(db: Db, order: seq<string>, s: Snapshot, caughtUp: bool, now: int): Result<Db, Failure> {
    var d :- Guard(Sweep(db.signals, order, s, caughtUp, now));
    Ok(db.(signals := d, sourceReady := s.healthy && caughtUp, lastCollectionMs := Some(now), logUnavailableSinceMs := None))
  }

  function ReadObservations(db: Db, cycles: seq<Cycle>, next: LogReader.Cursor, s: Snapshot, now: int, reviewMs: int): Result<Db, Failure> {
    var db1 :- Consume(db, cycles, s, now, reviewMs);
    Epochs(db1.(cursor := next), s, now, reviewMs)
  }

  function ReadServices(db: Db, s: Snapshot, order: seq<string>, now: int): Result<Db, Failure> {
    var db1 :- HealthEvents(db, s.state, now);
    var db2 :- Runtime(db1, s, now);
    Close(db2, order, s, CaughtUp(db2, s), now)
  }

  /** Everything after the page has been read, as one transaction: the new tables, or an error and none of it. */
  function Collect(db: Db, cycles: seq<Cycle>, next: LogReader.Cursor, s: Snapshot, order: seq<string>, now: int, reviewMs: int)
    : Result<Db, Failure>
  {
    var db1 :- ReadObservations(db, cycles, next, s, now, reviewMs);
    ReadServices(db1, s, order, now)
  }

  // ---- an unreadable source ----

  function WithdrawAll(d: Signals, order: seq<string>, now: int): Checked<Signals> {
    if order == [] then Ok(d)
    else
      var d1 :- WithdrawAll(d, order[..|order| - 1], now);
      var symbol := order[|order| - 1];
      var stream := StreamOf(d1.streams, symbol);
      if stream.active.None? then Ok(d1)
      else
        var r :- Invalidate(d1, symbol, stream, SourceUnavailable, now, None);
        Ok(r.0)
  }

  function LoseSource(db: Db, order: seq<string>, now: int): Result<Db, Failure> {
    var db1 :- RuntimeStep(db.(sourceReady := false), SourceUnreadable, None, now);
    var d :- Guard(WithdrawAll(db1.signals, order, now));
    Ok(db1.(signals := d))
  }

  // ---- the last check before an entry is sent ----

  function Refuse(d: Signals, id: AlertId, reason: Reason, now: int): Checked<Signals> {
    var b1 :- DeferUnstarted(d.box, id, now, "entry_not_reviewable");
    var b2 :- Suppress(b1, id, reason, now);
    Ok(d.(box := b2))
  }

  function Postpone(d: Signals, id: AlertId, now: int, code: string): Checked<Signals> {
    var b :- DeferUnstarted(d.box, id, now, code);
    Ok(d.(box := b))
  }

  function EvidenceFor(seen: seq<Observation>, symbol: string): Option<Observation> {
    if seen == [] then None
    else if seen[0].symbol == symbol then Some(seen[0])
    else EvidenceFor(seen[1..], symbol)
  }

  datatype Verdict = Send | Hold(code: string) | Drop(reason: Reason)

  /** What _prepare_entry decides about a claimed entry; snapshot is None when it cannot be read,
      remaining says that the log holds more than was consumed or cannot be read. */
  function Judge(db: Db, row: Row, snapshot: Option<Snapshot>, remaining: bool, now: int): Verdict
    requires row.alert.reviewUntilMs.Some? && row.alert.observation.Some?
  {
    if row.suppressed.Some? then Drop(row.suppressed.value)
    else if !(row.alert.occurredAtMs <= now < row.alert.reviewUntilMs.value) then Drop(ReviewExpired)
    else if snapshot.None? then Hold("source_snapshot_unavailable")
    else
      var s := snapshot.value;
      if !s.healthy || !db.sourceReady || !CaughtUp(db, s) || remaining then Hold("source_not_caught_up")
      else
        var symbol := row.alert.observation.value.symbol;
        var stream := StreamOf(db.signals.streams, symbol);
        var evidence := EvidenceFor(Current(s).value.observations, symbol);
        if symbol !in s.state.value.symbols || evidence.None? then Drop(SourceUnavailable)
        else if KeyOf(evidence.value) != stream.signalKey || stream.active != Some(row.alert.id) then Drop(DecisionChanged)
        else Send
  }

  /** True when the entry may be sent; otherwise the reservation is given back. */
  function PrepareEntry(db: Db, row: Row, snapshot: Option<Snapshot>, remaining: bool, now: int): Checked<(Db, bool)>
    requires row.alert.reviewUntilMs.Some? && row.alert.observation.Some?
  {
    match Judge(db, row, snapshot, remaining, now)
    case Send => Ok((db, true))
    case Hold(code) => var d :- Postpone(db.signals, row.alert.id, now, code); Ok((db.(signals := d), false))
    case Drop(reason) => var d :- Refuse(db.signals, row.alert.id, reason, now); Ok((db.(signals := d), false))
  }
}
