/** The outbox and its delivery history: the tables and every change the store makes to them. */
module Outbox {
  import opened Basics
  import opened Alerts

  datatype DeliveryState = Pending | Confirmed | Failed | Unknown

  /** Rows are kept in the order of their row ids. */
  datatype Row = Row(
    alert: Alert,
    state: DeliveryState,
    attempts: int,
    nextAttemptMs: int,
    retryable: bool,
    suppressed: Option<Reason>)

  datatype Action = Recorded | SuppressedEntry | AttemptStarted | AttemptFinished | AttemptNotStarted | OperatorRetry

  datatype HistoryEntry = HistoryEntry(id: AlertId, atMs: int, action: Action, code: string)

  datatype Box = Box(rows: seq<Row>, history: seq<HistoryEntry>)

  datatype NotificationError = NotificationError

  type Checked<+T> = Result<T, NotificationError>

  const MAX_ATTEMPTS := 3
  const DEFER_MS := 30_000

  // ---- reading ----

  function Find(rows: seq<Row>, id: AlertId): (r: Option<nat>)
    ensures r.Some? ==> r.value < |rows| && rows[r.value].alert.id == id
    ensures r.None? ==> forall i :: 0 <= i < |rows| ==> rows[i].alert.id != id
  {
    if rows == [] then None
    else
      match Find(rows[..|rows| - 1], id)
      case Some(i) => Some(i)
      case None => if rows[|rows| - 1].alert.id == id then Some(|rows| - 1) else None
  }

  /** Looking a row up fails when it shows a delivery result without an attempt. */
  function Record(o: Box, id: AlertId): (r: Checked<Option<nat>>)
    ensures r.Ok? && r.value.Some? ==> r.value.value < |o.rows| && o.rows[r.value.value].alert.id == id
    ensures r.Ok? && r.value.None? ==> forall i :: 0 <= i < |o.rows| ==> o.rows[i].alert.id != id
  {
    match Find(o.rows, id)
    case None => Ok(None)
    case Some(i) =>
      if !o.rows[i].state.Pending? && o.rows[i].attempts == 0 then Err(NotificationError) else Ok(Some(i))
  }

  predicate Eligible(row: Row, now: int) {
    && row.suppressed.None?
    && row.attempts < MAX_ATTEMPTS
    && row.nextAttemptMs <= now
    && (row.state.Pending? || (row.state.Failed? && row.retryable))
  }

  function FirstEligible(rows: seq<Row>, now: int): (r: Option<nat>)
    ensures r.Some? ==> r.value < |rows| && Eligible(rows[r.value], now) && forall i :: 0 <= i < r.value ==> !Eligible(rows[i], now)
    ensures r.None? ==> forall i :: 0 <= i < |rows| ==> !Eligible(rows[i], now)
  {
    if rows == [] then None
    else
      match FirstEligible(rows[..|rows| - 1], now)
      case Some(i) => Some(i)
      case None => if Eligible(rows[|rows| - 1], now) then Some(|rows| - 1) else None
  }

  // ---- changes ----

  function ReasonName(reason: Reason): string {
    match reason
    case Ready => "ready"
    case DecisionChanged => "decision_changed"
    case SourceUnavailable => "source_unavailable"
    case ReviewExpired => "review_expired"
    case SignalReplaced => "signal_replaced"
    case HealthRecorded => "health_event"
    case RuntimeChanged => "runtime_changed"
    case HistoricalEvent => "historical_event"
  }

  function RecordedCode(suppressed: Option<Reason>): string {
    if suppressed.Some? then ReasonName(suppressed.value) else "pending"
  }

  function Log(o: Box, id: AlertId, now: int, action: Action, code: string): Box {
    o.(history := o.history + [HistoryEntry(id, now, action, code)])
  }

  function SetRow(o: Box, i: nat, row: Row): Box
    requires i < |o.rows|
  {
    o.(rows := o.rows[i := row])
  }

  function Enqueue(o: Box, alert: Alert, now: int, suppressed: Option<Reason>): Checked<Box> {
    match Record(o, alert.id)
    case Err(e) => Err(e)
    case Ok(Some(i)) => if o.rows[i].alert == alert then Ok(o) else Err(NotificationError)
    case Ok(None) =>
      Ok(Log(o.(rows := o.rows + [Row(alert, Pending, 0, now, false, suppressed)]), alert.id, now, Recorded, RecordedCode(suppressed)))
  }

  function Suppress(o: Box, id: AlertId, reason: Reason, now: int): Checked<Box> {
    match Record(o, id)
    case Err(e) => Err(e)
    case Ok(None) => Err(NotificationError)
    case Ok(Some(i)) =>
      if o.rows[i].suppressed.Some? then Ok(o)
      else Ok(Log(SetRow(o, i, o.rows[i].(suppressed := Some(reason))), id, now, SuppressedEntry, ReasonName(reason)))
  }

  datatype Claimed = Claimed(id: AlertId, attempts: int)

  /** Reserve the first row that is due: it is unknown from here until somebody says otherwise. */
  function Claim(o: Box, now: int): Checked<(Box, Option<Claimed>)> {
    match FirstEligible(o.rows, now)
    case None => Ok((o, None))
    case Some(i) =>
      var row := o.rows[i];
      if !row.state.Pending? && row.attempts == 0 then Err(NotificationError)
      else
        Ok((Log(SetRow(o, i, row.(state := Unknown, attempts := row.attempts + 1, retryable := false)),
                row.alert.id, now, AttemptStarted, "unknown"),
            Some(Claimed(row.alert.id, row.attempts + 1))))
  }

  function Pow2(n: nat): int {
    if n == 0 then 1 else 2 * Pow2(n - 1)
  }

  /** Exponential back-off from one minute to one hour. */
  function DelayMs(attempts: int): int
    requires attempts >= 1
  {
    var doubled := 60 * Pow2(if attempts - 1 < 6 then attempts - 1 else 6);
    (if doubled < 3600 then doubled else 3600) * 1000
  }

  function Finish(o: Box, id: AlertId, state: DeliveryState, now: int, code: string, retryable: bool): Checked<Box> {
    match Record(o, id)
    case Err(e) => Err(e)
    case Ok(None) => Err(NotificationError)
    case Ok(Some(i)) =>
      var row := o.rows[i];
      if !row.state.Unknown? || state.Pending? || row.attempts < 1 then Err(NotificationError)
      else Ok(Log(SetRow(o, i, row.(state := state, retryable := retryable && state.Failed?,
                                    nextAttemptMs := now + DelayMs(row.attempts))),
                  id, now, AttemptFinished, code))
  }

  /** Give back a reservation whose transport was never called. */
  function DeferUnstarted(o: Box, id: AlertId, now: int, code: string): Checked<Box> {
    match Record(o, id)
    case Err(e) => Err(e)
    case Ok(None) => Err(NotificationError)
    case Ok(Some(i)) =>
      var row := o.rows[i];
      if !row.state.Unknown? || row.attempts < 1 then Err(NotificationError)
      else Ok(Log(SetRow(o, i, row.(state := Pending, attempts := row.attempts - 1, retryable := false,
                                    nextAttemptMs := now + DEFER_MS)),
                  id, now, AttemptNotStarted, code))
  }

  function Resolve(o: Box, id: AlertId, outcome: DeliveryState, now: int): Checked<Box> {
    if outcome.Confirmed? || outcome.Failed? then Finish(o, id, outcome, now, "operator_checked", false)
    else Err(NotificationError)
  }

  function RetryFailed(o: Box, id: AlertId, now: int): Checked<Box> {
    match Record(o, id)
    case Err(e) => Err(e)
    case Ok(None) => Err(NotificationError)
    case Ok(Some(i)) =>
      var row := o.rows[i];
      if !row.state.Failed? || row.attempts >= MAX_ATTEMPTS || row.suppressed.Some? then Err(NotificationError)
      else Ok(Log(SetRow(o, i, row.(retryable := true, nextAttemptMs := now)), id, now, OperatorRetry, "cause_fixed"))
  }

  // ---- what every change keeps ----

  ghost predicate Unique(rows: seq<Row>) {
    forall i, j :: 0 <= i < j < |rows| ==> rows[i].alert.id != rows[j].alert.id
  }

  predicate RowOk(row: Row) {
    && 0 <= row.attempts <= MAX_ATTEMPTS
    && (!row.state.Pending? ==> row.attempts >= 1)
    && (row.retryable ==> row.state.Failed?)
  }

  /** How often the history of an event records an action. */
  function Count(history: seq<HistoryEntry>, id: AlertId, action: Action): nat {
    if history == [] then 0 else
      var last := history[|history| - 1];
      Count(history[..|history| - 1], id, action) + (if last.id == id && last.action == action then 1 else 0)
  }

  predicate RowAccounted(row: Row, history: seq<HistoryEntry>) {
    row.attempts == Count(history, row.alert.id, AttemptStarted) - Count(history, row.alert.id, AttemptNotStarted)
  }

  /** The attempts of a row are the attempts started less those given back, as the history tells. */
  ghost predicate AttemptsAccounted(o: Box) {
    && (forall i :: 0 <= i < |o.rows| ==> RowAccounted(o.rows[i], o.history))
    && (forall i :: 0 <= i < |o.history| ==> Find(o.rows, o.history[i].id).Some?)
  }

  ghost predicate BoxOk(o: Box) {
    Unique(o.rows) && (forall i :: 0 <= i < |o.rows| ==> RowOk(o.rows[i])) && AttemptsAccounted(o)
  }

  lemma FindIs(rows: seq<Row>, i: nat)
    requires Unique(rows) && i < |rows|
    ensures Find(rows, rows[i].alert.id) == Some(i)
  {
  }

  lemma CountAppend(history: seq<HistoryEntry>, e: HistoryEntry, id: AlertId, action: Action)
    ensures Count(history + [e], id, action) == Count(history, id, action) + (if e.id == id && e.action == action then 1 else 0)
  {
    assert (history + [e])[..|history|] == history;
  }

  lemma {:induction false} CountAbsent(history: seq<HistoryEntry>, id: AlertId, action: Action)
    requires forall i :: 0 <= i < |history| ==> history[i].id != id
    ensures Count(history, id, action) == 0
  {
    if history != [] { CountAbsent(history[..|history| - 1], id, action); }
  }

  /** How much an action adds to the attempts. */
  function Attempted(action: Action): int {
    if action == AttemptStarted then 1 else if action == AttemptNotStarted then -1 else 0
  }

  lemma RowMoves(row: Row, next: Row, history: seq<HistoryEntry>, e: HistoryEntry)
    requires RowAccounted(row, history) && next.alert.id == row.alert.id
    requires next.attempts == row.attempts + (if e.id == row.alert.id then Attempted(e.action) else 0)
    ensures RowAccounted(next, history + [e])
  {
    CountAppend(history, e, row.alert.id, AttemptStarted);
    CountAppend(history, e, row.alert.id, AttemptNotStarted);
  }

  /** Replacing one row without changing its alert, and logging one entry for it. */
  lemma SetRowKeeps(o: Box, i: nat, row: Row, e: HistoryEntry)
    requires BoxOk(o) && i < |o.rows| && row.alert.id == o.rows[i].alert.id && RowOk(row) && e.id == row.alert.id
    requires row.attempts == o.rows[i].attempts + Attempted(e.action)
    ensures BoxOk(Box(o.rows[i := row], o.history + [e]))
  {
    var rows := o.rows[i := row];
    SameIdsFound(o.rows, rows, o.history, e, i);
    hide RowAccounted, Find;
    forall k | 0 <= k < |rows| ensures RowAccounted(rows[k], o.history + [e]) { RowMoves(o.rows[k], rows[k], o.history, e); }
  }

  lemma SameIdsFound(rows: seq<Row>, next: seq<Row>, history: seq<HistoryEntry>, e: HistoryEntry, i: nat)
    requires |next| == |rows| && (forall k :: 0 <= k < |rows| ==> next[k].alert.id == rows[k].alert.id) && i < |rows| && rows[i].alert.id == e.id
    requires forall k :: 0 <= k < |history| ==> Find(rows, history[k].id).Some?
    ensures forall k :: 0 <= k < |history + [e]| ==> Find(next, (history + [e])[k].id).Some?
  {
    forall k | 0 <= k < |history + [e]| ensures Find(next, (history + [e])[k].id).Some? {
      if k < |history| {
        var j := Find(rows, history[k].id).value;
        assert next[j].alert.id == history[k].id;
      } else {
        assert next[i].alert.id == e.id;
      }
    }
  }

  /** An event that is not in the outbox has no history. */
  lemma AbsentHasNoHistory(o: Box, id: AlertId)
    requires AttemptsAccounted(o) && Find(o.rows, id).None?
    ensures Count(o.history, id, AttemptStarted) == 0 && Count(o.history, id, AttemptNotStarted) == 0
  {
    forall k | 0 <= k < |o.history| ensures o.history[k].id != id { assert Find(o.rows, o.history[k].id).Some?; }
    CountAbsent(o.history, id, AttemptStarted);
    CountAbsent(o.history, id, AttemptNotStarted);
  }

  lemma HistoryKeepsRows(rows: seq<Row>, more: seq<Row>, history: seq<HistoryEntry>, e: HistoryEntry)
    requires rows <= more && (forall k :: 0 <= k < |history| ==> Find(rows, history[k].id).Some?) && exists i :: 0 <= i < |more| && more[i].alert.id == e.id
    ensures forall k :: 0 <= k < |history + [e]| ==> Find(more, (history + [e])[k].id).Some?
  {
    forall k | 0 <= k < |history + [e]| ensures Find(more, (history + [e])[k].id).Some? {
      if k < |history| {
        var i := Find(rows, history[k].id).value;
        assert more[i].alert.id == history[k].id;
      }
    }
  }

  /** A new row without attempts, and an entry that is not about an attempt, keep the account. */
  lemma AppendAccounts(o: Box, row: Row, e: HistoryEntry)
    requires AttemptsAccounted(o) && Find(o.rows, row.alert.id).None? && row.attempts == 0 && e.id == row.alert.id && e.action == Recorded
    ensures AttemptsAccounted(Box(o.rows + [row], o.history + [e]))
  {
    var u := Box(o.rows + [row], o.history + [e]);
    AbsentHasNoHistory(o, row.alert.id);
    assert RowAccounted(row, o.history);
    assert u.rows[|o.rows|].alert.id == e.id;
    HistoryKeepsRows(o.rows, u.rows, o.history, e);
    hide Find, RowAccounted;
    forall k | 0 <= k < |u.rows| ensures RowAccounted(u.rows[k], u.history) { RowMoves(u.rows[k], u.rows[k], o.history, e); }
  }

  lemma AppendUnique(rows: seq<Row>, row: Row)
    requires Unique(rows) && Find(rows, row.alert.id).None?
    ensures Unique(rows + [row])
  {
  }

  lemma AppendKeeps(o: Box, alert: Alert, now: int, suppressed: Option<Reason>)
    requires BoxOk(o) && Find(o.rows, alert.id).None?
    ensures BoxOk(Log(o.(rows := o.rows + [Row(alert, Pending, 0, now, false, suppressed)]), alert.id, now, Recorded, RecordedCode(suppressed)))
  {
    hide Find, AttemptsAccounted, Unique, RecordedCode;
    var row := Row(alert, Pending, 0, now, false, suppressed);
    AppendUnique(o.rows, row);
    AppendAccounts(o, row, HistoryEntry(alert.id, now, Recorded, RecordedCode(suppressed)));
  }

  datatype Change =
    | DoEnqueue(alert: Alert, suppressed: Option<Reason>)
    | DoSuppress(id: AlertId, reason: Reason)
    | DoClaim
    | DoFinish(id: AlertId, state: DeliveryState, code: string, retryable: bool)
    | DoDefer(id: AlertId, code: string)
    | DoResolve(id: AlertId, outcome: DeliveryState)
    | DoRetry(id: AlertId)

  function Apply(o: Box, c: Change, now: int): Checked<Box> {
    match c
    case DoEnqueue(alert, suppressed) => Enqueue(o, alert, now, suppressed)
    case DoSuppress(id, reason) => Suppress(o, id, reason, now)
    case DoClaim => (match Claim(o, now) case Ok(p) => Ok(p.0) case Err(e) => Err(e))
    case DoFinish(id, state, code, retryable) => Finish(o, id, state, now, code, retryable)
    case DoDefer(id, code) => DeferUnstarted(o, id, now, code)
    case DoResolve(id, outcome) => Resolve(o, id, outcome, now)
    case DoRetry(id) => RetryFailed(o, id, now)
  }

  lemma EnqueueKeepsBox(o: Box, alert: Alert, now: int, suppressed: Option<Reason>)
    ensures var u := Enqueue(o, alert, now, suppressed); BoxOk(o) && u.Ok? ==> BoxOk(u.value)
  {
    var u := Enqueue(o, alert, now, suppressed);
    if BoxOk(o) && u.Ok? && u.value != o {
      hide BoxOk;
      AppendKeeps(o, alert, now, suppressed);
    }
  }

  lemma SuppressKeepsBox(o: Box, id: AlertId, reason: Reason, now: int)
    ensures var u := Suppress(o, id, reason, now); BoxOk(o) && u.Ok? ==> BoxOk(u.value)
  {
    var u := Suppress(o, id, reason, now);
    if BoxOk(o) && u.Ok? && u.value != o {
      var i := Find(o.rows, id).value;
      assert RowOk(o.rows[i]);
      hide BoxOk, Find;
      SetRowKeeps(o, i, u.value.rows[i], u.value.history[|o.history|]);
    }
  }

  lemma ClaimKeepsBox(o: Box, now: int)
    ensures var u := Claim(o, now); BoxOk(o) && u.Ok? ==> BoxOk(u.value.0)
  {
    var u := Claim(o, now);
    if BoxOk(o) && u.Ok? && u.value.1.Some? {
      var i := FirstEligible(o.rows, now).value;
      assert RowOk(o.rows[i]);
      hide BoxOk, Find;
      SetRowKeeps(o, i, u.value.0.rows[i], u.value.0.history[|o.history|]);
    }
  }

  lemma FinishKeepsBox(o: Box, id: AlertId, state: DeliveryState, now: int, code: string, retryable: bool)
    ensures var u := Finish(o, id, state, now, code, retryable); BoxOk(o) && u.Ok? ==> BoxOk(u.value)
  {
    var u := Finish(o, id, state, now, code, retryable);
    if BoxOk(o) && u.Ok? {
      var i := Find(o.rows, id).value;
      assert RowOk(o.rows[i]);
      hide BoxOk, Find, DelayMs;
      SetRowKeeps(o, i, u.value.rows[i], u.value.history[|o.history|]);
    }
  }

  lemma DeferKeepsBox(o: Box, id: AlertId, now: int, code: string)
    ensures var u := DeferUnstarted(o, id, now, code); BoxOk(o) && u.Ok? ==> BoxOk(u.value)
  {
    var u := DeferUnstarted(o, id, now, code);
    if BoxOk(o) && u.Ok? {
      var i := Find(o.rows, id).value;
      assert RowOk(o.rows[i]);
      hide BoxOk, Find;
      SetRowKeeps(o, i, u.value.rows[i], u.value.history[|o.history|]);
    }
  }

  lemma RetryKeepsBox(o: Box, id: AlertId, now: int)
    ensures var u := RetryFailed(o, id, now); BoxOk(o) && u.Ok? ==> BoxOk(u.value)
  {
    var u := RetryFailed(o, id, now);
    if BoxOk(o) && u.Ok? {
      var i := Find(o.rows, id).value;
      assert RowOk(o.rows[i]);
      hide BoxOk, Find;
      SetRowKeeps(o, i, u.value.rows[i], u.value.history[|o.history|]);
    }
  }

  /** Whatever is done to the outbox: rows stay unique, attempts stay within the limit and equal
      what the history accounts for, and a result always has an attempt. */
  lemma ChangeKeepsBox(o: Box, c: Change, now: int)
    requires BoxOk(o)
    ensures var u := Apply(o, c, now); u.Ok? ==> BoxOk(u.value)
  {
    hide BoxOk, Enqueue, Suppress, Claim, Finish, DeferUnstarted, RetryFailed;
    match c
    case DoEnqueue(alert, suppressed) => EnqueueKeepsBox(o, alert, now, suppressed);
    case DoSuppress(id, reason) => SuppressKeepsBox(o, id, reason, now);
    case DoClaim => ClaimKeepsBox(o, now);
    case DoFinish(id, state, code, retryable) => FinishKeepsBox(o, id, state, now, code, retryable);
    case DoDefer(id, code) => DeferKeepsBox(o, id, now, code);
    case DoResolve(id, outcome) => FinishKeepsBox(o, id, outcome, now, "operator_checked", false);
    case DoRetry(id) => RetryKeepsBox(o, id, now);
  }

  /** On an outbox that satisfies the invariant no lookup reports a result without an attempt. */
  lemma RecordNeverFails(o: Box, id: AlertId)
    requires BoxOk(o)
    ensures Record(o, id) == Ok(Find(o.rows, id))
  {
  }
}
