/** The outbox seen by event, and what each change does to that view. */
module OutboxViews {
  import opened Basics
  import opened Alerts
  import opened Outbox

  function RowOf(o: Box, id: AlertId): Option<Row> {
    match Find(o.rows, id) case None => None case Some(i) => Some(o.rows[i])
  }

  /** The rows of the outbox, seen by event. */
  type View = AlertId -> Option<Row>

  ghost function ViewOf(o: Box): View { id => RowOf(o, id) }

  ghost predicate OnlyRow(v: View, w: View, id: AlertId) {
    forall x :: x != id ==> w(x) == v(x)
  }

  lemma RowIs(o: Box, i: nat)
    requires Unique(o.rows) && i < |o.rows|
    ensures RowOf(o, o.rows[i].alert.id) == Some(o.rows[i])
  {
    FindIs(o.rows, i);
  }

  lemma SetRowView(o: Box, u: Box, i: nat, row: Row)
    requires Unique(o.rows) && i < |o.rows| && row.alert.id == o.rows[i].alert.id && u.rows == o.rows[i := row]
    ensures RowOf(u, row.alert.id) == Some(row) && RowOf(o, row.alert.id) == Some(o.rows[i]) && OnlyRow(ViewOf(o), ViewOf(u), row.alert.id)
  {
    RowIs(u, i);
    RowIs(o, i);
    forall x | x != row.alert.id ensures RowOf(u, x) == RowOf(o, x) {
      var a := Find(o.rows, x);
      if a.Some? { RowIs(u, a.value); assert u.rows[a.value] == o.rows[a.value]; }
    }
  }

  lemma ClaimView(o: Box, now: int)
    requires BoxOk(o) && Claim(o, now).Ok? && Claim(o, now).value.1.Some?
    ensures var u, c := Claim(o, now).value.0, Claim(o, now).value.1.value;
            OnlyRow(ViewOf(o), ViewOf(u), c.id) && RowOf(o, c.id).Some? && Eligible(RowOf(o, c.id).value, now)
            && var row := RowOf(o, c.id).value;
               c.attempts == row.attempts + 1 && RowOf(u, c.id) == Some(row.(state := Unknown, attempts := c.attempts, retryable := false))
  {
    var i := FirstEligible(o.rows, now).value;
    var u := Claim(o, now).value.0;
    SetRowView(o, u, i, u.rows[i]);
  }

  lemma FinishView(o: Box, id: AlertId, state: DeliveryState, now: int, code: string, retryable: bool)
    requires BoxOk(o) && Finish(o, id, state, now, code, retryable).Ok?
    ensures var u := Finish(o, id, state, now, code, retryable).value;
            OnlyRow(ViewOf(o), ViewOf(u), id) && RowOf(o, id).Some? && RowOf(o, id).value.state.Unknown? && !state.Pending?
            && RowOf(u, id).Some? && RowOf(u, id).value.state == state && RowOf(u, id).value.attempts == RowOf(o, id).value.attempts
  {
    var i := Find(o.rows, id).value;
    var u := Finish(o, id, state, now, code, retryable).value;
    SetRowView(o, u, i, u.rows[i]);
  }

  lemma SuppressView(o: Box, id: AlertId, reason: Reason, now: int)
    requires BoxOk(o) && Suppress(o, id, reason, now).Ok?
    ensures var u := Suppress(o, id, reason, now).value;
            OnlyRow(ViewOf(o), ViewOf(u), id) && RowOf(o, id).Some?
            && var row := RowOf(o, id).value;
               RowOf(u, id) == Some(row.(suppressed := if row.suppressed.Some? then row.suppressed else Some(reason)))
  {
    var i := Find(o.rows, id).value;
    var u := Suppress(o, id, reason, now).value;
    if u != o { SetRowView(o, u, i, u.rows[i]); }
  }

  lemma DeferUnstartedView(o: Box, id: AlertId, now: int, code: string)
    requires BoxOk(o) && DeferUnstarted(o, id, now, code).Ok?
    ensures var u := DeferUnstarted(o, id, now, code).value;
            OnlyRow(ViewOf(o), ViewOf(u), id) && RowOf(o, id).Some? && RowOf(o, id).value.state.Unknown? && RowOf(u, id).Some?
            && RowOf(u, id).value == RowOf(o, id).value.(state := Pending, attempts := RowOf(o, id).value.attempts - 1,
                                                         retryable := false, nextAttemptMs := now + DEFER_MS)
  {
    var i := Find(o.rows, id).value;
    var u := DeferUnstarted(o, id, now, code).value;
    SetRowView(o, u, i, u.rows[i]);
  }

  lemma RetryView(o: Box, id: AlertId, now: int)
    requires BoxOk(o) && RetryFailed(o, id, now).Ok?
    ensures var u := RetryFailed(o, id, now).value;
            OnlyRow(ViewOf(o), ViewOf(u), id) && RowOf(o, id).Some? && RowOf(o, id).value.state.Failed? && RowOf(u, id).Some?
            && RowOf(u, id).value.state.Failed? && RowOf(u, id).value.attempts == RowOf(o, id).value.attempts
  {
    var i := Find(o.rows, id).value;
    var u := RetryFailed(o, id, now).value;
    SetRowView(o, u, i, u.rows[i]);
  }

  lemma AppendView(o: Box, u: Box, row: Row)
    requires Unique(u.rows) && u.rows == o.rows + [row] && Find(o.rows, row.alert.id).None?
    ensures RowOf(u, row.alert.id) == Some(row) && OnlyRow(ViewOf(o), ViewOf(u), row.alert.id)
  {
    RowIs(u, |o.rows|);
    assert u.rows[..|u.rows| - 1] == o.rows;
  }

  lemma EnqueueView(o: Box, alert: Alert, now: int, suppressed: Option<Reason>)
    requires BoxOk(o) && Enqueue(o, alert, now, suppressed).Ok?
    ensures var u := Enqueue(o, alert, now, suppressed).value;
            OnlyRow(ViewOf(o), ViewOf(u), alert.id) && RowOf(u, alert.id).Some?
            && (if RowOf(o, alert.id).Some? then u == o && RowOf(o, alert.id).value.alert == alert
                else RowOf(u, alert.id) == Some(Row(alert, Pending, 0, now, false, suppressed)))
  {
    RecordNeverFails(o, alert.id);
    var u := Enqueue(o, alert, now, suppressed).value;
    if RowOf(o, alert.id).None? {
      ChangeKeepsBox(o, DoEnqueue(alert, suppressed), now);
      hide BoxOk, Find;
      AppendView(o, u, Row(alert, Pending, 0, now, false, suppressed));
    }
  }

  // ---- what each change means for its row ----

  /** One row changes, its alert excepted, and the history tells it. */
  ghost predicate ChangesRow(o: Box, u: Box, id: AlertId, action: Action) {
    && BoxOk(u) && OnlyRow(ViewOf(o), ViewOf(u), id) && RowOf(o, id).Some? && RowOf(u, id).Some?
    && RowOf(u, id).value.alert == RowOf(o, id).value.alert
    && |u.history| == |o.history| + 1 && u.history[..|o.history|] == o.history
    && u.history[|o.history|].id == id && u.history[|o.history|].action == action
  }

  /** Recording an alert is idempotent, and refused only for an identity that was used for another. */
  lemma EnqueueMeans(o: Box, alert: Alert, now: int, suppressed: Option<Reason>)
    requires BoxOk(o)
    ensures var r, before := Enqueue(o, alert, now, suppressed), RowOf(o, alert.id);
      && (r.Ok? <==> before.None? || before.value.alert == alert)
      && (r.Ok? && before.Some? ==> r.value == o)
      && (r.Ok? ==>
            && BoxOk(r.value) && OnlyRow(ViewOf(o), ViewOf(r.value), alert.id)
            && RowOf(r.value, alert.id).Some? && RowOf(r.value, alert.id).value.alert == alert)
      && (r.Ok? && before.None? ==>
            var row := RowOf(r.value, alert.id).value;
            row.state.Pending? && row.attempts == 0 && row.suppressed == suppressed && (suppressed.None? ==> Eligible(row, now)))
  {
    RecordNeverFails(o, alert.id);
    var r := Enqueue(o, alert, now, suppressed);
    if r.Ok? {
      EnqueueView(o, alert, now, suppressed);
      ChangeKeepsBox(o, DoEnqueue(alert, suppressed), now);
    }
  }

  /** A suppressed row is never eligible again, and its first reason stays. */
  lemma SuppressMeans(o: Box, id: AlertId, reason: Reason, now: int)
    requires BoxOk(o)
    ensures var r, before := Suppress(o, id, reason, now), RowOf(o, id);
      && (r.Ok? <==> before.Some?)
      && (r.Ok? ==>
            && BoxOk(r.value) && OnlyRow(ViewOf(o), ViewOf(r.value), id) && RowOf(r.value, id).Some?
            && RowOf(r.value, id).value == before.value.(suppressed := RowOf(r.value, id).value.suppressed)
            && RowOf(r.value, id).value.suppressed == (if before.value.suppressed.Some? then before.value.suppressed else Some(reason)))
  {
    RecordNeverFails(o, id);
    if RowOf(o, id).Some? {
      SuppressView(o, id, reason, now);
      ChangeKeepsBox(o, DoSuppress(id, reason), now);
    }
  }

  /** A claim never fails: it takes the one row that is due first, and leaves it unknown; nothing is
      claimed exactly when nothing is due. */
  lemma ClaimMeans(o: Box, now: int)
    requires BoxOk(o)
    ensures var r := Claim(o, now);
      && r.Ok?
      && (r.value.1.None? ==> r.value.0 == o && forall i :: 0 <= i < |o.rows| ==> !Eligible(o.rows[i], now))
      && (r.value.1.Some? ==>
            var u, c := r.value.0, r.value.1.value;
            && ChangesRow(o, u, c.id, AttemptStarted) && Eligible(RowOf(o, c.id).value, now)
            && (forall i :: 0 <= i < Find(o.rows, c.id).value ==> !Eligible(o.rows[i], now))
            && RowOf(u, c.id).value.state.Unknown? && !Eligible(RowOf(u, c.id).value, now)
            && RowOf(u, c.id).value.attempts == c.attempts == RowOf(o, c.id).value.attempts + 1 <= MAX_ATTEMPTS)
  {
    var due := FirstEligible(o.rows, now);
    if due.Some? {
      assert RowOk(o.rows[due.value]);
      FindIs(o.rows, due.value);
      ClaimView(o, now);
      ChangeKeepsBox(o, DoClaim, now);
    }
  }

  /** The pause after an attempt: a minute at first, doubled each time, and never more than an hour. */
  lemma DelayDoubles(attempts: int)
    requires attempts >= 1
    ensures DelayMs(1) == 60_000 && DelayMs(attempts + 1) == if DelayMs(attempts) <= 1_800_000 then 2 * DelayMs(attempts) else 3_600_000
  {
    assert Pow2(6) == 64;
    if attempts < 6 { assert Pow2(attempts) == 2 * Pow2(attempts - 1); }
    if attempts >= 7 { assert DelayMs(attempts) == 3_600_000; }
    if attempts == 6 { assert Pow2(5) == 32; }
  }

  /** An attempt is finished only while it is unknown; the row is then due again, if at all, one, two or four
      minutes later, by the number of its attempts. */
  lemma FinishMeans(o: Box, id: AlertId, state: DeliveryState, now: int, code: string, retryable: bool)
    requires BoxOk(o)
    ensures var r, before := Finish(o, id, state, now, code, retryable), RowOf(o, id);
      && (r.Ok? <==> before.Some? && before.value.state.Unknown? && !state.Pending?)
      && (r.Ok? ==>
            && ChangesRow(o, r.value, id, AttemptFinished)
            && var row := RowOf(r.value, id).value;
               && row.state == state && row.attempts == before.value.attempts && row.suppressed == before.value.suppressed
               && row.retryable == (retryable && state.Failed?)
               && row.nextAttemptMs == now + (if row.attempts == 1 then 60_000 else if row.attempts == 2 then 120_000 else 240_000))
  {
    RecordNeverFails(o, id);
    var before := RowOf(o, id);
    if before.Some? {
      var i := Find(o.rows, id).value;
      assert RowOk(o.rows[i]);
      if before.value.state.Unknown? && !state.Pending? {
        hide DelayMs;
        DelayDoubles(1);
        DelayDoubles(2);
        FinishKeepsBox(o, id, state, now, code, retryable);
        var u := Finish(o, id, state, now, code, retryable).value;
        SetRowView(o, u, i, u.rows[i]);
        assert u.history[..|o.history|] == o.history;
        hide BoxOk, ViewOf, Find, OnlyRow;
      }
    }
  }

  /** An operator's answer settles an unknown attempt: it is confirmed, or failed and not due by itself again. */
  lemma ResolveMeans(o: Box, id: AlertId, outcome: DeliveryState, now: int)
    requires BoxOk(o)
    ensures var r, before := Resolve(o, id, outcome, now), RowOf(o, id);
      && (r.Ok? <==> before.Some? && before.value.state.Unknown? && outcome in {Confirmed, Failed})
      && (r.Ok? ==>
            && ChangesRow(o, r.value, id, AttemptFinished) && RowOf(r.value, id).value.state == outcome
            && RowOf(r.value, id).value.attempts == before.value.attempts
            && forall later :: !Eligible(RowOf(r.value, id).value, later))
  {
    FinishMeans(o, id, outcome, now, "operator_checked", false);
    hide BoxOk, Finish, RowOf, ChangesRow;
  }

  /** Giving a reservation back undoes it: the attempt is not counted, and the row is due again after a pause. */
  lemma DeferMeans(o: Box, id: AlertId, now: int, code: string)
    requires BoxOk(o)
    ensures var r, before := DeferUnstarted(o, id, now, code), RowOf(o, id);
      && (r.Ok? <==> before.Some? && before.value.state.Unknown?)
      && (r.Ok? ==>
            && ChangesRow(o, r.value, id, AttemptNotStarted)
            && var row := RowOf(r.value, id).value;
               && row.state.Pending? && row.attempts == before.value.attempts - 1 && row.suppressed == before.value.suppressed
               && (row.suppressed.None? ==> !Eligible(row, now) && Eligible(row, now + 30_000)))
  {
    RecordNeverFails(o, id);
    var before := RowOf(o, id);
    if before.Some? {
      var i := Find(o.rows, id).value;
      assert RowOk(o.rows[i]);
      if before.value.state.Unknown? {
        DeferKeepsBox(o, id, now, code);
        var u := DeferUnstarted(o, id, now, code).value;
        SetRowView(o, u, i, u.rows[i]);
        assert u.history[..|o.history|] == o.history;
        hide BoxOk, ViewOf, Find, OnlyRow;
      }
    }
  }

  /** An operator's retry makes a known failure below the limit due at once. */
  lemma RetryMeans(o: Box, id: AlertId, now: int)
    requires BoxOk(o)
    ensures var r, before := RetryFailed(o, id, now), RowOf(o, id);
      && (r.Ok? <==> before.Some? && before.value.state.Failed? && before.value.attempts < MAX_ATTEMPTS && before.value.suppressed.None?)
      && (r.Ok? ==>
            && ChangesRow(o, r.value, id, OperatorRetry) && Eligible(RowOf(r.value, id).value, now)
            && RowOf(r.value, id).value.attempts == before.value.attempts)
  {
    RecordNeverFails(o, id);
    var r := RetryFailed(o, id, now);
    if r.Ok? {
      var i := Find(o.rows, id).value;
      RetryKeepsBox(o, id, now);
      SetRowView(o, r.value, i, o.rows[i].(retryable := true, nextAttemptMs := now));
      assert r.value.history[..|o.history|] == o.history;
      hide BoxOk, ViewOf, Find, OnlyRow;
    }
  }

  // ---- what collecting leaves alone ----

  /** At most the suppression is new: the first reason stays. */
  predicate IsKept(row: Row, next: Row) {
    next == row || (row.suppressed.None? && next == row.(suppressed := next.suppressed))
  }

  /** Rows may be added and suppressed; what was delivered, and how often it was tried, stays. */
  ghost predicate RowsKept(o: Box, u: Box) {
    && |o.rows| <= |u.rows|
    && forall i :: 0 <= i < |o.rows| ==> IsKept(o.rows[i], u.rows[i])
  }

  /** The same, seen by event. */
  ghost predicate Kept(v: View, w: View) {
    forall id: AlertId {:trigger w(id)} :: v(id).Some? ==> w(id).Some? && IsKept(v(id).value, w(id).value)
  }

  lemma RowsKeptView(o: Box, u: Box)
    requires Unique(o.rows) && Unique(u.rows) && RowsKept(o, u)
    ensures Kept(ViewOf(o), ViewOf(u))
  {
    forall id: AlertId | RowOf(o, id).Some?
      ensures RowOf(u, id).Some? && IsKept(RowOf(o, id).value, RowOf(u, id).value)
    {
      var i := Find(o.rows, id).value;
      assert u.rows[i].alert == o.rows[i].alert;
      RowIs(u, i);
    }
  }

  lemma RowsKeptTwice(o: Box, m: Box, u: Box)
    requires RowsKept(o, m) && RowsKept(m, u)
    ensures RowsKept(o, u)
  {
    forall i | 0 <= i < |o.rows| ensures IsKept(o.rows[i], u.rows[i]) {
      assert IsKept(o.rows[i], m.rows[i]) && IsKept(m.rows[i], u.rows[i]);
    }
  }

  lemma EnqueueKeepsRows(o: Box, alert: Alert, now: int, suppressed: Option<Reason>)
    ensures var r := Enqueue(o, alert, now, suppressed); r.Ok? ==> RowsKept(o, r.value)
  {
  }

  lemma SuppressKeepsRows(o: Box, id: AlertId, reason: Reason, now: int)
    ensures var r := Suppress(o, id, reason, now); r.Ok? ==> RowsKept(o, r.value)
  {
  }
}
