/** What every poll keeps: the consumed cycles are exactly those of the log before the cursor, every
  reportable health event before the cursor has its one alert, and the signal lifecycle holds. */
module CollectorRuns {
  import opened Basics
  import opened Alerts
  import opened Outbox
  import opened OutboxViews
  import opened SignalStreams
  import opened HealthJournal
  import opened Collector
  import opened LogReader

  // ---- the log ----

  /** The cycles of a log by identity, unless an identity was reused with different content. */
  function Ids(cycles: seq<Cycle>): Option<map<string, Cycle>> {
    if cycles == [] then Some(map[])
    else
      var c := cycles[|cycles| - 1];
      match Ids(cycles[..|cycles| - 1])
      case None => None
      case Some(m) => if c.id in m then (if m[c.id] == c then Some(m) else None) else Some(m[c.id := c])
  }

  /** The map holds exactly these cycles, each under its identity. */
  ghost predicate Lists(m: map<string, Cycle>, cycles: seq<Cycle>) {
    && (forall c :: c in cycles ==> c.id in m && m[c.id] == c)
    && (forall y :: y in m ==> m[y] in cycles && m[y].id == y)
  }

  lemma ListsOneMore(m: map<string, Cycle>, init: seq<Cycle>, c: Cycle)
    requires Lists(m, init) && (c.id in m ==> m[c.id] == c)
    ensures Lists(m[c.id := c], init + [c])
  {
    var all := init + [c];
    forall x | x in all ensures x.id in m[c.id := c] && m[c.id := c][x.id] == x {
      if x !in init { assert x == c; }
    }
    assert all[|init|] == c;
    forall x | x in init ensures x in all { }
  }

  /** What the map of identities means: it exists exactly when no identity was reused with other content. */
  lemma {:induction false} IdsMeans(cycles: seq<Cycle>)
    ensures Ids(cycles).Some? ==> Lists(Ids(cycles).value, cycles)
    ensures Ids(cycles).None? ==> exists c, d :: c in cycles && d in cycles && c.id == d.id && c != d
  {
    if cycles != [] {
      var init, c := cycles[..|cycles| - 1], cycles[|cycles| - 1];
      assert cycles == init + [c];
      IdsMeans(init);
      if Ids(init).Some? {
        var m := Ids(init).value;
        if c.id in m && m[c.id] != c {
          assert m[c.id] in cycles && c in cycles;
        } else {
          ListsOneMore(m, init, c);
          assert c.id in m ==> m[c.id := c] == m;
        }
      }
    }
  }

  /** The part of an operation on signals that the other invariants rely on. */
  ghost predicate SignalsMoved(d: Signals, u: Signals) {
    Lifecycle(u) && SignalMove(ViewOf(d.box), ViewOf(u.box))
  }

  lemma {:induction false} ObserveAllKeeps(d: Signals, seen: seq<Observation>, now: int, reviewMs: int, run: Option<string>, collection: Option<string>)
    requires Lifecycle(d)
    ensures var r := ObserveAll(d, seen, now, reviewMs, run, collection); r.Ok? ==> SignalsMoved(d, r.value)
  {
    if seen != [] {
      var init := seen[..|seen| - 1];
      ObserveAllKeeps(d, init, now, reviewMs, run, collection);
      var r := ObserveAll(d, init, now, reviewMs, run, collection);
      if r.Ok? {
        ObserveKeeps(r.value, seen[|seen| - 1], now, reviewMs, run, collection);
        var u := Observe(r.value, seen[|seen| - 1], now, reviewMs, run, collection);
        if u.Ok? { ChainMoves(ViewOf(d.box), ViewOf(r.value.box), ViewOf(u.value.box)); }
      }
    }
  }

  lemma {:induction false} ReobserveKeeps(d: Signals, seen: seq<Observation>, now: int, reviewMs: int, run: Option<string>)
    requires Lifecycle(d)
    ensures var r := Reobserve(d, seen, now, reviewMs, run); r.Ok? ==> SignalsMoved(d, r.value)
  {
    if seen != [] {
      var init, o := seen[..|seen| - 1], seen[|seen| - 1];
      ReobserveKeeps(d, init, now, reviewMs, run);
      var r := Reobserve(d, init, now, reviewMs, run);
      if r.Ok? {
        ObserveKeeps(r.value, o, now, reviewMs, run, run);
        var u := Observe(r.value, o, now, reviewMs, run, run);
        if u.Ok? { ChainMoves(ViewOf(d.box), ViewOf(r.value.box), ViewOf(u.value.box)); }
      }
    }
  }

  /** Consuming a page: the signals keep their lifecycle, and the identities are those of the log so far;
      an identity reused with other content is always refused. */
  lemma {:induction false} ConsumeIsExact(db: Db, before: seq<Cycle>, cycles: seq<Cycle>, s: Snapshot, now: int, reviewMs: int)
    requires Lifecycle(db.signals) && Ids(before) == Some(db.consumed)
    ensures var r := Consume(db, cycles, s, now, reviewMs);
      r.Ok? ==>
        && SignalsMoved(db.signals, r.value.signals) && Ids(before + cycles) == Some(r.value.consumed)
        && r.value == db.(signals := r.value.signals, consumed := r.value.consumed, lastCycle := r.value.lastCycle)
    ensures Ids(before + cycles).None? ==> Consume(db, cycles, s, now, reviewMs).Err?
  {
    if cycles == [] {
      assert before + cycles == before;
    } else {
      var init, c := cycles[..|cycles| - 1], cycles[|cycles| - 1];
      ConsumeIsExact(db, before, init, s, now, reviewMs);
      assert (before + cycles)[..|before + cycles| - 1] == before + init;
      var r := Consume(db, init, s, now, reviewMs);
      if r.Ok? {
        var db1 := r.value;
        if c.id !in db1.consumed {
          var run := if Current(s) == Some(c) then CurrentRun(s) else None;
          ObserveAllKeeps(db1.signals, c.observations, now, reviewMs, run, RunOf(s));
          var u := ObserveAll(db1.signals, c.observations, now, reviewMs, run, RunOf(s));
          if u.Ok? { ChainMoves(ViewOf(db.signals.box), ViewOf(db1.signals.box), ViewOf(u.value.box)); }
        }
      }
    }
  }

  // ---- health ----

  /** The event is one of the first cursor events and calls for an alert. */
  predicate Reported(history: seq<HealthEvent>, cursor: nat, e: HealthEvent) {
    1 <= e.sequence <= cursor <= |history| && history[e.sequence - 1] == e && IsReported(e.kind)
  }

  /** Exactly the reportable events before the cursor have an alert, which is theirs. */
  ghost predicate HealthOk(v: View, history: seq<HealthEvent>, cursor: nat) {
    forall e: HealthEvent {:trigger v(HealthId(e))} ::
      && (v(HealthId(e)).Some? <==> Reported(history, cursor, e))
      && (v(HealthId(e)).Some? ==> v(HealthId(e)).value.alert == HealthAlert(e))
  }

  /** Every runtime transition up to the sequence has exactly one alert: a fault or a recovery. */
  ghost predicate RuntimeOk(v: View, sequence: nat) {
    && (forall k: nat, f: bool {:trigger v(RuntimeId(k, f))} :: v(RuntimeId(k, f)).Some? ==> 1 <= k <= sequence)
    && (forall k: nat {:trigger v(RuntimeId(k, true))} :: 1 <= k <= sequence ==> v(RuntimeId(k, true)).Some? != v(RuntimeId(k, false)).Some?)
  }

  lemma SignalMoveKeepsServices(v: View, w: View, history: seq<HealthEvent>, cursor: nat, sequence: nat)
    requires SignalMove(v, w) && HealthOk(v, history, cursor) && RuntimeOk(v, sequence)
    ensures HealthOk(w, history, cursor) && RuntimeOk(w, sequence)
  {
    forall e: HealthEvent
      ensures (w(HealthId(e)).Some? <==> Reported(history, cursor, e)) && (w(HealthId(e)).Some? ==> w(HealthId(e)).value.alert == HealthAlert(e))
    {
      assert w(HealthId(e)) == v(HealthId(e));
    }
    forall k: nat, f: bool ensures w(RuntimeId(k, f)) == v(RuntimeId(k, f)) { assert !IsSignalId(RuntimeId(k, f)); }
  }

  /** Enqueuing an alert that is not about a signal leaves the streams' invariant alone. */
  lemma ServiceEnqueue(d: Signals, alert: Alert, now: int)
    requires Lifecycle(d) && !IsSignalId(alert.id)
    requires ViewOf(d.box)(alert.id).Some? ==> ViewOf(d.box)(alert.id).value.alert == alert
    ensures var r := Enqueue(d.box, alert, now, None);
      && r.Ok? && Lifecycle(d.(box := r.value)) && OnlyRow(ViewOf(d.box), ViewOf(r.value), alert.id)
      && ViewOf(r.value)(alert.id).Some? && ViewOf(r.value)(alert.id).value.alert == alert
  {
    RecordNeverFails(d.box, alert.id);
    assert ViewOf(d.box)(alert.id) == RowOf(d.box, alert.id);
    EnqueueView(d.box, alert, now, None);
    ChangeKeepsBox(d.box, DoEnqueue(alert, None), now);
    OtherMoveKeeps(ViewOf(d.box), ViewOf(Enqueue(d.box, alert, now, None).value), d.streams);
  }

  lemma HealthGrows(v: View, w: View, history: seq<HealthEvent>, cursor: nat)
    requires IsHistory(history) && cursor < |history| && HealthOk(v, history, cursor)
    requires var e := history[cursor];
      if IsReported(e.kind) then OnlyRow(v, w, HealthId(e)) && w(HealthId(e)).Some? && w(HealthId(e)).value.alert == HealthAlert(e) else w == v
    ensures HealthOk(w, history, cursor + 1)
  {
    var last := history[cursor];
    forall e: HealthEvent
      ensures (w(HealthId(e)).Some? <==> Reported(history, cursor + 1, e)) && (w(HealthId(e)).Some? ==> w(HealthId(e)).value.alert == HealthAlert(e))
    {
      assert v(HealthId(e)).Some? <==> Reported(history, cursor, e);
      if e != last { assert w(HealthId(e)) == v(HealthId(e)); }
    }
  }

  ghost predicate AlertsOk(d: Signals, sequence: nat, history: seq<HealthEvent>, cursor: nat) {
    Lifecycle(d) && HealthOk(ViewOf(d.box), history, cursor) && RuntimeOk(ViewOf(d.box), sequence)
  }

  ghost predicate ServicesOk(db: Db, history: seq<HealthEvent>, cursor: nat) {
    AlertsOk(db.signals, db.runtimeSequence, history, cursor)
  }

  lemma ReportOne(db: Db, history: seq<HealthEvent>, cursor: nat, run: string, now: int)
    requires IsHistory(history) && cursor < |history| && ServicesOk(db, history, cursor)
    ensures var r := Report(db, history[cursor], run, now);
      && r.Ok? && ServicesOk(r.value, history, cursor + 1)
      && r.value == db.(signals := r.value.signals, runtime := r.value.runtime)
  {
    var e := history[cursor];
    var v := ViewOf(db.signals.box);
    if IsReported(e.kind) {
      assert v(HealthId(e)).None?;
      ServiceEnqueue(db.signals, HealthAlert(e), now);
      var w := ViewOf(Enqueue(db.signals.box, HealthAlert(e), now, None).value);
      HealthGrows(v, w, history, cursor);
      forall k: nat, f: bool ensures w(RuntimeId(k, f)) == v(RuntimeId(k, f)) { }
    } else {
      HealthGrows(v, v, history, cursor);
    }
  }

  lemma {:induction false} ReportAllKeeps(db: Db, history: seq<HealthEvent>, cursor: nat, upto: nat, run: string, now: int)
    requires IsHistory(history) && cursor <= upto <= |history| && ServicesOk(db, history, cursor)
    ensures var r := ReportAll(db, history[cursor..upto], run, now);
      && r.Ok? && ServicesOk(r.value, history, upto)
      && r.value == db.(signals := r.value.signals, runtime := r.value.runtime)
    decreases upto
  {
    hide ServicesOk, Report;
    if cursor < upto {
      ReportAllKeeps(db, history, cursor, upto - 1, run, now);
      assert history[cursor..upto][..upto - 1 - cursor] == history[cursor..upto - 1];
      ReportOne(ReportAll(db, history[cursor..upto - 1], run, now).value, history, upto - 1, run, now);
    }
  }

  /** The snapshot was taken of the journal of everything that happened so far. */
  ghost predicate Depicts(state: Option<ServiceState>, history: seq<HealthEvent>) {
    state.Some? ==> Represents(state.value.journal, history)
  }

  /** Each reportable event past the cursor gets its one alert, or the poll fails: exactly when the
      journal has already dropped an event that was not reported, or has vanished. */
  lemma HealthEventsAreExact(db: Db, state: Option<ServiceState>, history: seq<HealthEvent>, now: int)
    requires Depicts(state, history) && db.healthCursor <= |history| && ServicesOk(db, history, db.healthCursor)
    ensures var r := HealthEvents(db, state, now);
      && (r.Err? <==> if state.None? then db.healthCursor != 0 else db.healthCursor + EVENT_LIMIT < |history|)
      && (r.Ok? && state.Some? ==> r.value.healthCursor == |history|)
      && (r.Ok? ==>
            && r.value.healthCursor <= |history| && ServicesOk(r.value, history, r.value.healthCursor)
            && r.value == db.(signals := r.value.signals, runtime := r.value.runtime, healthCursor := r.value.healthCursor))
  {
    if state.Some? {
      EventsSinceIsExact(state.value.journal, history, db.healthCursor);
      ReportAllKeeps(db, history, db.healthCursor, |history|, state.value.runId, now);
      assert history[db.healthCursor..|history|] == history[db.healthCursor..];
    }
  }

  lemma RuntimeGrows(v: View, w: View, history: seq<HealthEvent>, cursor: nat, sequence: nat, fault: bool)
    requires HealthOk(v, history, cursor) && RuntimeOk(v, sequence)
    requires OnlyRow(v, w, RuntimeId(sequence + 1, fault)) && w(RuntimeId(sequence + 1, fault)).Some?
    ensures HealthOk(w, history, cursor) && RuntimeOk(w, sequence + 1)
  {
    forall e: HealthEvent
      ensures (w(HealthId(e)).Some? <==> Reported(history, cursor, e)) && (w(HealthId(e)).Some? ==> w(HealthId(e)).value.alert == HealthAlert(e))
    {
      assert w(HealthId(e)) == v(HealthId(e));
    }
    forall k: nat, f: bool | w(RuntimeId(k, f)).Some? ensures 1 <= k <= sequence + 1 {
      if k != sequence + 1 || f != fault { assert w(RuntimeId(k, f)) == v(RuntimeId(k, f)); }
    }
    forall k: nat | 1 <= k <= sequence + 1 ensures w(RuntimeId(k, true)).Some? != w(RuntimeId(k, false)).Some? {
      if k <= sequence {
        assert w(RuntimeId(k, true)) == v(RuntimeId(k, true)) && w(RuntimeId(k, false)) == v(RuntimeId(k, false));
      } else {
        assert w(RuntimeId(k, !fault)) == v(RuntimeId(k, !fault));
      }
    }
  }

  lemma RuntimeReported(db: Db, runtime: RuntimeState, history: seq<HealthEvent>, cursor: nat, now: int)
    requires ServicesOk(db, history, cursor)
    ensures var r := ReportRuntime(db, runtime, now);
      && r.Ok? && ServicesOk(r.value, history, cursor)
      && r.value == db.(signals := r.value.signals, runtimeSequence := r.value.runtimeSequence)
  {
    hide Enqueue, BoxOk, StreamsOk, HealthOk;
    var v := ViewOf(db.signals.box);
    var alert := RuntimeAlert(db.runtimeSequence + 1, runtime, now);
    assert v(alert.id).None?;
    ServiceEnqueue(db.signals, alert, now);
    RuntimeGrows(v, ViewOf(Enqueue(db.signals.box, alert, now, None).value), history, cursor, db.runtimeSequence, alert.id.fault);
  }

  /** Reporting the runtime never fails and numbers its transitions without gaps or repetition. */
  lemma RuntimeStepKeeps(db: Db, runtime: RuntimeState, run: Option<string>, history: seq<HealthEvent>, now: int)
    requires ServicesOk(db, history, db.healthCursor)
    ensures var r := RuntimeStep(db, runtime, run, now);
      && r.Ok? && ServicesOk(r.value, history, db.healthCursor)
      && r.value == db.(signals := r.value.signals, runtime := r.value.runtime, runtimeSequence := r.value.runtimeSequence)
  {
    hide AlertsOk, ReportRuntime;
    RuntimeReported(db, runtime, history, db.healthCursor, now);
  }
}
