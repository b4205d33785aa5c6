/** What the last check does with a claimed entry, told by the row it leaves: missing evidence only
  postpones an entry, definitive evidence against it withdraws it, and complete evidence for it clears it. */
module LastCheck {
  import opened Basics
  import opened Alerts
  import opened Outbox
  import opened OutboxViews
  import opened Delivery
  import opened SignalStreams
  import opened Collector
  import opened CollectorSystem
  import opened NotificationWorld
  import opened HealthJournal
  import opened LogReader

  /** The review window of the entry does not contain the moment. */
  predicate WindowIsOver(row: Row, now: int) {
    row.alert.reviewUntilMs.Some? && (now < row.alert.occurredAtMs || now >= row.alert.reviewUntilMs.value)
  }

  /** The supervisor can be read and is healthy, the collector has found it so, its latest cycle is the last
      one consumed, and the log holds nothing more. */
  predicate SourceIsCurrent(db: Db, current: Option<Snapshot>, remaining: bool) {
    && current.Some? && current.value.healthy && db.sourceReady && !remaining
    && current.value.state.Some? && current.value.state.value.lastCycle.Some?
    && current.value.state.value.lastCycle.value.cycle.Some?
    && db.lastCycle == current.value.state.value.lastCycle.value.cycle
  }

  /** The symbol is still scanned, and its latest observation shows the signal of the stream whose active
      event the entry is. */
  predicate IsConfirmedBySource(db: Db, row: Row, s: Snapshot)
    requires row.alert.observation.Some? && s.state.Some? && s.state.value.lastCycle.Some? && s.state.value.lastCycle.value.cycle.Some?
  {
    var symbol := row.alert.observation.value.symbol;
    var stream := StreamOf(db.signals.streams, symbol);
    && symbol in s.state.value.symbols && stream.active == Some(row.alert.id)
    && Shows(s.state.value.lastCycle.value.cycle.value.observations, symbol, stream.signalKey)
  }

  /** There is definitive evidence against the entry. */
  predicate IsWithdrawn(db: Db, row: Row, current: Option<Snapshot>, remaining: bool, now: int)
    requires HasEvidence(Some(row))
  {
    || row.suppressed.Some? || WindowIsOver(row, now)
    || (SourceIsCurrent(db, current, remaining) && !IsConfirmedBySource(db, row, current.value))
  }

  /** The verdict in the source's own terms. */
  lemma JudgeMeans(db: Db, row: Row, current: Option<Snapshot>, remaining: bool, now: int)
    requires HasEvidence(Some(row))
    ensures var v := Judge(db, row, current, remaining, now);
      && (v.Drop? <==> IsWithdrawn(db, row, current, remaining, now))
      && (v.Send? <==> !IsWithdrawn(db, row, current, remaining, now) && SourceIsCurrent(db, current, remaining))
      && (v.Drop? ==> v.reason == WithdrawalReason(db, row, current, now))
      && (v.Hold? ==> v.code == if current.None? then "source_snapshot_unavailable" else "source_not_caught_up")
  {
    if SourceIsCurrent(db, current, remaining) {
      EvidenceIsFirst(current.value.state.value.lastCycle.value.cycle.value.observations, row.alert.observation.value.symbol);
    }
  }

  /** An earlier withdrawal keeps its reason; then the window, the scan and the signal are looked at. */
  function WithdrawalReason(db: Db, row: Row, current: Option<Snapshot>, now: int): Reason
    requires HasEvidence(Some(row))
  {
    if row.suppressed.Some? then row.suppressed.value
    else if WindowIsOver(row, now) then ReviewExpired
    else
      var symbol := row.alert.observation.value.symbol;
      if current.Some? && Current(current.value).Some?
         && symbol in current.value.state.value.symbols && IsSeen(Current(current.value).value.observations, symbol) then DecisionChanged
      else SourceUnavailable
  }

  // ---- the row after the check ----

  /** Given back: its attempt is not counted, and it is due again after the pause unless it was withdrawn. */
  predicate IsGivenBack(before: Row, after: Row, now: int) {
    && after == before.(state := Pending, attempts := before.attempts - 1, retryable := false, nextAttemptMs := now + 30_000,
                        suppressed := after.suppressed)
    && !Eligible(after, now)
    && (Eligible(after, now + 30_000) <==> after.suppressed.None?)
  }

  lemma DeferredRow(o: Box, id: AlertId, now: int, code: string, why: Option<Reason>)
    requires BoxOk(o) && RowOf(o, id).Some? && RowOf(o, id).value.state.Unknown?
    ensures var r := Deferred(o, id, now, code, why);
      && r.Ok? && OnlyRow(ViewOf(o), ViewOf(r.value), id) && RowOf(r.value, id).Some?
      && IsGivenBack(RowOf(o, id).value, RowOf(r.value, id).value, now)
      && RowOf(r.value, id).value.suppressed == if RowOf(o, id).value.suppressed.Some? then RowOf(o, id).value.suppressed else why
  {
    var row := RowOf(o, id).value;
    assert RowOk(row) by { assert RowOk(o.rows[Find(o.rows, id).value]); }
    DeferMeans(o, id, now, code);
    DeferUnstartedView(o, id, now, code);
    var m := DeferUnstarted(o, id, now, code).value;
    if why.Some? {
      SuppressMeans(m, id, why.value, now);
      OnlyRowTwice(ViewOf(o), ViewOf(m), ViewOf(Suppress(m, id, why.value, now).value), id);
    }
  }

  /** What giving a reservation back leaves of the world. */
  lemma DeferredWorld(w: World, p: nat, now: int, code: string, why: Option<Reason>, u: World)
    requires Delivers(w, DeferStep(p, now, code, why), u)
    ensures p in w.senders && w.senders[p].Open? && Deferred(w.db.signals.box, w.senders[p].id, now, code, why).Ok?
    ensures u.db.signals.box == Deferred(w.db.signals.box, w.senders[p].id, now, code, why).value
    ensures u.fence == w.fence && u.senders == w.senders[p := Idle] && u.calls == w.calls
  {
    hide Deferred;
  }

  /** Every last check of every reachable world: it clears the entry exactly on complete evidence for it, and
      otherwise gives the reservation back; the row is suppressed then exactly if it was already, its window
      is over, or a current source has another signal for its symbol, or none. */
  lemma CheckDecides(w: World, p: nat, now: int, current: Option<Snapshot>, remaining: bool, u: World, decode: Decoder)
    requires WorldOk(w, decode) && PrepareStep(w, p, now, current, remaining, u, decode)
    ensures var o, id := w.db.signals.box, w.senders[p].id;
      var before, after := RowOf(o, id).value, RowOf(u.db.signals.box, id);
      var withdrawn := IsWithdrawn(w.db, before, current, remaining, now);
      && (u.fence == Cleared(p, now) <==> !withdrawn && SourceIsCurrent(w.db, current, remaining))
      && (u.fence == Cleared(p, now) ==> u == w.(fence := Cleared(p, now)))
      && (u.fence != Cleared(p, now) ==>
            && u.fence.Free? && u.senders == w.senders[p := Idle] && u.calls == w.calls
            && OnlyRow(ViewOf(o), ViewOf(u.db.signals.box), id) && after.Some? && IsGivenBack(before, after.value, now)
            && (after.value.suppressed.Some? <==> withdrawn)
            && (withdrawn ==> after.value.suppressed == Some(WithdrawalReason(w.db, before, current, now))))
  {
    var o, id := w.db.signals.box, w.senders[p].id;
    var row := RowOf(o, id).value;
    HeldIsUnknown(w, p, decode);
    JudgeMeans(w.db, row, current, remaining, now);
    hide WorldOk, Judge, IsWithdrawn, SourceIsCurrent, WithdrawalReason, IsGivenBack, Probed, Delivers, Deferred, BoxOk, OnlyRow, RowOf;
    match VerdictOf(w, p, now, current, remaining)
    case Send =>
    case Hold(code) =>
      DeferredWorld(w.(fence := Free), p, now, code, None, u);
      DeferredRow(o, id, now, code, None);
      StillOpen(w.db, row, current, remaining, now);
    case Drop(reason) =>
      DeferredWorld(w.(fence := Free), p, now, "entry_not_reviewable", Some(reason), u);
      DeferredRow(o, id, now, "entry_not_reviewable", Some(reason));
      KeepsReason(w.db, row, current, remaining, now);
  }

  lemma HeldIsUnknown(w: World, p: nat, decode: Decoder)
    requires WorldOk(w, decode) && HasEntry(w, p)
    ensures BoxOk(w.db.signals.box) && RowOf(w.db.signals.box, w.senders[p].id).Some?
    ensures RowOf(w.db.signals.box, w.senders[p].id).value.state.Unknown?
  {
    assert Fenced(ViewOf(w.db.signals.box)(w.senders[p].id), w.senders[p].claim);
  }

  lemma StillOpen(db: Db, row: Row, current: Option<Snapshot>, remaining: bool, now: int)
    requires HasEvidence(Some(row)) && !IsWithdrawn(db, row, current, remaining, now)
    ensures row.suppressed.None?
  {
  }

  lemma KeepsReason(db: Db, row: Row, current: Option<Snapshot>, remaining: bool, now: int)
    requires HasEvidence(Some(row))
    ensures row.suppressed.Some? ==> row.suppressed == Some(WithdrawalReason(db, row, current, now))
  {
  }

  /** Whatever is reviewable, under a healthy supervisor whose latest cycle is the one consumed, is cleared. */
  lemma ReviewableIsCleared(w: World, p: nat, now: int, current: Option<Snapshot>, remaining: bool, u: World, decode: Decoder)
    requires WorldOk(w, decode) && PrepareStep(w, p, now, current, remaining, u, decode)
    requires IsReviewable(w.db, w.log, w.senders[p].id, now, decode) && !w.marked && w.db.sourceReady
    requires current.Some? && current.value.healthy && Current(current.value).Some? && w.db.lastCycle == Current(current.value)
    requires w.senders[p].id.signal.symbol in current.value.state.value.symbols
    ensures u.fence == Cleared(p, now)
  {
    var id := w.senders[p].id;
    NothingRemains(w.db, w.log, w.history, decode);
    var v := ViewOf(w.db.signals.box);
    assert EntryOk(v, w.db.signals.streams, id);
    assert StreamOk(v, id.signal.symbol, w.db.signals.streams[id.signal.symbol]);
    CheckDecides(w, p, now, current, remaining, u, decode);
  }

  lemma NothingRemains(db: Db, log: Bytes, history: seq<HealthEvent>, decode: Decoder)
    requires DbOk(db, log, history, decode) && db.cursor.offset == |log|
    ensures exists next :: IsPage(log, db.cursor, 1, decode, [], next)
  {
    assert log[db.cursor.offset..db.cursor.offset] == [];
    assert IsPage(log, db.cursor, 1, decode, [], db.cursor);
  }

  lemma BusyStep(w: World, p: nat, now: int, u: World, decode: Decoder, reviewMs: int)
    requires NotificationWorld.Step(w, FenceBusy(p, now), u, decode, reviewMs)
    ensures HasEntry(w, p) && Delivers(w, DeferStep(p, now, "source_not_caught_up", None), u)
  {
    hide Delivers;
  }

  /** A busy fence postpones the entry, and changes nothing else about it. */
  lemma BusyPostpones(w: World, p: nat, now: int, u: World, decode: Decoder, reviewMs: int)
    requires WorldOk(w, decode) && NotificationWorld.Step(w, FenceBusy(p, now), u, decode, reviewMs)
    ensures var before, after := RowOf(w.db.signals.box, w.senders[p].id).value, RowOf(u.db.signals.box, w.senders[p].id);
      && after.Some? && IsGivenBack(before, after.value, now) && after.value.suppressed == before.suppressed
      && u.senders == w.senders[p := Idle] && u.calls == w.calls
  {
    HeldIsUnknown(w, p, decode);
    BusyStep(w, p, now, u, decode, reviewMs);
    hide WorldOk, IsGivenBack, NotificationWorld.Step, Delivers, Deferred, BoxOk, OnlyRow, RowOf;
    DeferredWorld(w, p, now, "source_not_caught_up", None, u);
    DeferredRow(w.db.signals.box, w.senders[p].id, now, "source_not_caught_up", None);
  }
}
