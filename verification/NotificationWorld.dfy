/** The whole notification system as one transition system: writers of the log, the supervisor, the
  collector, several senders, the operator, and crashes of each, in any order.

  Two locks keep them apart.  The write lock of the database is held by a poll, or by the one sender
  inside its second transaction.  The publication fence of the log is held by a writer while it
  appends, or by a sender from its last check of an entry until it has sent it.  A writer marks the log
  invalid for as long as it appends, and nobody reads a marked log.
 */
module NotificationWorld {
  import opened Basics
  import opened Alerts
  import opened Outbox
  import opened OutboxViews
  import opened Delivery
  import opened DeliveryRuns
  import opened SignalStreams
  import opened HealthJournal
  import opened Collector
  import opened CollectorRuns
  import opened CollectorRows
  import opened CollectorSystem
  import opened LogReader

  datatype Fence =
    | Free
    | Appending(line: Bytes)
    | Checking(p: nat)
    | Cleared(p: nat, checkedAtMs: int)

  /** What an open poll has read, and the log it read it from. */
  datatype Page = Page(seen: Bytes, limit: nat, cycles: seq<Cycle>, next: Cursor)

  datatype World = World(
    db: Db,
    log: Bytes,
    marked: bool,
    history: seq<HealthEvent>,
    fence: Fence,
    polling: Option<Page>,
    senders: Senders,
    calls: seq<Call>,
    accepted: seq<AlertId>)

  const EMPTY_DB := Db(Signals(Box([], []), map[], 0), map[], START, None, 0, None, 0, false, None, None)

  const EMPTY_WORLD := World(EMPTY_DB, [], false, [], Free, None, map[], [], [])

  datatype Event =
    | BeginAppend(line: Bytes)
    | EndAppend
    | AbandonAppend(torn: Bytes)
    | RecordHealth(event: HealthEvent)
    | BeginPoll(limit: nat, cycles: seq<Cycle>, next: Cursor)
    | EndPoll(snapshot: Snapshot, order: seq<string>, now: int)
    | AbandonPoll
    | Lose(order: seq<string>, now: int)
    | TakeClaim(p: nat, now: int)
    | Begin(p: nat)
    | TakeFence(p: nat)
    | FenceBusy(p: nat, now: int)
    | Prepare(p: nat, now: int, current: Option<Snapshot>, remaining: bool)
    | CallTransport(p: nat, accepts: bool, state: DeliveryState, retryable: bool)
    | DieInCall(p: nat, accepts: bool)
    | Commit(p: nat, now: int, code: string)
    | Crash(p: nat)
    | OperatorResolves(id: AlertId, outcome: DeliveryState, now: int)
    | OperatorRetries(id: AlertId, now: int)

  /** The senders' part of the world. */
  function DeliveryOf(w: World): System {
    System(w.db.signals.box, w.senders, w.calls, w.accepted)
  }

  function WithBox(db: Db, box: Box): Db {
    db.(signals := db.signals.(box := box))
  }

  /** The senders take one of their steps; nothing else in the world moves. */
  ghost predicate Delivers(w: World, step: Delivery.Step, u: World) {
    && Enabled(DeliveryOf(w), step)
    && var s := Next(DeliveryOf(w), step);
       u == w.(db := WithBox(w.db, s.box), senders := s.senders, calls := s.calls, accepted := s.accepted)
  }

  /** Nobody is inside a transaction of the database. */
  ghost predicate WriteLockFree(w: World) {
    w.polling.None? && Unlocked(DeliveryOf(w))
  }

  predicate HeldBy(fence: Fence, p: nat) {
    (fence.Checking? || fence.Cleared?) && fence.p == p
  }

  /** The fence is released when its holder is done, however that comes about. */
  function Released(w: World, p: nat): World {
    if HeldBy(w.fence, p) then w.(fence := Free) else w
  }

  predicate HasEntry(w: World, p: nat) {
    SenderOf(DeliveryOf(w), p).Open? && SenderOf(DeliveryOf(w), p).id.EntryId?
  }

  /** Reading one more record of the log: nothing remains exactly when an empty page is returned. */
  ghost predicate Probed(w: World, remaining: bool, decode: Decoder) {
    remaining <==> w.marked || !exists next :: IsPage(w.log, w.db.cursor, 1, decode, [], next)
  }

  /** A transaction that fails leaves the database as it was. */
  function Committed<E>(db: Db, r: Result<Db, E>): Db {
    match r case Ok(u) => u case Err(_) => db
  }

  /** The transport is called for an entry only by the sender whose check cleared it. */
  predicate MayCall(w: World, p: nat) {
    HasEntry(w, p) ==> w.fence.Cleared? && w.fence.p == p
  }

  ghost predicate LogStep(w: World, e: Event, u: World, decode: Decoder)
    requires e.BeginAppend? || e.EndAppend? || e.AbandonAppend? || e.RecordHealth?
  {
    match e
    case BeginAppend(line) =>
      w.fence.Free? && !w.marked && IsRecord(line) && decode(line).Some? && u == w.(fence := Appending(line), marked := true)
    case EndAppend => w.fence.Appending? && u == w.(log := w.log + w.fence.line, marked := false, fence := Free)
    case AbandonAppend(torn) => w.fence.Appending? && torn <= w.fence.line && u == w.(log := w.log + torn, fence := Free)
    case RecordHealth(event) => event.sequence == |w.history| + 1 && u == w.(history := w.history + [event])
  }

  ghost predicate CollectorStep(w: World, e: Event, u: World, decode: Decoder, reviewMs: int)
    requires e.BeginPoll? || e.EndPoll? || e.AbandonPoll? || e.Lose?
  {
    match e
    case BeginPoll(limit, cycles, next) =>
      && WriteLockFree(w) && !w.marked && IsPage(w.log, w.db.cursor, limit, decode, cycles, next)
      && u == w.(polling := Some(Page(w.log, limit, cycles, next)))
    case EndPoll(s, order, now) =>
      && w.polling.Some? && Depicts(s.state, w.history)
      && var page := w.polling.value;
         u == w.(polling := None, db := Committed(w.db, Collect(w.db, page.cycles, page.next, s, order, now, reviewMs)))
    case AbandonPoll => w.polling.Some? && u == w.(polling := None)
    case Lose(order, now) => WriteLockFree(w) && u == w.(db := Committed(w.db, LoseSource(w.db, order, now)))
  }

  /** The last check of a claimed entry: it is cleared, or its reservation given back. */
  ghost predicate PrepareStep(w: World, p: nat, now: int, current: Option<Snapshot>, remaining: bool, u: World, decode: Decoder) {
    && HasEntry(w, p) && w.fence == Checking(p) && Probed(w, remaining, decode)
    && var id := SenderOf(DeliveryOf(w), p).id;
       var row := RowOf(w.db.signals.box, id);
       && row.Some? && row.value.alert.reviewUntilMs.Some? && row.value.alert.observation.Some?
       && match Judge(w.db, row.value, current, remaining, now)
          case Send => u == w.(fence := Cleared(p, now))
          case Hold(code) => Delivers(w.(fence := Free), DeferStep(p, now, code, None), u)
          case Drop(reason) => Delivers(w.(fence := Free), DeferStep(p, now, "entry_not_reviewable", Some(reason)), u)
  }

  ghost predicate Step(w: World, e: Event, u: World, decode: Decoder, reviewMs: int) {
    match e
    case TakeClaim(p, now) => w.polling.None? && Delivers(w, ClaimStep(p, now), u)
    case Begin(p) => w.polling.None? && Delivers(w, BeginStep(p), u)
    case TakeFence(p) => HasEntry(w, p) && w.fence.Free? && u == w.(fence := Checking(p))
    case FenceBusy(p, now) =>
      HasEntry(w, p) && !w.fence.Free? && !HeldBy(w.fence, p) && Delivers(w, DeferStep(p, now, "source_not_caught_up", None), u)
    case Prepare(p, now, current, remaining) => PrepareStep(w, p, now, current, remaining, u, decode)
    case CallTransport(p, accepts, state, retryable) => MayCall(w, p) && Delivers(w, SendStep(p, accepts, state, retryable), u)
    case DieInCall(p, accepts) => MayCall(w, p) && Delivers(Released(w, p), SendDiesStep(p, accepts), u)
    case Commit(p, now, code) => Delivers(Released(w, p), CommitStep(p, now, code), u)
    case Crash(p) => Delivers(Released(w, p), CrashStep(p), u)
    case OperatorResolves(id, outcome, now) => w.polling.None? && Delivers(w, ResolveStep(id, outcome, now), u)
    case OperatorRetries(id, now) => w.polling.None? && Delivers(w, RetryStep(id, now), u)
    case BeginPoll(_, _, _) => CollectorStep(w, e, u, decode, reviewMs)
    case EndPoll(_, _, _) => CollectorStep(w, e, u, decode, reviewMs)
    case AbandonPoll => CollectorStep(w, e, u, decode, reviewMs)
    case Lose(_, _) => CollectorStep(w, e, u, decode, reviewMs)
    case _ => LogStep(w, e, u, decode)
  }

  // ---- what a cleared entry relies on ----

  /** The first observation of the symbol shows this signal. */
  predicate Shows(seen: seq<Observation>, symbol: string, key: Option<SignalKey>) {
    exists i :: 0 <= i < |seen| && seen[i].symbol == symbol && (forall j :: 0 <= j < i ==> seen[j].symbol != symbol) && KeyOf(seen[i]) == key
  }

  predicate IsSeen(seen: seq<Observation>, symbol: string) {
    exists i :: 0 <= i < |seen| && seen[i].symbol == symbol
  }

  lemma {:induction false} EvidenceIsFirst(seen: seq<Observation>, symbol: string)
    ensures var e := EvidenceFor(seen, symbol);
      && (e.Some? <==> IsSeen(seen, symbol))
      && forall key :: Shows(seen, symbol, key) <==> e.Some? && KeyOf(e.value) == key
  {
    if seen != [] && seen[0].symbol != symbol {
      EvidenceIsFirst(seen[1..], symbol);
      forall i | 0 <= i < |seen| && seen[i].symbol == symbol ensures seen[1..][i - 1] == seen[i] { }
      assert IsSeen(seen[1..], symbol) ==> IsSeen(seen, symbol) by { if i :| 0 <= i < |seen[1..]| && seen[1..][i].symbol == symbol { assert seen[i + 1].symbol == symbol; } }
      forall key ensures Shows(seen, symbol, key) <==> Shows(seen[1..], symbol, key) { ShowsShift(seen, symbol, key); }
    } else if seen != [] {
      forall key ensures Shows(seen, symbol, key) <==> KeyOf(seen[0]) == key { }
    }
  }

  lemma ShowsShift(seen: seq<Observation>, symbol: string, key: Option<SignalKey>)
    requires seen != [] && seen[0].symbol != symbol
    ensures Shows(seen, symbol, key) <==> Shows(seen[1..], symbol, key)
  {
    var rest := seen[1..];
    if i :| 0 <= i < |seen| && seen[i].symbol == symbol && (forall j :: 0 <= j < i ==> seen[j].symbol != symbol) && KeyOf(seen[i]) == key {
      assert rest[i - 1] == seen[i];
      assert forall j :: 0 <= j < i - 1 ==> rest[j].symbol != symbol;
    }
    if i :| 0 <= i < |rest| && rest[i].symbol == symbol && (forall j :: 0 <= j < i ==> rest[j].symbol != symbol) && KeyOf(rest[i]) == key {
      assert seen[i + 1] == rest[i];
      forall j | 0 <= j < i + 1 ensures seen[j].symbol != symbol { if j > 0 { assert seen[j] == rest[j - 1]; } }
    }
  }

  ghost predicate IsOpenFor(v: View, id: AlertId, symbol: string) {
    id.EntryId? && id.signal.symbol == symbol && v(id).Some? && v(id).value.suppressed.None?
  }

  /** The entry is unsuppressed and was inside its review window when checked; it is the active event
      of its stream and the only open entry of its symbol; the whole log is consumed; and the last
      cycle consumed shows its very signal. */
  ghost predicate IsReviewable(db: Db, log: Bytes, id: AlertId, checkedAtMs: int, decode: Decoder)
    requires id.EntryId?
  {
    var v := ViewOf(db.signals.box);
    && v(id).Some? && v(id).value.suppressed.None?
    && v(id).value.alert.reviewUntilMs.Some? && v(id).value.alert.occurredAtMs <= checkedAtMs < v(id).value.alert.reviewUntilMs.value
    && StreamOf(db.signals.streams, id.signal.symbol).active == Some(id)
    && (forall other: AlertId {:trigger v(other)} :: IsOpenFor(v, other, id.signal.symbol) ==> other == id)
    && db.cursor.offset == |log| && Cycles(log, decode).Some? && Ids(Cycles(log, decode).value) == Some(db.consumed)
    && db.lastCycle.Some? && Shows(db.lastCycle.value.observations, id.signal.symbol, Some(id.signal))
  }

  /** An entry that passes the last check is reviewable. */
  lemma CheckedIsReviewable(db: Db, log: Bytes, history: seq<HealthEvent>, decode: Decoder, id: AlertId, row: Row,
                            snapshot: Option<Snapshot>, next: Cursor, now: int)
    requires DbOk(db, log, history, decode) && id.EntryId? && RowOf(db.signals.box, id) == Some(row)
    requires IsPage(log, db.cursor, 1, decode, [], next)
    requires row.alert.reviewUntilMs.Some? && row.alert.observation.Some?
    requires Judge(db, row, snapshot, false, now).Send?
    ensures IsReviewable(db, log, id, now, decode)
  {
    var v := ViewOf(db.signals.box);
    assert v(id) == Some(row);
    assert EntryOk(v, db.signals.streams, id);
    assert log[..|log|] == log;
    var symbol := row.alert.observation.value.symbol;
    assert symbol == id.signal.symbol;
    assert StreamOk(v, symbol, db.signals.streams[symbol]);
    EvidenceIsFirst(Current(snapshot.value).value.observations, symbol);
    forall other: AlertId | IsOpenFor(v, other, symbol) ensures other == id {
      assert EntryOk(v, db.signals.streams, other);
    }
  }

  // ---- the invariant ----

  ghost predicate PollOk(w: World, decode: Decoder) {
    w.polling.Some? ==>
      var page := w.polling.value;
      && Unlocked(DeliveryOf(w))
      && page.seen <= w.log && DbOk(w.db, page.seen, w.history, decode)
      && IsPage(page.seen, w.db.cursor, page.limit, decode, page.cycles, page.next)
  }

  ghost predicate HolderOk(w: World, decode: Decoder) {
    match w.fence
    case Free => true
    case Appending(_) => w.marked
    case Checking(p) => HasEntry(w, p)
    case Cleared(p, at) =>
      && p in w.senders && InTransaction(w.senders[p]) && w.senders[p].id.EntryId?
      && IsReviewable(w.db, w.log, w.senders[p].id, at, decode)
  }

  ghost predicate DataOk(w: World, decode: Decoder) {
    IsHistory(w.history) && DbOk(w.db, w.log, w.history, decode)
  }

  ghost predicate WorldOk(w: World, decode: Decoder) {
    DataOk(w, decode) && FenceInv(DeliveryOf(w)) && PollOk(w, decode) && HolderOk(w, decode)
  }

  // ---- the database stays exact ----

  predicate IsDelivery(c: Change) {
    c.DoClaim? || c.DoFinish? || c.DoDefer? || c.DoResolve? || c.DoRetry?
  }

  lemma DeliveryMoves(o: Box, c: Change, now: int)
    requires BoxOk(o) && IsDelivery(c) && Apply(o, c, now).Ok?
    ensures DeliveryMove(ViewOf(o), ViewOf(Apply(o, c, now).value))
  {
    var u := Apply(o, c, now).value;
    if u != o {
      var i := if c.DoClaim? then FirstEligible(o.rows, now).value else Find(o.rows, c.id).value;
      SetRowView(o, u, i, u.rows[i]);
      forall x: AlertId
        ensures ViewOf(o)(x).Some? == ViewOf(u)(x).Some?
          && (ViewOf(u)(x).Some? ==> ViewOf(u)(x).value.alert == ViewOf(o)(x).value.alert && ViewOf(u)(x).value.suppressed == ViewOf(o)(x).value.suppressed)
      {
        if x != o.rows[i].alert.id { assert ViewOf(u)(x) == ViewOf(o)(x); }
      }
    }
  }

  lemma DeliveryMoveKeepsServices(v: View, w: View, history: seq<HealthEvent>, cursor: nat, sequence: nat)
    requires DeliveryMove(v, w) && HealthOk(v, history, cursor) && RuntimeOk(v, sequence)
    ensures HealthOk(w, history, cursor) && RuntimeOk(w, sequence)
  {
    forall e: HealthEvent
      ensures (w(HealthId(e)).Some? <==> Reported(history, cursor, e)) && (w(HealthId(e)).Some? ==> w(HealthId(e)).value.alert == HealthAlert(e))
    {
      assert w(HealthId(e)).Some? == v(HealthId(e)).Some?;
    }
    forall k: nat, f: bool ensures w(RuntimeId(k, f)).Some? == v(RuntimeId(k, f)).Some? { }
  }

  lemma DeliveryKeeps(db: Db, c: Change, now: int, log: Bytes, history: seq<HealthEvent>, decode: Decoder)
    requires DbOk(db, log, history, decode) && IsDelivery(c)
    ensures var r := Apply(db.signals.box, c, now); r.Ok? ==> DbOk(WithBox(db, r.value), log, history, decode)
  {
    var r := Apply(db.signals.box, c, now);
    if r.Ok? {
      ChangeKeepsBox(db.signals.box, c, now);
      DeliveryMoves(db.signals.box, c, now);
      DeliveryMoveKeeps(ViewOf(db.signals.box), ViewOf(r.value), db.signals.streams);
      DeliveryMoveKeepsServices(ViewOf(db.signals.box), ViewOf(r.value), history, db.healthCursor, db.runtimeSequence);
    }
  }

  lemma SuppressKeeps(db: Db, id: AlertId, reason: Reason, now: int, log: Bytes, history: seq<HealthEvent>, decode: Decoder)
    requires DbOk(db, log, history, decode) && id.EntryId?
    ensures var r := Suppress(db.signals.box, id, reason, now); r.Ok? ==> DbOk(WithBox(db, r.value), log, history, decode)
  {
    var o := db.signals.box;
    var r := Suppress(o, id, reason, now);
    if r.Ok? {
      SuppressView(o, id, reason, now);
      ChangeKeepsBox(o, DoSuppress(id, reason), now);
      assert ViewOf(o)(id) == RowOf(o, id) && ViewOf(r.value)(id) == RowOf(r.value, id);
      SuppressEntryKeeps(ViewOf(o), ViewOf(r.value), db.signals.streams, id);
      SignalsChange(db, db.signals.(box := r.value), log, history, decode);
    }
  }

  lemma GrowingLogKeeps(db: Db, log: Bytes, line: Bytes, history: seq<HealthEvent>, decode: Decoder)
    requires DbOk(db, log, history, decode)
    ensures DbOk(db, log + line, history, decode)
  {
    AppendKeepsCursor(log, line, db.cursor, decode);
  }

  lemma GrowingHistoryKeeps(db: Db, log: Bytes, history: seq<HealthEvent>, e: HealthEvent, decode: Decoder)
    requires DbOk(db, log, history, decode)
    ensures DbOk(db, log, history + [e], decode)
  {
    var v := ViewOf(db.signals.box);
    forall x: HealthEvent ensures Reported(history + [e], db.healthCursor, x) <==> Reported(history, db.healthCursor, x) { }
  }

  lemma DeferKeepsDb(db: Db, id: AlertId, now: int, code: string, why: Option<Reason>, log: Bytes, history: seq<HealthEvent>, decode: Decoder)
    requires DbOk(db, log, history, decode) && (why.Some? ==> id.EntryId?)
    ensures var r := Deferred(db.signals.box, id, now, code, why); r.Ok? ==> DbOk(WithBox(db, r.value), log, history, decode)
  {
    DeliveryKeeps(db, DoDefer(id, code), now, log, history, decode);
    var r := DeferUnstarted(db.signals.box, id, now, code);
    if r.Ok? && why.Some? { SuppressKeeps(WithBox(db, r.value), id, why.value, now, log, history, decode); }
  }

  lemma DeliveringKeepsData(w: World, step: Delivery.Step, u: World, decode: Decoder)
    requires DataOk(w, decode) && Delivers(w, step, u) && !step.CollectStep?
    requires step.DeferStep? && step.suppress.Some? ==> SenderOf(DeliveryOf(w), step.p).id.EntryId?
    ensures DataOk(u, decode)
  {
    hide DbOk;
    var s := DeliveryOf(w);
    assert WithBox(w.db, s.box) == w.db;
    match step
    case ClaimStep(p, now) => DeliveryKeeps(w.db, DoClaim, now, w.log, w.history, decode);
    case DeferStep(p, now, code, why) => DeferKeepsDb(w.db, SenderOf(s, p).id, now, code, why, w.log, w.history, decode);
    case CommitStep(p, now, code) =>
      var x := SenderOf(s, p);
      DeliveryKeeps(w.db, DoFinish(x.id, x.state, code, x.retryable), now, w.log, w.history, decode);
     
    case ResolveStep(id, outcome, now) => DeliveryKeeps(w.db, DoResolve(id, outcome), now, w.log, w.history, decode);
    case RetryStep(id, now) => DeliveryKeeps(w.db, DoRetry(id), now, w.log, w.history, decode);
    case _ =>
  }

  // ---- every step of the world is a step of the senders' protocol ----

  predicate HasEvidence(row: Option<Row>) {
    row.Some? && row.value.alert.reviewUntilMs.Some? && row.value.alert.observation.Some?
  }

  /** What the check decides about the entry a sender holds. */
  function VerdictOf(w: World, p: nat, now: int, current: Option<Snapshot>, remaining: bool): Verdict
    requires SenderOf(DeliveryOf(w), p).Open? && HasEvidence(RowOf(w.db.signals.box, SenderOf(DeliveryOf(w), p).id))
  {
    Judge(w.db, RowOf(w.db.signals.box, SenderOf(DeliveryOf(w), p).id).value, current, remaining, now)
  }

  /** The step of the senders' protocol that a step of the world amounts to. */
  ghost function DeliveryStepOf(w: World, e: Event, u: World): Delivery.Step {
    match e
    case TakeClaim(p, now) => ClaimStep(p, now)
    case Begin(p) => BeginStep(p)
    case FenceBusy(p, now) => DeferStep(p, now, "source_not_caught_up", None)
    case Prepare(p, now, current, remaining) =>
      if SenderOf(DeliveryOf(w), p).Open? && HasEvidence(RowOf(w.db.signals.box, SenderOf(DeliveryOf(w), p).id)) then
        match VerdictOf(w, p, now, current, remaining)
        case Send => OtherStep
        case Hold(code) => DeferStep(p, now, code, None)
        case Drop(reason) => DeferStep(p, now, "entry_not_reviewable", Some(reason))
      else OtherStep
    case CallTransport(p, accepts, state, retryable) => SendStep(p, accepts, state, retryable)
    case DieInCall(p, accepts) => SendDiesStep(p, accepts)
    case Commit(p, now, code) => CommitStep(p, now, code)
    case Crash(p) => CrashStep(p)
    case OperatorResolves(id, outcome, now) => ResolveStep(id, outcome, now)
    case OperatorRetries(id, now) => RetryStep(id, now)
    case EndPoll(_, _, _) => CollectStep(u.db.signals.box)
    case Lose(_, _) => CollectStep(u.db.signals.box)
    case _ => OtherStep
  }

  lemma CollectorStepKeepsData(w: World, e: Event, u: World, decode: Decoder, reviewMs: int)
    requires DataOk(w, decode) && PollOk(w, decode) && (e.EndPoll? || e.Lose?) && CollectorStep(w, e, u, decode, reviewMs)
    ensures DataOk(u, decode) && RowsKept(w.db.signals.box, u.db.signals.box)
  {
    hide DbOk, Collect, LoseSource, IsPage, Depicts;
    assert RowsKept(w.db.signals.box, w.db.signals.box);
    match e
    case EndPoll(s, order, now) =>
      var page := w.polling.value;
      CollectIsExact(w.db, page.seen, w.history, decode, page.limit, page.cycles, page.next, s, order, now, reviewMs);
      CollectRows(w.db, page.cycles, page.next, s, order, now, reviewMs);
      assert page.seen + w.log[|page.seen|..] == w.log;
      GrowingLogKeeps(u.db, page.seen, w.log[|page.seen|..], w.history, decode);
    case Lose(order, now) =>
      LoseSourceKeeps(w.db, w.log, w.history, decode, order, now);
      LoseSourceRows(w.db, order, now);
  }

  lemma DbHasBox(db: Db, log: Bytes, history: seq<HealthEvent>, decode: Decoder)
    requires DbOk(db, log, history, decode)
    ensures BoxOk(db.signals.box)
  {
  }

  ghost predicate IsDelivered(w: World, d: Delivery.Step, u: World) {
    Enabled(DeliveryOf(w), d) && DeliveryOf(u) == Next(DeliveryOf(w), d)
  }

  lemma PrepareDelivers(w: World, e: Event, u: World, decode: Decoder)
    requires e.Prepare? && PrepareStep(w, e.p, e.now, e.current, e.remaining, u, decode)
    ensures IsDelivered(w, DeliveryStepOf(w, e, u), u)
  {
    OtherEnabled(DeliveryOf(w));
    hide IsPage, Enabled, Next, Judge, Probed;
  }

  lemma StepDelivers(w: World, e: Event, u: World, decode: Decoder, reviewMs: int)
    requires WorldOk(w, decode) && Step(w, e, u, decode, reviewMs)
    ensures IsDelivered(w, DeliveryStepOf(w, e, u), u)
  {
    hide FenceInv, HolderOk, DbOk, IsPage, Enabled, Next, Judge, Collect, LoseSource, PrepareStep;
    if e.EndPoll? || e.Lose? {
      CollectorStepKeepsData(w, e, u, decode, reviewMs);
      DbHasBox(u.db, u.log, u.history, decode);
      CollectEnabled(DeliveryOf(w), u.db.signals.box);
    } else if e.Prepare? {
      PrepareDelivers(w, e, u, decode);
    } else {
      OtherEnabled(DeliveryOf(w));
    }
  }

  lemma CollectEnabled(s: System, box: Box)
    requires Unlocked(s) && BoxOk(box) && RowsKept(s.box, box)
    ensures Enabled(s, CollectStep(box)) && Next(s, CollectStep(box)) == s.(box := box)
  {
  }

  lemma OtherEnabled(s: System)
    ensures Enabled(s, OtherStep) && Next(s, OtherStep) == s
  {
  }

  // ---- every step keeps the world ----

  predicate IsLogEvent(e: Event) {
    e.BeginAppend? || e.EndAppend? || e.AbandonAppend? || e.RecordHealth?
  }

  lemma LogStepKeepsData(w: World, e: Event, u: World, decode: Decoder)
    requires DataOk(w, decode) && IsLogEvent(e) && LogStep(w, e, u, decode)
    ensures DataOk(u, decode)
  {
    hide DbOk;
    match e
    case BeginAppend(_) =>
    case EndAppend => GrowingLogKeeps(w.db, w.log, w.fence.line, w.history, decode);
    case AbandonAppend(torn) => GrowingLogKeeps(w.db, w.log, torn, w.history, decode);
    case RecordHealth(event) => GrowingHistoryKeeps(w.db, w.log, w.history, event, decode);
  }

  lemma PrepareKeepsData(w: World, p: nat, now: int, current: Option<Snapshot>, remaining: bool, u: World, decode: Decoder)
    requires DataOk(w, decode) && PrepareStep(w, p, now, current, remaining, u, decode)
    ensures DataOk(u, decode)
  {
    hide DbOk, Judge, Delivers, IsPage;
    match VerdictOf(w, p, now, current, remaining)
    case Send =>
    case Hold(code) => DeliveringKeepsData(w.(fence := Free), DeferStep(p, now, code, None), u, decode);
    case Drop(reason) => DeliveringKeepsData(w.(fence := Free), DeferStep(p, now, "entry_not_reviewable", Some(reason)), u, decode);
  }

  lemma StepKeepsData(w: World, e: Event, u: World, decode: Decoder, reviewMs: int)
    requires WorldOk(w, decode) && Step(w, e, u, decode, reviewMs)
    ensures DataOk(u, decode)
  {
    hide FenceInv, HolderOk, DataOk, Delivers, LogStep, CollectorStep, PrepareStep, PollOk;
    if IsLogEvent(e) {
      LogStepKeepsData(w, e, u, decode);
    } else if e.EndPoll? || e.Lose? {
      CollectorStepKeepsData(w, e, u, decode, reviewMs);
    } else if e.Prepare? {
      PrepareKeepsData(w, e.p, e.now, e.current, e.remaining, u, decode);
    } else if e.TakeFence? || e.BeginPoll? || e.AbandonPoll? {
      SameData(w, e, u, decode, reviewMs);
    } else {
      var m := if e.DieInCall? || e.Commit? || e.Crash? then Released(w, e.p) else w;
      FenceIsNoData(w, m, decode);
      DeliveringKeepsData(m, DeliveryStepOf(w, e, u), u, decode);
    }
  }

  lemma FenceIsNoData(w: World, m: World, decode: Decoder)
    requires DataOk(w, decode) && m.db == w.db && m.log == w.log && m.history == w.history
    ensures DataOk(m, decode)
  {
    hide DbOk;
  }

  lemma SameData(w: World, e: Event, u: World, decode: Decoder, reviewMs: int)
    requires DataOk(w, decode) && Step(w, e, u, decode, reviewMs) && (e.TakeFence? || e.BeginPoll? || e.AbandonPoll?)
    ensures DataOk(u, decode)
  {
    hide DbOk, IsPage;
  }

  predicate IsCollectorEvent(e: Event) {
    e.BeginPoll? || e.EndPoll? || e.AbandonPoll? || e.Lose?
  }

  /** While nobody is inside a sender's second transaction, only a poll or a sender outside it can act. */
  lemma UnlockedFrame(w: World, e: Event, u: World, decode: Decoder, reviewMs: int)
    requires Step(w, e, u, decode, reviewMs) && w.polling.Some? && Unlocked(DeliveryOf(w)) && !IsCollectorEvent(e) && !IsLogEvent(e)
    ensures u.db == w.db && u.log == w.log && u.history == w.history && u.polling == w.polling && Unlocked(DeliveryOf(u))
  {
    hide IsPage, Judge, Claim, Resolve, RetryFailed, Finish, Deferred, Probed, LogStep, CollectorStep;
    assert e.Crash?;
  }

  /** An open poll has the write lock: until it ends, the database and what it read of the log stay. */
  lemma StepKeepsPoll(w: World, e: Event, u: World, decode: Decoder, reviewMs: int)
    requires WorldOk(w, decode) && Step(w, e, u, decode, reviewMs)
    ensures PollOk(u, decode)
  {
    hide FenceInv, HolderOk, DbOk, IsPage, Collect, LoseSource, PrepareStep, Enabled, Next;
    if IsLogEvent(e) {
      if e.RecordHealth? && w.polling.Some? {
        GrowingHistoryKeeps(w.db, w.polling.value.seen, w.history, e.event, decode);
      }
    } else if !IsCollectorEvent(e) && w.polling.Some? {
      UnlockedFrame(w, e, u, decode, reviewMs);
    } else if e.Prepare? {
      NoPollBegins(w, e, u, decode, reviewMs);
    }
  }

  lemma NoPollBegins(w: World, e: Event, u: World, decode: Decoder, reviewMs: int)
    requires Step(w, e, u, decode, reviewMs) && e.Prepare?
    ensures u.polling == w.polling
  {
    hide IsPage, Judge, Enabled, Next;
  }

  /** Sender p stays inside its transaction over an event, and nothing moved but the health journal. */
  ghost predicate Unmoved(w: World, u: World, p: nat) {
    && u.db == w.db && u.log == w.log
    && p in w.senders && InTransaction(w.senders[p])
    && p in u.senders && InTransaction(u.senders[p]) && u.senders[p].id == w.senders[p].id
  }

  predicate IsLocked(w: World, p: nat) {
    p in w.senders && InTransaction(w.senders[p])
  }

  /** While one sender is inside its transaction, every other can only die. */
  lemma OnlyHolderActs(w: World, e: Event, u: World, p: nat, decode: Decoder, reviewMs: int)
    requires LockOk(ViewOf(w.db.signals.box), w.senders) && IsLocked(w, p)
    requires Step(w, e, u, decode, reviewMs) && !IsCollectorEvent(e) && !IsLogEvent(e)
    ensures e.TakeFence? || e.FenceBusy? || e.Prepare? || e.CallTransport? || e.DieInCall? || e.Commit? || e.Crash?
    ensures !e.Crash? ==> e.p == p
  {
    assert !Unlocked(DeliveryOf(w));
    assert forall q :: q in w.senders && InTransaction(w.senders[q]) ==> q == p;
    hide LockOk, Unlocked, Step;
    if !e.Crash? { StepNeedsLock(w, e, u, decode, reviewMs); }
  }

  lemma StepNeedsLock(w: World, e: Event, u: World, decode: Decoder, reviewMs: int)
    requires Step(w, e, u, decode, reviewMs) && !IsCollectorEvent(e) && !IsLogEvent(e) && !e.Crash?
    ensures if e.TakeClaim? || e.Begin? || e.OperatorResolves? || e.OperatorRetries? then Unlocked(DeliveryOf(w)) else IsLocked(w, e.p)
  {
    hide Unlocked, IsPage, Judge, Next, Claim, Resolve, RetryFailed, Finish, Deferred, Probed, LogStep, CollectorStep;
  }

  /** A sender that dies outside the fence leaves the holder alone. */
  lemma CrashFrame(w: World, e: Event, u: World, decode: Decoder, reviewMs: int)
    requires Step(w, e, u, decode, reviewMs) && e.Crash?
    ensures u == Released(w, e.p).(senders := w.senders[e.p := Idle])
  {
  }

  lemma CallFrame(w: World, e: Event, u: World, decode: Decoder, reviewMs: int)
    requires Step(w, e, u, decode, reviewMs) && e.CallTransport?
    ensures u.db == w.db && u.log == w.log && u.fence == w.fence && u.marked == w.marked && IsLocked(w, e.p) && IsLocked(u, e.p)
    ensures MayCall(w, e.p) && w.senders[e.p].Open? && u.senders[e.p].id == w.senders[e.p].id
  {
  }

  /** The sender that holds the fence cleared calls the transport, or ends and releases it. */
  lemma LockedFrame(w: World, e: Event, u: World, p: nat, decode: Decoder, reviewMs: int)
    requires LockOk(ViewOf(w.db.signals.box), w.senders) && IsLocked(w, p)
    requires Step(w, e, u, decode, reviewMs) && !IsCollectorEvent(e) && !IsLogEvent(e)
    requires w.fence.Cleared? && w.fence.p == p && u.fence == w.fence
    ensures Unmoved(w, u, p)
  {
    OnlyHolderActs(w, e, u, p, decode, reviewMs);
    hide LockOk;
    if e.CallTransport? {
      CallFrame(w, e, u, decode, reviewMs);
    } else if e.Crash? {
      CrashFrame(w, e, u, decode, reviewMs);
    } else {
      FenceMoves(w, e, u, decode, reviewMs);
    }
  }

  /** What the remaining steps of a sender inside its transaction do to the fence. */
  lemma FenceMoves(w: World, e: Event, u: World, decode: Decoder, reviewMs: int)
    requires Step(w, e, u, decode, reviewMs) && (e.TakeFence? || e.FenceBusy? || e.Prepare? || e.DieInCall? || e.Commit?)
    ensures if e.TakeFence? then w.fence.Free? && HasEntry(w, e.p) && u == w.(fence := Checking(e.p))
            else if e.FenceBusy? then u.fence == w.fence && !w.fence.Free? && !HeldBy(w.fence, e.p)
            else if e.Prepare? then w.fence == Checking(e.p) && (u.fence.Free? || u.fence.Cleared?)
            else !HeldBy(u.fence, e.p) && (u.fence == w.fence || u.fence.Free?)
    ensures u.marked == w.marked
  {
    hide IsPage, Judge, Enabled, Next, Probed;
  }

  lemma InLock(w: World, decode: Decoder)
    requires WorldOk(w, decode) && w.fence.Cleared?
    ensures LockOk(ViewOf(w.db.signals.box), w.senders) && w.fence.p in w.senders && InTransaction(w.senders[w.fence.p])
    ensures w.polling.None? && !Unlocked(DeliveryOf(w))
  {
    hide BoxOk, DbOk, IsPage, IsReviewable, ClaimsOk, CallsOk, LockOk;
  }

  lemma StepIs(w: World, e: Event, u: World, decode: Decoder, reviewMs: int)
    requires Step(w, e, u, decode, reviewMs)
    ensures IsLogEvent(e) ==> LogStep(w, e, u, decode)
    ensures IsCollectorEvent(e) ==> CollectorStep(w, e, u, decode, reviewMs)
    ensures e.Prepare? ==> PrepareStep(w, e.p, e.now, e.current, e.remaining, u, decode)
  {
    hide LogStep, CollectorStep, PrepareStep, Delivers;
  }

  /** A log that a sender has fenced off is not written. */
  lemma LogMoves(w: World, e: Event, u: World, decode: Decoder)
    requires IsLogEvent(e) && LogStep(w, e, u, decode) && w.fence.Cleared?
    ensures u.db == w.db && u.log == w.log && u.senders == w.senders
  {
  }

  /** The collector does not begin while somebody is inside a transaction. */
  lemma CollectorWaits(w: World, e: Event, u: World, decode: Decoder, reviewMs: int)
    requires IsCollectorEvent(e) && CollectorStep(w, e, u, decode, reviewMs)
    ensures WriteLockFree(w) || w.polling.Some?
  {
    hide IsPage, Collect, LoseSource, Depicts, Unlocked;
  }

  /** While an entry is cleared nothing it was checked against can move. */
  lemma ClearedStays(w: World, e: Event, u: World, decode: Decoder, reviewMs: int)
    requires WorldOk(w, decode) && Step(w, e, u, decode, reviewMs) && w.fence.Cleared? && u.fence == w.fence
    ensures Unmoved(w, u, w.fence.p)
  {
    InLock(w, decode);
    hide WorldOk, LockOk, Unlocked, Step, LogStep, CollectorStep;
    if IsLogEvent(e) {
      StepIs(w, e, u, decode, reviewMs);
      LogMoves(w, e, u, decode);
    } else if IsCollectorEvent(e) {
      StepIs(w, e, u, decode, reviewMs);
      CollectorWaits(w, e, u, decode, reviewMs);
    } else {
      LockedFrame(w, e, u, w.fence.p, decode, reviewMs);
    }
  }

  lemma PreparedIsReviewable(w: World, p: nat, now: int, current: Option<Snapshot>, remaining: bool, u: World, decode: Decoder)
    requires WorldOk(w, decode) && PrepareStep(w, p, now, current, remaining, u, decode) && !u.fence.Free?
    ensures HolderOk(u, decode)
  {
    var id := SenderOf(DeliveryOf(w), p).id;
    var row := RowOf(w.db.signals.box, id).value;
    hide FenceInv, DbOk, IsPage, IsReviewable;
    assert Judge(w.db, row, current, remaining, now).Send? && !remaining;
    var next :| IsPage(w.log, w.db.cursor, 1, decode, [], next);
    CheckedIsReviewable(w.db, w.log, w.history, decode, id, row, current, next, now);
  }

  lemma LogHolders(w: World, e: Event, u: World, decode: Decoder)
    requires HolderOk(w, decode) && IsLogEvent(e) && LogStep(w, e, u, decode) && !w.fence.Cleared?
    ensures HolderOk(u, decode)
  {
    hide IsReviewable;
  }

  lemma CollectorHolders(w: World, e: Event, u: World, decode: Decoder, reviewMs: int)
    requires HolderOk(w, decode) && IsCollectorEvent(e) && CollectorStep(w, e, u, decode, reviewMs) && !w.fence.Cleared?
    ensures HolderOk(u, decode)
  {
    hide IsReviewable, IsPage, Collect, LoseSource, Depicts;
  }

  /** A sender's step by one that does not hold the fence, while the fence is free or a writer's. */
  lemma FreeHolders(w: World, e: Event, u: World, decode: Decoder, reviewMs: int)
    requires Step(w, e, u, decode, reviewMs) && !IsLogEvent(e) && !IsCollectorEvent(e) && !e.Prepare? && !e.TakeFence?
    ensures u.marked == w.marked && (u.fence == w.fence || u.fence.Free?)
  {
    hide IsPage, Judge, Enabled, Next, Probed, LogStep, CollectorStep, PrepareStep;
  }

  lemma CheckingStays(w: World, e: Event, u: World, decode: Decoder, reviewMs: int)
    requires LockOk(ViewOf(w.db.signals.box), w.senders) && w.fence.Checking? && HasEntry(w, w.fence.p)
    requires Step(w, e, u, decode, reviewMs) && !IsLogEvent(e) && !IsCollectorEvent(e) && u.fence == w.fence
    ensures HasEntry(u, u.fence.p)
  {
    OnlyHolderActs(w, e, u, w.fence.p, decode, reviewMs);
    hide LockOk;
    if e.CallTransport? {
      CallFrame(w, e, u, decode, reviewMs);
    } else if e.Crash? {
      CrashFrame(w, e, u, decode, reviewMs);
    } else {
      FenceMoves(w, e, u, decode, reviewMs);
    }
  }

  lemma OtherHolders(w: World, e: Event, u: World, decode: Decoder, reviewMs: int)
    requires WorldOk(w, decode) && Step(w, e, u, decode, reviewMs) && !e.Prepare? && !(w.fence.Cleared? && u.fence == w.fence)
    requires !IsLogEvent(e) && !IsCollectorEvent(e)
    ensures HolderOk(u, decode)
  {
    hide FenceInv, IsReviewable, DataOk, PollOk, Step;
    if e.TakeFence? {
      FenceMoves(w, e, u, decode, reviewMs);
    } else {
      FreeHolders(w, e, u, decode, reviewMs);
      if w.fence.Checking? && u.fence == w.fence {
        InvHasLock(w, decode);
        CheckingStays(w, e, u, decode, reviewMs);
      }
    }
  }

  lemma InvHasLock(w: World, decode: Decoder)
    requires FenceInv(DeliveryOf(w))
    ensures LockOk(ViewOf(w.db.signals.box), w.senders)
  {
    hide LockOk, BoxOk, ClaimsOk, CallsOk;
  }

  lemma StepKeepsHolder(w: World, e: Event, u: World, decode: Decoder, reviewMs: int)
    requires WorldOk(w, decode) && Step(w, e, u, decode, reviewMs)
    ensures HolderOk(u, decode)
  {
    hide FenceInv, DataOk, PollOk, Step, IsReviewable, LogStep, CollectorStep, PrepareStep;
    StepIs(w, e, u, decode, reviewMs);
    if w.fence.Cleared? && u.fence == w.fence {
      ClearedStays(w, e, u, decode, reviewMs);
    } else if e.Prepare? {
      if !u.fence.Free? { PreparedIsReviewable(w, e.p, e.now, e.current, e.remaining, u, decode); }
    } else if IsLogEvent(e) {
      ClearedBlocks(w, e, u, decode, reviewMs);
      LogHolders(w, e, u, decode);
    } else if IsCollectorEvent(e) {
      ClearedBlocks(w, e, u, decode, reviewMs);
      CollectorHolders(w, e, u, decode, reviewMs);
    } else {
      OtherHolders(w, e, u, decode, reviewMs);
    }
  }

  /** Neither a writer nor the collector takes the fence from its holder. */
  lemma ClearedBlocks(w: World, e: Event, u: World, decode: Decoder, reviewMs: int)
    requires Step(w, e, u, decode, reviewMs) && (IsLogEvent(e) || IsCollectorEvent(e))
    ensures w.fence.Cleared? ==> u.fence == w.fence
  {
    hide IsPage, Collect, LoseSource, Depicts;
  }

  lemma StepKeepsWorld(w: World, e: Event, u: World, decode: Decoder, reviewMs: int)
    requires WorldOk(w, decode) && Step(w, e, u, decode, reviewMs)
    ensures WorldOk(u, decode)
  {
    StepKeepsData(w, e, u, decode, reviewMs);
    StepKeepsPoll(w, e, u, decode, reviewMs);
    StepKeepsHolder(w, e, u, decode, reviewMs);
    StepDelivers(w, e, u, decode, reviewMs);
    hide DataOk, PollOk, HolderOk, FenceInv, Step, DeliveryStepOf, Enabled, Next;
    StepKeepsFence(DeliveryOf(w), DeliveryStepOf(w, e, u));
  }

  // ---- runs ----

  ghost predicate IsRun(worlds: seq<World>, events: seq<Event>, decode: Decoder, reviewMs: int) {
    && |worlds| == |events| + 1 && worlds[0] == EMPTY_WORLD
    && forall i :: 0 <= i < |events| ==> Step(worlds[i], events[i], worlds[i + 1], decode, reviewMs)
  }

  lemma EmptyWorldOk(decode: Decoder)
    ensures WorldOk(EMPTY_WORLD, decode)
  {
    var none: Bytes := [];
    assert none[..0] == none;
    var v := ViewOf(EMPTY_DB.signals.box);
    forall id: AlertId ensures v(id).None? { }
    assert AtPrefix(none, START, decode);
    forall id: AlertId | id.EntryId? ensures EntryOk(v, map[], id) { assert v(id).None?; }
    forall id: AlertId | id.InvalidationId? ensures InvalidationOk(v, map[], id) { assert v(id).None?; }
    assert Lifecycle(EMPTY_DB.signals);
    assert HealthOk(v, [], 0) && RuntimeOk(v, 0);
  }

  /** In every state of every run the consumed cycles are exactly those of the log before the cursor,
      each reportable health event before the health cursor has exactly its alert, the signal lifecycle
      and the claim fence hold, and an entry that is cleared to be sent is reviewable. */
  lemma {:induction false} RunsAreExact(worlds: seq<World>, events: seq<Event>, decode: Decoder, reviewMs: int, i: nat)
    requires IsRun(worlds, events, decode, reviewMs) && i < |worlds|
    ensures WorldOk(worlds[i], decode)
  {
    hide WorldOk, Step;
    if i == 0 {
      EmptyWorldOk(decode);
    } else {
      RunsAreExact(worlds, events, decode, reviewMs, i - 1);
      StepKeepsWorld(worlds[i - 1], events[i - 1], worlds[i], decode, reviewMs);
    }
  }

  /** A call is new in u. */
  predicate IsCall(w: World, u: World, c: Call) {
    u.calls == w.calls + [c]
  }

  /** The transport is called by one sender at a time, which for an entry holds the fence cleared. */
  lemma OnlySendersCall(w: World, e: Event, u: World, decode: Decoder, reviewMs: int)
    requires Step(w, e, u, decode, reviewMs) && u.calls != w.calls
    ensures (e.CallTransport? || e.DieInCall?) && e.p in w.senders && w.senders[e.p].Open? && MayCall(w, e.p)
    ensures IsCall(w, u, Call(w.senders[e.p].id, w.senders[e.p].claim))
  {
    hide IsPage, Judge, Collect, LoseSource, Claim, Deferred, Finish, Resolve, RetryFailed, LogStep, CollectorStep, Probed, RowOf;
    if IsLogEvent(e) || IsCollectorEvent(e) || e.Prepare? { StepCalls(w, e, u, decode, reviewMs); }
  }

  lemma StepCalls(w: World, e: Event, u: World, decode: Decoder, reviewMs: int)
    requires Step(w, e, u, decode, reviewMs) && (IsLogEvent(e) || IsCollectorEvent(e) || e.Prepare?)
    ensures u.calls == w.calls
  {
    hide IsPage, Judge, Collect, LoseSource, Claim, Deferred, Finish, Resolve, RetryFailed, Probed, RowOf;
  }

  lemma CallIsCleared(w: World, e: Event, u: World, c: Call, decode: Decoder, reviewMs: int)
    requires WorldOk(w, decode) && Step(w, e, u, decode, reviewMs) && IsCall(w, u, c) && c.id.EntryId?
    ensures w.fence.Cleared? && IsLocked(w, w.fence.p) && w.senders[w.fence.p] == Open(c.id, c.claim)
    ensures IsReviewable(w.db, w.log, c.id, w.fence.checkedAtMs, decode)
  {
    hide FenceInv, PollOk, DataOk, IsReviewable, Step;
    assert |u.calls| == |w.calls| + 1 && u.calls[|w.calls|] == c;
    OnlySendersCall(w, e, u, decode, reviewMs);
  }

  /** Every call in the record was made by some step of the run. */
  lemma {:induction false} EveryCallIsMade(worlds: seq<World>, events: seq<Event>, decode: Decoder, reviewMs: int, m: nat, i: nat) returns (k: nat)
    requires IsRun(worlds, events, decode, reviewMs) && m < |worlds| && i < |worlds[m].calls|
    ensures k < m && IsCall(worlds[k], worlds[k + 1], worlds[m].calls[i])
  {
    hide Step;
    if worlds[m].calls != worlds[m - 1].calls {
      OnlySendersCall(worlds[m - 1], events[m - 1], worlds[m], decode, reviewMs);
    }
    if i < |worlds[m - 1].calls| {
      k := EveryCallIsMade(worlds, events, decode, reviewMs, m - 1, i);
    } else {
      k := m - 1;
    }
  }

  /** The call of an entry, in the state it was made in. */
  ghost predicate IsSentOnEvidence(w: World, u: World, c: Call, checkedAtMs: int, decode: Decoder) {
    IsCall(w, u, c) && c.id.EntryId? && IsReviewable(w.db, w.log, c.id, checkedAtMs, decode)
  }

  /** Between two states neither the database nor the log moved. */
  ghost predicate IsStill(worlds: seq<World>, j: nat, k: nat)
    requires k < |worlds|
  {
    forall i :: j <= i <= k ==> worlds[i].db == worlds[k].db && worlds[i].log == worlds[k].log
  }

  /** Every call of the transport for an entry, in every run: in the state of the call the entry is
      unsuppressed, the active event of its stream and the only open entry of its symbol, the whole log
      is consumed exactly, and its last cycle shows the signal; and the sender checked this very
      database and log before, at a time inside the review window. */
  lemma SentOnCompleteEvidence(worlds: seq<World>, events: seq<Event>, decode: Decoder, reviewMs: int, m: nat, i: nat)
    returns (j: nat, k: nat)
    requires IsRun(worlds, events, decode, reviewMs) && m < |worlds|
    requires i < |worlds[m].calls| && worlds[m].calls[i].id.EntryId?
    ensures j < k < m && events[j].Prepare? && IsSentOnEvidence(worlds[k], worlds[k + 1], worlds[m].calls[i], events[j].now, decode)
    ensures worlds[k].fence == Cleared(events[j].p, events[j].now) && IsStill(worlds, j, k)
  {
    hide WorldOk, Step, IsReviewable;
    k := EveryCallIsMade(worlds, events, decode, reviewMs, m, i);
    RunsAreExact(worlds, events, decode, reviewMs, k);
    CallIsCleared(worlds[k], events[k], worlds[k + 1], worlds[m].calls[i], decode, reviewMs);
    j := ClearedByCheck(worlds, events, decode, reviewMs, k);
  }

  /** A fence that is cleared was cleared by a check, and nothing it was checked against moved since. */
  lemma {:induction false} ClearedByCheck(worlds: seq<World>, events: seq<Event>, decode: Decoder, reviewMs: int, k: nat) returns (j: nat)
    requires IsRun(worlds, events, decode, reviewMs) && k < |worlds| && worlds[k].fence.Cleared?
    ensures j < k && events[j].Prepare? && Cleared(events[j].p, events[j].now) == worlds[k].fence
    ensures IsStill(worlds, j, k)
  {
    hide WorldOk, Step;
    assert k > 0;
    RunsAreExact(worlds, events, decode, reviewMs, k - 1);
    if worlds[k - 1].fence == worlds[k].fence {
      j := ClearedByCheck(worlds, events, decode, reviewMs, k - 1);
      ClearedStays(worlds[k - 1], events[k - 1], worlds[k], decode, reviewMs);
    } else {
      j := k - 1;
      ClearingStep(worlds[j], events[j], worlds[k], decode, reviewMs);
    }
  }

  lemma ClearingStep(w: World, e: Event, u: World, decode: Decoder, reviewMs: int)
    requires Step(w, e, u, decode, reviewMs) && u.fence.Cleared? && u.fence != w.fence
    ensures e.Prepare? && u.fence == Cleared(e.p, e.now) && u.db == w.db && u.log == w.log
  {
    hide IsPage, Judge, Enabled, Next, Probed, Collect, LoseSource;
  }

  // ---- the senders' theorems hold in the whole system ----

  ghost function DeliverySteps(worlds: seq<World>, events: seq<Event>): (r: seq<Delivery.Step>)
    requires |worlds| == |events| + 1
    ensures |r| == |events| && forall i :: 0 <= i < |events| ==> r[i] == DeliveryStepOf(worlds[i], events[i], worlds[i + 1])
  {
    seq(|events|, i requires 0 <= i < |events| => DeliveryStepOf(worlds[i], events[i], worlds[i + 1]))
  }

  ghost function DeliveryStates(worlds: seq<World>): (r: seq<System>)
    ensures |r| == |worlds| && forall i :: 0 <= i < |worlds| ==> r[i] == DeliveryOf(worlds[i])
  {
    seq(|worlds|, i requires 0 <= i < |worlds| => DeliveryOf(worlds[i]))
  }

  /** Every run of the whole system is, step by step, a run of the senders' protocol, so that whatever
      holds of all runs of the protocol holds of the system. */
  lemma RunsFollowTheProtocol(worlds: seq<World>, events: seq<Event>, decode: Decoder, reviewMs: int)
    requires IsRun(worlds, events, decode, reviewMs)
    ensures Delivery.IsRun(DeliverySteps(worlds, events), DeliveryStates(worlds))
  {
    hide WorldOk, Step, DeliveryStepOf, Enabled, Next, DeliverySteps, DeliveryStates;
    var steps, states := DeliverySteps(worlds, events), DeliveryStates(worlds);
    forall i | 0 <= i < |steps| ensures Enabled(states[i], steps[i]) && states[i + 1] == Next(states[i], steps[i]) {
      RunsAreExact(worlds, events, decode, reviewMs, i);
      StepDelivers(worlds[i], events[i], worlds[i + 1], decode, reviewMs);
    }
  }

  /** In the whole system too, with a truthful operator, the server accepts each event at most once. */
  lemma AcceptedOnce(worlds: seq<World>, events: seq<Event>, decode: Decoder, reviewMs: int, k: nat, i: nat, j: nat)
    requires IsRun(worlds, events, decode, reviewMs) && k < |worlds| && i < j < |worlds[k].accepted|
    requires forall m :: 0 <= m < k && events[m].OperatorResolves? && events[m].outcome.Failed? ==> events[m].id !in worlds[m].accepted
    ensures worlds[k].accepted[i] != worlds[k].accepted[j]
  {
    RunsFollowTheProtocol(worlds, events, decode, reviewMs);
    var steps, states := DeliverySteps(worlds, events), DeliveryStates(worlds);
    forall m | 0 <= m < k ensures Truthful(states[m], steps[m]) { OnlyOperatorResolves(worlds[m], events[m], worlds[m + 1]); }
    hide Delivery.IsRun, Step, Truthful;
    AcceptedAtMostOnce(steps, states, k, i, j);
  }

  lemma OnlyOperatorResolves(w: World, e: Event, u: World)
    ensures var d := DeliveryStepOf(w, e, u); d.ResolveStep? ==> e.OperatorResolves? && e.id == d.id && e.outcome == d.outcome
  {
    hide Judge;
  }

  /** In a reachable database every entry can be judged: it has a deadline and its own evidence. */
  lemma EntriesCanBeJudged(db: Db, log: Bytes, history: seq<HealthEvent>, decode: Decoder, id: AlertId)
    requires DbOk(db, log, history, decode) && id.EntryId? && ViewOf(db.signals.box)(id).Some?
    ensures var row := ViewOf(db.signals.box)(id).value;
      row.alert.reviewUntilMs.Some? && row.alert.observation.Some? && KeyOf(row.alert.observation.value) == Some(id.signal)
  {
    assert EntryOk(ViewOf(db.signals.box), db.signals.streams, id);
  }
}
