/** The signal stream of each symbol, and what observing and invalidating signals does to the
  streams and the outbox. */
module SignalStreams {
  import opened Basics
  import opened Alerts
  import opened Outbox
  import opened OutboxViews

  datatype Stream = Stream(
    counter: nat,
    createdAtMs: int,
    observedAtMs: int,
    active: Option<AlertId>,
    signalKey: Option<SignalKey>,
    lastSeenMs: int,
    lastResult: Option<string>,
    serviceRun: Option<string>,
    collectionRun: Option<string>)

  const NEW_STREAM := Stream(0, 0, 0, None, None, 0, None, None, None)

  type Streams = map<string, Stream>

  /** The tables a signal touches, and the count of observations that arrived out of order. */
  datatype Signals = Signals(box: Box, streams: Streams, outOfOrder: nat)

  function StreamOf(streams: Streams, symbol: string): Stream {
    if symbol in streams then streams[symbol] else NEW_STREAM
  }

  function KeyOf(o: Observation): Option<SignalKey> {
    match o.outcome
    case ReadyForReview(Some(at), decision, _, _) => Some(SignalKey(o.symbol, o.strategy, o.config, at, decision))
    case _ => None
  }

  // ---- invalidation ----

  function InvalidationAlert(entry: AlertId, reason: Reason, now: int, evidence: Option<Observation>): Alert {
    Alert(InvalidationId(entry, reason), now, None, reason, evidence, [])
  }

  /** Withdraw the active reminder.  A withdrawal is mailed only if the entry may have been. */
  function Invalidate(d: Signals, symbol: string, stream: Stream, reason: Reason, now: int, evidence: Option<Observation>)
    : Checked<(Signals, Stream)>
    requires stream.active.Some?
  {
    var id := stream.active.value;
    match Record(d.box, id)
    case Err(e) => Err(e)
    case Ok(None) => Err(NotificationError)
    case Ok(Some(i)) =>
      var entry := d.box.rows[i];
      var unseen := !entry.state.Confirmed? && !entry.state.Unknown?;
      var alert := InvalidationAlert(id, reason, now, if evidence.Some? then evidence else entry.alert.observation);
      match Enqueue(d.box, alert, now, if unseen then Some(HistoricalEvent) else None)
      case Err(e) => Err(e)
      case Ok(b1) =>
        match Suppress(b1, id, reason, now)
        case Err(e) => Err(e)
        case Ok(b2) =>
          var s := stream.(active := None, signalKey := None);
          Ok((d.(box := b2, streams := d.streams[symbol := s]), s))
  }

  // ---- observation ----

  /** A matching authoritative cycle of another service run starts a new ordering epoch. */
  function EnterEpoch(d: Signals, o: Observation, stream: Stream, now: int, run: Option<string>): Checked<(Signals, Stream)> {
    if run.None? || stream.serviceRun == run then Ok((d, stream))
    else if stream.active.Some? && o.observedAtMs < stream.lastSeenMs then
      match Invalidate(d, o.symbol, stream, SourceUnavailable, now, None)
      case Err(e) => Err(e)
      case Ok((d1, s1)) => Ok((d1, s1.(serviceRun := run, createdAtMs := 0, observedAtMs := 0, lastResult := None)))
    else Ok((d, stream.(serviceRun := run, createdAtMs := 0, observedAtMs := 0, lastResult := None)))
  }

  predicate IsOutOfOrder(o: Observation, stream: Stream, now: int) {
    o.createdAtMs > now || o.observedAtMs > now || o.createdAtMs < stream.createdAtMs || o.observedAtMs < stream.observedAtMs
  }

  function Save(d: Signals, symbol: string, stream: Stream): Signals {
    d.(streams := d.streams[symbol := stream])
  }

  /** An observation against the stream of its epoch: out of order, repeated, or news. */
  function Accept(d: Signals, o: Observation, s: Stream, now: int, reviewMs: int, collection: Option<string>): Checked<Signals> {
    if IsOutOfOrder(o, s, now) then Ok(d.(outOfOrder := d.outOfOrder + 1))
    else if s.lastResult.Some? && o.createdAtMs == s.createdAtMs && o.observedAtMs == s.observedAtMs then
      if s.lastResult != Some(o.fingerprint) then Err(NotificationError)
      else Ok(Save(d, o.symbol, s.(collectionRun := collection)))
    else
      var s2 := s.(createdAtMs := o.createdAtMs, observedAtMs := o.observedAtMs, lastResult := Some(o.fingerprint), collectionRun := collection);
      if o.outcome.ReadyForReview? then Confirm(d, o, s2, now, reviewMs)
      else if s2.active.Some? then
        var reason := if o.outcome.NormalNoAction? then DecisionChanged else SourceUnavailable;
        match Invalidate(d, o.symbol, s2, reason, now, Some(o))
        case Err(e) => Err(e)
        case Ok((d1, s3)) => Ok(Save(d1, o.symbol, s3))
      else Ok(Save(d, o.symbol, s2))
  }

  function Observe(d: Signals, o: Observation, now: int, reviewMs: int, run: Option<string>, collection: Option<string>): Checked<Signals> {
    match EnterEpoch(d, o, StreamOf(d.streams, o.symbol), now, run)
    case Err(e) => Err(e)
    case Ok((d1, s1)) => Accept(d1, o, s1, now, reviewMs, collection)
  }

  function EntryAlert(o: Observation, key: SignalKey, transition: nat, reviewMs: int): Alert {
    Alert(EntryId(key, transition), o.observedAtMs, Some(o.observedAtMs + reviewMs), Ready, Some(o), [])
  }

  /** A ready observation extends the active signal, or replaces it by a new entry alert. */
  function Confirm(d: Signals, o: Observation, stream: Stream, now: int, reviewMs: int): Checked<Signals> {
    var key := KeyOf(o);
    if key.None? then Err(NotificationError)
    else if stream.signalKey == key then Ok(Save(d, o.symbol, stream.(lastSeenMs := o.observedAtMs)))
    else if stream.active.Some? then
      match Invalidate(d, o.symbol, stream, SignalReplaced, now, None)
      case Err(e) => Err(e)
      case Ok((d1, s1)) => Enter(d1, o, s1, key.value, now, reviewMs)
    else Enter(d, o, stream, key.value, now, reviewMs)
  }

  function Entered(s: Stream, o: Observation, id: AlertId, key: SignalKey): Stream {
    s.(counter := s.counter + 1, active := Some(id), signalKey := Some(key), lastSeenMs := o.observedAtMs)
  }

  function LateReview(o: Observation, now: int, reviewMs: int): Option<Reason> {
    if now < o.observedAtMs || now >= o.observedAtMs + reviewMs then Some(ReviewExpired) else None
  }

  /** What an entry reminder must be able to show. */
  predicate IsComplete(o: Observation) {
    KeyOf(o).Some? && o.outcome.triggerPrice.Some? && o.outcome.initialStop.Some?
  }

  function Enter(d: Signals, o: Observation, stream: Stream, key: SignalKey, now: int, reviewMs: int): Checked<Signals> {
    var alert := EntryAlert(o, key, stream.counter + 1, reviewMs);
    if !IsComplete(o) then Err(NotificationError) else
    match Enqueue(d.box, alert, now, LateReview(o, now, reviewMs))
    case Err(e) => Err(e)
    case Ok(b) => Ok(Save(d.(box := b), o.symbol, Entered(stream, o, alert.id, key)))
  }

  // ---- the lifecycle invariant ----

  ghost predicate StreamOk(v: View, symbol: string, s: Stream) {
    && s.active.Some? == s.signalKey.Some?
    && (s.active.Some? ==>
          var id := s.active.value;
          && id.EntryId? && id.signal.symbol == symbol && s.signalKey == Some(id.signal)
          && id.transition <= s.counter
          && v(id).Some?)
  }

  /** An entry alert has a review window and its own evidence; unsuppressed, it is the active event. */
  ghost predicate EntryOk(v: View, streams: Streams, id: AlertId)
    requires id.EntryId?
  {
    v(id).Some? ==>
      var row, stream := v(id).value, StreamOf(streams, id.signal.symbol);
      && row.alert.id == id
      && row.alert.reviewUntilMs.Some? && row.alert.observation.Some? && KeyOf(row.alert.observation.value) == Some(id.signal)
      && 1 <= id.transition <= stream.counter
      && (row.suppressed.None? ==> stream.active == Some(id))
  }

  /** An invalidation names an entry that exists and is not active any more. */
  ghost predicate InvalidationOk(v: View, streams: Streams, id: AlertId)
    requires id.InvalidationId?
  {
    v(id).Some? ==>
      && id.entry.EntryId? && v(id.entry).Some?
      && StreamOf(streams, id.entry.signal.symbol).active != Some(id.entry)
  }

  ghost predicate AtMostOneInvalidation(v: View) {
    forall e: AlertId, r: Reason, s: Reason {:trigger v(InvalidationId(e, r)), v(InvalidationId(e, s))} ::
      v(InvalidationId(e, r)).Some? && v(InvalidationId(e, s)).Some? ==> r == s
  }

  ghost predicate StreamsOk(v: View, streams: Streams) {
    && (forall y :: y in streams ==> StreamOk(v, y, streams[y]))
    && (forall id: AlertId {:trigger v(id)} :: id.EntryId? ==> EntryOk(v, streams, id))
    && (forall id: AlertId {:trigger v(id)} :: id.InvalidationId? ==> InvalidationOk(v, streams, id))
    && AtMostOneInvalidation(v)
  }

  /** Every unsuppressed entry alert is the active event of its symbol's stream, an entry has at most
      one invalidation, and an invalidated entry is never active. */
  ghost predicate Lifecycle(d: Signals) {
    BoxOk(d.box) && StreamsOk(ViewOf(d.box), d.streams)
  }

  predicate IsSignalId(id: AlertId) {
    id.EntryId? || id.InvalidationId?
  }

  /** Only rows of entries and invalidations change. */
  ghost predicate SignalMove(v: View, w: View) {
    forall id: AlertId {:trigger w(id)} :: !IsSignalId(id) ==> w(id) == v(id)
  }

  /** Only rows of other alerts change, so the streams are as they were. */
  lemma OtherMoveKeeps(v: View, w: View, streams: Streams)
    requires StreamsOk(v, streams)
    requires forall id: AlertId {:trigger w(id)} :: IsSignalId(id) ==> w(id) == v(id)
    ensures StreamsOk(w, streams)
  {
    forall id: AlertId | id.EntryId? ensures EntryOk(w, streams, id) { assert w(id) == v(id); assert EntryOk(v, streams, id); }
    forall id: AlertId | id.InvalidationId? ensures InvalidationOk(w, streams, id) {
      assert w(id) == v(id) && InvalidationOk(v, streams, id);
      if id.entry.EntryId? { assert w(id.entry) == v(id.entry); }
    }
    forall y | y in streams ensures StreamOk(w, y, streams[y]) {
      assert StreamOk(v, y, streams[y]);
      if streams[y].active.Some? { assert w(streams[y].active.value) == v(streams[y].active.value); }
    }
    forall x: AlertId, r: Reason, q: Reason | w(InvalidationId(x, r)).Some? && w(InvalidationId(x, q)).Some? ensures r == q {
      assert w(InvalidationId(x, r)) == v(InvalidationId(x, r)) && w(InvalidationId(x, q)) == v(InvalidationId(x, q));
    }
  }

  /** Nothing is added, and no alert or suppression changes: what delivering does. */
  ghost predicate DeliveryMove(v: View, w: View) {
    forall id: AlertId {:trigger w(id)} :: v(id).Some? == w(id).Some?
      && (w(id).Some? ==> w(id).value.alert == v(id).value.alert && w(id).value.suppressed == v(id).value.suppressed)
  }

  lemma DeliveryMoveKeeps(v: View, w: View, streams: Streams)
    requires StreamsOk(v, streams) && DeliveryMove(v, w)
    ensures StreamsOk(w, streams)
  {
    forall id: AlertId | id.EntryId? ensures EntryOk(w, streams, id) { assert v(id).Some? == w(id).Some?; assert EntryOk(v, streams, id); }
    forall id: AlertId | id.InvalidationId? ensures InvalidationOk(w, streams, id) {
      assert v(id).Some? == w(id).Some? && InvalidationOk(v, streams, id);
      if id.entry.EntryId? { assert v(id.entry).Some? == w(id.entry).Some?; }
    }
    forall y | y in streams ensures StreamOk(w, y, streams[y]) {
      assert StreamOk(v, y, streams[y]);
      if streams[y].active.Some? { assert v(streams[y].active.value).Some? == w(streams[y].active.value).Some?; }
    }
    forall x: AlertId, r: Reason, q: Reason | w(InvalidationId(x, r)).Some? && w(InvalidationId(x, q)).Some? ensures r == q {
      assert v(InvalidationId(x, r)).Some? && v(InvalidationId(x, q)).Some?;
    }
  }

  // ---- changes of the view ----

  /** Withdrawing the active entry: its invalidation is recorded, the entry suppressed. */
  lemma WithdrawKeeps(v: View, m: View, w: View, streams: Streams, symbol: string, s: Stream, next: Stream, reason: Reason)
    requires StreamsOk(v, streams) && StreamOf(streams, symbol).active == s.active && s.active.Some?
    requires s.counter == StreamOf(streams, symbol).counter == next.counter
    requires next.active.None? && next.signalKey.None?
    requires var e := s.active.value;
      && OnlyRow(v, m, InvalidationId(e, reason)) && m(InvalidationId(e, reason)).Some?
      && OnlyRow(m, w, e) && v(e).Some?
      && w(e).Some? && w(e).value.suppressed.Some? && w(e).value == v(e).value.(suppressed := w(e).value.suppressed)
    ensures StreamsOk(w, streams[symbol := next])
  {
    var e := s.active.value;
    assert symbol in streams && StreamOk(v, symbol, streams[symbol]);
    var u := streams[symbol := next];
    forall id: AlertId | id.EntryId? ensures EntryOk(w, u, id) {
      assert EntryOk(v, streams, id);
      if id != e { assert w(id) == m(id) == v(id); }
    }
    forall id: AlertId | id.InvalidationId? ensures InvalidationOk(w, u, id) {
      assert w(id) == m(id);
      if id != InvalidationId(e, reason) { assert m(id) == v(id); assert InvalidationOk(v, streams, id); }
    }
    forall y | y in u ensures StreamOk(w, y, u[y]) {
      if y != symbol {
        assert StreamOk(v, y, streams[y]);
        if u[y].active.Some? {
          var id := u[y].active.value;
          assert id != e;
          assert w(id) == m(id) == v(id);
        }
      }
    }
    forall x: AlertId, r: Reason, q: Reason | w(InvalidationId(x, r)).Some? && w(InvalidationId(x, q)).Some? ensures r == q {
      assert w(InvalidationId(x, r)) == m(InvalidationId(x, r)) && w(InvalidationId(x, q)) == m(InvalidationId(x, q));
      if x == e {
        assert InvalidationOk(v, streams, InvalidationId(x, r)) && InvalidationOk(v, streams, InvalidationId(x, q));
      } else {
        assert m(InvalidationId(x, r)) == v(InvalidationId(x, r)) && m(InvalidationId(x, q)) == v(InvalidationId(x, q));
      }
    }
  }

  /** Storing a stream that keeps its counter and active event. */
  lemma SaveKeeps(v: View, streams: Streams, symbol: string, next: Stream)
    requires StreamsOk(v, streams)
    requires var s := StreamOf(streams, symbol); next.counter == s.counter && next.active == s.active && next.signalKey == s.signalKey
    ensures StreamsOk(v, streams[symbol := next])
  {
    var u := streams[symbol := next];
    forall id: AlertId | id.EntryId? ensures EntryOk(v, u, id) { assert EntryOk(v, streams, id); }
    forall id: AlertId | id.InvalidationId? ensures InvalidationOk(v, u, id) { assert InvalidationOk(v, streams, id); }
    assert symbol in streams ==> StreamOk(v, symbol, streams[symbol]);
  }

  /** Recording a new entry on a stream without an active event. */
  lemma EnterKeeps(v: View, w: View, streams: Streams, symbol: string, next: Stream, id: AlertId)
    requires StreamsOk(v, streams) && StreamOf(streams, symbol).active.None?
    requires id.EntryId? && id.signal.symbol == symbol && id.transition == next.counter == StreamOf(streams, symbol).counter + 1
    requires OnlyRow(v, w, id) && w(id).Some?
    requires w(id).value.alert.id == id && w(id).value.alert.reviewUntilMs.Some?
    requires w(id).value.alert.observation.Some? && KeyOf(w(id).value.alert.observation.value) == Some(id.signal)
    requires next.active == Some(id) && next.signalKey == Some(id.signal)
    ensures StreamsOk(w, streams[symbol := next])
  {
    var u := streams[symbol := next];
    assert EntryOk(v, streams, id);
    assert v(id).None?;
    forall x: AlertId | x.EntryId? ensures EntryOk(w, u, x) {
      if x != id { assert w(x) == v(x); assert EntryOk(v, streams, x); }
    }
    forall x: AlertId | x.InvalidationId? ensures InvalidationOk(w, u, x) {
      assert w(x) == v(x); assert InvalidationOk(v, streams, x);
    }
    forall y | y in u ensures StreamOk(w, y, u[y]) {
      if y != symbol {
        assert StreamOk(v, y, streams[y]);
        if u[y].active.Some? { assert w(u[y].active.value) == v(u[y].active.value); }
      }
    }
    forall x: AlertId, r: Reason, q: Reason | w(InvalidationId(x, r)).Some? && w(InvalidationId(x, q)).Some? ensures r == q {
      assert w(InvalidationId(x, r)) == v(InvalidationId(x, r)) && w(InvalidationId(x, q)) == v(InvalidationId(x, q));
    }
  }

  // ---- the operations keep the lifecycle ----

  lemma InvalidateKeeps(d: Signals, symbol: string, s: Stream, reason: Reason, now: int, evidence: Option<Observation>)
    requires Lifecycle(d) && s.active.Some? && StreamOf(d.streams, symbol).active == s.active
    requires s.counter == StreamOf(d.streams, symbol).counter
    ensures var r := Invalidate(d, symbol, s, reason, now, evidence);
      r.Ok? ==>
        && Lifecycle(r.value.0) && r.value.0.outOfOrder == d.outOfOrder
        && r.value.1 == s.(active := None, signalKey := None)
        && r.value.0.streams == d.streams[symbol := r.value.1]
        && RowOf(r.value.0.box, InvalidationId(s.active.value, reason)).Some?
        && SignalMove(ViewOf(d.box), ViewOf(r.value.0.box))
  {
    var r := Invalidate(d, symbol, s, reason, now, evidence);
    if r.Ok? {
      var id := s.active.value;
      var entry := d.box.rows[Find(d.box.rows, id).value];
      var unseen := !entry.state.Confirmed? && !entry.state.Unknown?;
      var alert := InvalidationAlert(id, reason, now, if evidence.Some? then evidence else entry.alert.observation);
      var suppressed := if unseen then Some(HistoricalEvent) else None;
      WithdrawViews(d.box, alert, suppressed, id, reason, now);
      var b1 := Enqueue(d.box, alert, now, suppressed).value;
      WithdrawKeeps(ViewOf(d.box), ViewOf(b1), ViewOf(r.value.0.box), d.streams, symbol, s, r.value.1, reason);
      assert d.streams[symbol].active == Some(id) && StreamOk(ViewOf(d.box), symbol, d.streams[symbol]);
    }
  }

  lemma WithdrawViews(o: Box, alert: Alert, suppressed: Option<Reason>, id: AlertId, reason: Reason, now: int)
    requires BoxOk(o) && alert.id != id && Enqueue(o, alert, now, suppressed).Ok?
    requires Suppress(Enqueue(o, alert, now, suppressed).value, id, reason, now).Ok?
    ensures var m := Enqueue(o, alert, now, suppressed).value;
      var u := Suppress(m, id, reason, now).value;
      && OnlyRow(ViewOf(o), ViewOf(m), alert.id) && ViewOf(m)(alert.id).Some?
      && OnlyRow(ViewOf(m), ViewOf(u), id) && ViewOf(o)(id).Some?
      && ViewOf(u)(id).Some? && ViewOf(u)(id).value.suppressed.Some?
      && ViewOf(u)(id).value == ViewOf(o)(id).value.(suppressed := ViewOf(u)(id).value.suppressed)
      && RowOf(u, alert.id).Some?
      && BoxOk(u)
  {
    var m := Enqueue(o, alert, now, suppressed).value;
    EnqueueView(o, alert, now, suppressed);
    ChangeKeepsBox(o, DoEnqueue(alert, suppressed), now);
    SuppressView(m, id, reason, now);
    ChangeKeepsBox(m, DoSuppress(id, reason), now);
    var u := Suppress(m, id, reason, now).value;
    assert ViewOf(m)(id) == ViewOf(o)(id);
    assert ViewOf(u)(alert.id) == ViewOf(m)(alert.id);
  }

  /** Recording a new entry and storing its stream, on the view. */
  lemma EnterStreams(v: View, w: View, streams: Streams, o: Observation, s: Stream, key: SignalKey, alert: Alert, reviewMs: int)
    requires StreamsOk(v, streams) && StreamOf(streams, o.symbol).active.None? && s.counter == StreamOf(streams, o.symbol).counter
    requires KeyOf(o) == Some(key) && alert == EntryAlert(o, key, s.counter + 1, reviewMs)
    requires OnlyRow(v, w, alert.id) && w(alert.id).Some? && (v(alert.id).None? ==> w(alert.id).value.alert == alert)
    ensures StreamsOk(w, streams[o.symbol := Entered(s, o, alert.id, key)]) && SignalMove(v, w)
  {
    assert EntryOk(v, streams, alert.id);
    EnterKeeps(v, w, streams, o.symbol, Entered(s, o, alert.id, key), alert.id);
  }

  lemma EnqueueViews(o: Box, alert: Alert, now: int, suppressed: Option<Reason>)
    requires BoxOk(o) && Enqueue(o, alert, now, suppressed).Ok?
    ensures var u := Enqueue(o, alert, now, suppressed).value;
      && BoxOk(u) && OnlyRow(ViewOf(o), ViewOf(u), alert.id) && ViewOf(u)(alert.id).Some?
      && (ViewOf(o)(alert.id).None? ==> ViewOf(u)(alert.id).value.alert == alert)
  {
    EnqueueView(o, alert, now, suppressed);
    ChangeKeepsBox(o, DoEnqueue(alert, suppressed), now);
  }

  lemma EnterLifecycle(d: Signals, o: Observation, s: Stream, key: SignalKey, now: int, reviewMs: int)
    requires Lifecycle(d) && KeyOf(o) == Some(key) && StreamOf(d.streams, o.symbol).active.None?
    requires s.counter == StreamOf(d.streams, o.symbol).counter
    ensures var r := Enter(d, o, s, key, now, reviewMs); r.Ok? ==> Lifecycle(r.value) && SignalMove(ViewOf(d.box), ViewOf(r.value.box))
  {
    var r := Enter(d, o, s, key, now, reviewMs);
    if r.Ok? {
      var alert := EntryAlert(o, key, s.counter + 1, reviewMs);
      EnqueueViews(d.box, alert, now, LateReview(o, now, reviewMs));
      EnterStreams(ViewOf(d.box), ViewOf(r.value.box), d.streams, o, s, key, alert, reviewMs);
    }
  }

  /** A stream that may be stored in place of the saved one. */
  ghost predicate Compatible(d: Signals, symbol: string, s: Stream) {
    var saved := StreamOf(d.streams, symbol);
    s.counter == saved.counter && s.active == saved.active && s.signalKey == saved.signalKey
  }

  lemma EpochKeeps(d: Signals, o: Observation, now: int, run: Option<string>)
    requires Lifecycle(d)
    ensures var r := EnterEpoch(d, o, StreamOf(d.streams, o.symbol), now, run);
      r.Ok? ==> Lifecycle(r.value.0) && Compatible(r.value.0, o.symbol, r.value.1) && SignalMove(ViewOf(d.box), ViewOf(r.value.0.box))
  {
    var stream := StreamOf(d.streams, o.symbol);
    if run.Some? && stream.serviceRun != run && stream.active.Some? && o.observedAtMs < stream.lastSeenMs {
      InvalidateKeeps(d, o.symbol, stream, SourceUnavailable, now, None);
    }
  }

  lemma ConfirmKeeps(d: Signals, o: Observation, s: Stream, now: int, reviewMs: int)
    requires Lifecycle(d) && Compatible(d, o.symbol, s)
    ensures var r := Confirm(d, o, s, now, reviewMs); r.Ok? ==> Lifecycle(r.value) && SignalMove(ViewOf(d.box), ViewOf(r.value.box))
  {
    var key := KeyOf(o);
    if key.Some? {
      if s.signalKey == key {
        SaveKeeps(ViewOf(d.box), d.streams, o.symbol, s.(lastSeenMs := o.observedAtMs));
      } else if s.active.Some? {
        InvalidateKeeps(d, o.symbol, s, SignalReplaced, now, None);
        var i := Invalidate(d, o.symbol, s, SignalReplaced, now, None);
        if i.Ok? { EnterLifecycle(i.value.0, o, i.value.1, key.value, now, reviewMs); }
      } else {
        EnterLifecycle(d, o, s, key.value, now, reviewMs);
      }
    }
  }

  lemma SavedKeeps(d: Signals, symbol: string, s: Stream)
    requires Lifecycle(d) && Compatible(d, symbol, s)
    ensures Lifecycle(Save(d, symbol, s))
  {
    SaveKeeps(ViewOf(d.box), d.streams, symbol, s);
  }

  lemma WithdrawnKeeps(d: Signals, o: Observation, s: Stream, now: int)
    requires Lifecycle(d) && Compatible(d, o.symbol, s) && s.active.Some?
    ensures var reason := if o.outcome.NormalNoAction? then DecisionChanged else SourceUnavailable;
      var i := Invalidate(d, o.symbol, s, reason, now, Some(o));
      i.Ok? ==> var u := Save(i.value.0, o.symbol, i.value.1); Lifecycle(u) && SignalMove(ViewOf(d.box), ViewOf(u.box))
  {
    var reason := if o.outcome.NormalNoAction? then DecisionChanged else SourceUnavailable;
    InvalidateKeeps(d, o.symbol, s, reason, now, Some(o));
    var i := Invalidate(d, o.symbol, s, reason, now, Some(o));
    if i.Ok? { SavedKeeps(i.value.0, o.symbol, i.value.1); }
  }

  lemma ChainMoves(v: View, m: View, w: View)
    requires SignalMove(v, m) && SignalMove(m, w)
    ensures SignalMove(v, w)
  {
    forall id: AlertId | !IsSignalId(id) ensures w(id) == v(id) { assert w(id) == m(id) && m(id) == v(id); }
  }

  /** Observing within an epoch. */
  lemma AcceptKeeps(d: Signals, o: Observation, s: Stream, now: int, reviewMs: int, collection: Option<string>)
    requires Lifecycle(d) && Compatible(d, o.symbol, s)
    ensures var r := Accept(d, o, s, now, reviewMs, collection);
      r.Ok? ==> Lifecycle(r.value) && SignalMove(ViewOf(d.box), ViewOf(r.value.box))
  {
    var s2 := s.(createdAtMs := o.createdAtMs, observedAtMs := o.observedAtMs, lastResult := Some(o.fingerprint), collectionRun := collection);
    SavedKeeps(d, o.symbol, s.(collectionRun := collection));
    ConfirmKeeps(d, o, s2, now, reviewMs);
    SavedKeeps(d, o.symbol, s2);
    if s2.active.Some? { WithdrawnKeeps(d, o, s2, now); }
  }

  lemma ObserveKeeps(d: Signals, o: Observation, now: int, reviewMs: int, run: Option<string>, collection: Option<string>)
    requires Lifecycle(d)
    ensures var r := Observe(d, o, now, reviewMs, run, collection);
      r.Ok? ==> Lifecycle(r.value) && SignalMove(ViewOf(d.box), ViewOf(r.value.box))
  {
    EpochKeeps(d, o, now, run);
    var e := EnterEpoch(d, o, StreamOf(d.streams, o.symbol), now, run);
    if e.Ok? {
      AcceptKeeps(e.value.0, o, e.value.1, now, reviewMs, collection);
      var r := Accept(e.value.0, o, e.value.1, now, reviewMs, collection);
      if r.Ok? { ChainMoves(ViewOf(d.box), ViewOf(e.value.0.box), ViewOf(r.value.box)); }
    }
  }

  // ---- when an observation is refused ----

  /** Withdrawing the active reminder always succeeds. */
  lemma InvalidateSucceeds(d: Signals, symbol: string, s: Stream, reason: Reason, now: int, evidence: Option<Observation>)
    requires Lifecycle(d) && s.active.Some? && StreamOf(d.streams, symbol).active == s.active
    ensures Invalidate(d, symbol, s, reason, now, evidence).Ok?
  {
    var v := ViewOf(d.box);
    var id := s.active.value;
    assert StreamOk(v, symbol, d.streams[symbol]) && v(id) == RowOf(d.box, id);
    RecordNeverFails(d.box, id);
    assert InvalidationOk(v, d.streams, InvalidationId(id, reason));
    var entry := d.box.rows[Find(d.box.rows, id).value];
    var alert := InvalidationAlert(id, reason, now, if evidence.Some? then evidence else entry.alert.observation);
    var suppressed := if !entry.state.Confirmed? && !entry.state.Unknown? then Some(HistoricalEvent) else None;
    AbsentEnqueues(d.box, alert, now, suppressed);
    EnqueueViews(d.box, alert, now, suppressed);
    var b := Enqueue(d.box, alert, now, suppressed).value;
    assert ViewOf(b)(id) == v(id);
    PresentSuppresses(b, id, reason, now);
  }

  lemma AbsentEnqueues(o: Box, alert: Alert, now: int, suppressed: Option<Reason>)
    requires BoxOk(o) && ViewOf(o)(alert.id).None?
    ensures Enqueue(o, alert, now, suppressed).Ok?
  {
    RecordNeverFails(o, alert.id);
  }

  lemma PresentSuppresses(o: Box, id: AlertId, reason: Reason, now: int)
    requires BoxOk(o) && ViewOf(o)(id).Some?
    ensures Suppress(o, id, reason, now).Ok?
  {
    RecordNeverFails(o, id);
  }

  /** The stream an observation is compared with: a new epoch has no past, nor a reminder seen after it. */
  function Compared(s: Stream, o: Observation, run: Option<string>): Stream {
    if run.None? || s.serviceRun == run then s
    else
      var kept := if s.active.Some? && o.observedAtMs < s.lastSeenMs then s.(active := None, signalKey := None) else s;
      kept.(serviceRun := run, createdAtMs := 0, observedAtMs := 0, lastResult := None)
  }

  predicate IsRepeated(o: Observation, s: Stream) {
    s.lastResult.Some? && o.createdAtMs == s.createdAtMs && o.observedAtMs == s.observedAtMs
  }

  /** In order, but with another result for the last timestamps, or ready without saying for which
      signal, or announcing a signal without its trigger price or its initial stop. */
  predicate Contradicts(o: Observation, s: Stream, now: int) {
    && !IsOutOfOrder(o, s, now)
    && (if IsRepeated(o, s) then s.lastResult != Some(o.fingerprint)
        else o.outcome.ReadyForReview? && (KeyOf(o).None? || (s.signalKey != KeyOf(o) && !IsComplete(o))))
  }

  /** What an observation that is not refused makes of its symbol's stream, whatever the outbox holds. */
  function Tracked(saved: Stream, o: Observation, now: int, run: Option<string>, collection: Option<string>): Stream {
    var s := Compared(saved, o, run);
    if IsOutOfOrder(o, s, now) then saved.(active := s.active, signalKey := s.signalKey)
    else if IsRepeated(o, s) then s.(collectionRun := collection)
    else
      var s2 := s.(createdAtMs := o.createdAtMs, observedAtMs := o.observedAtMs, lastResult := Some(o.fingerprint), collectionRun := collection);
      match KeyOf(o)
      case None => s2.(active := None, signalKey := None)
      case Some(key) =>
        if s2.signalKey == Some(key) then s2.(lastSeenMs := o.observedAtMs)
        else Entered(s2, o, EntryId(key, s2.counter + 1), key)
  }

  /** One symbol's stream becomes this; the others stay. */
  ghost predicate OnlyStream(streams: Streams, next: Streams, symbol: string, s: Stream) {
    StreamOf(next, symbol) == s && forall y :: y != symbol ==> StreamOf(next, y) == StreamOf(streams, y)
  }

  lemma EnterSucceeds(d: Signals, o: Observation, s: Stream, key: SignalKey, now: int, reviewMs: int)
    requires Lifecycle(d) && s.counter == StreamOf(d.streams, o.symbol).counter && KeyOf(o) == Some(key)
    ensures var r := Enter(d, o, s, key, now, reviewMs);
      && (r.Ok? <==> IsComplete(o))
      && (r.Ok? ==> OnlyStream(d.streams, r.value.streams, o.symbol, Entered(s, o, EntryId(key, s.counter + 1), key)))
  {
    var alert := EntryAlert(o, key, s.counter + 1, reviewMs);
    assert EntryOk(ViewOf(d.box), d.streams, alert.id);
    AbsentEnqueues(d.box, alert, now, LateReview(o, now, reviewMs));
  }

  lemma ReplaceSucceeds(d: Signals, o: Observation, s: Stream, key: SignalKey, now: int, reviewMs: int)
    requires Lifecycle(d) && Compatible(d, o.symbol, s) && KeyOf(o) == Some(key) && s.active.Some?
    ensures var i := Invalidate(d, o.symbol, s, SignalReplaced, now, None);
      && i.Ok?
      && var r := Enter(i.value.0, o, i.value.1, key, now, reviewMs);
         && (r.Ok? <==> IsComplete(o))
         && (r.Ok? ==> OnlyStream(d.streams, r.value.streams, o.symbol, Entered(s, o, EntryId(key, s.counter + 1), key)))
  {
    hide Invalidate, Enter, Lifecycle, IsComplete, KeyOf, SignalMove, RowOf, ViewOf;
    InvalidateSucceeds(d, o.symbol, s, SignalReplaced, now, None);
    InvalidateKeeps(d, o.symbol, s, SignalReplaced, now, None);
    var i := Invalidate(d, o.symbol, s, SignalReplaced, now, None).value;
    EnterSucceeds(i.0, o, i.1, key, now, reviewMs);
  }

  lemma ConfirmSucceeds(d: Signals, o: Observation, s: Stream, key: SignalKey, now: int, reviewMs: int)
    requires Lifecycle(d) && Compatible(d, o.symbol, s) && KeyOf(o) == Some(key)
    ensures var r := Confirm(d, o, s, now, reviewMs);
      && (r.Ok? <==> s.signalKey == Some(key) || IsComplete(o))
      && (r.Ok? ==> OnlyStream(d.streams, r.value.streams, o.symbol,
            if s.signalKey == Some(key) then s.(lastSeenMs := o.observedAtMs) else Entered(s, o, EntryId(key, s.counter + 1), key)))
  {
    hide Invalidate, Enter, Lifecycle, IsComplete, KeyOf;
    if s.signalKey != Some(key) {
      if s.active.Some? {
        ReplaceSucceeds(d, o, s, key, now, reviewMs);
      } else {
        EnterSucceeds(d, o, s, key, now, reviewMs);
      }
    }
  }

  lemma EpochSucceeds(d: Signals, o: Observation, now: int, run: Option<string>)
    requires Lifecycle(d)
    ensures var saved := StreamOf(d.streams, o.symbol);
      var r := EnterEpoch(d, o, saved, now, run);
      && r.Ok? && r.value.1 == Compared(saved, o, run)
      && OnlyStream(d.streams, r.value.0.streams, o.symbol, saved.(active := r.value.1.active, signalKey := r.value.1.signalKey))
  {
    var stream := StreamOf(d.streams, o.symbol);
    if run.Some? && stream.serviceRun != run && stream.active.Some? && o.observedAtMs < stream.lastSeenMs {
      InvalidateSucceeds(d, o.symbol, stream, SourceUnavailable, now, None);
      InvalidateKeeps(d, o.symbol, stream, SourceUnavailable, now, None);
    }
  }

  lemma WithdrawnSucceeds(d: Signals, o: Observation, s: Stream, now: int)
    requires Lifecycle(d) && Compatible(d, o.symbol, s) && s.active.Some?
    ensures var i := Invalidate(d, o.symbol, s, if o.outcome.NormalNoAction? then DecisionChanged else SourceUnavailable, now, Some(o));
      i.Ok? && OnlyStream(d.streams, Save(i.value.0, o.symbol, i.value.1).streams, o.symbol, s.(active := None, signalKey := None))
  {
    var reason := if o.outcome.NormalNoAction? then DecisionChanged else SourceUnavailable;
    InvalidateSucceeds(d, o.symbol, s, reason, now, Some(o));
    InvalidateKeeps(d, o.symbol, s, reason, now, Some(o));
  }

  lemma KeyMeansActive(d: Signals, symbol: string, s: Stream)
    requires Lifecycle(d) && Compatible(d, symbol, s)
    ensures s.active.Some? == s.signalKey.Some?
  {
    assert symbol in d.streams ==> StreamOk(ViewOf(d.box), symbol, d.streams[symbol]);
  }

  /** Within an epoch. */
  lemma AcceptFailsExactly(d: Signals, o: Observation, s: Stream, now: int, reviewMs: int, collection: Option<string>)
    requires Lifecycle(d) && Compatible(d, o.symbol, s)
    ensures var r := Accept(d, o, s, now, reviewMs, collection);
      && (r.Err? <==> Contradicts(o, s, now))
      && (r.Ok? && IsOutOfOrder(o, s, now) ==> r.value.streams == d.streams)
      && (r.Ok? && !IsOutOfOrder(o, s, now) ==> OnlyStream(d.streams, r.value.streams, o.symbol, Tracked(s, o, now, None, collection)))
  {
    var s2 := s.(createdAtMs := o.createdAtMs, observedAtMs := o.observedAtMs, lastResult := Some(o.fingerprint), collectionRun := collection);
    hide Lifecycle, StreamsOk, Invalidate, Enter, IsComplete, Entered, IsOutOfOrder;
    KeyMeansActive(d, o.symbol, s);
    if KeyOf(o).Some? {
      ConfirmSucceeds(d, o, s2, KeyOf(o).value, now, reviewMs);
    } else if s2.active.Some? {
      WithdrawnSucceeds(d, o, s2, now);
    }
  }

  /** An observation is refused exactly when it contradicts the stream it is compared with; otherwise
      its symbol's stream, and no other, is what the observations alone determine. */
  lemma ObserveFailsExactly(d: Signals, o: Observation, now: int, reviewMs: int, run: Option<string>, collection: Option<string>)
    requires Lifecycle(d)
    ensures var saved := StreamOf(d.streams, o.symbol);
      var r := Observe(d, o, now, reviewMs, run, collection);
      && (r.Err? <==> Contradicts(o, Compared(saved, o, run), now))
      && (r.Ok? ==> OnlyStream(d.streams, r.value.streams, o.symbol, Tracked(saved, o, now, run, collection)))
  {
    hide Accept, EnterEpoch, Lifecycle, SignalMove, Contradicts, KeyOf;
    EpochSucceeds(d, o, now, run);
    EpochKeeps(d, o, now, run);
    var (d1, s1) := EnterEpoch(d, o, StreamOf(d.streams, o.symbol), now, run).value;
    AcceptFailsExactly(d1, o, s1, now, reviewMs, collection);
    assert Compared(s1, o, None) == s1;
  }
}
