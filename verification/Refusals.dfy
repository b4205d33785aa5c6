/** When a poll refuses what it reads: the observations alone decide, along the streams they make,
  whatever the outbox holds. */
module Refusals {
  import opened Basics
  import opened Alerts
  import opened Outbox
  import opened SignalStreams
  import opened Collector
  import opened CollectorRuns

  /** An observation as it is fed to the streams: for a run's epoch, or for none. */
  datatype Sighting = Sighting(seen: Observation, run: Option<string>, collection: Option<string>)

  function Track(streams: Streams, x: Sighting, now: int): Streams {
    streams[x.seen.symbol := Tracked(StreamOf(streams, x.seen.symbol), x.seen, now, x.run, x.collection)]
  }

  function TrackAll(streams: Streams, feed: seq<Sighting>, now: int): Streams {
    if feed == [] then streams else Track(TrackAll(streams, feed[..|feed| - 1], now), feed[|feed| - 1], now)
  }

  predicate IsContradiction(streams: Streams, x: Sighting, now: int) {
    Contradicts(x.seen, Compared(StreamOf(streams, x.seen.symbol), x.seen, x.run), now)
  }

  /** Some sighting contradicts the stream that those before it made. */
  predicate Conflict(streams: Streams, feed: seq<Sighting>, now: int) {
    && feed != []
    && var init := feed[..|feed| - 1];
       Conflict(streams, init, now) || IsContradiction(TrackAll(streams, init, now), feed[|feed| - 1], now)
  }

  lemma {:induction false} FeedConcat(streams: Streams, f: seq<Sighting>, g: seq<Sighting>, now: int)
    ensures TrackAll(streams, f + g, now) == TrackAll(TrackAll(streams, f, now), g, now)
    ensures Conflict(streams, f + g, now) <==> Conflict(streams, f, now) || Conflict(TrackAll(streams, f, now), g, now)
  {
    if g == [] {
      assert f + g == f;
    } else {
      FeedConcat(streams, f, g[..|g| - 1], now);
      assert (f + g)[..|f + g| - 1] == f + g[..|g| - 1];
    }
  }

  // ---- what one poll feeds to the streams ----

  function Sightings(seen: seq<Observation>, run: Option<string>, collection: Option<string>): (r: seq<Sighting>)
    ensures |r| == |seen|
  {
    if seen == [] then [] else Sightings(seen[..|seen| - 1], run, collection) + [Sighting(seen[|seen| - 1], run, collection)]
  }

  predicate IsNew(known: map<string, Cycle>, before: seq<Cycle>, c: Cycle) {
    c.id !in known && forall i :: 0 <= i < |before| ==> before[i].id != c.id
  }

  /** Only the current cycle's observations are vouched for by a run. */
  function CycleFeed(c: Cycle, s: Snapshot): seq<Sighting> {
    Sightings(c.observations, if Current(s) == Some(c) then CurrentRun(s) else None, RunOf(s))
  }

  /** The observations of the cycles that were not consumed before. */
  function NewSightings(known: map<string, Cycle>, cycles: seq<Cycle>, s: Snapshot): seq<Sighting> {
    if cycles == [] then []
    else
      var init, c := cycles[..|cycles| - 1], cycles[|cycles| - 1];
      NewSightings(known, init, s)
      + (if IsNew(known, init, c) then CycleFeed(c, s) else [])
  }

  function LastNew(db: Db, cycles: seq<Cycle>): Option<Cycle> {
    if cycles == [] then db.lastCycle
    else
      var init, c := cycles[..|cycles| - 1], cycles[|cycles| - 1];
      if IsNew(db.consumed, init, c) then Some(c) else LastNew(db, init)
  }

  /** The observations of the current cycle whose stream has not entered the epoch of its run. */
  function Lagging(streams: Streams, seen: seq<Observation>, run: Option<string>, now: int): seq<Sighting> {
    if seen == [] then []
    else
      var init, o := Lagging(streams, seen[..|seen| - 1], run, now), seen[|seen| - 1];
      if StreamOf(TrackAll(streams, init, now), o.symbol).serviceRun != run then init + [Sighting(o, run, run)] else init
  }

  function PollFeed(db: Db, cycles: seq<Cycle>, s: Snapshot, now: int): seq<Sighting> {
    var unread := NewSightings(db.consumed, cycles, s);
    if Current(s).Some? && LastNew(db, cycles) == Current(s) && CurrentRun(s).Some?
    then unread + Lagging(TrackAll(db.signals.streams, unread, now), Current(s).value.observations, CurrentRun(s), now)
    else unread
  }

  // ---- the database follows the feed ----

  ghost predicate Alike(a: Streams, b: Streams) {
    forall y :: StreamOf(a, y) == StreamOf(b, y)
  }

  lemma ObserveTracks(d: Signals, streams: Streams, x: Sighting, now: int, reviewMs: int)
    requires Lifecycle(d) && Alike(d.streams, streams)
    ensures var r := Observe(d, x.seen, now, reviewMs, x.run, x.collection);
      && (r.Err? <==> IsContradiction(streams, x, now))
      && (r.Ok? ==> Lifecycle(r.value) && Alike(r.value.streams, Track(streams, x, now)))
  {
    hide Lifecycle, Observe, SignalMove, Contradicts, Compared, Tracked;
    ObserveFailsExactly(d, x.seen, now, reviewMs, x.run, x.collection);
    ObserveKeeps(d, x.seen, now, reviewMs, x.run, x.collection);
  }

  lemma {:induction false} ObserveAllTracks(d: Signals, streams: Streams, seen: seq<Observation>, now: int, reviewMs: int,
                                            run: Option<string>, collection: Option<string>)
    requires Lifecycle(d) && Alike(d.streams, streams)
    ensures var r := ObserveAll(d, seen, now, reviewMs, run, collection);
      var feed := Sightings(seen, run, collection);
      && (r.Err? <==> Conflict(streams, feed, now))
      && (r.Ok? ==> Lifecycle(r.value) && Alike(r.value.streams, TrackAll(streams, feed, now)))
  {
    hide Lifecycle, Observe, Alike, IsContradiction, Track;
    if seen != [] {
      var init := seen[..|seen| - 1];
      ObserveAllTracks(d, streams, init, now, reviewMs, run, collection);
      var feed := Sightings(seen, run, collection);
      assert feed[..|feed| - 1] == Sightings(init, run, collection);
      var r := ObserveAll(d, init, now, reviewMs, run, collection);
      if r.Ok? { ObserveTracks(r.value, TrackAll(streams, Sightings(init, run, collection), now), feed[|seen| - 1], now, reviewMs); }
    }
  }

  lemma {:induction false} ReobserveTracks(d: Signals, streams: Streams, seen: seq<Observation>, now: int, reviewMs: int, run: Option<string>)
    requires Lifecycle(d) && Alike(d.streams, streams)
    ensures var r := Reobserve(d, seen, now, reviewMs, run);
      var feed := Lagging(streams, seen, run, now);
      && (r.Err? <==> Conflict(streams, feed, now))
      && (r.Ok? ==> Lifecycle(r.value) && Alike(r.value.streams, TrackAll(streams, feed, now)))
  {
    hide Lifecycle, Observe, IsContradiction, Track;
    if seen != [] {
      var init, o := seen[..|seen| - 1], seen[|seen| - 1];
      ReobserveTracks(d, streams, init, now, reviewMs, run);
      var r := Reobserve(d, init, now, reviewMs, run);
      var before := Lagging(streams, init, run, now);
      assert (before + [Sighting(o, run, run)])[..|before|] == before;
      if r.Ok? { ObserveTracks(r.value, TrackAll(streams, before, now), Sighting(o, run, run), now, reviewMs); }
    }
  }

  /** The identities consumed so far are those known before and those of the cycles. */
  ghost predicate Knows(consumed: map<string, Cycle>, known: map<string, Cycle>, cycles: seq<Cycle>) {
    forall y :: y in consumed <==> y in known || exists i :: 0 <= i < |cycles| && cycles[i].id == y
  }

  lemma KnowsOneMore(consumed: map<string, Cycle>, known: map<string, Cycle>, init: seq<Cycle>, c: Cycle)
    requires Knows(consumed, known, init)
    ensures Knows(consumed[c.id := c], known, init + [c]) && (c.id in consumed ==> Knows(consumed, known, init + [c]))
    ensures c.id !in consumed <==> IsNew(known, init, c)
  {
    var all := init + [c];
    assert all[|init|] == c;
    forall i | 0 <= i < |init| ensures all[i] == init[i] { }
  }

  lemma ConsumeCycleTracks(db: Db, streams: Streams, c: Cycle, s: Snapshot, now: int, reviewMs: int)
    requires Lifecycle(db.signals) && Alike(db.signals.streams, streams)
    ensures var r := ConsumeCycle(db, c, s, now, reviewMs);
      var feed := if c.id in db.consumed then [] else CycleFeed(c, s);
      && (r.Err? <==> (c.id in db.consumed && db.consumed[c.id] != c) || Conflict(streams, feed, now))
      && (r.Ok? ==>
            && Lifecycle(r.value.signals) && Alike(r.value.signals.streams, TrackAll(streams, feed, now))
            && r.value.consumed == (if c.id in db.consumed then db.consumed else db.consumed[c.id := c])
            && r.value.lastCycle == (if c.id in db.consumed then db.lastCycle else Some(c)))
  {
    hide Lifecycle, ObserveAll, Sightings, Alike;
    if c.id !in db.consumed {
      ObserveAllTracks(db.signals, streams, c.observations, now, reviewMs, if Current(s) == Some(c) then CurrentRun(s) else None, RunOf(s));
    }
  }

  /** What consuming the cycles makes of the database, and when it is refused. */
  ghost predicate Followed(db: Db, before: seq<Cycle>, cycles: seq<Cycle>, s: Snapshot, now: int, r: Result<Db, Failure>) {
    var feed := NewSightings(db.consumed, cycles, s);
    && (r.Err? <==> Ids(before + cycles).None? || Conflict(db.signals.streams, feed, now))
    && (r.Ok? ==>
          && Lifecycle(r.value.signals) && Alike(r.value.signals.streams, TrackAll(db.signals.streams, feed, now))
          && Ids(before + cycles) == Some(r.value.consumed)
          && Knows(r.value.consumed, db.consumed, cycles) && r.value.lastCycle == LastNew(db, cycles))
  }

  /** One cycle more, in all that consuming recurs over. */
  lemma OneMoreCycle(db: Db, before: seq<Cycle>, init: seq<Cycle>, c: Cycle, s: Snapshot, now: int, reviewMs: int)
    ensures Consume(db, init + [c], s, now, reviewMs) ==
      var r := Consume(db, init, s, now, reviewMs);
      if r.Ok? then ConsumeCycle(r.value, c, s, now, reviewMs) else r
    ensures Ids(before + (init + [c])) ==
      match Ids(before + init)
      case None => None
      case Some(m) => if c.id in m then (if m[c.id] == c then Some(m) else None) else Some(m[c.id := c])
    ensures NewSightings(db.consumed, init + [c], s) ==
      NewSightings(db.consumed, init, s) + (if IsNew(db.consumed, init, c) then CycleFeed(c, s) else [])
    ensures LastNew(db, init + [c]) == if IsNew(db.consumed, init, c) then Some(c) else LastNew(db, init)
  {
    hide CycleFeed, ConsumeCycle, IsNew;
    var all := init + [c];
    assert all[..|all| - 1] == init && all[|all| - 1] == c;
    assert (before + all)[..|before + all| - 1] == before + init && (before + all)[|before + all| - 1] == c;
  }

  lemma FollowedFails(db: Db, before: seq<Cycle>, init: seq<Cycle>, c: Cycle, s: Snapshot, now: int, reviewMs: int)
    requires Consume(db, init, s, now, reviewMs).Err? && Followed(db, before, init, s, now, Consume(db, init, s, now, reviewMs))
    ensures Followed(db, before, init + [c], s, now, Consume(db, init + [c], s, now, reviewMs))
  {
    hide Consume, Ids, NewSightings, LastNew, CycleFeed, ConsumeCycle, IsNew, TrackAll, Conflict;
    OneMoreCycle(db, before, init, c, s, now, reviewMs);
    FeedConcat(db.signals.streams, NewSightings(db.consumed, init, s), if IsNew(db.consumed, init, c) then CycleFeed(c, s) else [], now);
  }

  lemma FollowedGrows(db: Db, before: seq<Cycle>, init: seq<Cycle>, c: Cycle, s: Snapshot, now: int, reviewMs: int)
    requires Consume(db, init, s, now, reviewMs).Ok? && Followed(db, before, init, s, now, Consume(db, init, s, now, reviewMs))
    ensures Followed(db, before, init + [c], s, now, Consume(db, init + [c], s, now, reviewMs))
  {
    hide Lifecycle, Consume, Ids, NewSightings, LastNew, CycleFeed, ConsumeCycle, Knows, IsNew, Alike, TrackAll, Conflict;
    OneMoreCycle(db, before, init, c, s, now, reviewMs);
    var u := Consume(db, init, s, now, reviewMs).value;
    var feed := NewSightings(db.consumed, init, s);
    KnowsOneMore(u.consumed, db.consumed, init, c);
    ConsumeCycleTracks(u, TrackAll(db.signals.streams, feed, now), c, s, now, reviewMs);
    FeedConcat(db.signals.streams, feed, if IsNew(db.consumed, init, c) then CycleFeed(c, s) else [], now);
    assert feed + [] == feed;
  }

  lemma {:induction false} ConsumeTracks(db: Db, before: seq<Cycle>, cycles: seq<Cycle>, s: Snapshot, now: int, reviewMs: int)
    requires Lifecycle(db.signals) && Ids(before) == Some(db.consumed)
    ensures Followed(db, before, cycles, s, now, Consume(db, cycles, s, now, reviewMs))
  {
    if cycles == [] {
      assert before + cycles == before;
    } else {
      var init, c := cycles[..|cycles| - 1], cycles[|cycles| - 1];
      hide Lifecycle, Consume, Followed;
      ConsumeTracks(db, before, init, s, now, reviewMs);
      assert init + [c] == cycles;
      if Consume(db, init, s, now, reviewMs).Err? {
        FollowedFails(db, before, init, c, s, now, reviewMs);
      } else {
        FollowedGrows(db, before, init, c, s, now, reviewMs);
      }
    }
  }

  /** The log tail is refused exactly when an identity was reused with other content, or a sighting of
      the poll contradicts the streams made so far. */
  lemma ReadObservationsFailsExactly(db: Db, before: seq<Cycle>, cycles: seq<Cycle>, next: LogReader.Cursor, s: Snapshot, now: int, reviewMs: int)
    requires Lifecycle(db.signals) && Ids(before) == Some(db.consumed)
    ensures ReadObservations(db, cycles, next, s, now, reviewMs).Err? <==>
      Ids(before + cycles).None? || Conflict(db.signals.streams, PollFeed(db, cycles, s, now), now)
  {
    hide Lifecycle, Consume, Reobserve, Alike, NewSightings, Knows, Lagging, TrackAll, Conflict;
    ConsumeTracks(db, before, cycles, s, now, reviewMs);
    var r := Consume(db, cycles, s, now, reviewMs);
    var unread := NewSightings(db.consumed, cycles, s);
    var streams := TrackAll(db.signals.streams, unread, now);
    if Current(s).Some? && CurrentRun(s).Some? {
      FeedConcat(db.signals.streams, unread, Lagging(streams, Current(s).value.observations, CurrentRun(s), now), now);
      if r.Ok? { ReobserveTracks(r.value.signals, streams, Current(s).value.observations, now, reviewMs, CurrentRun(s)); }
    }
  }
}
