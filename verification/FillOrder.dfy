/** The law of the replay: the last revisions of a position's fills, by execution time and then by first
  submission, and exactly the units held along that timeline decide. */
module FillOrder {
  import opened Basics
  import opened FillReplay

  // ---- the timeline of a history ----

  /** The last revision of a fill of the history, with the number of its first. */
  predicate IsFill(history: seq<Revision>, e: Entry) {
    && e.row in history
    && (exists r :: r in history && r.fillId == e.row.fillId && r.sequence == e.first)
    && (forall r :: r in history && r.fillId == e.row.fillId ==> e.first <= r.sequence <= e.row.sequence)
  }

  /** Executed earlier, or at the same time and submitted earlier. */
  predicate IsEarlier(a: Entry, b: Entry) {
    a.row.fact.timeMs < b.row.fact.timeMs || (a.row.fact.timeMs == b.row.fact.timeMs && a.first < b.first)
  }

  predicate IsChronological(fills: seq<Entry>) {
    forall i, j :: 0 <= i < j < |fills| ==> IsEarlier(fills[i], fills[j])
  }

  /** Exactly the fills of the history, in the order of execution. */
  ghost predicate IsTimeline(fills: seq<Entry>, history: seq<Revision>) {
    IsChronological(fills) && forall e :: e in fills <==> IsFill(history, e)
  }

  predicate Knows(entries: seq<Entry>, fillId: string) {
    exists e :: e in entries && e.row.fillId == fillId
  }

  predicate DistinctFills(entries: seq<Entry>) {
    forall i, j :: 0 <= i < j < |entries| ==> entries[i].row.fillId != entries[j].row.fillId
  }

  /** A revision replaces the one of its fill, which keeps its first number, or adds a fill. */
  lemma {:induction false} PutMeans(entries: seq<Entry>, row: Revision, e: Entry)
    requires DistinctFills(entries)
    ensures DistinctFills(Put(entries, row))
    ensures e in Put(entries, row) <==>
      if e.row.fillId != row.fillId then e in entries
      else e.row == row && (if Knows(entries, row.fillId) then exists d :: d in entries && d.row.fillId == row.fillId && d.first == e.first
                            else e.first == row.sequence)
  {
    if entries != [] {
      var head, rest := entries[0], entries[1..];
      assert entries == [head] + rest;
      PutMeans(rest, row, e);
      assert head in entries;
      if head.row.fillId == row.fillId {
        forall d | d in entries && d.row.fillId == row.fillId ensures d == head { }
      } else {
        forall d | d in Put(rest, row) && d.row.fillId == head.row.fillId ensures d in rest { PutMeans(rest, row, d); }
        assert Knows(entries, row.fillId) <==> Knows(rest, row.fillId);
      }
    }
  }

  lemma FillGrows(init: seq<Revision>, x: Revision, e: Entry)
    requires forall r :: r in init ==> r.sequence < x.sequence
    ensures e.row.fillId != x.fillId ==> (IsFill(init + [x], e) <==> IsFill(init, e))
    ensures e.row.fillId == x.fillId ==>
      (IsFill(init + [x], e) <==>
         e.row == x && if exists r :: r in init && r.fillId == x.fillId
                       then (exists r :: r in init && r.fillId == x.fillId && r.sequence == e.first)
                            && (forall r :: r in init && r.fillId == x.fillId ==> e.first <= r.sequence)
                       else e.first == x.sequence)
  {
    var all := init + [x];
    assert x in all;
    assert forall r :: r in all <==> r in init || r == x;
  }

  predicate Mentions(history: seq<Revision>, fillId: string) {
    exists r :: r in history && r.fillId == fillId
  }

  /** The latest revisions are exactly the fills, each once. */
  ghost predicate AreFills(entries: seq<Entry>, history: seq<Revision>) {
    && DistinctFills(entries)
    && (forall e :: e in entries <==> IsFill(history, e))
    && (forall fillId :: Knows(entries, fillId) <==> Mentions(history, fillId))
  }

  lemma FillsGrow(entries: seq<Entry>, init: seq<Revision>, x: Revision)
    requires AreFills(entries, init) && forall r :: r in init ==> r.sequence < x.sequence
    ensures AreFills(Put(entries, x), init + [x])
  {
    var all, next := init + [x], Put(entries, x);
    hide Put, DistinctFills, IsFill;
    forall e ensures e in next <==> IsFill(all, e) {
      PutMeans(entries, x, e);
      FillGrows(init, x, e);
      if e.row.fillId == x.fillId && Mentions(init, x.fillId) { OneFirst(entries, init, x.fillId, e.first); }
    }
    forall fillId ensures Knows(next, fillId) <==> Mentions(all, fillId) { KnownAfter(entries, init, x, fillId); }
    PutMeans(entries, x, Entry(0, x));
  }

  /** Its first number is the least of those of the fill. */
  lemma OneFirst(entries: seq<Entry>, init: seq<Revision>, fillId: string, first: int)
    requires AreFills(entries, init) && Mentions(init, fillId)
    ensures (exists d :: d in entries && d.row.fillId == fillId && d.first == first) <==>
      && (exists r :: r in init && r.fillId == fillId && r.sequence == first)
      && (forall r :: r in init && r.fillId == fillId ==> first <= r.sequence)
  {
    assert Knows(entries, fillId);
    var d :| d in entries && d.row.fillId == fillId;
    assert IsFill(init, d);
    forall e | e in entries && e.row.fillId == fillId ensures e == d { }
  }

  lemma KnownAfter(entries: seq<Entry>, init: seq<Revision>, x: Revision, fillId: string)
    requires AreFills(entries, init)
    ensures Knows(Put(entries, x), fillId) <==> Mentions(init + [x], fillId)
  {
    hide Put;
    var all, next := init + [x], Put(entries, x);
    assert forall r :: r in all <==> r in init || r == x;
    if fillId == x.fillId {
      assert x in all;
      var first := if Knows(entries, fillId) then (var d :| d in entries && d.row.fillId == fillId; d.first) else x.sequence;
      PutMeans(entries, x, Entry(first, x));
      assert Entry(first, x) in next;
    } else {
      forall e: Entry | e.row.fillId == fillId ensures e in next <==> e in entries { PutMeans(entries, x, e); }
      assert Mentions(all, fillId) <==> Mentions(init, fillId);
      assert Knows(next, fillId) <==> Knows(entries, fillId);
    }
  }

  lemma {:induction false} LatestAreFills(history: seq<Revision>)
    requires Ascending(history)
    ensures AreFills(Latest(history), history)
  {
    if history != [] {
      var init, last := history[..|history| - 1], history[|history| - 1];
      hide AreFills, Put;
      LatestAreFills(init);
      assert init + [last] == history;
      FillsGrow(Latest(init), init, last);
    }
  }

  // ---- sorting ----

  lemma {:induction false} InsertSorts(sorted: seq<Entry>, e: Entry)
    requires IsChronological(sorted) && forall d :: d in sorted ==> d.first != e.first
    ensures IsChronological(Insert(sorted, e)) && forall d :: d in Insert(sorted, e) <==> d in sorted || d == e
  {
    if sorted != [] {
      var init, last := sorted[..|sorted| - 1], sorted[|sorted| - 1];
      assert sorted == init + [last];
      if Precedes(e, last) {
        InsertSorts(init, e);
        forall d | d in Insert(init, e) ensures IsEarlier(d, last) { if d != e { var i :| 0 <= i < |init| && init[i] == d; } }
      } else {
        assert last in sorted;
        forall d | d in sorted ensures IsEarlier(d, e) { if d != last { var i :| 0 <= i < |init| && init[i] == d; } }
      }
    }
  }

  lemma {:induction false} SortSorts(entries: seq<Entry>)
    requires FirstsAscend(entries)
    ensures IsChronological(SortFills(entries)) && forall d :: d in SortFills(entries) <==> d in entries
  {
    if entries != [] {
      var init, last := entries[..|entries| - 1], entries[|entries| - 1];
      assert entries == init + [last];
      SortSorts(init);
      InsertSorts(SortFills(init), last);
    }
  }

  lemma TimelineExists(history: seq<Revision>)
    requires Ascending(history)
    ensures IsTimeline(SortFills(Latest(history)), history)
  {
    hide IsChronological, IsFill, FirstsAscend, FirstsBelow;
    LatestAreFills(history);
    LatestAscends(history, if history == [] then 0 else history[|history| - 1].sequence + 1);
    SortSorts(Latest(history));
  }

  /** There is one way to put them in order. */
  lemma {:induction false} OneOrder(f: seq<Entry>, g: seq<Entry>)
    requires IsChronological(f) && IsChronological(g) && forall e :: e in f <==> e in g
    ensures f == g
  {
    assert g != [] ==> g[0] in g && g[0] in f;
    if f != [] {
      var m, n := |f| - 1, |g| - 1;
      assert f[m] in f && f[m] in g;
      var i :| 0 <= i < |g| && g[i] == f[m];
      assert g[n] in g && g[n] in f;
      var j :| 0 <= j < |f| && f[j] == g[n];
      assert i == n && j == m;
      forall e ensures e in f[..m] <==> e in g[..n] { WithoutLast(f, e); WithoutLast(g, e); }
      OneOrder(f[..m], g[..n]);
      assert f == f[..m] + [f[m]] && g == g[..n] + [g[n]];
    }
  }

  lemma WithoutLast(f: seq<Entry>, e: Entry)
    requires f != [] && IsChronological(f)
    ensures e in f[..|f| - 1] <==> e in f && e != f[|f| - 1]
  {
    var m := |f| - 1;
    assert f == f[..m] + [f[m]];
  }

  lemma TimelineIsUnique(f: seq<Entry>, g: seq<Entry>, history: seq<Revision>)
    requires IsTimeline(f, history) && IsTimeline(g, history)
    ensures f == g
  {
    hide IsFill, IsChronological;
    OneOrder(f, g);
  }

  // ---- what the timeline decides ----

  /** Something was bought or sold. */
  predicate HasTraded(fills: seq<Entry>) {
    exists e :: e in fills && !e.row.fact.voided
  }

  /** A sell of more units than the fills before it leave. */
  predicate OversellsAt(fills: seq<Entry>, k: nat)
    requires k < |fills|
  {
    var f := fills[k].row.fact;
    !f.voided && f.action.Sell? && f.quantity > Net(fills[..k])
  }

  /** A buy after everything was sold. */
  predicate ReopensAt(fills: seq<Entry>, k: nat)
    requires k < |fills|
  {
    var f := fills[k].row.fact;
    !f.voided && f.action.Buy? && HasTraded(fills[..k]) && Net(fills[..k]) == 0.0
  }

  /** No sell exceeds the units held, and no buy follows selling out. */
  predicate IsPlayable(fills: seq<Entry>) {
    forall k :: 0 <= k < |fills| ==> !OversellsAt(fills, k) && !ReopensAt(fills, k)
  }

  predicate IsLastTrade(fills: seq<Entry>, k: nat)
    requires k < |fills|
  {
    !fills[k].row.fact.voided && forall j :: k < j < |fills| ==> fills[j].row.fact.voided
  }

  lemma PlayableOneMore(init: seq<Entry>, e: Entry)
    ensures IsPlayable(init + [e]) <==> IsPlayable(init) && !OversellsAt(init + [e], |init|) && !ReopensAt(init + [e], |init|)
  {
    var all := init + [e];
    forall k | 0 <= k < |init| ensures all[..k] == init[..k] && all[k] == init[k] { }
    if IsPlayable(init) && !OversellsAt(all, |init|) && !ReopensAt(all, |init|) {
      forall k | 0 <= k < |all| ensures !OversellsAt(all, k) && !ReopensAt(all, k) {
        if k < |init| { assert !OversellsAt(init, k) && !ReopensAt(init, k); }
      }
    }
    if IsPlayable(all) {
      forall k | 0 <= k < |init| ensures !OversellsAt(init, k) && !ReopensAt(init, k) { assert !OversellsAt(all, k) && !ReopensAt(all, k); }
    }
  }

  /** A timeline replays exactly when it is playable; it leaves the units held, and its last trade. */
  lemma {:induction false} ReplayMeans(fills: seq<Entry>)
    requires Positive(fills)
    ensures Replay(fills).Ok? <==> IsPlayable(fills)
    ensures Replay(fills).Ok? ==>
      var t := Replay(fills).value;
      && t.quantity == Net(fills) && (t.last.Some? <==> HasTraded(fills))
      && (t.last.Some? ==> exists k: nat | k < |fills| :: IsLastTrade(fills, k) && t.last == Some(fills[k].row))
  {
    if fills != [] {
      var n := |fills| - 1;
      var init, e := fills[..n], fills[n];
      assert fills == init + [e];
      ReplayMeans(init);
      PlayableOneMore(init, e);
      assert HasTraded(fills) <==> HasTraded(init) || !e.row.fact.voided;
      assert !e.row.fact.voided ==> IsLastTrade(fills, n);
      if Replay(fills).Ok? && e.row.fact.voided && HasTraded(init) {
        var t := Replay(init).value;
        var k: nat :| k < |init| && IsLastTrade(init, k) && t.last == Some(init[k].row);
        assert IsLastTrade(fills, k);
      }
    }
  }

  /** The first fill that cannot be replayed, and why. */
  predicate IsFirstOffence(fills: seq<Entry>, k: nat, error: ReplayError) {
    k < |fills| && IsPlayable(fills[..k]) && if error.Oversold? then OversellsAt(fills, k) else ReopensAt(fills, k)
  }

  /** Among its offences a replay reports the first, for what it is. */
  lemma {:induction false} RefusalMeans(fills: seq<Entry>)
    requires Positive(fills) && Replay(fills).Err?
    ensures exists k: nat :: IsFirstOffence(fills, k, Replay(fills).error)
  {
    var n := |fills| - 1;
    var init, e := fills[..n], fills[n];
    if Replay(init).Err? {
      RefusalMeans(init);
      var k: nat :| IsFirstOffence(init, k, Replay(init).error);
      assert fills[..k] == init[..k] && fills[k] == init[k];
      assert IsFirstOffence(fills, k, Replay(fills).error);
    } else {
      ReplayMeans(init);
      assert IsFirstOffence(fills, n, Replay(fills).error);
    }
  }

  /** Projecting a history replays its timeline, and is refused exactly when some sell in it exceeds the units
      held before, or some buy follows selling out. */
  lemma ProjectMeans(history: seq<Revision>, fills: seq<Entry>)
    requires Ascending(history) && IsTimeline(fills, history) && forall r :: r in history ==> r.fact.quantity > 0.0
    ensures Project(history).Ok? <==> IsPlayable(fills)
    ensures Project(history).Ok? ==> Project(history).value.fills == fills && Project(history).value.tally.quantity == Net(fills)
    ensures Project(history).Err? ==> exists k: nat :: IsFirstOffence(fills, k, Project(history).error)
  {
    hide IsChronological, IsPlayable;
    TimelineExists(history);
    TimelineIsUnique(fills, SortFills(Latest(history)), history);
    forall e | e in fills ensures e.row.fact.quantity > 0.0 { assert IsFill(history, e); }
    ReplayMeans(fills);
    if Replay(fills).Err? { RefusalMeans(fills); }
  }

  /** What a stake of units at an average price cost. */
  function Worth(price: real, units: real): real { price * units }

  lemma AverageIs(average: real, quantity: real, price: real, units: real)
    requires quantity + units != 0.0
    ensures Worth(Average(average, quantity, price, units), quantity + units) == Worth(average, quantity) + Worth(price, units)
  {
    var cost, all := average * quantity + price * units, quantity + units;
    assert cost / all * all == cost;
  }

  /** The average after a buy weighs what was held and what is bought by their units; a sell leaves it. */
  lemma AverageMeans(t: Tally, row: Revision)
    requires Play(t, row).Ok? && t.quantity >= 0.0 && row.fact.quantity > 0.0
    ensures var u, f := Play(t, row).value, row.fact;
      if !f.voided && f.action.Buy? then Worth(u.average, u.quantity) == Worth(t.average, t.quantity) + Worth(f.price, f.quantity)
      else u.average == t.average
  {
    hide Average, Worth;
    if !row.fact.voided && row.fact.action.Buy? { AverageIs(t.average, t.quantity, row.fact.price, row.fact.quantity); }
  }
}
