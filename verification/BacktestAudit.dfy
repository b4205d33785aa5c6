/** The price audit: an independent check that every fill and exit lies in its own 15-minute candle, and
  in the hourly candle around it. */
module BacktestAudit {
  import opened Basics
  import opened Backtest
  import opened BacktestInduction
  import opened BacktestCurve
  import opened BacktestRuns

  /** Float slack of the audit. */
  const SLACK := 0.000000001

  datatype Execution = Execution(time: int, price: real)

  const HOUR_MS := 3_600_000

  datatype Audit = Audit(events: nat, bad15m: nat, bad1h: nat, missing: nat)

  function Bucket(time: int): int { time - time % HOUR_MS }

  /** The full hour the time is in. */
  lemma BucketMeans(time: int)
    ensures exists k :: Bucket(time) == k * 3_600_000 <= time < k * 3_600_000 + 3_600_000
  {
    assert Bucket(time) == time / HOUR_MS * 3_600_000;
  }

  function FillEvents(fills: seq<Fill>): seq<Execution> {
    if fills == [] then [] else FillEvents(fills[..|fills| - 1]) + [Execution(fills[|fills| - 1].time, fills[|fills| - 1].price)]
  }

  function EventsOf(trades: seq<Trade>): seq<Execution> {
    if trades == [] then []
    else
      var t := trades[|trades| - 1];
      EventsOf(trades[..|trades| - 1]) + FillEvents(t.fills) + [Execution(t.exitTime, t.exitPrice)]
  }

  function ByTime(candles: seq<Candle>): map<int, Candle> {
    if candles == [] then map[]
    else ByTime(candles[..|candles| - 1])[candles[|candles| - 1].time := candles[|candles| - 1]]
  }

  predicate IsBad(price: real, time: int, byTime: map<int, Candle>) {
    time in byTime && (price < byTime[time].low - SLACK || price > byTime[time].high + SLACK)
  }

  function Verdict(a: Audit, e: Execution, by15m: map<int, Candle>, by1h: map<int, Candle>): Audit {
    Audit(a.events + 1,
          a.bad15m + (if IsBad(e.price, e.time, by15m) then 1 else 0),
          a.bad1h + (if IsBad(e.price, Bucket(e.time), by1h) then 1 else 0),
          a.missing + (if e.time !in by15m then 1 else 0) + (if Bucket(e.time) !in by1h then 1 else 0))
  }

  function Tally(events: seq<Execution>, by15m: map<int, Candle>, by1h: map<int, Candle>): Audit {
    if events == [] then Audit(0, 0, 0, 0) else Verdict(Tally(events[..|events| - 1], by15m, by1h), events[|events| - 1], by15m, by1h)
  }

  lemma TallyOne(events: seq<Execution>, e: Execution, by15m: map<int, Candle>, by1h: map<int, Candle>)
    ensures Tally(events + [e], by15m, by1h) == Verdict(Tally(events, by15m, by1h), e, by15m, by1h)
  {
    assert (events + [e])[..|events|] == events;
  }

  method Check(audit: Audit, e: Execution, by15m: map<int, Candle>, by1h: map<int, Candle>, ghost seen: seq<Execution>) returns (next: Audit)
    requires audit == Tally(seen, by15m, by1h)
    ensures next == Tally(seen + [e], by15m, by1h)
  {
    TallyOne(seen, e, by15m, by1h);
    next := audit.(events := audit.events + 1);
    if e.time !in by15m {
      next := next.(missing := next.missing + 1);
    } else if e.price < by15m[e.time].low - SLACK || e.price > by15m[e.time].high + SLACK {
      next := next.(bad15m := next.bad15m + 1);
    }
    var hour := Bucket(e.time);
    if hour !in by1h {
      next := next.(missing := next.missing + 1);
    } else if e.price < by1h[hour].low - SLACK || e.price > by1h[hour].high + SLACK {
      next := next.(bad1h := next.bad1h + 1);
    }
  }

  method Index(candles: seq<Candle>) returns (byTime: map<int, Candle>)
    ensures byTime == ByTime(candles)
  {
    byTime := map[];
    for k := 0 to |candles|
      invariant byTime == ByTime(candles[..k])
    {
      assert candles[..k + 1][..k] == candles[..k];
      byTime := byTime[candles[k].time := candles[k]];
    }
    assert candles[..|candles|] == candles;
  }

  method AuditPriceRanges(trades: seq<Trade>, candles: seq<Candle>, hourly: seq<Candle>) returns (audit: Audit)
    ensures audit == Tally(EventsOf(trades), ByTime(candles), ByTime(hourly))
  {
    var by15m := Index(candles);
    var by1h := Index(hourly);
    audit := Audit(0, 0, 0, 0);
    hide Verdict;
    for i := 0 to |trades|
      invariant audit == Tally(EventsOf(trades[..i]), by15m, by1h)
    {
      var t := trades[i];
      ghost var before := EventsOf(trades[..i]);
      assert before + FillEvents(t.fills[..0]) == before;
      for j := 0 to |t.fills|
        invariant audit == Tally(before + FillEvents(t.fills[..j]), by15m, by1h)
      {
        var e := Execution(t.fills[j].time, t.fills[j].price);
        assert t.fills[..j + 1][..j] == t.fills[..j];
        assert before + FillEvents(t.fills[..j + 1]) == before + FillEvents(t.fills[..j]) + [e];
        audit := Check(audit, e, by15m, by1h, before + FillEvents(t.fills[..j]));
      }
      assert t.fills[..|t.fills|] == t.fills;
      audit := Check(audit, Execution(t.exitTime, t.exitPrice), by15m, by1h, before + FillEvents(t.fills));
      assert trades[..i + 1][..i] == trades[..i];
    }
    assert trades[..|trades|] == trades;
  }

  // ---- a backtest passes its audit ----

  lemma {:induction false} ByTimeFinds(candles: seq<Candle>, c: Candle)
    requires forall i, j :: 0 <= i < j < |candles| ==> candles[i].time < candles[j].time
    requires c in candles
    ensures c.time in ByTime(candles) && ByTime(candles)[c.time] == c
  {
    var n := |candles| - 1;
    if c != candles[n] {
      assert c in candles[..n];
      ByTimeFinds(candles[..n], c);
    }
  }

  predicate Clean(e: Execution, candles: seq<Candle>) {
    Inside(candles, e.time, e.price)
  }

  lemma {:induction false} FillEventsInside(fills: seq<Fill>, candles: seq<Candle>)
    requires FillsInside(fills, candles)
    ensures forall e :: e in FillEvents(fills) ==> Clean(e, candles)
  {
    if fills != [] {
      FillEventsInside(fills[..|fills| - 1], candles);
      assert fills[|fills| - 1] in fills;
    }
  }

  lemma {:induction false} EventsInside(trades: seq<Trade>, candles: seq<Candle>)
    requires TradesInside(trades, candles)
    ensures forall e :: e in EventsOf(trades) ==> Clean(e, candles)
  {
    if trades != [] {
      EventsInside(trades[..|trades| - 1], candles);
      assert trades[|trades| - 1] in trades;
      FillEventsInside(trades[|trades| - 1].fills, candles);
    }
  }

  function MissingHours(events: seq<Execution>, by1h: map<int, Candle>): nat {
    if events == [] then 0 else MissingHours(events[..|events| - 1], by1h) + (if Bucket(events[|events| - 1].time) !in by1h then 1 else 0)
  }

  /** Every candle lies inside the hourly candle of its hour. */
  predicate Covers(hourly: seq<Candle>, candles: seq<Candle>) {
    forall c :: c in candles ==>
      Bucket(c.time) in ByTime(hourly) && ByTime(hourly)[Bucket(c.time)].low <= c.low && c.high <= ByTime(hourly)[Bucket(c.time)].high
  }

  lemma {:induction false} CleanTally(events: seq<Execution>, candles: seq<Candle>, hourly: seq<Candle>)
    requires ValidSeries(candles) && forall e :: e in events ==> Clean(e, candles)
    ensures var a := Tally(events, ByTime(candles), ByTime(hourly));
      && a.events == |events| && a.bad15m == 0 && a.missing == MissingHours(events, ByTime(hourly))
      && (Covers(hourly, candles) ==> a.bad1h == 0 && a.missing == 0)
  {
    if events != [] {
      var e := events[|events| - 1];
      CleanTally(events[..|events| - 1], candles, hourly);
      assert Clean(e, candles);
      var c :| c in candles && c.time == e.time && c.low <= e.price <= c.high;
      ByTimeFinds(candles, c);
    }
  }

  /** The audit of any run over a valid series finds every price in its 15-minute candle and no such candle
      missing; what is missing are hours, and with hourly candles around the series nothing is. */
  lemma AuditIsClean(starting: real, candles: seq<Candle>, hourly: seq<Candle>, cfg: Config, rules: Rules)
    requires ValidSeries(candles)
    ensures var r := Run(starting, candles, cfg, rules);
      r.Ok? ==>
        var events := EventsOf(r.value.trades);
        var a := Tally(events, ByTime(candles), ByTime(hourly));
        && a.bad15m == 0 && a.missing == MissingHours(events, ByTime(hourly))
        && (Covers(hourly, candles) ==> a.bad1h == 0 && a.missing == 0)
  {
    var r := Run(starting, candles, cfg, rules);
    if r.Ok? && |candles| >= 4 {
      var tags := RunIsExplained(starting, candles, cfg, rules);
      EventsInside(r.value.trades, candles);
      CleanTally(EventsOf(r.value.trades), candles, hourly);
    }
  }
}
