/** Every run of the backtest engine over a valid series: one close sample a bar that the trades explain,
  trades in order, and no price outside its own candle. */
module BacktestRuns {
  import opened Basics
  import opened Backtest
  import opened BacktestInduction
  import opened BacktestAccounting
  import opened BacktestCurve

  // ---- what can happen keeps the chart ----

  lemma CloseCharted(b: Book, candles: seq<Candle>, starting: real, cfg: Config, bar: nat)
    requires ValidSeries(candles) && 1 <= bar < |candles| && Charted(b, candles, starting, cfg, bar - 1, bar)
    ensures Charted(RecordClose(b, candles[bar], bar, cfg), candles, starting, cfg, bar, bar)
  {
    hide CurveOk, ClosesOk, TradesOrdered, TradesInside, FillsInside;
    var c, fills := candles[bar], OpenFills(b);
    var s := Sample(c.time, Marked(b.equity, fills, c.close, cfg));
    CurveGrows(b.curve, b.tags, candles, bar, s, Close);
    CloseAddsOne(b.tags, bar - 1);
    PartialAll(fills, c.time, c.close, cfg);
    BookedAll(b.trades, c.time, c.close, cfg);
  }

  lemma NextBarCharted(b: Book, candles: seq<Candle>, starting: real, cfg: Config, k: nat)
    requires ValidSeries(candles) && k + 1 < |candles| && Charted(b, candles, starting, cfg, k, k)
    ensures Charted(b, candles, starting, cfg, k, k + 1)
  {
  }

  lemma OpenCharted(b: Book, candles: seq<Candle>, starting: real, cfg: Config, k: nat, price: real)
    requires ValidSeries(candles) && k + 1 < |candles| && Charted(b, candles, starting, cfg, k, k + 1)
    requires b.position.None? && LastExitBy(b.trades, candles[k].time)
    requires candles[k + 1].low <= price <= candles[k + 1].high
    ensures var r := Open(b, candles[k + 1], k + 1, price, cfg);
      r.Ok? && Charted(r.value, candles, starting, cfg, k, k + 1) && r.value.position.Some?
  {
    var c := candles[k + 1];
    assert c in candles;
    var fill := MakeFill(c.time, price, cfg.firstMargin, b.equity, cfg).value;
    MadeFillIsSized(c.time, price, cfg.firstMargin, b.equity, cfg);
    var s := Sample(c.time, Marked(b.equity, [fill], price, cfg));
    CurveGrows(b.curve, b.tags, candles, k + 1, s, Event);
    EventKeepsCloses(b.tags, k, Tag(k + 1, Event));
    SameAfterFill(starting, b.trades, [], fill, cfg);
    assert [] + [fill] == [fill];
    ValuesShift(b.curve, b.tags, candles, k, starting, b.trades, [], b.trades, [fill], cfg, s, Tag(k + 1, Event), c.time);
  }

  lemma TradeHeld(p: Position, c: Candle, price: real, reason: ExitReason, cfg: Config, candles: seq<Candle>, trades: seq<Trade>)
    requires p.fills != [] && FillsBy(p.fills, c.time) && LastExitBefore(trades, p.fills[0].time) && TradesOrdered(trades)
    requires FillsInside(p.fills, candles) && TradesInside(trades, candles) && c in candles && c.low <= price <= c.high
    ensures var t := TradeOf(p, c, price, reason, cfg);
      TradesOrdered(trades + [t]) && TradesInside(trades + [t], candles) && t.fills == p.fills && t.exitTime == c.time && t.reason == reason
  {
    var t := TradeOf(p, c, price, reason, cfg);
    assert p.fills[0] in p.fills;
    forall x | x in trades + [t] ensures x.entryTime <= x.exitTime && FillsBy(x.fills, x.exitTime) { if x !in trades { assert x == t; } }
    forall x | x in trades + [t] ensures FillsInside(x.fills, candles) && Inside(candles, x.exitTime, x.exitPrice) {
      if x !in trades { assert x == t; }
    }
  }

  /** What settling does to the chart: one sample more, which no close sample depends on. */
  lemma ClosingCharts(b: Book, candles: seq<Candle>, starting: real, cfg: Config, k: nat, m: nat, price: real, reason: ExitReason, kind: Kind, bound: int)
    requires ValidSeries(candles) && Charted(b, candles, starting, cfg, k, m) && b.position.Some? && !kind.Close?
    requires b.position.value.fills != []
    requires candles[k].time < bound <= candles[m].time || (reason.EndOfData? && candles[k].time < bound <= candles[m].time + 1)
    ensures var u := ClosePosition(b, candles[m], m, price, reason, kind, cfg);
      && CurveOk(u.curve, u.tags, candles, m) && ClosesOk(u.tags, k)
      && ValuesOk(u.curve, u.tags, candles, starting, u.trades, [], cfg) && u.equity == starting + SumPnl(u.trades)
  {
    var c, p := candles[m], b.position.value;
    var t := TradeOf(p, c, price, reason, cfg);
    assert t.fills == p.fills && t.exitTime == c.time && t.reason == reason;
    var s := Sample(c.time, b.equity + t.pnl);
    hide TradeOf, TradesOrdered, TradesInside, FillsInside, HoldingOk, ValuesOk, ClosesOk, CurveOk, EquityAt;
    CurveGrows(b.curve, b.tags, candles, m, s, kind);
    EventKeepsCloses(b.tags, k, Tag(m, kind));
    SameAfterExit(starting, b.trades, t, bound, cfg);
    ValuesShift(b.curve, b.tags, candles, k, starting, b.trades, p.fills, b.trades + [t], [], cfg, s, Tag(m, kind), bound);
    assert (b.trades + [t])[..|b.trades|] == b.trades;
  }

  lemma ExitedGrows(trades: seq<Trade>, t: Trade, time: int)
    requires ExitedBy(trades, time) && t.exitTime <= time && !t.reason.EndOfData?
    ensures ExitedBy(trades + [t], time)
  {
    forall x | x in trades + [t] ensures x.exitTime <= time && !x.reason.EndOfData? { if x !in trades { assert x == t; } }
  }

  /** A flat book with nothing pending is charted when its parts are. */
  lemma FlatCharted(u: Book, candles: seq<Candle>, starting: real, cfg: Config, k: nat, m: nat)
    requires k <= m < |candles| && u.position.None? && u.pending.None? && u.equity == starting + SumPnl(u.trades)
    requires CurveOk(u.curve, u.tags, candles, m) && ClosesOk(u.tags, k) && ValuesOk(u.curve, u.tags, candles, starting, u.trades, [], cfg)
    requires ExitedBy(u.trades, candles[m].time) && TradesOrdered(u.trades) && TradesInside(u.trades, candles)
    ensures Charted(u, candles, starting, cfg, k, m)
  {
    hide CurveOk, ClosesOk, ValuesOk, TradesOrdered, TradesInside, ExitedBy, SumPnl;
  }

  lemma ExitCharted(b: Book, candles: seq<Candle>, starting: real, cfg: Config, k: nat, price: real, reason: ExitReason)
    requires ValidSeries(candles) && k + 1 < |candles| && Charted(b, candles, starting, cfg, k, k + 1) && b.position.Some?
    requires candles[k + 1].low <= price <= candles[k + 1].high && !reason.EndOfData?
    ensures Charted(ClosePosition(b, candles[k + 1], k + 1, price, reason, Event, cfg), candles, starting, cfg, k, k + 1)
  {
    var c, p := candles[k + 1], b.position.value;
    assert c in candles && candles[k].time < c.time && b.pending.None?;
    TradeHeld(p, c, price, reason, cfg, candles, b.trades);
    ExitedGrows(b.trades, TradeOf(p, c, price, reason, cfg), c.time);
    ClosingCharts(b, candles, starting, cfg, k, k + 1, price, reason, Event, c.time);
    hide Charted, CurveOk, ClosesOk, ValuesOk, TradesOrdered, TradesInside, FillsInside, TradeOf, SumPnl, ExitedBy, HoldingOk, ValidSeries;
    FlatCharted(ClosePosition(b, c, k + 1, price, reason, Event, cfg), candles, starting, cfg, k, k + 1);
  }

  lemma AddCharted(b: Book, candles: seq<Candle>, starting: real, cfg: Config, k: nat, fill: Fill, stage: int)
    requires ValidSeries(candles) && k + 1 < |candles| && Charted(b, candles, starting, cfg, k, k + 1) && b.position.Some?
    requires fill.time == candles[k + 1].time && candles[k + 1].low <= fill.price <= candles[k + 1].high
    ensures Charted(AddFill(b, candles[k + 1], k + 1, fill, stage, cfg), candles, starting, cfg, k, k + 1)
  {
    var c, fills := candles[k + 1], b.position.value.fills;
    assert c in candles;
    var s := Sample(c.time, Marked(b.equity, fills + [fill], fill.price, cfg));
    CurveGrows(b.curve, b.tags, candles, k + 1, s, Event);
    EventKeepsCloses(b.tags, k, Tag(k + 1, Event));
    SameAfterFill(starting, b.trades, fills, fill, cfg);
    ValuesShift(b.curve, b.tags, candles, k, starting, b.trades, fills, b.trades, fills + [fill], cfg, s, Tag(k + 1, Event), c.time);
  }

  lemma PlansCharted(b: Book, u: Book, candles: seq<Candle>, starting: real, cfg: Config, k: nat, m: nat)
    requires Charted(b, candles, starting, cfg, k, m) && OpenFills(u) == OpenFills(b) && u.position.Some? == b.position.Some?
    requires u == b.(position := u.position, pending := u.pending)
    requires u.pending.None? || (u.pending.Some? && k == m && b.position.None?)
    ensures Charted(u, candles, starting, cfg, k, m)
  {
    assert b.trades != [] ==> b.trades[|b.trades| - 1] in b.trades;
  }

  lemma StartCharted(candles: seq<Candle>, starting: real, cfg: Config)
    requires ValidSeries(candles) && |candles| >= 2
    ensures Charted(First(starting, candles), candles, starting, cfg, 0, 1)
  {
    var tags := [Tag(0, Start)];
    forall bar: nat ensures CountCloses(tags, bar) == 0 { assert tags[..0] == []; }
  }

  ghost function ChartOf(starting: real, candles: seq<Candle>, cfg: Config): Property {
    (b: Book, k: nat, m: nat) => Charted(b, candles, starting, cfg, k, m)
  }

  lemma EventsKeepChart(starting: real, candles: seq<Candle>, cfg: Config)
    requires ValidSeries(candles)
    ensures Kept(ChartOf(starting, candles, cfg), candles, cfg)
  {
    var P := ChartOf(starting, candles, cfg);
    forall b: Book, bar: nat | 1 <= bar < |candles| && P(b, bar - 1, bar)
      ensures P(RecordClose(b, candles[bar], bar, cfg), bar, bar)
    {
      CloseCharted(b, candles, starting, cfg, bar);
    }
    forall b: Book, k: nat | k + 1 < |candles| && P(b, k, k) ensures P(b, k, k + 1) { NextBarCharted(b, candles, starting, cfg, k); }
    OpensKeepChart(starting, candles, cfg);
    ExitsKeepChart(starting, candles, cfg);
    AddsKeepChart(starting, candles, cfg);
    PlansKeepChart(starting, candles, cfg);
  }

  /** A flat book that has closed this bar, or holds a pending entry, exited no later than the bar's open. */
  lemma FlatSince(b: Book, candles: seq<Candle>, starting: real, cfg: Config, k: nat, m: nat)
    requires Charted(b, candles, starting, cfg, k, m) && (k == m || b.pending.Some?)
    ensures LastExitBy(b.trades, candles[k].time)
  {
    assert b.trades != [] ==> b.trades[|b.trades| - 1] in b.trades;
  }

  lemma OpenKeepsChart(b: Book, bar: nat, price: real, starting: real, candles: seq<Candle>, cfg: Config)
    requires ValidSeries(candles) && 1 <= bar < |candles| && b.position.None? && Traded(candles[bar], price)
    requires Charted(b, candles, starting, cfg, bar - 1, bar - 1)
          || (Charted(b, candles, starting, cfg, bar - 1, bar) && b.pending.Some?)
    ensures var r := Open(b, candles[bar], bar, price, cfg); r.Ok? ==> Charted(r.value, candles, starting, cfg, bar - 1, bar)
  {
    hide Charted;
    if Charted(b, candles, starting, cfg, bar - 1, bar - 1) {
      FlatSince(b, candles, starting, cfg, bar - 1, bar - 1);
      NextBarCharted(b, candles, starting, cfg, bar - 1);
    } else {
      FlatSince(b, candles, starting, cfg, bar - 1, bar);
    }
    OpenCharted(b, candles, starting, cfg, bar - 1, price);
  }

  lemma OpensKeepChart(starting: real, candles: seq<Candle>, cfg: Config)
    requires ValidSeries(candles)
    ensures KeptByOpen(ChartOf(starting, candles, cfg), candles, cfg)
  {
    hide Charted, Open;
    var P := ChartOf(starting, candles, cfg);
    forall b: Book, bar: nat, price: real
      | 1 <= bar < |candles| && b.position.None? && (P(b, bar - 1, bar - 1) || (P(b, bar - 1, bar) && b.pending.Some?)) && Traded(candles[bar], price)
      ensures Open(b, candles[bar], bar, price, cfg).Ok? ==> P(Open(b, candles[bar], bar, price, cfg).value, bar - 1, bar)
    {
      OpenKeepsChart(b, bar, price, starting, candles, cfg);
    }
  }

  lemma ExitKeepsChart(b: Book, bar: nat, price: real, reason: ExitReason, starting: real, candles: seq<Candle>, cfg: Config)
    requires ValidSeries(candles) && 1 <= bar < |candles| && b.position.Some? && Held(b) && Traded(candles[bar], price) && !reason.EndOfData?
    requires ChartOf(starting, candles, cfg)(b, bar - 1, bar)
    ensures ChartOf(starting, candles, cfg)(ClosePosition(b, candles[bar], bar, price, reason, Event, cfg), bar - 1, bar)
  {
    ExitCharted(b, candles, starting, cfg, bar - 1, price, reason);
  }

  lemma ExitsKeepChart(starting: real, candles: seq<Candle>, cfg: Config)
    requires ValidSeries(candles)
    ensures KeptByExit(ChartOf(starting, candles, cfg), candles, cfg)
  {
    hide Charted;
    var P := ChartOf(starting, candles, cfg);
    forall b: Book, bar: nat, price: real, reason: ExitReason
      | 1 <= bar < |candles| && b.position.Some? && Held(b) && P(b, bar - 1, bar) && Traded(candles[bar], price) && !reason.EndOfData?
      ensures P(ClosePosition(b, candles[bar], bar, price, reason, Event, cfg), bar - 1, bar)
    {
      ExitKeepsChart(b, bar, price, reason, starting, candles, cfg);
    }
  }

  lemma AddsKeepChart(starting: real, candles: seq<Candle>, cfg: Config)
    requires ValidSeries(candles)
    ensures KeptByAdd(ChartOf(starting, candles, cfg), candles, cfg)
  {
    hide Charted;
    var P := ChartOf(starting, candles, cfg);
    forall b: Book, bar: nat, price: real, margin: real, stage: int
      | 1 <= bar < |candles| && b.position.Some? && P(b, bar - 1, bar) && Traded(candles[bar], price)
        && stage == b.position.value.maxStage + 1 && MakeFill(candles[bar].time, price, margin, b.equity, cfg).Ok?
      ensures P(AddFill(b, candles[bar], bar, MakeFill(candles[bar].time, price, margin, b.equity, cfg).value, stage, cfg), bar - 1, bar)
    {
      MadeFillIsSized(candles[bar].time, price, margin, b.equity, cfg);
      AddCharted(b, candles, starting, cfg, bar - 1, MakeFill(candles[bar].time, price, margin, b.equity, cfg).value, stage);
    }
  }

  lemma PlansKeepChart(starting: real, candles: seq<Candle>, cfg: Config)
    requires ValidSeries(candles)
    ensures KeptByPlans(ChartOf(starting, candles, cfg))
  {
    var P := ChartOf(starting, candles, cfg);
    forall b: Book, p: Position, k: nat, m: nat
      | P(b, k, m) && b.position.Some? && p.fills == b.position.value.fills && p.maxStage == b.position.value.maxStage
      ensures P(b.(position := Some(p)), k, m)
    {
      PlansCharted(b, b.(position := Some(p)), candles, starting, cfg, k, m);
    }
    forall b: Book, k: nat, m: nat | P(b, k, m) ensures P(b.(pending := None), k, m) {
      PlansCharted(b, b.(pending := None), candles, starting, cfg, k, m);
    }
    forall b: Book, e: PendingEntry, k: nat | P(b, k, k) && b.position.None? ensures P(b.(pending := Some(e)), k, k) {
      PlansCharted(b, b.(pending := Some(e)), candles, starting, cfg, k, k);
    }
  }

  // ---- results ----

  /** What a reader of the result sees: a curve of close samples that the trades explain, and trades in
      order at prices of their own candles. */
  ghost predicate Explained(r: BacktestResult, tags: seq<Tag>, candles: seq<Candle>, cfg: Config) {
    && |candles| >= 1 && CurveOk(r.curve, tags, candles, |candles| - 1) && ClosesOk(tags, |candles| - 1)
    && ValuesOk(r.curve, tags, candles, r.starting, r.trades, [], cfg)
    && r.curve[|r.curve| - 1].equity == r.ending
    && TradesOrdered(r.trades) && TradesInside(r.trades, candles)
  }

  /** The settlement at the end of the data. */
  lemma SettleExplained(b: Book, candles: seq<Candle>, starting: real, cfg: Config)
    requires ValidSeries(candles) && candles != [] && Charted(b, candles, starting, cfg, |candles| - 1, |candles| - 1) && b.position.Some?
    ensures var u := Settle(b, candles, cfg);
      Explained(BacktestResult(starting, u.equity, u.trades, u.curve), u.tags, candles, cfg)
  {
    var n := |candles| - 1;
    var c := candles[n];
    assert c in candles;
    TradeHeld(b.position.value, c, c.close, EndOfData, cfg, candles, b.trades);
    hide CurveOk, ClosesOk, ValuesOk, TradesOrdered, TradesInside, FillsInside;
    ClosingCharts(b, candles, starting, cfg, n, n, c.close, EndOfData, Settlement, c.time + 1);
  }

  lemma FlatExplained(b: Book, candles: seq<Candle>, starting: real, cfg: Config)
    requires ValidSeries(candles) && |candles| >= 2 && Charted(b, candles, starting, cfg, |candles| - 1, |candles| - 1)
    requires b.position.None? && b.curve[|b.curve| - 1].equity == b.equity
    ensures Explained(BacktestResult(starting, b.equity, b.trades, b.curve), b.tags, candles, cfg)
  {
  }

  /** The last sample of a flat book is its equity. */
  ghost function LastSample(): Property {
    (b: Book, k: nat, m: nat) => Held(b) && b.curve != [] && (b.position.None? ==> b.curve[|b.curve| - 1].equity == b.equity)
  }

  lemma EventsKeepLastSample(candles: seq<Candle>, cfg: Config)
    ensures Kept(LastSample(), candles, cfg)
  {
    assert Unrealized([], 0.0, cfg) == 0.0;
  }

  /** On a valid series a supported configuration always gives a result, in which every bar 1..n-1 has exactly
      one close sample, whose value the list of trades determines; times never decrease, the last sample is the
      ending equity, each trade ends strictly before the next begins, and no price is outside its candle. */
  lemma RunIsExplained(starting: real, candles: seq<Candle>, cfg: Config, rules: Rules) returns (tags: seq<Tag>)
    requires ValidSeries(candles) && |candles| >= 4
    ensures Supported(cfg) ==> Run(starting, candles, cfg, rules).Ok?
    ensures Run(starting, candles, cfg, rules).Ok? ==>
      Explained(Run(starting, candles, cfg, rules).value, tags, candles, cfg)
  {
    hide BarStep, Explained, Kept;
    StartCharted(candles, starting, cfg);
    EventsKeepChart(starting, candles, cfg);
    EventsKeepLastSample(candles, cfg);
    RunKeeps(ChartOf(starting, candles, cfg), starting, candles, |candles|, cfg, rules);
    RunKeeps(LastSample(), starting, candles, |candles|, cfg, rules);
    tags := [];
    var b := Before(starting, candles, |candles|, cfg, rules);
    if b.Ok? {
      tags := Settle(b.value, candles, cfg).tags;
      if b.value.position.Some? {
        SettleExplained(b.value, candles, starting, cfg);
      } else {
        FlatExplained(b.value, candles, starting, cfg);
      }
    }
  }
}
