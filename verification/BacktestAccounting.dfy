/** The accounting of every backtest run. */
module BacktestAccounting {
  import opened Basics
  import opened Backtest
  import opened BacktestInduction

  // ---- accounting ----

  function SumPnl(trades: seq<Trade>): real {
    if trades == [] then 0.0 else SumPnl(trades[..|trades| - 1]) + trades[|trades| - 1].pnl
  }

  /** A fill sized from this settled equity. */
  predicate Sized(f: Fill, equity: real, cfg: Config) {
    && f.price != 0.0 && f.notional == cfg.times(cfg.times(equity, f.margin), cfg.leverage)
    && f.units == cfg.over(f.notional, f.price) && f.fee == cfg.times(f.notional, cfg.feeRate)
  }

  predicate AllSized(fills: seq<Fill>, equity: real, cfg: Config) {
    fills != [] && forall f :: f in fills ==> Sized(f, equity, cfg)
  }

  /** The result over the margin that the fills' notional took at this leverage. */
  predicate IsReturn(t: Trade, cfg: Config) {
    var margin := cfg.over(Notional(t.fills), cfg.leverage);
    t.returnOnMargin == if cfg.leverage == 0.0 || margin == 0.0 then 0.0 else cfg.over(t.pnl, margin)
  }

  /** Every fill was sized from the equity settled before the trade, one fill per stage was made, settling gave
      the marked equity at the exit price less the exit fee, and the fees are those of all fills and the exit. */
  predicate TradeAccounted(t: Trade, equity: real, cfg: Config) {
    && AllSized(t.fills, equity, cfg) && |t.fills| == t.maxStage
    && equity + t.pnl == Marked(equity, t.fills, t.exitPrice, cfg) - cfg.times(cfg.times(t.exitPrice, Units(t.fills)), cfg.feeRate)
    && t.entryPrice == EntryPrice(t.fills, cfg) && t.entryTime == t.fills[0].time
    && t.fees == Fees(t.fills) + cfg.times(cfg.times(t.exitPrice, Units(t.fills)), cfg.feeRate) && IsReturn(t, cfg)
  }

  /** Each trade was sized from, and settled into, the equity its predecessors left. */
  predicate TradesAccounted(trades: seq<Trade>, starting: real, cfg: Config) {
    trades != [] ==>
      && TradesAccounted(trades[..|trades| - 1], starting, cfg)
      && TradeAccounted(trades[|trades| - 1], starting + SumPnl(trades[..|trades| - 1]), cfg)
  }

  predicate PositionAccounted(position: Option<Position>, equity: real, cfg: Config) {
    position.Some? ==> AllSized(position.value.fills, equity, cfg) && |position.value.fills| == position.value.maxStage
  }

  predicate Accounted(b: Book, starting: real, cfg: Config) {
    && b.equity == starting + SumPnl(b.trades)
    && TradesAccounted(b.trades, starting, cfg)
    && PositionAccounted(b.position, b.equity, cfg)
  }

  lemma TradeOfAccounted(p: Position, equity: real, c: Candle, price: real, reason: ExitReason, cfg: Config)
    requires AllSized(p.fills, equity, cfg) && |p.fills| == p.maxStage
    ensures TradeAccounted(TradeOf(p, c, price, reason, cfg), equity, cfg)
  {
  }

  lemma TradesGrow(trades: seq<Trade>, t: Trade, starting: real, cfg: Config)
    requires TradesAccounted(trades, starting, cfg) && TradeAccounted(t, starting + SumPnl(trades), cfg)
    ensures TradesAccounted(trades + [t], starting, cfg) && SumPnl(trades + [t]) == SumPnl(trades) + t.pnl
  {
    assert (trades + [t])[..|trades|] == trades;
  }

  lemma CloseAccounted(b: Book, c: Candle, bar: nat, price: real, reason: ExitReason, kind: Kind, starting: real, cfg: Config)
    requires Accounted(b, starting, cfg) && b.position.Some?
    ensures Accounted(ClosePosition(b, c, bar, price, reason, kind, cfg), starting, cfg)
  {
    TradeOfAccounted(b.position.value, b.equity, c, price, reason, cfg);
    TradesGrow(b.trades, TradeOf(b.position.value, c, price, reason, cfg), starting, cfg);
  }

  lemma MadeFillIsSized(time: int, price: real, margin: real, equity: real, cfg: Config)
    ensures var f := MakeFill(time, price, margin, equity, cfg); f.Ok? ==> Sized(f.value, equity, cfg) && f.value.time == time && f.value.price == price
  {
  }

  lemma OpenAccounted(b: Book, c: Candle, bar: nat, price: real, starting: real, cfg: Config)
    requires Accounted(b, starting, cfg)
    ensures var r := Open(b, c, bar, price, cfg); r.Ok? ==> Accounted(r.value, starting, cfg)
  {
    MadeFillIsSized(c.time, price, cfg.firstMargin, b.equity, cfg);
  }

  lemma AddAccounted(b: Book, c: Candle, bar: nat, fill: Fill, stage: int, starting: real, cfg: Config)
    requires Accounted(b, starting, cfg) && b.position.Some? && Sized(fill, b.equity, cfg) && stage == b.position.value.maxStage + 1
    ensures Accounted(AddFill(b, c, bar, fill, stage, cfg), starting, cfg)
  {
    var fills := b.position.value.fills;
    forall f | f in fills + [fill] ensures Sized(f, b.equity, cfg) { if f !in fills { assert f == fill; } }
  }

  ghost function AccountsOf(starting: real, cfg: Config): Property {
    (b: Book, k: nat, m: nat) => Accounted(b, starting, cfg)
  }

  lemma EventsKeepAccounts(starting: real, candles: seq<Candle>, cfg: Config)
    ensures Kept(AccountsOf(starting, cfg), candles, cfg)
  {
    var P := AccountsOf(starting, cfg);
    forall b: Book, bar: nat, price: real | 1 <= bar < |candles| && Accounted(b, starting, cfg) && Open(b, candles[bar], bar, price, cfg).Ok?
      ensures P(Open(b, candles[bar], bar, price, cfg).value, bar - 1, bar)
    {
      OpenAccounted(b, candles[bar], bar, price, starting, cfg);
    }
    forall b: Book, bar: nat, price: real, reason: ExitReason | 1 <= bar < |candles| && b.position.Some? && Held(b) && Accounted(b, starting, cfg)
      ensures P(ClosePosition(b, candles[bar], bar, price, reason, Event, cfg), bar - 1, bar)
    {
      CloseAccounted(b, candles[bar], bar, price, reason, Event, starting, cfg);
    }
    forall b: Book, bar: nat, price: real, margin: real, stage: int
      | 1 <= bar < |candles| && b.position.Some? && Accounted(b, starting, cfg)
        && stage == b.position.value.maxStage + 1 && MakeFill(candles[bar].time, price, margin, b.equity, cfg).Ok?
      ensures P(AddFill(b, candles[bar], bar, MakeFill(candles[bar].time, price, margin, b.equity, cfg).value, stage, cfg), bar - 1, bar)
    {
      MadeFillIsSized(candles[bar].time, price, margin, b.equity, cfg);
      AddAccounted(b, candles[bar], bar, MakeFill(candles[bar].time, price, margin, b.equity, cfg).value, stage, starting, cfg);
    }
  }

  lemma FinalAccounted(starting: real, candles: seq<Candle>, cfg: Config, rules: Rules)
    requires |candles| >= 2
    ensures var r := Final(starting, candles, cfg, rules); r.Ok? ==> Accounted(r.value, starting, cfg)
  {
    EventsKeepAccounts(starting, candles, cfg);
    RunKeeps(AccountsOf(starting, cfg), starting, candles, |candles|, cfg, rules);
    var b := Before(starting, candles, |candles|, cfg, rules);
    if b.Ok? && b.value.position.Some? {
      var last := candles[|candles| - 1];
      CloseAccounted(b.value, last, |candles| - 1, last.close, EndOfData, Settlement, starting, cfg);
    }
  }

  lemma {:induction false} TradeIsAccounted(trades: seq<Trade>, starting: real, cfg: Config, i: nat)
    requires TradesAccounted(trades, starting, cfg) && i < |trades|
    ensures TradeAccounted(trades[i], starting + SumPnl(trades[..i]), cfg)
    decreases |trades|
  {
    if i < |trades| - 1 {
      TradeIsAccounted(trades[..|trades| - 1], starting, cfg, i);
      assert trades[..|trades| - 1][..i] == trades[..i];
    }
  }

  /** The accounting of a result: the ending equity is the starting equity plus every trade's result, and
      each trade was sized from, and settled into, the equity its predecessors left. */
  lemma RunAccounted(starting: real, candles: seq<Candle>, cfg: Config, rules: Rules)
    requires Run(starting, candles, cfg, rules).Ok?
    ensures var r := Run(starting, candles, cfg, rules).value;
      r.starting == starting && r.ending == starting + SumPnl(r.trades) && TradesAccounted(r.trades, starting, cfg)
  {
    if |candles| >= 4 { FinalAccounted(starting, candles, cfg, rules); }
  }

  // ---- with exact arithmetic ----

  lemma {:induction false} ExactUnrealized(fills: seq<Fill>, price: real, cfg: Config)
    requires IsExact(cfg)
    ensures Unrealized(fills, price, cfg) == price * Units(fills) - Cost(fills, cfg)
  {
    if fills != [] {
      var f := fills[|fills| - 1];
      ExactUnrealized(fills[..|fills| - 1], price, cfg);
      Distribute(price, f.price, f.units, Units(fills[..|fills| - 1]));
    }
  }

  lemma Distribute(a: real, b: real, u: real, v: real)
    ensures (a - b) * u == a * u - b * u && a * (v + u) == a * v + a * u
  {
  }

  /** A trade's result in exact arithmetic: its size times the move from the average entry price, less all its fees. */
  lemma ExactPnl(t: Trade, equity: real, cfg: Config)
    requires TradeAccounted(t, equity, cfg) && IsExact(cfg) && Units(t.fills) != 0.0
    ensures t.pnl == (t.exitPrice - t.entryPrice) * Units(t.fills) - Fees(t.fills) - t.exitPrice * Units(t.fills) * cfg.feeRate
  {
    ExactUnrealized(t.fills, t.exitPrice, cfg);
    Distribute(t.exitPrice, t.entryPrice, Units(t.fills), 0.0);
    assert t.entryPrice * Units(t.fills) == Cost(t.fills, cfg);
  }

  // ---- adds ----

  /** A planned add is consumed on the next bar it is looked at, whether it is filled or not.  It is filled
      only on the bar right after its signal, at the next stage, and within the reach of the candle but not
      below its trigger; nothing else about the position changes. */
  lemma AddFollowsItsPlan(b: Book, c: Candle, bar: nat, cfg: Config, rules: Rules)
    requires b.position.Some?
    ensures var r, p := ExecuteAdd(b, c, bar, cfg, rules), b.position.value;
      r.Ok? ==>
        && var q := r.value.position.value;
           && q.pendingAdd.None? && q == p.(fills := q.fills, maxStage := q.maxStage, pendingAdd := None)
           && r.value.equity == b.equity && r.value.trades == b.trades
           && (q.fills == p.fills ==> q.maxStage == p.maxStage && r.value.curve == b.curve)
           && (q.fills != p.fills ==>
                 && p.pendingAdd.Some? && bar == p.pendingAdd.value.signalIndex + 1 && q.maxStage == p.maxStage + 1
                 && |q.fills| == |p.fills| + 1 && q.fills[..|p.fills|] == p.fills
                 && var f := q.fills[|p.fills|];
                    && Sized(f, b.equity, cfg) && f.time == c.time && f.price >= p.pendingAdd.value.candidate.trigger
                    && (c.open <= c.high ==> f.price <= c.high))
  {
    var p := b.position.value;
    var add := AddFor(p, c, bar, rules);
    if add.Some? {
      MadeFillIsSized(c.time, add.value.0, add.value.1.margin, b.equity, cfg);
      var r := ExecuteAdd(b, c, bar, cfg, rules);
      if r.Ok? { assert |r.value.position.value.fills| == |p.fills| + 1; }
    }
  }

  /** Managing an open position at a close moves its stop and makes a plan, without regard to any plan there
      was; the plan is for the next bar, and at any other bar it is dropped unfilled. */
  lemma PlanIsForNextBar(p: Position, bar: nat, rules: Rules, other: Option<PendingAdd>, b: Book, c: Candle, later: nat, cfg: Config)
    requires b.position == Some(Manage(p, bar, rules)) && later != bar + 1
    ensures Manage(p.(pendingAdd := other), bar, rules) == Manage(p, bar, rules)
    ensures var q := Manage(p, bar, rules);
      q.fills == p.fills && q.maxStage == p.maxStage && q.anchor == p.anchor && q.initialStop == p.initialStop
    ensures ExecuteAdd(b, c, later, cfg, rules) == Ok(b.(position := Some(Manage(p, bar, rules).(pendingAdd := None))))
  {
  }
}
