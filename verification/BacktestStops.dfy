/** What one bar must do, said by its candle and the position alone: which entries are taken, which adds are
  filled, and when a stop or the liquidation price ends the trade.  Over runs, no trade outlives a bar
  whose low reached the stop in force. */
module BacktestStops {
  import opened Basics
  import opened Backtest
  import opened BacktestInduction
  import opened BacktestAccounting

  function Lesser(a: real, b: real): real { if a < b then a else b }

  function Greater(a: real, b: real): real { if a < b then b else a }

  // ---- exits ----

  /** The average entry price, less the share of it that the leverage puts at risk. */
  function LiquidationPrice(p: Position, cfg: Config): real {
    cfg.times(EntryPrice(p.fills, cfg), Greater(1.0 - cfg.over(1.0, cfg.leverage), 0.0))
  }

  predicate IsLiquidated(p: Position, c: Candle, cfg: Config, rules: Rules) {
    !rules.inWindow(c.time) && c.low <= LiquidationPrice(p, cfg)
  }

  /** The position is closed at its threshold, or at the open where the bar began below it. */
  predicate Exits(b: Book, u: Book, p: Position, c: Candle, threshold: real, reason: ExitReason) {
    && u.position.None? && |u.trades| == |b.trades| + 1 && u.trades[..|b.trades|] == b.trades
    && var t := u.trades[|b.trades|];
       && t.fills == p.fills && t.exitTime == c.time && t.exitPrice == Lesser(c.open, threshold) && t.reason == reason
       && u.equity == b.equity + t.pnl
  }

  /** What checking a position against a bar leaves: liquidated, stopped, or as it was. */
  predicate IsChecked(b: Book, u: Book, p: Position, c: Candle, stopReason: ExitReason, cfg: Config, rules: Rules) {
    if IsLiquidated(p, c, cfg, rules) then Exits(b, u, p, c, LiquidationPrice(p, cfg), LiquidationRisk)
    else if c.low <= p.stop then Exits(b, u, p, c, p.stop, stopReason)
    else u.position == Some(p) && u.trades == b.trades && u.equity == b.equity
  }

  /** The engine cannot tell the liquidation price without leverage, which it needs only outside the window. */
  predicate IsUnpriced(c: Candle, cfg: Config, rules: Rules) {
    cfg.leverage <= 0.0 && !rules.inWindow(c.time)
  }

  lemma ClosingExits(b: Book, c: Candle, bar: nat, threshold: real, reason: ExitReason, kind: Kind, cfg: Config)
    requires b.position.Some? && b.position.value.fills != [] && c.low <= threshold
    ensures Exits(b, ClosePosition(b, c, bar, ExitAt(c, threshold), reason, kind, cfg), b.position.value, c, threshold, reason)
  {
    hide Unrealized, Fees, ReturnOnMargin, EntryPrice;
  }

  lemma CheckSettles(b: Book, c: Candle, bar: nat, stopReason: ExitReason, cfg: Config, rules: Rules)
    requires b.position.Some? && b.position.value.fills != []
    ensures var r := ExitOnRisk(b, c, bar, stopReason, cfg, rules);
      && (r.Err? <==> IsUnpriced(c, cfg, rules))
      && (r.Ok? ==> IsChecked(b, r.value, b.position.value, c, stopReason, cfg, rules) && r.value.pending == b.pending)
      && (r.Ok? && r.value.position.Some? ==> r.value == b)
  {
    hide EntryPrice, Exits, ExitAt;
    var p := b.position.value;
    if c.low <= p.stop { ClosingExits(b, c, bar, p.stop, stopReason, Event, cfg); }
    if c.low <= LiquidationPrice(p, cfg) { ClosingExits(b, c, bar, LiquidationPrice(p, cfg), LiquidationRisk, Event, cfg); }
  }

  /** In exact arithmetic the liquidation price is where the loss has used up the margin, or zero when
      there is no leverage. */
  lemma LiquidationTakesTheMargin(p: Position, cfg: Config)
    requires IsExact(cfg) && cfg.leverage > 0.0
    ensures cfg.leverage >= 1.0 ==> (EntryPrice(p.fills, cfg) - LiquidationPrice(p, cfg)) * cfg.leverage == EntryPrice(p.fills, cfg)
    ensures cfg.leverage <= 1.0 ==> LiquidationPrice(p, cfg) == 0.0
  {
    hide EntryPrice;
    var e, share := EntryPrice(p.fills, cfg), 1.0 / cfg.leverage;
    assert cfg.over(1.0, cfg.leverage) == share && share * cfg.leverage == 1.0;
    if cfg.leverage >= 1.0 {
      assert share <= 1.0;
      assert LiquidationPrice(p, cfg) == e * (1.0 - share);
      assert (e - e * (1.0 - share)) * cfg.leverage == e * (share * cfg.leverage);
    }
    if cfg.leverage <= 1.0 { assert share >= 1.0; }
  }

  // ---- entries ----

  /** A position just opened: one fill, sized from the settled equity, and the initial stop below it. */
  predicate IsFirst(p: Position, c: Candle, price: real, equity: real, cfg: Config) {
    && |p.fills| == 1 && p.fills[0].time == c.time && p.fills[0].price == price && p.fills[0].margin == cfg.firstMargin
    && Sized(p.fills[0], equity, cfg)
    && p.stop == p.initialStop == cfg.times(price, 1.0 - cfg.initialStopPct) && p.anchor == price
    && p.maxStage == 1 && p.transitionCount == 0 && p.transitionStart == 0.0 && p.pendingAdd.None?
  }

  /** An entry at the price: the bar that fills it may end it, by its initial stop or by liquidation. */
  ghost predicate Enters(b: Book, u: Book, c: Candle, price: real, cfg: Config, rules: Rules) {
    && u.pending.None?
    && exists p: Position {:trigger IsFirst(p, c, price, b.equity, cfg)} ::
         IsFirst(p, c, price, b.equity, cfg) && IsChecked(b, u, p, c, InitialStop, cfg, rules)
  }

  lemma OpeningEnters(b: Book, c: Candle, bar: nat, price: real, cfg: Config, rules: Rules)
    requires b.position.None?
    ensures var r := OpenAndCheck(b, c, bar, price, cfg, rules);
      && (r.Err? <==> price == 0.0 || IsUnpriced(c, cfg, rules))
      && (r.Ok? ==> Enters(b, r.value, c, price, cfg, rules))
  {
    hide Unrealized, Fees, ExitOnRisk, Exits, LiquidationPrice;
    var o := Open(b, c, bar, price, cfg);
    if o.Ok? {
      CheckSettles(o.value, c, bar, InitialStop, cfg, rules);
      var r := ExitOnRisk(o.value, c, bar, InitialStop, cfg, rules);
      if r.Ok? {
        var p := o.value.position.value;
        assert IsFirst(p, c, price, b.equity, cfg);
        SameBooks(o.value, b, r.value, p, c, InitialStop, cfg, rules);
      }
    }
  }

  lemma SameBooks(b: Book, a: Book, u: Book, p: Position, c: Candle, stopReason: ExitReason, cfg: Config, rules: Rules)
    requires IsChecked(b, u, p, c, stopReason, cfg, rules) && a.trades == b.trades && a.equity == b.equity
    ensures IsChecked(a, u, p, c, stopReason, cfg, rules)
  {
  }

  /** Nothing but the close was recorded. */
  predicate IsIdle(b: Book, u: Book, pending: Option<PendingEntry>) {
    u.position == b.position && u.trades == b.trades && u.equity == b.equity && u.pending == pending
  }

  /** The price at which a bar trades a confirmed signal, if it does. */
  function SignalPrice(mode: EntryMode, signal: Candle, next: Candle): Option<real> {
    if mode.DirectNextOpen? then Some(next.open)
    else if mode.BreakHigh? && next.high > signal.high then Some(Greater(next.open, signal.high))
    else None
  }

  /** A signal is confirmed at the close of a bar of the window that another bar follows. */
  predicate IsSignal(candles: seq<Candle>, bar: nat, rules: Rules)
    requires bar < |candles|
  {
    bar + 1 < |candles| && rules.inWindow(candles[bar].time) && rules.level(bar).Some? && rules.confirms(bar, rules.level(bar).value)
  }

  /** What a flat bar without a standing limit order does. */
  ghost predicate Signals(b: Book, u: Book, candles: seq<Candle>, bar: nat, cfg: Config, rules: Rules)
    requires bar < |candles|
  {
    if !IsSignal(candles, bar, rules) then IsIdle(b, u, b.pending)
    else if cfg.mode.SecondPullback? then IsIdle(b, u, Some(PendingEntry(rules.level(bar).value, bar + cfg.waitBars)))
    else
      var price := SignalPrice(cfg.mode, candles[bar], candles[bar + 1]);
      if price.Some? && rules.accepts(bar, rules.level(bar).value, price.value) && rules.inWindow(candles[bar + 1].time)
      then Enters(b, u, candles[bar + 1], price.value, cfg, rules)
      else IsIdle(b, u, b.pending)
  }

  /** What a bar does to a standing limit order: it is filled when the low comes within the tolerance and
      down to the level itself, at the level or at an open below it. */
  ghost predicate Pulls(b: Book, u: Book, c: Candle, level: real, cfg: Config, rules: Rules) {
    if c.low <= level && c.low <= cfg.times(level, 1.0 + cfg.levelTolerance) && rules.inWindow(c.time)
    then Enters(b, u, c, Lesser(c.open, level), cfg, rules)
    else IsIdle(b, u, b.pending)
  }

  lemma SignalMeans(b: Book, candles: seq<Candle>, bar: nat, cfg: Config, rules: Rules)
    requires bar < |candles| && b.position.None?
    ensures var r := SignalStep(b, candles, bar, cfg, rules); r.Ok? ==> Signals(b, r.value, candles, bar, cfg, rules)
  {
    hide OpenAndCheck, Marked, IsFirst, IsChecked;
    if IsSignal(candles, bar, rules) && !cfg.mode.SecondPullback? && !cfg.mode.Unsupported? {
      var closed := RecordClose(b, candles[bar], bar, cfg);
      var price := SignalPrice(cfg.mode, candles[bar], candles[bar + 1]);
      if price.Some? {
        OpeningEnters(closed, candles[bar + 1], bar + 1, price.value, cfg, rules);
        var r := OpenAndCheck(closed, candles[bar + 1], bar + 1, price.value, cfg, rules);
        if r.Ok? { SameEntry(closed, b, r.value, candles[bar + 1], price.value, cfg, rules); }
      }
    }
  }

  lemma SameEntry(b: Book, a: Book, u: Book, c: Candle, price: real, cfg: Config, rules: Rules)
    requires Enters(b, u, c, price, cfg, rules) && a.trades == b.trades && a.equity == b.equity
    ensures Enters(a, u, c, price, cfg, rules)
  {
    hide IsFirst, IsChecked;
    var p :| IsFirst(p, c, price, b.equity, cfg) && IsChecked(b, u, p, c, InitialStop, cfg, rules);
    SameBooks(b, a, u, p, c, InitialStop, cfg, rules);
  }

  lemma ClosedEntry(b: Book, u: Book, w: Book, c: Candle, price: real, cfg: Config, rules: Rules)
    requires Enters(b, u, c, price, cfg, rules) && w.trades == u.trades && w.equity == u.equity && w.position == u.position && w.pending == u.pending
    ensures Enters(b, w, c, price, cfg, rules)
  {
    hide IsFirst, LiquidationPrice;
    var p :| IsFirst(p, c, price, b.equity, cfg) && IsChecked(b, u, p, c, InitialStop, cfg, rules);
    assert IsChecked(b, w, p, c, InitialStop, cfg, rules);
  }

  lemma PendingMeans(b: Book, candles: seq<Candle>, bar: nat, cfg: Config, rules: Rules)
    requires bar < |candles| && b.position.None? && b.pending.Some?
    ensures var r := PendingStep(b, candles, bar, cfg, rules);
      r.Ok? ==> Pulls(b, r.value, candles[bar], b.pending.value.level, cfg, rules)
  {
    hide OpenAndCheck, Marked, IsFirst, IsChecked, Enters;
    var c, price := candles[bar], Lesser(candles[bar].open, b.pending.value.level);
    OpeningEnters(b, c, bar, price, cfg, rules);
    var o := OpenAndCheck(b, c, bar, price, cfg, rules);
    if o.Ok? { ClosedEntry(b, o.value, RecordClose(o.value, c, bar, cfg), c, price, cfg, rules); }
  }

  /** What a bar makes of a flat book. */
  ghost predicate FlatBar(b: Book, u: Book, candles: seq<Candle>, bar: nat, cfg: Config, rules: Rules)
    requires bar < |candles|
  {
    if cfg.mode.SecondPullback? && b.pending.Some? && bar <= b.pending.value.expires
    then Pulls(b, u, candles[bar], b.pending.value.level, cfg, rules)
    else Signals(if cfg.mode.SecondPullback? then b.(pending := None) else b, u, candles, bar, cfg, rules)
  }

  // ---- bars of an open position ----

  /** The planned add stands: this is the next bar, its stage is the next, the rule still asks for it, and
      the bar reaches the trigger inside the window. */
  predicate IsAdded(p: Position, c: Candle, bar: nat, rules: Rules) {
    && p.pendingAdd.Some?
    && var plan := p.pendingAdd.value;
       && bar == plan.signalIndex + 1 && c.time == plan.candidate.availableAt && plan.candidate.stage == p.maxStage + 1
       && rules.inWindow(c.time) && c.high >= plan.candidate.trigger
       && rules.decide(p.(pendingAdd := None), plan.signalIndex, bar).shouldAdd
  }

  /** The position lives on: at most the planned add is filled, then the stop moves and a plan is made. */
  predicate LivesOn(b: Book, u: Book, p: Position, c: Candle, bar: nat, cfg: Config, rules: Rules) {
    && u.position.Some? && u.trades == b.trades && u.equity == b.equity && u.pending == b.pending
    && var q := u.position.value;
       && |q.fills| >= |p.fills| && q.fills[..|p.fills|] == p.fills && q.anchor == p.anchor && q.initialStop == p.initialStop
       && (if IsAdded(p, c, bar, rules) then
             && |q.fills| == |p.fills| + 1 && q.maxStage == p.maxStage + 1
             && var f, plan := q.fills[|p.fills|], p.pendingAdd.value.candidate;
                Sized(f, b.equity, cfg) && f.time == c.time && f.price == Greater(c.open, plan.trigger) && f.margin == plan.margin
           else q.fills == p.fills && q.maxStage == p.maxStage)
       && (var held := p.(fills := q.fills, maxStage := q.maxStage, pendingAdd := None);
           rules.tighten(held, bar) == StopOutcome(q.stop, q.transitionCount, q.transitionStart))
       && (var next := rules.decide(q.(pendingAdd := None), bar, bar);
           q.pendingAdd == if next.shouldAdd then Some(PendingAdd(next, bar)) else None)
  }

  /** What a bar makes of an open position.  The bar of its entry was checked when it was filled. */
  predicate HeldBar(b: Book, u: Book, p: Position, c: Candle, bar: nat, cfg: Config, rules: Rules)
    requires p.fills != []
  {
    if p.fills[0].time != c.time && (IsLiquidated(p, c, cfg, rules) || c.low <= p.stop)
    then IsChecked(b, u, p, c, Stop, cfg, rules)
    else LivesOn(b, u, p, c, bar, cfg, rules)
  }

  lemma ManagedLivesOn(b: Book, c: Candle, bar: nat, cfg: Config, rules: Rules)
    requires b.position.Some? && b.position.value.fills != []
    ensures var r := ManageStep(b, c, bar, cfg, rules); r.Ok? ==> LivesOn(b, r.value, b.position.value, c, bar, cfg, rules)
  {
    hide Marked;
  }

  lemma HoldMeans(b: Book, candles: seq<Candle>, bar: nat, cfg: Config, rules: Rules)
    requires bar < |candles| && b.position.Some? && b.position.value.fills != []
    ensures var r := HoldStep(b, candles, bar, cfg, rules);
      r.Ok? ==> HeldBar(b, r.value, b.position.value, candles[bar], bar, cfg, rules)
  {
    hide Marked, ExitOnRisk, ManageStep, LivesOn, LiquidationPrice;
    var p, c := b.position.value, candles[bar];
    CheckSettles(b, c, bar, Stop, cfg, rules);
    var b1 := if p.fills[0].time == c.time then Ok(b) else ExitOnRisk(b, c, bar, Stop, cfg, rules);
    if b1.Ok? && b1.value.position.Some? {
      ManagedLivesOn(b1.value, c, bar, cfg, rules);
    }
  }

  // ---- over runs ----

  /** One bar. */
  ghost predicate IsBar(b: Book, u: Book, candles: seq<Candle>, bar: nat, cfg: Config, rules: Rules)
    requires bar < |candles| && Held(b)
  {
    if b.position.Some? then HeldBar(b, u, b.position.value, candles[bar], bar, cfg, rules)
    else FlatBar(b, u, candles, bar, cfg, rules)
  }

  lemma BarMeans(b: Book, candles: seq<Candle>, bar: nat, cfg: Config, rules: Rules)
    requires bar < |candles| && Held(b)
    ensures var r := BarStep(b, candles, bar, cfg, rules); r.Ok? ==> IsBar(b, r.value, candles, bar, cfg, rules)
  {
    hide HoldStep, HeldBar, SignalStep, PendingStep, Signals, Pulls;
    if b.position.Some? {
      HoldMeans(b, candles, bar, cfg, rules);
    } else {
      var cleared := b.(pending := None);
      SignalMeans(b, candles, bar, cfg, rules);
      SignalMeans(cleared, candles, bar, cfg, rules);
      if b.pending.Some? { PendingMeans(b, candles, bar, cfg, rules); }
    }
  }

  /** A run is its bars: each does what its candle demands of the book before it. */
  lemma RunIsBars(starting: real, candles: seq<Candle>, bar: nat, cfg: Config, rules: Rules)
    requires 1 <= bar < |candles| && Before(starting, candles, bar + 1, cfg, rules).Ok?
    ensures Before(starting, candles, bar, cfg, rules).Ok?
    ensures IsBar(Before(starting, candles, bar, cfg, rules).value, Before(starting, candles, bar + 1, cfg, rules).value, candles, bar, cfg, rules)
  {
    hide BarStep, IsBar;
    BarMeans(Before(starting, candles, bar, cfg, rules).value, candles, bar, cfg, rules);
  }

  predicate Extends(trades: seq<Trade>, more: seq<Trade>) {
    |trades| <= |more| && more[..|trades|] == trades
  }

  lemma BarExtends(b: Book, u: Book, candles: seq<Candle>, bar: nat, cfg: Config, rules: Rules)
    requires bar < |candles| && Held(b) && IsBar(b, u, candles, bar, cfg, rules)
    ensures Extends(b.trades, u.trades)
  {
    hide LiquidationPrice, IsFirst, IsSignal, IsAdded;
  }

  lemma {:induction false} TradesStay(starting: real, candles: seq<Candle>, bar: nat, upto: nat, cfg: Config, rules: Rules)
    requires 1 <= bar <= upto <= |candles| && Before(starting, candles, upto, cfg, rules).Ok?
    ensures Before(starting, candles, bar, cfg, rules).Ok?
    ensures Extends(Before(starting, candles, bar, cfg, rules).value.trades, Before(starting, candles, upto, cfg, rules).value.trades)
    decreases upto
  {
    if bar < upto {
      hide BarStep, IsBar, Before;
      RunIsBars(starting, candles, upto - 1, cfg, rules);
      var m, u := Before(starting, candles, upto - 1, cfg, rules).value, Before(starting, candles, upto, cfg, rules).value;
      BarExtends(m, u, candles, upto - 1, cfg, rules);
      TradesStay(starting, candles, bar, upto - 1, cfg, rules);
      var b := Before(starting, candles, bar, cfg, rules).value;
      assert u.trades[..|b.trades|] == m.trades[..|b.trades|];
    }
  }

  /** The trades of a result begin with those made before any bar. */
  lemma ResultExtends(starting: real, candles: seq<Candle>, bar: nat, cfg: Config, rules: Rules)
    requires |candles| >= 4 && 1 <= bar <= |candles| && Run(starting, candles, cfg, rules).Ok?
    ensures Before(starting, candles, bar, cfg, rules).Ok?
    ensures Extends(Before(starting, candles, bar, cfg, rules).value.trades, Run(starting, candles, cfg, rules).value.trades)
  {
    hide TradeOf;
    TradesStay(starting, candles, bar, |candles|, cfg, rules);
    var b, u := Before(starting, candles, bar, cfg, rules).value, Before(starting, candles, |candles|, cfg, rules).value;
    assert Settle(u, candles, cfg).trades[..|u.trades|] == u.trades;
    assert Settle(u, candles, cfg).trades[..|b.trades|] == u.trades[..|b.trades|];
  }

  /** A bar after the entry whose low reaches the liquidation price outside the window, or the stop in
      force, ends the trade there: the result has it at the lesser of open and threshold. */
  lemma StopsFire(starting: real, candles: seq<Candle>, bar: nat, cfg: Config, rules: Rules)
    requires |candles| >= 4 && 1 <= bar < |candles| && Run(starting, candles, cfg, rules).Ok?
    requires Before(starting, candles, bar, cfg, rules).Ok? && Before(starting, candles, bar, cfg, rules).value.position.Some?
    requires var p, c := Before(starting, candles, bar, cfg, rules).value.position.value, candles[bar];
      p.fills[0].time != c.time && (IsLiquidated(p, c, cfg, rules) || c.low <= p.stop)
    ensures var b, r, c := Before(starting, candles, bar, cfg, rules).value, Run(starting, candles, cfg, rules).value, candles[bar];
      && |b.trades| < |r.trades|
      && var p, t := b.position.value, r.trades[|b.trades|];
         && t.fills == p.fills && t.exitTime == c.time
         && (IsLiquidated(p, c, cfg, rules) ==> t.reason == LiquidationRisk && t.exitPrice == Lesser(c.open, LiquidationPrice(p, cfg)))
         && (!IsLiquidated(p, c, cfg, rules) ==> t.reason == Stop && t.exitPrice == Lesser(c.open, p.stop))
  {
    hide BarStep, Before, IsLiquidated, Run;
    ResultExtends(starting, candles, bar + 1, cfg, rules);
    RunIsBars(starting, candles, bar, cfg, rules);
    var b, u := Before(starting, candles, bar, cfg, rules).value, Before(starting, candles, bar + 1, cfg, rules).value;
    var r := Run(starting, candles, cfg, rules).value;
    assert r.trades[|b.trades|] == r.trades[..|u.trades|][|b.trades|];
  }

  /** The position was opened by this bar, which stayed above its initial stop. */
  predicate IsEntryBar(q: Position, candles: seq<Candle>, entry: nat, cfg: Config, rules: Rules) {
    && entry < |candles| && q.fills != [] && q.fills[0].time == candles[entry].time
    && q.stop == q.initialStop < candles[entry].low && !IsLiquidated(q, candles[entry], cfg, rules)
  }

  lemma EntrySurvives(b: Book, u: Book, candles: seq<Candle>, entry: nat, price: real, cfg: Config, rules: Rules)
    requires entry < |candles| && Enters(b, u, candles[entry], price, cfg, rules) && u.position.Some?
    ensures IsEntryBar(u.position.value, candles, entry, cfg, rules)
  {
    hide LiquidationPrice, Sized;
  }

  lemma FlatSurvives(b: Book, u: Book, candles: seq<Candle>, bar: nat, cfg: Config, rules: Rules) returns (entry: nat)
    requires bar < |candles| && b.position.None? && FlatBar(b, u, candles, bar, cfg, rules) && u.position.Some?
    ensures bar <= entry <= bar + 1 && IsEntryBar(u.position.value, candles, entry, cfg, rules)
  {
    hide Enters, IsEntryBar;
    if cfg.mode.SecondPullback? && b.pending.Some? && bar <= b.pending.value.expires {
      entry := bar;
      EntrySurvives(b, u, candles, bar, Lesser(candles[bar].open, b.pending.value.level), cfg, rules);
    } else {
      entry := bar + 1;
      var a := if cfg.mode.SecondPullback? then b.(pending := None) else b;
      EntrySurvives(a, u, candles, bar + 1, SignalPrice(cfg.mode, candles[bar], candles[bar + 1]).value, cfg, rules);
    }
  }

  /** A position that outlives a bar stayed above its stop, and outside the window above its liquidation
      price: on its entry bar above the initial stop, later above the stop in force. */
  lemma SurvivorsStayAbove(starting: real, candles: seq<Candle>, bar: nat, cfg: Config, rules: Rules)
    requires 1 <= bar < |candles| && Before(starting, candles, bar + 1, cfg, rules).Ok?
    requires Before(starting, candles, bar + 1, cfg, rules).value.position.Some?
    ensures Before(starting, candles, bar, cfg, rules).Ok?
    ensures var b, q := Before(starting, candles, bar, cfg, rules).value, Before(starting, candles, bar + 1, cfg, rules).value.position.value;
      if b.position.Some? then
        var p, c := b.position.value, candles[bar];
        p.fills[0].time != c.time ==> p.stop < c.low && !IsLiquidated(p, c, cfg, rules) && p.fills <= q.fills
      else exists entry :: bar <= entry <= bar + 1 && IsEntryBar(q, candles, entry, cfg, rules)
  {
    hide BarStep, Before, IsLiquidated, LiquidationPrice, FlatBar, Sized, IsAdded, IsEntryBar;
    RunIsBars(starting, candles, bar, cfg, rules);
    var b, u := Before(starting, candles, bar, cfg, rules).value, Before(starting, candles, bar + 1, cfg, rules).value;
    if b.position.None? { var _ := FlatSurvives(b, u, candles, bar, cfg, rules); }
  }

  /** What is still open after the last bar is settled at its close, and nothing else happens then. */
  lemma EndsAtTheClose(starting: real, candles: seq<Candle>, cfg: Config, rules: Rules)
    requires |candles| >= 4 && Run(starting, candles, cfg, rules).Ok?
    ensures Before(starting, candles, |candles|, cfg, rules).Ok?
    ensures var b, r := Before(starting, candles, |candles|, cfg, rules).value, Run(starting, candles, cfg, rules).value;
      var last := candles[|candles| - 1];
      if b.position.None? then r.trades == b.trades && r.ending == b.equity
      else
        && |r.trades| == |b.trades| + 1 && r.trades[..|b.trades|] == b.trades
        && var t := r.trades[|b.trades|];
           && t.fills == b.position.value.fills && t.exitTime == last.time && t.exitPrice == last.close && t.reason == EndOfData
           && r.ending == b.equity + t.pnl
  {
    hide Unrealized, Fees, ReturnOnMargin, EntryPrice, Before;
  }
}
