/** Runs of the backtest engine, event by event: what every event keeps, every run keeps. */
module BacktestInduction {
  import opened Basics
  import opened Backtest

  /** A strictly ordered series of consistent candles with positive prices. */
  predicate ValidSeries(candles: seq<Candle>) {
    && (forall i, j :: 0 <= i < j < |candles| ==> candles[i].time < candles[j].time)
    && (forall i :: 0 <= i < |candles| ==> ValidCandle(candles[i]))
  }

  predicate ValidCandle(c: Candle) {
    0.0 < c.low <= c.open <= c.high && c.low <= c.close <= c.high
  }

  /** The configurations for which the engine raises nothing on a valid series. */
  predicate Supported(cfg: Config) {
    cfg.leverage > 0.0 && !cfg.mode.Unsupported?
  }

  /** A property of the book once the closes of bars 1..k are recorded and no event is later than bar m. */
  type Property = (Book, nat, nat) -> bool

  /** On a consistent candle the price lies between its low and its high. */
  predicate Traded(c: Candle, price: real) {
    ValidCandle(c) ==> c.low <= price <= c.high
  }

  ghost predicate HoldsFills(P: Property) {
    forall b: Book, k: nat, m: nat {:trigger P(b, k, m)} :: P(b, k, m) ==> Held(b)
  }

  ghost predicate KeptByClose(P: Property, candles: seq<Candle>, cfg: Config) {
    forall b: Book, bar: nat {:trigger RecordClose(b, candles[bar], bar, cfg)} ::
      1 <= bar < |candles| && P(b, bar - 1, bar) ==> P(RecordClose(b, candles[bar], bar, cfg), bar, bar)
  }

  ghost predicate KeptByNextBar(P: Property, candles: seq<Candle>) {
    forall b: Book, k: nat {:trigger P(b, k, k)} :: k + 1 < |candles| && P(b, k, k) ==> P(b, k, k + 1)
  }

  /** A flat book may open on the bar after its last close, or on a bar it has a pending entry for. */
  ghost predicate KeptByOpen(P: Property, candles: seq<Candle>, cfg: Config) {
    forall b: Book, bar: nat, price: real {:trigger Open(b, candles[bar], bar, price, cfg)} ::
      1 <= bar < |candles| && b.position.None? && (P(b, bar - 1, bar - 1) || (P(b, bar - 1, bar) && b.pending.Some?))
      && Traded(candles[bar], price) && Open(b, candles[bar], bar, price, cfg).Ok?
      ==> P(Open(b, candles[bar], bar, price, cfg).value, bar - 1, bar)
  }

  ghost predicate KeptByExit(P: Property, candles: seq<Candle>, cfg: Config) {
    forall b: Book, bar: nat, price: real, reason: ExitReason
      {:trigger ClosePosition(b, candles[bar], bar, price, reason, Event, cfg)} ::
      1 <= bar < |candles| && b.position.Some? && Held(b) && P(b, bar - 1, bar) && Traded(candles[bar], price) && !reason.EndOfData?
      ==> P(ClosePosition(b, candles[bar], bar, price, reason, Event, cfg), bar - 1, bar)
  }

  ghost predicate KeptByAdd(P: Property, candles: seq<Candle>, cfg: Config) {
    forall b: Book, bar: nat, price: real, margin: real, stage: int
      {:trigger AddFill(b, candles[bar], bar, MakeFill(candles[bar].time, price, margin, b.equity, cfg).value, stage, cfg)} ::
      1 <= bar < |candles| && b.position.Some? && P(b, bar - 1, bar) && Traded(candles[bar], price)
      && stage == b.position.value.maxStage + 1 && MakeFill(candles[bar].time, price, margin, b.equity, cfg).Ok?
      ==> P(AddFill(b, candles[bar], bar, MakeFill(candles[bar].time, price, margin, b.equity, cfg).value, stage, cfg), bar - 1, bar)
  }

  /** What is planned, and where the stop is, does not matter. */
  ghost predicate KeptByPlans(P: Property) {
    && (forall b: Book, p: Position, k: nat, m: nat {:trigger P(b.(position := Some(p)), k, m)} ::
          P(b, k, m) && b.position.Some? && p.fills == b.position.value.fills && p.maxStage == b.position.value.maxStage
          ==> P(b.(position := Some(p)), k, m))
    && (forall b: Book, k: nat, m: nat {:trigger P(b.(pending := None), k, m)} :: P(b, k, m) ==> P(b.(pending := None), k, m))
    && (forall b: Book, e: PendingEntry, k: nat {:trigger P(b.(pending := Some(e)), k, k)} ::
          P(b, k, k) && b.position.None? ==> P(b.(pending := Some(e)), k, k))
  }

  ghost predicate Kept(P: Property, candles: seq<Candle>, cfg: Config) {
    && HoldsFills(P) && KeptByClose(P, candles, cfg) && KeptByNextBar(P, candles) && KeptByOpen(P, candles, cfg)
    && KeptByExit(P, candles, cfg) && KeptByAdd(P, candles, cfg) && KeptByPlans(P)
  }

  // ---- prices ----

  lemma RiskExitTraded(c: Candle, p: Position, cfg: Config, rules: Rules, stopReason: ExitReason)
    requires !stopReason.EndOfData?
    ensures var r := RiskExit(c, p, cfg, rules, stopReason);
      && (Supported(cfg) ==> r.Ok?)
      && (r.Ok? && r.value.Some? ==> Traded(c, r.value.value.0) && !r.value.value.1.EndOfData?)
  {
  }

  lemma NextBarPriceTraded(mode: EntryMode, signal: Candle, next: Candle)
    ensures var r := NextBarPrice(mode, signal, next);
      (!mode.Unsupported? ==> r.Ok?) && (r.Ok? && r.value.Some? ==> Traded(next, r.value.value))
  {
  }

  lemma AddTraded(p: Position, c: Candle, bar: nat, rules: Rules)
    ensures var r := AddFor(p, c, bar, rules); r.Some? ==> Traded(c, r.value.0) && r.value.1.stage == p.maxStage + 1
  {
  }

  // ---- one bar ----

  lemma ExitOnRiskKeeps(P: Property, b: Book, candles: seq<Candle>, bar: nat, stopReason: ExitReason, cfg: Config, rules: Rules)
    requires Kept(P, candles, cfg) && 1 <= bar < |candles| && P(b, bar - 1, bar) && b.position.Some? && !stopReason.EndOfData?
    ensures var r := ExitOnRisk(b, candles[bar], bar, stopReason, cfg, rules);
      (Supported(cfg) ==> r.Ok?) && (r.Ok? ==> P(r.value, bar - 1, bar))
  {
    RiskExitTraded(candles[bar], b.position.value, cfg, rules, stopReason);
  }

  lemma OpenAndCheckKeeps(P: Property, b: Book, candles: seq<Candle>, bar: nat, price: real, cfg: Config, rules: Rules)
    requires Kept(P, candles, cfg) && 1 <= bar < |candles| && b.position.None? && Traded(candles[bar], price)
    requires P(b, bar - 1, bar - 1) || (P(b, bar - 1, bar) && b.pending.Some?)
    ensures var r := OpenAndCheck(b, candles[bar], bar, price, cfg, rules);
      (Supported(cfg) && ValidSeries(candles) ==> r.Ok?) && (r.Ok? ==> P(r.value, bar - 1, bar))
  {
    var o := Open(b, candles[bar], bar, price, cfg);
    if o.Ok? { ExitOnRiskKeeps(P, o.value, candles, bar, InitialStop, cfg, rules); }
  }

  lemma ManageStepKeeps(P: Property, b: Book, candles: seq<Candle>, bar: nat, cfg: Config, rules: Rules)
    requires Kept(P, candles, cfg) && 1 <= bar < |candles| && P(b, bar - 1, bar) && b.position.Some?
    ensures var r := ManageStep(b, candles[bar], bar, cfg, rules);
      (ValidSeries(candles) ==> r.Ok?) && (r.Ok? ==> P(r.value, bar, bar))
  {
    AddTraded(b.position.value, candles[bar], bar, rules);
  }

  lemma HoldKeeps(P: Property, b: Book, candles: seq<Candle>, bar: nat, cfg: Config, rules: Rules)
    requires Kept(P, candles, cfg) && 1 <= bar < |candles| && P(b, bar - 1, bar) && b.position.Some?
    ensures var r := HoldStep(b, candles, bar, cfg, rules);
      (Supported(cfg) && ValidSeries(candles) ==> r.Ok?) && (r.Ok? ==> P(r.value, bar, bar))
  {
    ExitOnRiskKeeps(P, b, candles, bar, Stop, cfg, rules);
    var b1 := if b.position.value.fills[0].time == candles[bar].time then Ok(b) else ExitOnRisk(b, candles[bar], bar, Stop, cfg, rules);
    if b1.Ok? && b1.value.position.Some? { ManageStepKeeps(P, b1.value, candles, bar, cfg, rules); }
  }

  /** The latest bar the book may have touched when a bar is done: the next one, if there is one. */
  function Reach(candles: seq<Candle>, bar: nat): nat {
    if bar + 1 < |candles| then bar + 1 else bar
  }

  lemma EnterNextKeeps(P: Property, b: Book, candles: seq<Candle>, bar: nat, level: real, cfg: Config, rules: Rules)
    requires Kept(P, candles, cfg) && 1 <= bar && bar + 1 < |candles| && P(b, bar, bar) && b.position.None?
    ensures var r := EnterNext(b, candles, bar, level, cfg, rules);
      (Supported(cfg) && ValidSeries(candles) ==> r.Ok?) && (r.Ok? ==> P(r.value, bar, bar + 1))
  {
    NextBarPriceTraded(cfg.mode, candles[bar], candles[bar + 1]);
    var price := NextBarPrice(cfg.mode, candles[bar], candles[bar + 1]);
    if price.Ok? && price.value.Some? { OpenAndCheckKeeps(P, b, candles, bar + 1, price.value.value, cfg, rules); }
  }

  lemma SignalKeeps(P: Property, b: Book, candles: seq<Candle>, bar: nat, cfg: Config, rules: Rules)
    requires Kept(P, candles, cfg) && 1 <= bar < |candles| && P(b, bar - 1, bar) && b.position.None?
    ensures var r := SignalStep(b, candles, bar, cfg, rules);
      (Supported(cfg) && ValidSeries(candles) ==> r.Ok?) && (r.Ok? ==> P(r.value, bar, Reach(candles, bar)))
  {
    var closed := RecordClose(b, candles[bar], bar, cfg);
    if bar + 1 < |candles| && rules.level(bar).Some? {
      var level := rules.level(bar).value;
      EnterNextKeeps(P, closed, candles, bar, level, cfg, rules);
      assert P(closed.(pending := Some(PendingEntry(level, bar + cfg.waitBars))), bar, bar);
    }
  }

  lemma PendingStepKeeps(P: Property, b: Book, candles: seq<Candle>, bar: nat, cfg: Config, rules: Rules)
    requires Kept(P, candles, cfg) && 1 <= bar < |candles| && P(b, bar - 1, bar) && b.position.None? && b.pending.Some?
    ensures var r := PendingStep(b, candles, bar, cfg, rules);
      (Supported(cfg) && ValidSeries(candles) ==> r.Ok?) && (r.Ok? ==> P(r.value, bar, bar))
  {
    var limit := BuyLimitPrice(candles[bar], b.pending.value.level);
    if limit.Some? { OpenAndCheckKeeps(P, b, candles, bar, limit.value, cfg, rules); }
  }

  lemma BarKeeps(P: Property, b: Book, candles: seq<Candle>, bar: nat, cfg: Config, rules: Rules)
    requires Kept(P, candles, cfg) && 1 <= bar < |candles| && P(b, bar - 1, bar)
    ensures var r := BarStep(b, candles, bar, cfg, rules);
      (Supported(cfg) && ValidSeries(candles) ==> r.Ok?) && (r.Ok? ==> P(r.value, bar, Reach(candles, bar)))
  {
    if b.position.Some? {
      HoldKeeps(P, b, candles, bar, cfg, rules);
    } else if cfg.mode.SecondPullback? && b.pending.Some? && bar <= b.pending.value.expires {
      PendingStepKeeps(P, b, candles, bar, cfg, rules);
    } else {
      SignalKeeps(P, b, candles, bar, cfg, rules);
      SignalKeeps(P, b.(pending := None), candles, bar, cfg, rules);
    }
  }

  /** A property of the first book that every event keeps holds before every bar, and on a valid series
      a supported configuration never fails. */
  lemma {:induction false} RunKeeps(P: Property, starting: real, candles: seq<Candle>, bar: nat, cfg: Config, rules: Rules)
    requires Kept(P, candles, cfg) && |candles| >= 2 && 1 <= bar <= |candles|
    requires P(First(starting, candles), 0, 1)
    ensures var r := Before(starting, candles, bar, cfg, rules);
      && (Supported(cfg) && ValidSeries(candles) ==> r.Ok?)
      && (r.Ok? ==> P(r.value, bar - 1, Reach(candles, bar - 1)))
  {
    if bar > 1 {
      RunKeeps(P, starting, candles, bar - 1, cfg, rules);
      var b := Before(starting, candles, bar - 1, cfg, rules);
      if b.Ok? { BarKeeps(P, b.value, candles, bar - 1, cfg, rules); }
    }
  }
}
