/** The backtest engine on exact reals, bar by bar.

  The trading window, the retest level, the entry filters, the stop rule and the add rule are
  arbitrary functions; prices, sizes, fees and the equity curve are computed as the engine does.
  Products and quotients are parameters too: sums are exact, and nothing is assumed of the rest, so
  they may be exact (see IsExact) or rounded.
 */
module Backtest {
  import opened Basics

  datatype Candle = Candle(time: int, open: real, high: real, low: real, close: real)

  datatype Fill = Fill(time: int, price: real, margin: real, notional: real, units: real, fee: real)

  datatype ExitReason = InitialStop | Stop | LiquidationRisk | EndOfData

  datatype Trade = Trade(
    entryTime: int,
    exitTime: int,
    entryPrice: real,
    exitPrice: real,
    fills: seq<Fill>,
    pnl: real,
    fees: real,
    returnOnMargin: real,
    maxStage: int,
    reason: ExitReason)

  datatype AddDecision = AddDecision(shouldAdd: bool, availableAt: int, stage: int, trigger: real, margin: real)

  datatype PendingAdd = PendingAdd(candidate: AddDecision, signalIndex: nat)

  datatype Position = Position(
    fills: seq<Fill>,
    stop: real,
    anchor: real,
    initialStop: real,
    maxStage: int,
    transitionCount: int,
    transitionStart: real,
    pendingAdd: Option<PendingAdd>)

  datatype PendingEntry = PendingEntry(level: real, expires: int)

  datatype EntryMode = DirectNextOpen | BreakHigh | SecondPullback | Unsupported

  datatype Config = Config(
    mode: EntryMode,
    waitBars: int,
    leverage: real,
    firstMargin: real,
    initialStopPct: real,
    levelTolerance: real,
    feeRate: real,
    times: (real, real) -> real,
    over: (real, real) -> real)

  ghost predicate IsExact(cfg: Config) {
    && (forall a: real, b: real :: cfg.times(a, b) == a * b)
    && (forall a: real, b: real :: b != 0.0 ==> cfg.over(a, b) == a / b)
  }

  datatype StopOutcome = StopOutcome(stop: real, transitionCount: int, transitionStart: real)

  /** What the engine asks and this model leaves open: each answer may depend on anything but the
      pending add.  A bar is given by its index; decide also gets the bar whose regime applies. */
  datatype Rules = Rules(
    inWindow: int -> bool,
    level: nat -> Option<real>,
    confirms: (nat, real) -> bool,
    accepts: (nat, real, real) -> bool,
    tighten: (Position, nat) -> StopOutcome,
    decide: (Position, nat, nat) -> AddDecision)

  datatype Kind = Start | Event | Close | Settlement

  /** What a sample of the equity curve was taken for; the engine itself does not record this. */
  datatype Tag = Tag(bar: nat, kind: Kind)

  datatype Sample = Sample(time: int, equity: real)

  datatype Book = Book(
    equity: real,
    curve: seq<Sample>,
    tags: seq<Tag>,
    trades: seq<Trade>,
    position: Option<Position>,
    pending: Option<PendingEntry>)

  datatype EngineError = LeverageNotPositive | UnsupportedMode | DivisionByZero

  type Checked<+T> = Result<T, EngineError>

  // ---- sums over fills ----

  function Units(fills: seq<Fill>): real {
    if fills == [] then 0.0 else Units(fills[..|fills| - 1]) + fills[|fills| - 1].units
  }

  function Cost(fills: seq<Fill>, cfg: Config): real {
    if fills == [] then 0.0
    else Cost(fills[..|fills| - 1], cfg) + cfg.times(fills[|fills| - 1].price, fills[|fills| - 1].units)
  }

  function Notional(fills: seq<Fill>): real {
    if fills == [] then 0.0 else Notional(fills[..|fills| - 1]) + fills[|fills| - 1].notional
  }

  function Fees(fills: seq<Fill>): real {
    if fills == [] then 0.0 else Fees(fills[..|fills| - 1]) + fills[|fills| - 1].fee
  }

  function Unrealized(fills: seq<Fill>, price: real, cfg: Config): real {
    if fills == [] then 0.0
    else Unrealized(fills[..|fills| - 1], price, cfg) + cfg.times(price - fills[|fills| - 1].price, fills[|fills| - 1].units)
  }

  function EntryPrice(fills: seq<Fill>, cfg: Config): real {
    if Units(fills) == 0.0 then 0.0 else cfg.over(Cost(fills, cfg), Units(fills))
  }

  function Marked(equity: real, fills: seq<Fill>, price: real, cfg: Config): real {
    equity + Unrealized(fills, price, cfg) - Fees(fills)
  }

  function OpenFills(b: Book): seq<Fill> {
    if b.position.Some? then b.position.value.fills else []
  }

  // ---- prices ----

  function MakeFill(time: int, price: real, margin: real, equity: real, cfg: Config): Checked<Fill> {
    if price == 0.0 then Err(DivisionByZero)
    else
      var notional := cfg.times(cfg.times(equity, margin), cfg.leverage);
      Ok(Fill(time, price, margin, notional, cfg.over(notional, price), cfg.times(notional, cfg.feeRate)))
  }

  function BuyLimitPrice(c: Candle, limit: real): Option<real> {
    if c.low > limit then None else if c.open < limit then Some(c.open) else Some(limit)
  }

  function SellStopPrice(c: Candle, stop: real): Option<real> {
    if c.low > stop then None else if c.open < stop then Some(c.open) else Some(stop)
  }

  function Max(a: real, b: real): real { if a >= b then a else b }

  function BuyStopPrice(c: Candle, trigger: real): Option<real> {
    if c.high < trigger then None else Some(Max(c.open, trigger))
  }

  /** The price a confirmed signal trades at on the next bar, before the filters. */
  function NextBarPrice(mode: EntryMode, signal: Candle, next: Candle): Checked<Option<real>> {
    match mode
    case DirectNextOpen => Ok(Some(next.open))
    case BreakHigh => if next.high <= signal.high then Ok(None) else Ok(Some(Max(next.open, signal.high)))
    case SecondPullback => Ok(None)
    case Unsupported => Err(UnsupportedMode)
  }

  function LiquidationRiskPrice(fills: seq<Fill>, cfg: Config): Checked<real> {
    if cfg.leverage <= 0.0 then Err(LeverageNotPositive)
    else Ok(cfg.times(EntryPrice(fills, cfg), Max(0.0, 1.0 - cfg.over(1.0, cfg.leverage))))
  }

  function RiskExit(c: Candle, p: Position, cfg: Config, rules: Rules, stopReason: ExitReason): Checked<Option<(real, ExitReason)>> {
    if rules.inWindow(c.time) then Ok(StopExit(c, p, stopReason))
    else
      var risk :- LiquidationRiskPrice(p.fills, cfg);
      if c.low <= risk then Ok(Some((ExitAt(c, risk), LiquidationRisk))) else Ok(StopExit(c, p, stopReason))
  }

  function StopExit(c: Candle, p: Position, stopReason: ExitReason): Option<(real, ExitReason)> {
    if c.low <= p.stop then Some((ExitAt(c, p.stop), stopReason)) else None
  }

  function ExitAt(c: Candle, threshold: real): real {
    match SellStopPrice(c, threshold) case Some(price) => price case None => threshold
  }

  // ---- what can happen to the book ----

  function Record(b: Book, c: Candle, bar: nat, kind: Kind, equity: real): Book {
    b.(curve := b.curve + [Sample(c.time, equity)], tags := b.tags + [Tag(bar, kind)])
  }

  function RecordClose(b: Book, c: Candle, bar: nat, cfg: Config): Book {
    Record(b, c, bar, Close, Marked(b.equity, OpenFills(b), c.close, cfg))
  }

  function ReturnOnMargin(pnl: real, fills: seq<Fill>, cfg: Config): real {
    if fills == [] || cfg.leverage == 0.0 || cfg.over(Notional(fills), cfg.leverage) == 0.0 then 0.0
    else cfg.over(pnl, cfg.over(Notional(fills), cfg.leverage))
  }

  function TradeOf(p: Position, c: Candle, price: real, reason: ExitReason, cfg: Config): Trade
    requires p.fills != []
  {
    var exitFee := cfg.times(cfg.times(price, Units(p.fills)), cfg.feeRate);
    var pnl := Unrealized(p.fills, price, cfg) - Fees(p.fills) - exitFee;
    Trade(p.fills[0].time, c.time, EntryPrice(p.fills, cfg), price, p.fills, pnl, Fees(p.fills) + exitFee,
          ReturnOnMargin(pnl, p.fills, cfg), p.maxStage, reason)
  }

  /** Settle the open position: the book is flat again and the net result is in its equity. */
  function ClosePosition(b: Book, c: Candle, bar: nat, price: real, reason: ExitReason, kind: Kind, cfg: Config): Book
    requires b.position.Some? && b.position.value.fills != []
  {
    var trade := TradeOf(b.position.value, c, price, reason, cfg);
    var equity := b.equity + trade.pnl;
    Record(b.(equity := equity, trades := b.trades + [trade], position := None), c, bar, kind, equity)
  }

  function ExitOnRisk(b: Book, c: Candle, bar: nat, stopReason: ExitReason, cfg: Config, rules: Rules): Checked<Book>
    requires b.position.Some? && b.position.value.fills != []
  {
    var exit :- RiskExit(c, b.position.value, cfg, rules, stopReason);
    if exit.None? then Ok(b) else Ok(ClosePosition(b, c, bar, exit.value.0, exit.value.1, Event, cfg))
  }

  /** Open a position at a price, with the first margin step and the initial stop. */
  function Open(b: Book, c: Candle, bar: nat, price: real, cfg: Config): (r: Checked<Book>)
    ensures r.Ok? ==> r.value.position.Some? && |r.value.position.value.fills| == 1
  {
    var fill :- MakeFill(c.time, price, cfg.firstMargin, b.equity, cfg);
    var stop := cfg.times(price, 1.0 - cfg.initialStopPct);
    var b1 := b.(position := Some(Position([fill], stop, price, stop, 1, 0, 0.0, None)), pending := None);
    Ok(Record(b1, c, bar, Event, Marked(b1.equity, [fill], price, cfg)))
  }

  function OpenAndCheck(b: Book, c: Candle, bar: nat, price: real, cfg: Config, rules: Rules): Checked<Book> {
    var b1 :- Open(b, c, bar, price, cfg);
    ExitOnRisk(b1, c, bar, InitialStop, cfg, rules)
  }

  function Snapshot(p: Position): Position { p.(pendingAdd := None) }

  /** The price and margin of the planned add, if the plan is for this bar and still stands. */
  function AddFor(p: Position, c: Candle, bar: nat, rules: Rules): Option<(real, AddDecision)> {
    if p.pendingAdd.None? then None
    else
      var plan := p.pendingAdd.value;
      var candidate := plan.candidate;
      if bar != plan.signalIndex + 1 || c.time != candidate.availableAt || p.maxStage + 1 != candidate.stage then None
      else if !rules.inWindow(c.time) then None
      else if !rules.decide(Snapshot(p), plan.signalIndex, bar).shouldAdd then None
      else
        match BuyStopPrice(c, candidate.trigger)
        case None => None
        case Some(price) => Some((price, candidate))
  }

  function AddFill(b: Book, c: Candle, bar: nat, fill: Fill, stage: int, cfg: Config): Book
    requires b.position.Some?
  {
    var p := b.position.value;
    var p1 := p.(fills := p.fills + [fill], maxStage := stage, pendingAdd := None);
    Record(b.(position := Some(p1)), c, bar, Event, Marked(b.equity, p1.fills, fill.price, cfg))
  }

  function ExecuteAdd(b: Book, c: Candle, bar: nat, cfg: Config, rules: Rules): (r: Checked<Book>)
    requires b.position.Some?
    ensures r.Ok? ==> r.value.position.Some?
  {
    match AddFor(b.position.value, c, bar, rules)
    case None => Ok(b.(position := Some(Snapshot(b.position.value))))
    case Some((price, candidate)) =>
      var fill :- MakeFill(c.time, price, candidate.margin, b.equity, cfg);
      Ok(AddFill(b, c, bar, fill, candidate.stage, cfg))
  }

  function Manage(p: Position, bar: nat, rules: Rules): Position {
    var outcome := rules.tighten(Snapshot(p), bar);
    var p1 := p.(stop := outcome.stop, transitionCount := outcome.transitionCount, transitionStart := outcome.transitionStart);
    var candidate := rules.decide(Snapshot(p1), bar, bar);
    p1.(pendingAdd := if candidate.shouldAdd then Some(PendingAdd(candidate, bar)) else None)
  }

  // ---- one bar ----

  /** The surviving position: its planned add, its stop, its next plan, and the close. */
  function ManageStep(b: Book, c: Candle, bar: nat, cfg: Config, rules: Rules): Checked<Book>
    requires b.position.Some?
  {
    var b1 :- ExecuteAdd(b, c, bar, cfg, rules);
    Ok(RecordClose(b1.(position := Some(Manage(b1.position.value, bar, rules))), c, bar, cfg))
  }

  function HoldStep(b: Book, candles: seq<Candle>, bar: nat, cfg: Config, rules: Rules): Checked<Book>
    requires bar < |candles| && b.position.Some? && b.position.value.fills != []
  {
    var c := candles[bar];
    var b1 :- if b.position.value.fills[0].time == c.time then Ok(b) else ExitOnRisk(b, c, bar, Stop, cfg, rules);
    if b1.position.None? then Ok(RecordClose(b1, c, bar, cfg)) else ManageStep(b1, c, bar, cfg, rules)
  }

  /** A confirmed signal executed on the next bar, if its price and filters allow it. */
  function EnterNext(closed: Book, candles: seq<Candle>, bar: nat, level: real, cfg: Config, rules: Rules): Checked<Book>
    requires bar + 1 < |candles|
  {
    var next := candles[bar + 1];
    var price :- NextBarPrice(cfg.mode, candles[bar], next);
    if price.None? || !rules.accepts(bar, level, price.value) || !rules.inWindow(next.time) then Ok(closed)
    else OpenAndCheck(closed, next, bar + 1, price.value, cfg, rules)
  }

  /** A flat bar: its close, and then what its close-confirmed signal leads to. */
  function SignalStep(b: Book, candles: seq<Candle>, bar: nat, cfg: Config, rules: Rules): Checked<Book>
    requires bar < |candles|
  {
    var closed := RecordClose(b, candles[bar], bar, cfg);
    if bar + 1 >= |candles| || !rules.inWindow(candles[bar].time) then Ok(closed)
    else
      match rules.level(bar)
      case None => Ok(closed)
      case Some(level) =>
        if !rules.confirms(bar, level) then Ok(closed)
        else if cfg.mode.SecondPullback? then Ok(closed.(pending := Some(PendingEntry(level, bar + cfg.waitBars))))
        else EnterNext(closed, candles, bar, level, cfg, rules)
  }

  function PendingStep(b: Book, candles: seq<Candle>, bar: nat, cfg: Config, rules: Rules): Checked<Book>
    requires bar < |candles| && b.pending.Some?
  {
    var c, level := candles[bar], b.pending.value.level;
    if c.low <= cfg.times(level, 1.0 + cfg.levelTolerance) && rules.inWindow(c.time) && BuyLimitPrice(c, level).Some? then
      var b1 :- OpenAndCheck(b, c, bar, BuyLimitPrice(c, level).value, cfg, rules);
      Ok(RecordClose(b1, c, bar, cfg))
    else Ok(RecordClose(b, c, bar, cfg))
  }

  function FlatStep(b: Book, candles: seq<Candle>, bar: nat, cfg: Config, rules: Rules): Checked<Book>
    requires bar < |candles|
  {
    if cfg.mode.SecondPullback? && b.pending.Some? then
      if bar > b.pending.value.expires then SignalStep(b.(pending := None), candles, bar, cfg, rules)
      else PendingStep(b, candles, bar, cfg, rules)
    else SignalStep(b, candles, bar, cfg, rules)
  }

  function BarStep(b: Book, candles: seq<Candle>, bar: nat, cfg: Config, rules: Rules): Checked<Book>
    requires bar < |candles| && (b.position.Some? ==> b.position.value.fills != [])
  {
    if b.position.Some? then HoldStep(b, candles, bar, cfg, rules) else FlatStep(b, candles, bar, cfg, rules)
  }

  /** An open position always has a fill. */
  predicate Held(b: Book) {
    b.position.Some? ==> b.position.value.fills != []
  }

  function First(starting: real, candles: seq<Candle>): Book
    requires candles != []
  {
    Book(starting, [Sample(candles[0].time, starting)], [Tag(0, Start)], [], None, None)
  }

  /** The book before a bar: every earlier bar has been processed. */
  function Before(starting: real, candles: seq<Candle>, bar: nat, cfg: Config, rules: Rules): (r: Checked<Book>)
    requires 1 <= bar <= |candles|
    ensures r.Ok? ==> Held(r.value)
  {
    if bar == 1 then Ok(First(starting, candles))
    else
      var b :- Before(starting, candles, bar - 1, cfg, rules);
      BarStep(b, candles, bar - 1, cfg, rules)
  }

  /** Settle what is still open at the last close. */
  function Settle(b: Book, candles: seq<Candle>, cfg: Config): Book
    requires candles != [] && Held(b)
  {
    var last := candles[|candles| - 1];
    if b.position.None? then b else ClosePosition(b, last, |candles| - 1, last.close, EndOfData, Settlement, cfg)
  }

  datatype BacktestResult = BacktestResult(starting: real, ending: real, trades: seq<Trade>, curve: seq<Sample>)

  function Final(starting: real, candles: seq<Candle>, cfg: Config, rules: Rules): Checked<Book>
    requires candles != []
  {
    var b :- Before(starting, candles, |candles|, cfg, rules);
    Ok(Settle(b, candles, cfg))
  }

  function Run(starting: real, candles: seq<Candle>, cfg: Config, rules: Rules): Checked<BacktestResult> {
    if |candles| < 4 then Ok(BacktestResult(starting, starting, [], []))
    else
      var b :- Final(starting, candles, cfg, rules);
      Ok(BacktestResult(starting, b.equity, b.trades, b.curve))
  }
}
