/** A run of the engine whose record its own validator refuses: a leveraged account doubles, and a gap
  through its stop takes it below zero. */
module RefusedWindow {
  import opened Basics
  import opened Backtest
  import opened BacktestEvidence
  import opened Robustness
  import Evidence
  import EvidenceAccepted

  /** Entered at 100, up to 150, and down to 25 at the next open. */
  const CANDLES := [
    Candle(0, 100.0, 100.0, 100.0, 100.0),
    Candle(1, 100.0, 100.0, 100.0, 100.0),
    Candle(2, 100.0, 150.0, 100.0, 150.0),
    Candle(3, 25.0, 25.0, 25.0, 25.0)]

  /** Twice the equity, a stop at half the entry price, and the default fee. */
  const CONFIG := Config(DirectNextOpen, 1, 2.0, 1.0, 0.5, 0.0, 0.0005, (a, b) => a * b, (a, b) => if b == 0.0 then 0.0 else a / b)

  /** A signal on the second bar; the stop stays where it is and nothing is added. */
  const RULES := Rules(
    t => true,
    bar => if bar == 1 then Some(100.0) else None,
    (bar, level) => true,
    (bar, level, price) => true,
    (p: Position, bar) => StopOutcome(p.stop, 0, 0.0),
    (p: Position, signal, bar) => AddDecision(false, 0, 0, 0.0, 0.0))

  const FILL := Fill(2, 100.0, 1.0, 200.0, 2.0, 0.1)

  const POSITION := Position([FILL], 50.0, 100.0, 50.0, 1, 0, 0.0, None)

  /** What the run needs of its configuration and rules. */
  predicate Suits(cfg: Config, rules: Rules) {
    && cfg.mode.DirectNextOpen? && cfg.firstMargin == 1.0 && cfg.times(100.0, 1.0 - cfg.initialStopPct) == 50.0
    && MakeFill(2, 100.0, 1.0, 100.0, cfg) == Ok(FILL)
    && Unrealized([FILL], 100.0, cfg) == 0.0 && Unrealized([FILL], 150.0, cfg) == 100.0 && Unrealized([FILL], 25.0, cfg) == -150.0
    && cfg.times(cfg.times(25.0, 2.0), cfg.feeRate) == 0.025
    && rules.inWindow(1) && rules.inWindow(2) && rules.inWindow(3)
    && rules.level(1) == Some(100.0) && rules.confirms(1, 100.0) && rules.accepts(1, 100.0, 100.0)
    && rules.tighten(POSITION, 2) == StopOutcome(50.0, 0, 0.0) && !rules.decide(POSITION, 2, 2).shouldAdd
  }

  lemma SetupSuits()
    ensures Suits(CONFIG, RULES)
  {
    assert [FILL][..0] == [];
  }

  lemma TheFill()
    ensures Units([FILL]) == 2.0 && Fees([FILL]) == 0.1 && Fees([]) == 0.0
  {
    assert [FILL][..0] == [];
  }

  lemma Flat(cfg: Config, price: real)
    ensures Unrealized([], price, cfg) == 0.0
  {
  }

  lemma OpeningPrice(b: Book, candles: seq<Candle>, cfg: Config, rules: Rules)
    requires Suits(cfg, rules) && candles == CANDLES && b.equity == 100.0
    ensures Open(b, candles[2], 2, 100.0, cfg) ==
      Ok(Record(b.(position := Some(POSITION), pending := None), candles[2], 2, Event, 99.9))
  {
    TheFill();
    hide MakeFill, Unrealized, Fees, Units;
  }

  /** The signal of the second bar is executed at the open of the third. */
  lemma Entering(b: Book, candles: seq<Candle>, cfg: Config, rules: Rules)
    requires Suits(cfg, rules) && candles == CANDLES && b == First(100.0, candles)
    ensures var r := BarStep(b, candles, 1, cfg, rules);
      && r.Ok? && r.value.equity == 100.0 && r.value.trades == [] && r.value.position == Some(POSITION)
      && r.value.curve == b.curve + [Sample(1, 100.0), Sample(2, 99.9)]
  {
    TheFill();
    Flat(cfg, 100.0);
    hide MakeFill, Unrealized, Fees, Units;
    var closed := RecordClose(b, candles[1], 1, cfg);
    assert closed.equity == 100.0 && closed.curve == b.curve + [Sample(1, 100.0)];
    OpeningPrice(closed, candles, cfg, rules);
    hide Open, RecordClose;
    var entered := Open(closed, candles[2], 2, 100.0, cfg);
    assert OpenAndCheck(closed, candles[2], 2, 100.0, cfg, rules) == entered;
    assert EnterNext(closed, candles, 1, 100.0, cfg, rules) == entered;
  }

  /** The bar of the entry is held to its close. */
  lemma Holding(b: Book, candles: seq<Candle>, cfg: Config, rules: Rules)
    requires Suits(cfg, rules) && candles == CANDLES && b.equity == 100.0 && b.trades == [] && b.position == Some(POSITION)
    ensures var r := BarStep(b, candles, 2, cfg, rules);
      && r.Ok? && r.value.equity == 100.0 && r.value.trades == [] && r.value.position == Some(POSITION)
      && r.value.curve == b.curve + [Sample(2, 199.9)]
  {
    TheFill();
    hide Unrealized, Fees, Units, MakeFill;
    assert Manage(POSITION, 2, rules) == POSITION;
  }

  /** The last bar opens below the stop, and the account below zero. */
  lemma Gapping(b: Book, candles: seq<Candle>, cfg: Config, rules: Rules)
    requires Suits(cfg, rules) && candles == CANDLES && b.equity == 100.0 && b.trades == [] && b.position == Some(POSITION)
    ensures var r := BarStep(b, candles, 3, cfg, rules);
      && r.Ok? && r.value.equity == -50.125 && |r.value.trades| == 1 && r.value.trades[0].pnl == -150.125 && r.value.position.None?
      && r.value.curve == b.curve + [Sample(3, -50.125), Sample(3, -50.125)]
  {
    TheFill();
    Flat(cfg, 25.0);
    hide Unrealized, Fees, Units, EntryPrice, ReturnOnMargin, MakeFill;
    var out := ClosePosition(b, candles[3], 3, 25.0, ExitReason.Stop, Event, cfg);
    assert out.equity == -50.125;
    assert ExitOnRisk(b, candles[3], 3, ExitReason.Stop, cfg, rules) == Ok(out);
  }

  lemma TheRun(candles: seq<Candle>, cfg: Config, rules: Rules)
    requires Suits(cfg, rules) && candles == CANDLES
    ensures var r := Run(100.0, candles, cfg, rules);
      && r.Ok? && r.value.starting == 100.0 && r.value.ending == -50.125 && |r.value.trades| == 1 && r.value.trades[0].pnl == -150.125
      && Equities(r.value.curve) == [100.0, 100.0, 99.9, 199.9, -50.125, -50.125]
  {
    hide BarStep, Unrealized, Fees, Suits;
    var b1 := First(100.0, candles);
    Entering(b1, candles, cfg, rules);
    var b2 := BarStep(b1, candles, 1, cfg, rules).value;
    Holding(b2, candles, cfg, rules);
    var b3 := BarStep(b2, candles, 2, cfg, rules).value;
    Gapping(b3, candles, cfg, rules);
    var b4 := BarStep(b3, candles, 3, cfg, rules).value;
    FourBars(b1, b2, b3, b4, candles, cfg, rules);
  }

  lemma FourBars(b1: Book, b2: Book, b3: Book, b4: Book, candles: seq<Candle>, cfg: Config, rules: Rules)
    requires |candles| == 4 && b1 == First(100.0, candles)
    requires Held(b1) && BarStep(b1, candles, 1, cfg, rules) == Ok(b2) && Held(b2) && BarStep(b2, candles, 2, cfg, rules) == Ok(b3)
    requires Held(b3) && BarStep(b3, candles, 3, cfg, rules) == Ok(b4) && b4.position.None?
    ensures Run(100.0, candles, cfg, rules) == Ok(BacktestResult(100.0, b4.equity, b4.trades, b4.curve))
  {
    hide BarStep;
    var n := 1;
    assert Before(100.0, candles, n, cfg, rules) == Ok(b1);
    assert Before(100.0, candles, n + 1, cfg, rules) == Ok(b2);
    assert Before(100.0, candles, n + 2, cfg, rules) == Ok(b3);
    assert Before(100.0, candles, n + 3, cfg, rules) == Ok(b4);
  }

  // ---- the record of that run ----

  lemma Deepest()
    ensures Drawdown([100.0, 100.0, 99.9, 199.9, -50.125, -50.125]) >= -1.4
  {
    var a, b, c := [100.0], [100.0, 100.0], [100.0, 100.0, 99.9];
    var d, e, f := c + [199.9], c + [199.9, -50.125], c + [199.9, -50.125, -50.125];
    assert a[..0] == [] && b[..1] == a && c[..2] == b && d[..3] == c && e[..4] == d && f[..5] == e;
    assert Peak(a) == 100.0 && Peak(b) == 100.0 && Peak(c) == 100.0 && Peak(d) == 199.9 && Peak(e) == 199.9 && Peak(f) == 199.9;
    assert Drawdown(a) == 0.0 && Drawdown(b) == 0.0 && Drawdown(c) >= -1.0 && Drawdown(d) >= -1.0;
    assert Drawdown(e) >= -1.4;
    assert Drawdown(f) >= -1.4;
    assert f == [100.0, 100.0, 99.9, 199.9, -50.125, -50.125];
  }

  /** The condition on negative endings is needed: the window of this run peaks above its start and ends
      below zero, and the validator refuses the record that its own producer makes of it. */
  lemma NegativeEndingIsRefused()
    ensures var r := Run(100.0, CANDLES, CONFIG, RULES);
      && r.Ok?
      && var w := WindowOf(r.value);
         var cells := seq(9, i requires 0 <= i < 9 => Evidence.Cell(Evidence.GRID[i].0, Evidence.GRID[i].1, [w]));
         && (exists k :: 0 <= k < |w.curve| && w.curve[k] > w.starting) && w.ending < 0.0
         && Evidence.InGridOrder(cells) && !Evidence.Accepts(Evidence.Produce(cells))
  {
    SetupSuits();
    TheRun(CANDLES, CONFIG, RULES);
    hide Run;
    var r := Run(100.0, CANDLES, CONFIG, RULES).value;
    var w := WindowOf(r);
    assert w.curve[3] > w.starting;
    Deepest();
    RecordIsRefused(w);
  }

  lemma RecordIsRefused(w: Evidence.Window)
    requires w.starting == 100.0 && w.ending == -50.125 && Drawdown(w.curve) >= -1.4
    ensures var cells := seq(9, i requires 0 <= i < 9 => Evidence.Cell(Evidence.GRID[i].0, Evidence.GRID[i].1, [w]));
      Evidence.InGridOrder(cells) && !Evidence.Accepts(Evidence.Produce(cells))
  {
    var cells := seq(9, i requires 0 <= i < 9 => Evidence.Cell(Evidence.GRID[i].0, Evidence.GRID[i].1, [w]));
    hide Drawdown;
    assert cells[Evidence.DEFAULT_CELL].windows == [w];
    EvidenceAccepted.SummaryOfOne(w);
    var s := Evidence.Summarize([w]);
    assert Evidence.TotalReturn(s) == -1.50125;
    assert Evidence.Quote(-1.50125) == -150125000 && Evidence.Quote(-1.4) == -140000000;
    Evidence.QuoteMonotone(-1.4, s.drawdown);
  }
}
