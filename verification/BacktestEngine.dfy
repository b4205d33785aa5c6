/** The engine as its loop runs: a position updated in place, a curve and a trade list that grow.  Each
  method computes the step of the same name in Backtest.
 */
module BacktestEngine {
  import opened Basics
  import opened Backtest

  class OpenPosition {
    var fills: seq<Fill>
    var stop: real
    var anchor: real
    var initialStop: real
    var maxStage: int
    var transitionCount: int
    var transitionStart: real
    var pendingAdd: Option<PendingAdd>

    constructor (fill: Fill, price: real, stop: real)
      ensures Value() == Position([fill], stop, price, stop, 1, 0, 0.0, None)
    {
      fills, this.stop, anchor, initialStop := [fill], stop, price, stop;
      maxStage, transitionCount, transitionStart, pendingAdd := 1, 0, 0.0, None;
    }

    function Value(): Position
      reads this
    {
      Position(fills, stop, anchor, initialStop, maxStage, transitionCount, transitionStart, pendingAdd)
    }

    /** Consume the planned add, filled or not. */
    method ExecutePyramidAdd(c: Candle, bar: nat, equity: real, cfg: Config, rules: Rules) returns (r: Checked<bool>)
      modifies this
      ensures var add := AddFor(old(Value()), c, bar, rules);
        match add
        case None => r == Ok(false) && Value() == Snapshot(old(Value()))
        case Some((price, candidate)) =>
          var fill := MakeFill(c.time, price, candidate.margin, equity, cfg);
          if fill.Err? then r == Err(fill.error)
          else
            r == Ok(true) && Value() == old(Value()).(fills := old(fills) + [fill.value], maxStage := candidate.stage, pendingAdd := None)
    {
      var plan := pendingAdd;
      pendingAdd := None;
      if plan.None? { return Ok(false); }
      var candidate := plan.value.candidate;
      if bar != plan.value.signalIndex + 1 || c.time != candidate.availableAt || maxStage + 1 != candidate.stage { return Ok(false); }
      if !rules.inWindow(c.time) { return Ok(false); }
      var decision := rules.decide(Value(), plan.value.signalIndex, bar);
      if !decision.shouldAdd { return Ok(false); }
      var price := BuyStopPrice(c, candidate.trigger);
      if price.None? { return Ok(false); }
      var fill :- MakeFill(c.time, price.value, candidate.margin, equity, cfg);
      fills := fills + [fill];
      maxStage := candidate.stage;
      return Ok(true);
    }

    method TightenStop(bar: nat, rules: Rules)
      modifies this`stop, this`transitionCount, this`transitionStart
      ensures var outcome := rules.tighten(Snapshot(old(Value())), bar);
        Value() == old(Value()).(stop := outcome.stop, transitionCount := outcome.transitionCount, transitionStart := outcome.transitionStart)
    {
      var outcome := rules.tighten(Snapshot(Value()), bar);
      stop := outcome.stop;
      transitionCount := outcome.transitionCount;
      transitionStart := outcome.transitionStart;
    }

    method PlanPyramidAdd(bar: nat, rules: Rules)
      modifies this`pendingAdd
      ensures var candidate := rules.decide(Snapshot(old(Value())), bar, bar);
        Value() == old(Value()).(pendingAdd := if candidate.shouldAdd then Some(PendingAdd(candidate, bar)) else None)
    {
      var candidate := rules.decide(Snapshot(Value()), bar, bar);
      pendingAdd := if candidate.shouldAdd then Some(PendingAdd(candidate, bar)) else None;
    }
  }

  class Engine {
    const candles: seq<Candle>
    const cfg: Config
    const rules: Rules
    var equity: real
    var curve: seq<Sample>
    ghost var tags: seq<Tag>
    var trades: seq<Trade>
    var position: OpenPosition?
    var pending: Option<PendingEntry>

    ghost function Held(): Option<Position>
      reads this, position
    {
      if position == null then None else Some(position.Value())
    }

    ghost function Ledger(): Book
      reads this, position
    {
      Book(equity, curve, tags, trades, Held(), pending)
    }

    constructor (starting: real, candles: seq<Candle>, cfg: Config, rules: Rules)
      requires candles != []
      ensures this.candles == candles && this.cfg == cfg && this.rules == rules
      ensures position == null && Ledger() == First(starting, candles)
    {
      this.candles, this.cfg, this.rules := candles, cfg, rules;
      equity, curve, tags, trades := starting, [Sample(candles[0].time, starting)], [Tag(0, Start)], [];
      position, pending := null, None;
    }

    method Mark(price: real) returns (marked: real)
      ensures marked == Marked(equity, OpenFills(Ledger()), price, cfg)
    {
      marked := Marked(equity, if position == null then [] else position.fills, price, cfg);
    }

    method RecordClose(bar: nat)
      requires bar < |candles|
      modifies this`curve, this`tags
      ensures Ledger() == Backtest.RecordClose(old(Ledger()), candles[bar], bar, cfg)
    {
      var marked := Mark(candles[bar].close);
      curve := curve + [Sample(candles[bar].time, marked)];
      tags := tags + [Tag(bar, Close)];
    }

    method ClosePosition(bar: nat, price: real, reason: ExitReason, ghost kind: Kind)
      requires bar < |candles| && position != null && position.fills != []
      modifies this
      ensures Ledger() == Backtest.ClosePosition(old(Ledger()), candles[bar], bar, price, reason, kind, cfg) && position == null
    {
      var trade := TradeOf(position.Value(), candles[bar], price, reason, cfg);
      equity := equity + trade.pnl;
      trades := trades + [trade];
      position := null;
      curve := curve + [Sample(candles[bar].time, equity)];
      tags := tags + [Tag(bar, kind)];
    }

    method ExitOnRisk(bar: nat, stopReason: ExitReason) returns (r: Checked<bool>)
      requires bar < |candles| && position != null && position.fills != []
      modifies this
      ensures var spec := Backtest.ExitOnRisk(old(Ledger()), candles[bar], bar, stopReason, cfg, rules);
        && r.Ok? == spec.Ok? && (r.Err? ==> r.error == spec.error)
        && (r.Ok? ==> Ledger() == spec.value && (position == null || position == old(position)) && r.value == (position == null))
    {
      var exit :- RiskExit(candles[bar], position.Value(), cfg, rules, stopReason);
      if exit.None? { return Ok(false); }
      ClosePosition(bar, exit.value.0, exit.value.1, Event);
      return Ok(true);
    }

    method OpenAndCheck(bar: nat, price: real) returns (r: Checked<()>)
      requires bar < |candles| && position == null
      modifies this
      ensures var spec := Backtest.OpenAndCheck(old(Ledger()), candles[bar], bar, price, cfg, rules);
        && r.Ok? == spec.Ok? && (r.Err? ==> r.error == spec.error)
        && (r.Ok? ==> Ledger() == spec.value && (position == null || fresh(position)))
    {
      ghost var b := Ledger();
      var fill :- MakeFill(candles[bar].time, price, cfg.firstMargin, equity, cfg);
      position := new OpenPosition(fill, price, cfg.times(price, 1.0 - cfg.initialStopPct));
      pending := None;
      var marked := Mark(price);
      curve := curve + [Sample(candles[bar].time, marked)];
      tags := tags + [Tag(bar, Event)];
      assert Backtest.Open(b, candles[bar], bar, price, cfg) == Ok(Ledger());
      var exited :- ExitOnRisk(bar, InitialStop);
      return Ok(());
    }

    method ManagePosition(bar: nat) returns (r: Checked<()>)
      requires bar < |candles| && position != null
      modifies this, position
      ensures var spec := ManageStep(old(Ledger()), candles[bar], bar, cfg, rules);
        && r.Ok? == spec.Ok? && (r.Err? ==> r.error == spec.error)
        && (r.Ok? ==> Ledger() == spec.value && position == old(position))
    {
      var filled :- position.ExecutePyramidAdd(candles[bar], bar, equity, cfg, rules);
      if filled {
        var marked := Mark(position.fills[|position.fills| - 1].price);
        curve := curve + [Sample(candles[bar].time, marked)];
        tags := tags + [Tag(bar, Event)];
      }
      assert ExecuteAdd(old(Ledger()), candles[bar], bar, cfg, rules) == Ok(Ledger());
      position.TightenStop(bar, rules);
      position.PlanPyramidAdd(bar, rules);
      RecordClose(bar);
      return Ok(());
    }

    method HoldBar(bar: nat) returns (r: Checked<()>)
      requires bar < |candles| && position != null && position.fills != []
      modifies this, position
      ensures var spec := HoldStep(old(Ledger()), candles, bar, cfg, rules);
        && r.Ok? == spec.Ok? && (r.Err? ==> r.error == spec.error)
        && (r.Ok? ==> Ledger() == spec.value && (position == null || position == old(position)))
    {
      if position.fills[0].time != candles[bar].time {
        var exited :- ExitOnRisk(bar, Stop);
        if exited {
          RecordClose(bar);
          return Ok(());
        }
      }
      r := ManagePosition(bar);
    }

    method EnterNextBar(bar: nat, level: real) returns (r: Checked<()>)
      requires bar + 1 < |candles| && position == null
      modifies this
      ensures var spec := EnterNext(old(Ledger()), candles, bar, level, cfg, rules);
        && r.Ok? == spec.Ok? && (r.Err? ==> r.error == spec.error)
        && (r.Ok? ==> Ledger() == spec.value && (position == null || fresh(position)))
    {
      var next := candles[bar + 1];
      var price :- NextBarPrice(cfg.mode, candles[bar], next);
      if price.None? || !rules.accepts(bar, level, price.value) { return Ok(()); }
      if !rules.inWindow(next.time) { return Ok(()); }
      r := OpenAndCheck(bar + 1, price.value);
    }

    method SignalBar(bar: nat) returns (r: Checked<()>)
      requires bar < |candles| && position == null
      modifies this
      ensures var spec := SignalStep(old(Ledger()), candles, bar, cfg, rules);
        && r.Ok? == spec.Ok? && (r.Err? ==> r.error == spec.error)
        && (r.Ok? ==> Ledger() == spec.value && (position == null || fresh(position)))
    {
      RecordClose(bar);
      if bar + 1 >= |candles| || !rules.inWindow(candles[bar].time) { return Ok(()); }
      var level := rules.level(bar);
      if level.None? || !rules.confirms(bar, level.value) { return Ok(()); }
      if cfg.mode.SecondPullback? {
        pending := Some(PendingEntry(level.value, bar + cfg.waitBars));
        return Ok(());
      }
      r := EnterNextBar(bar, level.value);
    }

    method FlatBar(bar: nat) returns (r: Checked<()>)
      requires bar < |candles| && position == null
      modifies this
      ensures var spec := FlatStep(old(Ledger()), candles, bar, cfg, rules);
        && r.Ok? == spec.Ok? && (r.Err? ==> r.error == spec.error)
        && (r.Ok? ==> Ledger() == spec.value && (position == null || fresh(position)))
    {
      if cfg.mode.SecondPullback? && pending.Some? {
        var c, level := candles[bar], pending.value.level;
        if bar > pending.value.expires {
          pending := None;
        } else {
          if c.low <= cfg.times(level, 1.0 + cfg.levelTolerance) && rules.inWindow(c.time) {
            var price := BuyLimitPrice(c, level);
            if price.Some? {
              var entered :- OpenAndCheck(bar, price.value);
            }
          }
          RecordClose(bar);
          return Ok(());
        }
      }
      r := SignalBar(bar);
    }

    method OneBar(bar: nat) returns (r: Checked<()>)
      requires bar < |candles| && Backtest.Held(Ledger())
      modifies this, position
      ensures var spec := BarStep(old(Ledger()), candles, bar, cfg, rules);
        && r.Ok? == spec.Ok? && (r.Err? ==> r.error == spec.error)
        && (r.Ok? ==> Ledger() == spec.value && (position == null || position == old(position) || fresh(position)))
    {
      if position == null {
        r := FlatBar(bar);
      } else {
        r := HoldBar(bar);
      }
    }

    /** Every bar before this one has been processed as the step functions say. */
    ghost predicate At(starting: real, bar: nat)
      reads this, position
    {
      1 <= bar <= |candles| && Before(starting, candles, bar, cfg, rules) == Ok(Ledger())
    }

    /** A failure at any bar is the failure of the whole run. */
    method Advance(bar: nat, ghost starting: real) returns (r: Checked<()>)
      requires 1 <= bar < |candles| && At(starting, bar)
      modifies this, position
      ensures r.Ok? ==> At(starting, bar + 1)
      ensures r.Ok? ==> position == null || position == old(position) || fresh(position)
      ensures r.Err? ==> Before(starting, candles, |candles|, cfg, rules) == Err(r.error)
    {
      ghost var b := Ledger();
      r := OneBar(bar);
      Succession(starting, candles, bar, b, BarStep(b, candles, bar, cfg, rules), cfg, rules);
    }

    method AllBars(ghost starting: real) returns (r: Checked<()>)
      requires |candles| >= 1 && position == null && At(starting, 1)
      modifies this
      ensures r.Ok? ==> At(starting, |candles|)
      ensures r.Err? ==> Before(starting, candles, |candles|, cfg, rules) == Err(r.error)
    {
      hide At;
      var bar := 1;
      while bar < |candles|
        invariant 1 <= bar <= |candles|
        invariant position == null || fresh(position)
        invariant At(starting, bar)
      {
        r := Advance(bar, starting);
        if r.Err? { return; }
        bar := bar + 1;
      }
      return Ok(());
    }

    method SettleOpen()
      requires candles != [] && Backtest.Held(Ledger())
      modifies this
      ensures Ledger() == Settle(old(Ledger()), candles, cfg)
    {
      if position != null {
        ClosePosition(|candles| - 1, candles[|candles| - 1].close, EndOfData, Settlement);
      }
    }

    /** The whole loop over the bars, and the settlement at the end of the data. */
    method Run(ghost starting: real) returns (r: Checked<()>)
      requires candles != [] && position == null && Ledger() == First(starting, candles)
      modifies this
      ensures Final(starting, candles, cfg, rules) == if r.Ok? then Ok(Ledger()) else Err(r.error)
    {
      r := AllBars(starting);
      if r.Ok? { SettleOpen(); }
    }
  }

  lemma Succession(starting: real, candles: seq<Candle>, bar: nat, b: Book, next: Checked<Book>, cfg: Config, rules: Rules)
    requires 1 <= bar < |candles| && Before(starting, candles, bar, cfg, rules) == Ok(b) && next == BarStep(b, candles, bar, cfg, rules)
    ensures Before(starting, candles, bar + 1, cfg, rules) == next
    ensures next.Err? ==> Before(starting, candles, |candles|, cfg, rules) == next
  {
    hide BarStep;
    if next.Err? { FailureLasts(starting, candles, bar + 1, cfg, rules); }
  }

  lemma {:induction false} FailureLasts(starting: real, candles: seq<Candle>, bar: nat, cfg: Config, rules: Rules)
    requires 1 <= bar <= |candles| && Before(starting, candles, bar, cfg, rules).Err?
    ensures Before(starting, candles, |candles|, cfg, rules) == Before(starting, candles, bar, cfg, rules)
    decreases |candles| - bar
  {
    hide BarStep;
    if bar < |candles| { FailureLasts(starting, candles, bar + 1, cfg, rules); }
  }

  method RunBacktest(starting: real, candles: seq<Candle>, cfg: Config, rules: Rules) returns (r: Checked<BacktestResult>)
    ensures r == Backtest.Run(starting, candles, cfg, rules)
  {
    if |candles| < 4 { return Ok(BacktestResult(starting, starting, [], [])); }
    var engine := new Engine(starting, candles, cfg, rules);
    var done := engine.Run(starting);
    return if done.Err? then Err(done.error) else Ok(BacktestResult(starting, engine.equity, engine.trades, engine.curve));
  }
}
