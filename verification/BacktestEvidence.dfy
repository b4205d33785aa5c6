/** A backtest result is sound evidence: what the ladder summarizes and the validator relies on. */
module BacktestEvidence {
  import opened Basics
  import opened Backtest
  import opened BacktestInduction
  import BacktestAccounting
  import BacktestRuns
  import Robustness
  import Evidence

  function Pnls(trades: seq<Trade>): seq<real> {
    if trades == [] then [] else Pnls(trades[..|trades| - 1]) + [trades[|trades| - 1].pnl]
  }

  function Equities(curve: seq<Sample>): (r: seq<real>)
    ensures |r| == |curve|
  {
    seq(|curve|, i requires 0 <= i < |curve| => curve[i].equity)
  }

  function WindowOf(r: BacktestResult): Evidence.Window {
    Evidence.Window(r.starting, r.ending, Pnls(r.trades), Equities(r.curve))
  }

  lemma {:induction false} PnlsSum(trades: seq<Trade>)
    ensures Robustness.Sum(Pnls(trades)) == BacktestAccounting.SumPnl(trades) && |Pnls(trades)| == |trades|
  {
    if trades != [] {
      PnlsSum(trades[..|trades| - 1]);
      Robustness.SumAppend(Pnls(trades[..|trades| - 1]), trades[|trades| - 1].pnl);
    }
  }

  /** The curve starts at the starting equity, and stays there until something is traded. */
  ghost function Anchored(starting: real): Property {
    (b: Book, k: nat, m: nat) =>
      && Held(b) && b.curve != [] && b.curve[0].equity == starting
      && (b.trades == [] && b.position.None? ==>
            b.equity == starting && forall i :: 0 <= i < |b.curve| ==> b.curve[i].equity == starting)
  }

  lemma EventsKeepAnchor(starting: real, candles: seq<Candle>, cfg: Config)
    ensures Kept(Anchored(starting), candles, cfg)
  {
  }

  /** Every result the engine returns, on any series, is sound evidence. */
  lemma RunIsSound(starting: real, candles: seq<Candle>, cfg: Config, rules: Rules)
    requires starting > 0.0 && Run(starting, candles, cfg, rules).Ok?
    ensures Evidence.Sound(WindowOf(Run(starting, candles, cfg, rules).value))
  {
    hide BarStep;
    var r := Run(starting, candles, cfg, rules).value;
    PnlsSum(r.trades);
    BacktestAccounting.RunAccounted(starting, candles, cfg, rules);
    if |candles| >= 4 {
      EventsKeepAnchor(starting, candles, cfg);
      BacktestRuns.EventsKeepLastSample(candles, cfg);
      RunKeeps(Anchored(starting), starting, candles, |candles|, cfg, rules);
      RunKeeps(BacktestRuns.LastSample(), starting, candles, |candles|, cfg, rules);
    }
  }
}
