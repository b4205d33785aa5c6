/** The equity curve, the order of the trades and the prices of a backtest run over a valid series. */
module BacktestCurve {
  import opened Basics
  import opened Backtest
  import opened BacktestInduction
  import opened BacktestAccounting

  // ---- the curve as a function of the trades ----

  /** What the fills made by a time are worth at a price, less their fees. */
  function PartialAt(fills: seq<Fill>, time: int, price: real, cfg: Config): real {
    if fills == [] then 0.0
    else
      var f := fills[|fills| - 1];
      PartialAt(fills[..|fills| - 1], time, price, cfg) + (if f.time <= time then cfg.times(price - f.price, f.units) - f.fee else 0.0)
  }

  /** A trade's contribution at the close of the bar of a time: its result once it has been exited, else
      what it holds.  The settlement at the end of the data comes after the last close. */
  function Booked(t: Trade, time: int, price: real, cfg: Config): real {
    if t.exitTime < time || (t.exitTime == time && !t.reason.EndOfData?) then t.pnl else PartialAt(t.fills, time, price, cfg)
  }

  function SumBooked(trades: seq<Trade>, time: int, price: real, cfg: Config): real {
    if trades == [] then 0.0
    else SumBooked(trades[..|trades| - 1], time, price, cfg) + Booked(trades[|trades| - 1], time, price, cfg)
  }

  function EquityAt(starting: real, trades: seq<Trade>, fills: seq<Fill>, time: int, price: real, cfg: Config): real {
    starting + SumBooked(trades, time, price, cfg) + PartialAt(fills, time, price, cfg)
  }

  predicate FillsBy(fills: seq<Fill>, time: int) {
    forall f :: f in fills ==> f.time <= time
  }

  lemma {:induction false} PartialAll(fills: seq<Fill>, time: int, price: real, cfg: Config)
    requires FillsBy(fills, time)
    ensures PartialAt(fills, time, price, cfg) == Unrealized(fills, price, cfg) - Fees(fills)
  {
    if fills != [] {
      assert fills[|fills| - 1] in fills;
      PartialAll(fills[..|fills| - 1], time, price, cfg);
    }
  }

  lemma PartialLater(fills: seq<Fill>, f: Fill, time: int, price: real, cfg: Config)
    requires time < f.time
    ensures PartialAt(fills + [f], time, price, cfg) == PartialAt(fills, time, price, cfg)
  {
    assert (fills + [f])[..|fills|] == fills;
  }

  lemma BookedLast(trades: seq<Trade>, t: Trade, time: int, price: real, cfg: Config)
    ensures SumBooked(trades + [t], time, price, cfg) == SumBooked(trades, time, price, cfg) + Booked(t, time, price, cfg)
  {
    assert (trades + [t])[..|trades|] == trades;
  }

  /** Exited by the time, and not merely settled at the end of the data. */
  predicate ExitedBy(trades: seq<Trade>, time: int) {
    forall t :: t in trades ==> t.exitTime <= time && !t.reason.EndOfData?
  }

  lemma {:induction false} BookedAll(trades: seq<Trade>, time: int, price: real, cfg: Config)
    requires ExitedBy(trades, time)
    ensures SumBooked(trades, time, price, cfg) == SumPnl(trades)
  {
    if trades != [] {
      assert trades[|trades| - 1] in trades;
      BookedAll(trades[..|trades| - 1], time, price, cfg);
    }
  }

  // ---- what holds of the curve between events ----

  /** Samples carry the time of their bar, in the order of the bars, none later than bar m. */
  predicate CurveOk(curve: seq<Sample>, tags: seq<Tag>, candles: seq<Candle>, m: nat) {
    && |curve| == |tags| && curve != [] && m < |candles|
    && (forall q :: 0 <= q < |tags| ==> tags[q].bar <= m && curve[q].time == candles[tags[q].bar].time)
    && (forall p, q :: 0 <= p < q < |tags| ==> tags[p].bar <= tags[q].bar)
  }

  function CountCloses(tags: seq<Tag>, bar: nat): nat {
    if tags == [] then 0
    else CountCloses(tags[..|tags| - 1], bar) + (if tags[|tags| - 1] == Tag(bar, Close) then 1 else 0)
  }

  /** Each of the bars 1..k has exactly one close sample, and no other bar has any. */
  ghost predicate ClosesOk(tags: seq<Tag>, k: nat) {
    && (forall bar: nat :: CountCloses(tags, bar) == if 1 <= bar <= k then 1 else 0)
    && (forall q :: 0 <= q < |tags| && tags[q].kind.Close? ==> 1 <= tags[q].bar <= k)
  }

  predicate ValuesOk(curve: seq<Sample>, tags: seq<Tag>, candles: seq<Candle>, starting: real, trades: seq<Trade>, fills: seq<Fill>, cfg: Config) {
    |curve| == |tags| &&
    forall q :: 0 <= q < |tags| && tags[q].kind.Close? && tags[q].bar < |candles| ==>
      curve[q].equity == EquityAt(starting, trades, fills, candles[tags[q].bar].time, candles[tags[q].bar].close, cfg)
  }

  /** Each trade ends strictly before the next one begins. */
  predicate TradesOrdered(trades: seq<Trade>) {
    && (forall i :: 0 <= i < |trades| - 1 ==> trades[i].exitTime < trades[i + 1].entryTime)
    && (forall t :: t in trades ==> t.entryTime <= t.exitTime && FillsBy(t.fills, t.exitTime))
  }

  predicate LastExitBy(trades: seq<Trade>, time: int) {
    trades != [] ==> trades[|trades| - 1].exitTime <= time
  }

  predicate LastExitBefore(trades: seq<Trade>, time: int) {
    trades != [] ==> trades[|trades| - 1].exitTime < time
  }

  predicate HoldingOk(b: Book, candles: seq<Candle>, k: nat, m: nat)
    requires k <= m < |candles|
  {
    && (b.position.Some? ==>
          && b.pending.None? && b.position.value.fills != [] && FillsBy(b.position.value.fills, candles[m].time)
          && LastExitBefore(b.trades, b.position.value.fills[0].time))
    && (b.pending.Some? ==> LastExitBy(b.trades, candles[k].time))
  }

  predicate Inside(candles: seq<Candle>, time: int, price: real) {
    exists c :: c in candles && c.time == time && c.low <= price <= c.high
  }

  predicate FillsInside(fills: seq<Fill>, candles: seq<Candle>) {
    forall f :: f in fills ==> Inside(candles, f.time, f.price)
  }

  predicate TradesInside(trades: seq<Trade>, candles: seq<Candle>) {
    forall t :: t in trades ==> FillsInside(t.fills, candles) && Inside(candles, t.exitTime, t.exitPrice)
  }

  /** The book after the closes of bars 1..k, with no event later than bar m. */
  ghost predicate Charted(b: Book, candles: seq<Candle>, starting: real, cfg: Config, k: nat, m: nat) {
    && k <= m < |candles|
    && b.equity == starting + SumPnl(b.trades)
    && CurveOk(b.curve, b.tags, candles, m) && ClosesOk(b.tags, k)
    && ValuesOk(b.curve, b.tags, candles, starting, b.trades, OpenFills(b), cfg)
    && ExitedBy(b.trades, candles[m].time) && TradesOrdered(b.trades)
    && HoldingOk(b, candles, k, m)
    && FillsInside(OpenFills(b), candles) && TradesInside(b.trades, candles)
  }

  // ---- one sample ----

  lemma CountAppended(tags: seq<Tag>, t: Tag, bar: nat)
    ensures CountCloses(tags + [t], bar) == CountCloses(tags, bar) + (if t == Tag(bar, Close) then 1 else 0)
  {
    assert (tags + [t])[..|tags|] == tags;
  }

  lemma CurveGrows(curve: seq<Sample>, tags: seq<Tag>, candles: seq<Candle>, m: nat, s: Sample, kind: Kind)
    requires CurveOk(curve, tags, candles, m) && s.time == candles[m].time
    ensures CurveOk(curve + [s], tags + [Tag(m, kind)], candles, m)
  {
  }

  lemma EventKeepsCloses(tags: seq<Tag>, k: nat, t: Tag)
    requires ClosesOk(tags, k) && !t.kind.Close?
    ensures ClosesOk(tags + [t], k)
  {
    forall bar: nat ensures CountCloses(tags + [t], bar) == CountCloses(tags, bar) { CountAppended(tags, t, bar); }
  }

  lemma CloseAddsOne(tags: seq<Tag>, k: nat)
    requires ClosesOk(tags, k)
    ensures ClosesOk(tags + [Tag(k + 1, Close)], k + 1)
  {
    var more := tags + [Tag(k + 1, Close)];
    forall bar: nat ensures CountCloses(more, bar) == if 1 <= bar <= k + 1 then 1 else 0 {
      CountAppended(tags, Tag(k + 1, Close), bar);
    }
  }

  /** The samples taken so far keep their meaning when the holdings change at a later bar. */
  ghost predicate SameBy(starting: real, trades: seq<Trade>, fills: seq<Fill>, trades2: seq<Trade>, fills2: seq<Fill>, bound: int, cfg: Config) {
    forall time: int, price: real :: time < bound ==>
      EquityAt(starting, trades2, fills2, time, price, cfg) == EquityAt(starting, trades, fills, time, price, cfg)
  }

  lemma ValuesShift(curve: seq<Sample>, tags: seq<Tag>, candles: seq<Candle>, k: nat, starting: real,
                    trades: seq<Trade>, fills: seq<Fill>, trades2: seq<Trade>, fills2: seq<Fill>, cfg: Config, s: Sample, t: Tag, bound: int)
    requires k < |candles| && ValidSeries(candles) && candles[k].time < bound && !t.kind.Close?
    requires ClosesOk(tags, k) && ValuesOk(curve, tags, candles, starting, trades, fills, cfg)
    requires SameBy(starting, trades, fills, trades2, fills2, bound, cfg)
    ensures ValuesOk(curve + [s], tags + [t], candles, starting, trades2, fills2, cfg)
  {
    var curve2, tags2 := curve + [s], tags + [t];
    forall q | 0 <= q < |tags2| && tags2[q].kind.Close? && tags2[q].bar < |candles|
      ensures curve2[q].equity == EquityAt(starting, trades2, fills2, candles[tags2[q].bar].time, candles[tags2[q].bar].close, cfg)
    {
      assert q < |tags| && tags2[q] == tags[q] && curve2[q] == curve[q];
      assert tags[q].bar <= k;
      assert candles[tags[q].bar].time <= candles[k].time;
    }
  }

  lemma SameAfterFill(starting: real, trades: seq<Trade>, fills: seq<Fill>, f: Fill, cfg: Config)
    ensures SameBy(starting, trades, fills, trades, fills + [f], f.time, cfg)
  {
    forall time: int, price: real | time < f.time
      ensures EquityAt(starting, trades, fills + [f], time, price, cfg) == EquityAt(starting, trades, fills, time, price, cfg)
    {
      PartialLater(fills, f, time, price, cfg);
    }
  }

  lemma SameAfterExit(starting: real, trades: seq<Trade>, t: Trade, bound: int, cfg: Config)
    requires bound <= t.exitTime || (bound <= t.exitTime + 1 && t.reason.EndOfData?)
    ensures SameBy(starting, trades, t.fills, trades + [t], [], bound, cfg)
  {
    forall time: int, price: real | time < bound
      ensures EquityAt(starting, trades + [t], [], time, price, cfg) == EquityAt(starting, trades, t.fills, time, price, cfg)
    {
      BookedLast(trades, t, time, price, cfg);
    }
  }
}
