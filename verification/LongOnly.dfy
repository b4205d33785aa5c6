/** The long-only ladder candidates: one position at a time, on bars chosen by a target rule.

  The target of each execution bar and the execution window are given; sorting and selecting the bars
  is not part of this model.
 */
module LongOnly {
  import opened Basics
  import opened Robustness
  import Evidence

  datatype Bar = Bar(open: real, close: real, target: bool)

  datatype Holding = Holding(price: real, units: real, fee: real, bar: nat)

  datatype Trade = Trade(entryBar: nat, exitBar: nat, entryPrice: real, exitPrice: real, units: real, fees: real, pnl: real)

  datatype TradeError = PriceNotPositive

  datatype Outcome = Outcome(ending: real, trades: seq<Trade>, curve: seq<real>)

  function Pnls(trades: seq<Trade>): (r: seq<real>)
    ensures |r| == |trades|
  {
    if trades == [] then [] else Pnls(trades[..|trades| - 1]) + [trades[|trades| - 1].pnl]
  }

  lemma PnlsAppend(trades: seq<Trade>, t: Trade)
    ensures Pnls(trades + [t]) == Pnls(trades) + [t.pnl] && Sum(Pnls(trades + [t])) == Sum(Pnls(trades)) + t.pnl
  {
    assert (trades + [t])[..|trades|] == trades;
    SumAppend(Pnls(trades), t.pnl);
  }

  /** Entered with the whole equity of its time, and settled net of both fees. */
  predicate Settled(t: Trade, equity: real, feeRate: real) {
    && t.entryPrice > 0.0 && t.exitPrice > 0.0 && t.units == equity / t.entryPrice && equity > 0.0
    && t.pnl == (t.exitPrice - t.entryPrice) * t.units - t.fees
    && t.fees == equity * feeRate + t.exitPrice * t.units * feeRate
    && t.entryBar < t.exitBar
  }

  /** Each trade used the equity its predecessors left, and began after they had ended. */
  predicate AllSettled(trades: seq<Trade>, starting: real, feeRate: real) {
    trades != [] ==>
      var n := |trades| - 1;
      && AllSettled(trades[..n], starting, feeRate)
      && Settled(trades[n], starting + Sum(Pnls(trades[..n])), feeRate)
      && (n > 0 ==> trades[n - 1].exitBar < trades[n].entryBar)
  }

  /** A trade that settles the holding at a bar and price. */
  predicate Closes(t: Trade, h: Holding, bar: nat, price: real) {
    t.entryBar == h.bar && t.exitBar == bar && t.entryPrice == h.price && t.exitPrice == price && t.units == h.units
  }

  /** The open position was entered with the whole of the settled equity. */
  predicate Entered(h: Holding, equity: real, feeRate: real) {
    h.price > 0.0 && equity > 0.0 && h.units == equity / h.price && h.fee == EntryFee(equity, feeRate)
  }

  function EntryFee(equity: real, feeRate: real): real { equity * feeRate }

  method CloseTrade(h: Holding, bar: nat, exitPrice: real, equity: real, feeRate: real) returns (r: Result<(real, Trade), TradeError>)
    ensures r.Err? <==> exitPrice <= 0.0
    ensures r.Ok? ==> Closes(r.value.1, h, bar, exitPrice) && r.value.0 == equity + r.value.1.pnl
    ensures r.Ok? && Entered(h, equity, feeRate) && h.bar < bar ==> Settled(r.value.1, equity, feeRate)
  {
    if exitPrice <= 0.0 { return Err(PriceNotPositive); }
    var gross := (exitPrice - h.price) * h.units;
    var fees := h.fee + exitPrice * h.units * feeRate;
    var net := gross - fees;
    return Ok((equity + net, Trade(h.bar, bar, h.price, exitPrice, h.units, fees, net)));
  }

  function WindowOf(starting: real, o: Outcome): Evidence.Window {
    Evidence.Window(starting, o.ending, Pnls(o.trades), o.curve)
  }

  lemma Settling(trades: seq<Trade>, t: Trade, starting: real, equity: real, feeRate: real)
    requires AllSettled(trades, starting, feeRate) && equity == starting + Sum(Pnls(trades))
    requires Settled(t, equity, feeRate) && (trades != [] ==> trades[|trades| - 1].exitBar < t.entryBar)
    ensures AllSettled(trades + [t], starting, feeRate)
  {
    assert (trades + [t])[..|trades|] == trades;
  }

  /** What the loop knows of its books before bar i. */
  predicate BooksOk(starting: real, feeRate: real, equity: real, trades: seq<Trade>, holding: Option<Holding>, i: nat) {
    && equity == starting + Sum(Pnls(trades)) && AllSettled(trades, starting, feeRate)
    && (trades != [] ==> trades[|trades| - 1].exitBar < i)
    && (holding.Some? ==>
          && Entered(holding.value, equity, feeRate) && holding.value.bar < i
          && (trades != [] ==> trades[|trades| - 1].exitBar < holding.value.bar))
  }

  predicate CurveOk(starting: real, curve: seq<real>, equity: real, idle: bool, flat: bool) {
    && curve != [] && curve[0] == starting && (flat ==> curve[|curve| - 1] == equity)
    && (idle ==> equity == starting && forall j :: 0 <= j < |curve| ==> curve[j] == starting)
  }

  lemma CurveGrows(starting: real, curve: seq<real>, equity: real, idle: bool, flat: bool, marked: real, next: real, idleNext: bool, flatNext: bool)
    requires CurveOk(starting, curve, equity, idle, flat) && (idleNext ==> idle && next == equity) && (flatNext ==> marked == next)
    requires idleNext ==> flatNext
    ensures CurveOk(starting, curve + [marked], next, idleNext, flatNext)
  {
  }

  lemma SoundOutcome(starting: real, feeRate: real, equity: real, trades: seq<Trade>, curve: seq<real>, n: nat)
    requires BooksOk(starting, feeRate, equity, trades, None, n) && CurveOk(starting, curve, equity, trades == [], true)
    ensures starting > 0.0 ==> Evidence.Sound(WindowOf(starting, Outcome(equity, trades, curve)))
  {
  }

  // ---- what the trades say about the bars ----

  /** A trade spans the bars of one uninterrupted target: it enters at the open of the first of them and
      leaves at the open of the bar after the last, or at the last close of all. */
  predicate Spans(t: Trade, bars: seq<Bar>, first: nat, slip: real) {
    && first <= t.entryBar < t.exitBar <= |bars|
    && (forall j :: t.entryBar <= j < t.exitBar ==> bars[j].target)
    && (t.entryBar > first ==> !bars[t.entryBar - 1].target) && (t.exitBar < |bars| ==> !bars[t.exitBar].target)
    && t.entryPrice == bars[t.entryBar].open + slip
    && t.exitPrice == (if t.exitBar < |bars| then bars[t.exitBar].open else bars[|bars| - 1].close) - slip
  }

  predicate IsHeld(trades: seq<Trade>, i: nat) {
    exists k :: 0 <= k < |trades| && trades[k].entryBar <= i < trades[k].exitBar
  }

  /** The equity with a position marked at a price, net of its entry fee. */
  function Marked(equity: real, entry: real, units: real, fee: real, price: real): real {
    equity + (price - entry) * units - fee
  }

  /** What the account is worth at the close of a bar, as the trades tell: settled, or marked at the close. */
  function MarkAt(trades: seq<Trade>, bars: seq<Bar>, i: nat, starting: real, feeRate: real): real
    requires i < |bars|
  {
    if trades == [] then starting
    else
      var init, t := trades[..|trades| - 1], trades[|trades| - 1];
      var equity := starting + Sum(Pnls(init));
      if i < t.entryBar then MarkAt(init, bars, i, starting, feeRate)
      else if i < t.exitBar then Marked(equity, t.entryPrice, t.units, EntryFee(equity, feeRate), bars[i].close)
      else equity + t.pnl
  }

  /** The trades of a run: each spans a target, in order and settled one from the other, and no target
      goes unheld while the account is above zero. */
  ghost predicate TradesTargets(trades: seq<Trade>, bars: seq<Bar>, first: nat, starting: real, feeRate: real, slip: real) {
    && AllSettled(trades, starting, feeRate)
    && (forall t :: t in trades ==> Spans(t, bars, first, slip))
    && (forall i :: first <= i < |bars| && bars[i].target ==> IsHeld(trades, i) || MarkAt(trades, bars, i, starting, feeRate) <= 0.0)
  }

  /** One sample at the start, one at the close of every bar, and one for the settlement at the end of data. */
  ghost predicate Charts(curve: seq<real>, trades: seq<Trade>, bars: seq<Bar>, first: nat, starting: real, feeRate: real) {
    && first <= |bars| && |bars| - first + 1 <= |curve| && curve[0] == starting
    && (forall i :: first <= i < |bars| ==> curve[i - first + 1] == MarkAt(trades, bars, i, starting, feeRate))
    && curve[|bars| - first + 1..] == if trades != [] && trades[|trades| - 1].exitBar == |bars| then [starting + Sum(Pnls(trades))] else []
  }

  // ---- the loop ----

  datatype Books = Books(equity: real, trades: seq<Trade>, holding: Option<Holding>)

  /** The open position was taken at the start of the target that still stands. */
  predicate OpenSpans(h: Holding, bars: seq<Bar>, first: nat, slip: real, i: nat) {
    && first <= h.bar < i <= |bars| && (forall j :: h.bar <= j < i ==> bars[j].target)
    && (h.bar > first ==> !bars[h.bar - 1].target) && h.price == bars[h.bar].open + slip
  }

  function MarkedHolding(equity: real, h: Holding, price: real): real {
    Marked(equity, h.price, h.units, h.fee, price)
  }

  function MarkOf(b: Books, bars: seq<Bar>, i: nat, starting: real, feeRate: real): real
    requires i < |bars|
  {
    if b.holding.Some? && b.holding.value.bar <= i
    then MarkedHolding(b.equity, b.holding.value, bars[i].close)
    else MarkAt(b.trades, bars, i, starting, feeRate)
  }

  ghost predicate IsCovered(b: Books, i: nat) {
    IsHeld(b.trades, i) || (b.holding.Some? && b.holding.value.bar <= i)
  }

  /** What the books say about the bars before i. */
  ghost predicate Following(b: Books, bars: seq<Bar>, first: nat, starting: real, feeRate: real, slip: real, i: nat) {
    && i <= |bars|
    && (forall t :: t in b.trades ==> Spans(t, bars, first, slip) && t.exitBar < i)
    && (b.holding.Some? ==> OpenSpans(b.holding.value, bars, first, slip, i))
    && (forall j :: first <= j < i && bars[j].target ==> IsCovered(b, j) || MarkAt(b.trades, bars, j, starting, feeRate) <= 0.0)
  }

  ghost predicate Charted(curve: seq<real>, b: Books, bars: seq<Bar>, first: nat, starting: real, feeRate: real, i: nat) {
    && first <= i <= |bars| && |curve| == i - first + 1 && curve[0] == starting
    && forall j :: first <= j < i ==> curve[j - first + 1] == MarkOf(b, bars, j, starting, feeRate)
  }

  /** After the last exit the account is worth what was settled. */
  lemma MarkAfter(trades: seq<Trade>, bars: seq<Bar>, i: nat, starting: real, feeRate: real)
    requires i < |bars| && AllSettled(trades, starting, feeRate) && (trades != [] ==> trades[|trades| - 1].exitBar <= i)
    ensures MarkAt(trades, bars, i, starting, feeRate) == starting + Sum(Pnls(trades))
  {
    if trades != [] {
      var n := |trades| - 1;
      assert trades == trades[..n] + [trades[n]];
      PnlsAppend(trades[..n], trades[n]);
    }
  }

  /** Closing a trade changes no earlier mark. */
  lemma MarkOneMore(b: Books, t: Trade, bars: seq<Bar>, j: nat, starting: real, feeRate: real)
    requires j < |bars| && b.holding.Some? && b.equity == starting + Sum(Pnls(b.trades)) && Entered(b.holding.value, b.equity, feeRate)
    requires t.entryBar == b.holding.value.bar && t.entryPrice == b.holding.value.price && t.units == b.holding.value.units && j < t.exitBar
    ensures MarkAt(b.trades + [t], bars, j, starting, feeRate) == MarkOf(b, bars, j, starting, feeRate)
    ensures j < t.entryBar ==> MarkAt(b.trades + [t], bars, j, starting, feeRate) == MarkAt(b.trades, bars, j, starting, feeRate)
  {
    assert (b.trades + [t])[..|b.trades|] == b.trades;
  }

  lemma HeldOneMore(trades: seq<Trade>, t: Trade, i: nat)
    ensures IsHeld(trades + [t], i) <==> IsHeld(trades, i) || t.entryBar <= i < t.exitBar
  {
    var all := trades + [t];
    if IsHeld(trades, i) {
      var k :| 0 <= k < |trades| && trades[k].entryBar <= i < trades[k].exitBar;
      assert all[k] == trades[k];
    }
    if t.entryBar <= i < t.exitBar { assert all[|trades|] == t; }
  }

  lemma EnterFollows(b: Books, h: Holding, bars: seq<Bar>, first: nat, starting: real, feeRate: real, slip: real, i: nat)
    requires BooksOk(starting, feeRate, b.equity, b.trades, b.holding, i) && Following(b, bars, first, starting, feeRate, slip, i)
    requires first <= i < |bars| && bars[i].target && b.holding.None? && b.equity > 0.0 && h.bar == i && h.price == bars[i].open + slip
    ensures Following(b.(holding := Some(h)), bars, first, starting, feeRate, slip, i + 1)
  {
    FlatAfterTarget(b, bars, first, starting, feeRate, slip, i);
    hide AllSettled, Settled, Entered, MarkAt, Spans, IsHeld;
  }

  /** Who is flat before a bar, after a target, has nothing left to enter with. */
  lemma FlatAfterTarget(b: Books, bars: seq<Bar>, first: nat, starting: real, feeRate: real, slip: real, i: nat)
    requires BooksOk(starting, feeRate, b.equity, b.trades, b.holding, i) && Following(b, bars, first, starting, feeRate, slip, i)
    requires first <= i < |bars| && b.holding.None?
    ensures i > first && bars[i - 1].target ==> b.equity <= 0.0
  {
    if i > first && bars[i - 1].target {
      LastExit(b.trades, starting, feeRate, bars, first, slip, i);
      hide AllSettled, Settled, Entered, MarkAt, Spans;
      MarkAfter(b.trades, bars, i - 1, starting, feeRate);
      assert !IsHeld(b.trades, i - 1);
    }
  }

  lemma LastExit(trades: seq<Trade>, starting: real, feeRate: real, bars: seq<Bar>, first: nat, slip: real, i: nat)
    requires forall t :: t in trades ==> t.exitBar < i
    ensures trades != [] ==> trades[|trades| - 1].exitBar < i
  {
  }

  lemma ExitFollows(b: Books, t: Trade, equity: real, bars: seq<Bar>, first: nat, starting: real, feeRate: real, slip: real, i: nat)
    requires BooksOk(starting, feeRate, b.equity, b.trades, b.holding, i) && Following(b, bars, first, starting, feeRate, slip, i)
    requires first <= i < |bars| && !bars[i].target && b.holding.Some?
    requires t.entryBar == b.holding.value.bar && t.entryPrice == b.holding.value.price && t.units == b.holding.value.units
    requires t.exitBar == i && t.exitPrice == bars[i].open - slip
    ensures Following(Books(equity, b.trades + [t], None), bars, first, starting, feeRate, slip, i + 1)
  {
    hide AllSettled, Settled, MarkAt, IsHeld;
    var u := Books(equity, b.trades + [t], None);
    forall j | first <= j < i + 1 && bars[j].target ensures IsCovered(u, j) || MarkAt(u.trades, bars, j, starting, feeRate) <= 0.0 {
      HeldOneMore(b.trades, t, j);
      MarkOneMore(b, t, bars, j, starting, feeRate);
    }
  }

  lemma StayFollows(b: Books, bars: seq<Bar>, first: nat, starting: real, feeRate: real, slip: real, i: nat)
    requires BooksOk(starting, feeRate, b.equity, b.trades, b.holding, i) && Following(b, bars, first, starting, feeRate, slip, i)
    requires first <= i < |bars| && (if bars[i].target then b.holding.Some? || b.equity <= 0.0 else b.holding.None?)
    ensures Following(b, bars, first, starting, feeRate, slip, i + 1)
  {
    if b.holding.None? { MarkAfter(b.trades, bars, i, starting, feeRate); }
  }

  /** The position that is still open at the end of data is settled at the last close. */
  lemma EndFollows(b: Books, t: Trade, bars: seq<Bar>, first: nat, starting: real, feeRate: real, slip: real)
    requires bars != [] && BooksOk(starting, feeRate, b.equity, b.trades, b.holding, |bars|)
    requires Following(b, bars, first, starting, feeRate, slip, |bars|) && b.holding.Some?
    requires t.entryBar == b.holding.value.bar && t.entryPrice == b.holding.value.price && t.units == b.holding.value.units
    requires t.exitBar == |bars| && t.exitPrice == bars[|bars| - 1].close - slip && AllSettled(b.trades + [t], starting, feeRate)
    ensures TradesTargets(b.trades + [t], bars, first, starting, feeRate, slip)
  {
    hide AllSettled, Settled, MarkAt, IsHeld;
    var all := b.trades + [t];
    forall j | first <= j < |bars| && bars[j].target ensures IsHeld(all, j) || MarkAt(all, bars, j, starting, feeRate) <= 0.0 {
      HeldOneMore(b.trades, t, j);
      MarkOneMore(b, t, bars, j, starting, feeRate);
    }
  }

  method EnterTrade(price: real, equity: real, feeRate: real, bar: nat) returns (r: Result<Holding, TradeError>)
    requires equity > 0.0
    ensures r.Err? <==> price <= 0.0
    ensures r.Ok? ==> Entered(r.value, equity, feeRate) && r.value.bar == bar && r.value.price == price
  {
    if price <= 0.0 { return Err(PriceNotPositive); }
    return Ok(Holding(price, equity / price, equity * feeRate, bar));
  }

  method SettleTrade(starting: real, feeRate: real, b: Books, bar: nat, price: real) returns (r: Result<Books, TradeError>)
    requires b.holding.Some? && BooksOk(starting, feeRate, b.equity, b.trades, b.holding, bar)
    ensures r.Err? <==> price <= 0.0
    ensures r.Ok? ==> BooksOk(starting, feeRate, r.value.equity, r.value.trades, None, bar + 1) && r.value.holding.None?
    ensures r.Ok? ==>
      var n := |b.trades|;
      |r.value.trades| == n + 1 && r.value.trades[..n] == b.trades && Closes(r.value.trades[n], b.holding.value, bar, price)
  {
    hide Settled, Entered, MarkAt;
    var closed :- CloseTrade(b.holding.value, bar, price, b.equity, feeRate);
    PnlsAppend(b.trades, closed.1);
    Settling(b.trades, closed.1, starting, b.equity, feeRate);
    return Ok(Books(closed.0, b.trades + [closed.1], None));
  }

  method Mark(equity: real, holding: Option<Holding>, close: real) returns (marked: real)
    ensures holding.None? ==> marked == equity
    ensures holding.Some? ==> marked == MarkedHolding(equity, holding.value, close)
  {
    marked := equity;
    if holding.Some? {
      marked := marked + (close - holding.value.price) * holding.value.units - holding.value.fee;
    }
  }

  /** A price of the series from which the slippage leaves nothing. */
  predicate Untradable(b: Bar, slip: real) {
    b.open + slip <= 0.0 || b.open - slip <= 0.0 || b.close - slip <= 0.0
  }

  /** The books of a loop before bar i. */
  ghost predicate IsGoing(b: Books, bars: seq<Bar>, first: nat, starting: real, feeRate: real, slip: real, i: nat) {
    BooksOk(starting, feeRate, b.equity, b.trades, b.holding, i) && Following(b, bars, first, starting, feeRate, slip, i)
  }

  /** The marks of the bars before i are told as before. */
  ghost predicate SameMarks(b: Books, u: Books, bars: seq<Bar>, first: nat, starting: real, feeRate: real, i: nat) {
    forall j :: first <= j < i <= |bars| ==> MarkOf(u, bars, j, starting, feeRate) == MarkOf(b, bars, j, starting, feeRate)
  }

  /** One bar: enter on a target, leave without one. */
  method TradeBar(bars: seq<Bar>, i: nat, first: nat, starting: real, feeRate: real, slip: real, b: Books) returns (r: Result<Books, TradeError>)
    requires first <= i < |bars| && IsGoing(b, bars, first, starting, feeRate, slip, i)
    ensures r.Ok? ==> IsGoing(r.value, bars, first, starting, feeRate, slip, i + 1) && SameMarks(b, r.value, bars, first, starting, feeRate, i)
    ensures r.Ok? && r.value.holding.None? && r.value.trades == [] ==> b.holding.None? && b.trades == [] && r.value.equity == b.equity
    ensures r.Err? ==> Untradable(bars[i], slip)
  {
    hide AllSettled, MarkAt;
    var bar := bars[i];
    if bar.target && b.holding.None? && b.equity > 0.0 {
      var entered :- EnterTrade(bar.open + slip, b.equity, feeRate, i);
      EnterFollows(b, entered, bars, first, starting, feeRate, slip, i);
      return Ok(b.(holding := Some(entered)));
    }
    if !bar.target && b.holding.Some? {
      var settled :- SettleTrade(starting, feeRate, b, i, bar.open - slip);
      ghost var t := settled.trades[|b.trades|];
      assert settled.trades == b.trades + [t];
      ExitFollows(b, t, settled.equity, bars, first, starting, feeRate, slip, i);
      forall j | first <= j < i ensures MarkOf(settled, bars, j, starting, feeRate) == MarkOf(b, bars, j, starting, feeRate) {
        MarkOneMore(b, t, bars, j, starting, feeRate);
      }
      return Ok(settled);
    }
    StayFollows(b, bars, first, starting, feeRate, slip, i);
    return Ok(b);
  }

  /** run_long_only_candidate over its execution bars; the built-in signals skip a first bar without history.
      The trades follow the targets bar by bar, and the curve charts them. */
  method RunLongOnly(bars: seq<Bar>, skipFirst: bool, starting: real, feeRate: real, slip: real) returns (r: Result<Outcome, TradeError>)
    ensures r.Ok? ==>
      var first, o := if skipFirst then 1 else 0, r.value;
      && o.ending == starting + Sum(Pnls(o.trades))
      && (bars == [] ==> o == Outcome(starting, [], []))
      && (bars != [] ==> TradesTargets(o.trades, bars, first, starting, feeRate, slip) && Charts(o.curve, o.trades, bars, first, starting, feeRate))
    ensures r.Ok? && starting > 0.0 ==> Evidence.Sound(WindowOf(starting, r.value))
    ensures r.Err? ==> exists b :: b in bars && Untradable(b, slip)
  {
    if |bars| < 1 { return Ok(Outcome(starting, [], [])); }
    var first := if skipFirst then 1 else 0;
    var b, curve := Books(starting, [], None), [starting];
    StartsCharted(bars, first, starting, feeRate, slip);
    hide IsCharted, TradesTargets, Charts, Untradable;
    for i := first to |bars|
      invariant IsCharted(b, curve, bars, first, starting, feeRate, slip, i)
    {
      var next := NextBar(bars, i, first, starting, feeRate, slip, b, curve);
      if next.Err? {
        assert Untradable(bars[i], slip);
        return Err(next.error);
      }
      b, curve := next.value.0, next.value.1;
    }
    r := Finish(bars, first, starting, feeRate, slip, b, curve);
    assert r.Err? ==> bars[|bars| - 1] in bars;
  }

  /** What the loop keeps: the books follow the targets, and the curve charts them. */
  ghost predicate IsCharted(b: Books, curve: seq<real>, bars: seq<Bar>, first: nat, starting: real, feeRate: real, slip: real, i: nat) {
    && IsGoing(b, bars, first, starting, feeRate, slip, i) && Charted(curve, b, bars, first, starting, feeRate, i)
    && CurveOk(starting, curve, b.equity, b.trades == [] && b.holding.None?, b.holding.None?)
  }

  lemma StartsCharted(bars: seq<Bar>, first: nat, starting: real, feeRate: real, slip: real)
    requires first <= |bars|
    ensures IsCharted(Books(starting, [], None), [starting], bars, first, starting, feeRate, slip, first)
  {
  }

  method NextBar(bars: seq<Bar>, i: nat, first: nat, starting: real, feeRate: real, slip: real, b: Books, curve: seq<real>)
    returns (r: Result<(Books, seq<real>), TradeError>)
    requires first <= i < |bars| && IsCharted(b, curve, bars, first, starting, feeRate, slip, i)
    ensures r.Ok? ==> IsCharted(r.value.0, r.value.1, bars, first, starting, feeRate, slip, i + 1)
    ensures r.Err? ==> Untradable(bars[i], slip)
  {
    hide IsGoing, Charted, MarkedHolding, SameMarks;
    var u :- TradeBar(bars, i, first, starting, feeRate, slip, b);
    var marked := Mark(u.equity, u.holding, bars[i].close);
    CurveGrows(starting, curve, b.equity, b.trades == [] && b.holding.None?, b.holding.None?, marked, u.equity,
               u.trades == [] && u.holding.None?, u.holding.None?);
    ChartGrows(b, u, curve, marked, bars, first, starting, feeRate, slip, i);
    return Ok((u, curve + [marked]));
  }

  lemma ChartGrows(before: Books, b: Books, curve: seq<real>, marked: real, bars: seq<Bar>, first: nat, starting: real, feeRate: real, slip: real, i: nat)
    requires first <= i < |bars| && IsGoing(b, bars, first, starting, feeRate, slip, i + 1)
    requires Charted(curve, before, bars, first, starting, feeRate, i) && SameMarks(before, b, bars, first, starting, feeRate, i)
    requires if b.holding.None? then marked == b.equity
             else marked == MarkedHolding(b.equity, b.holding.value, bars[i].close)
    ensures Charted(curve + [marked], b, bars, first, starting, feeRate, i + 1)
  {
    if b.holding.None? { MarkAfter(b.trades, bars, i, starting, feeRate); }
    forall j | first <= j < i + 1 ensures (curve + [marked])[j - first + 1] == MarkOf(b, bars, j, starting, feeRate) {
      if j < i { assert curve[j - first + 1] == MarkOf(before, bars, j, starting, feeRate); }
    }
  }

  lemma EndsFlat(b: Books, curve: seq<real>, bars: seq<Bar>, first: nat, starting: real, feeRate: real, slip: real)
    requires bars != [] && IsGoing(b, bars, first, starting, feeRate, slip, |bars|) && Charted(curve, b, bars, first, starting, feeRate, |bars|)
    ensures b.holding.None? ==>
      TradesTargets(b.trades, bars, first, starting, feeRate, slip) && Charts(curve, b.trades, bars, first, starting, feeRate)
  {
    hide MarkAt, AllSettled, IsHeld, Spans;
    LastExit(b.trades, starting, feeRate, bars, first, slip, |bars|);
    if b.holding.None? {
      assert curve[|bars| - first + 1..] == [];
      forall i | first <= i < |bars| ensures curve[i - first + 1] == MarkAt(b.trades, bars, i, starting, feeRate) {
        assert curve[i - first + 1] == MarkOf(b, bars, i, starting, feeRate);
      }
    }
  }

  lemma EndsHeld(b: Books, t: Trade, equity: real, curve: seq<real>, bars: seq<Bar>, first: nat, starting: real, feeRate: real, slip: real)
    requires bars != [] && IsGoing(b, bars, first, starting, feeRate, slip, |bars|) && Charted(curve, b, bars, first, starting, feeRate, |bars|)
    requires b.holding.Some? && Closes(t, b.holding.value, |bars|, bars[|bars| - 1].close - slip)
    requires AllSettled(b.trades + [t], starting, feeRate) && equity == starting + Sum(Pnls(b.trades + [t]))
    ensures TradesTargets(b.trades + [t], bars, first, starting, feeRate, slip)
    ensures Charts(curve + [equity], b.trades + [t], bars, first, starting, feeRate)
  {
    EndFollows(b, t, bars, first, starting, feeRate, slip);
    hide MarkAt, AllSettled, Following, TradesTargets, Charted, Charts;
    ChartEnds(b, t, equity, curve, bars, first, starting, feeRate);
  }

  lemma ChartEnds(b: Books, t: Trade, equity: real, curve: seq<real>, bars: seq<Bar>, first: nat, starting: real, feeRate: real)
    requires bars != [] && Charted(curve, b, bars, first, starting, feeRate, |bars|) && t.exitBar == |bars|
    requires b.holding.Some? && b.equity == starting + Sum(Pnls(b.trades)) && Entered(b.holding.value, b.equity, feeRate)
    requires t.entryBar == b.holding.value.bar && t.entryPrice == b.holding.value.price && t.units == b.holding.value.units
    requires equity == starting + Sum(Pnls(b.trades + [t]))
    ensures Charts(curve + [equity], b.trades + [t], bars, first, starting, feeRate)
  {
    hide MarkAt, MarkOf, Entered, Pnls, Sum;
    forall j | first <= j < |bars| ensures (curve + [equity])[j - first + 1] == MarkAt(b.trades + [t], bars, j, starting, feeRate) {
      MarkOneMore(b, t, bars, j, starting, feeRate);
      assert curve[j - first + 1] == MarkOf(b, bars, j, starting, feeRate);
    }
  }

  /** What a finished run reports, once its trades follow the targets and its curve charts them. */
  ghost predicate IsOutcome(o: Outcome, bars: seq<Bar>, first: nat, starting: real, feeRate: real, slip: real) {
    && o.ending == starting + Sum(Pnls(o.trades)) && TradesTargets(o.trades, bars, first, starting, feeRate, slip)
    && Charts(o.curve, o.trades, bars, first, starting, feeRate)
    && (starting > 0.0 ==> Evidence.Sound(WindowOf(starting, o)))
  }

  lemma FlatOutcome(b: Books, curve: seq<real>, bars: seq<Bar>, first: nat, starting: real, feeRate: real, slip: real)
    requires bars != [] && IsCharted(b, curve, bars, first, starting, feeRate, slip, |bars|) && b.holding.None?
    ensures IsOutcome(Outcome(b.equity, b.trades, curve), bars, first, starting, feeRate, slip)
  {
    EndsFlat(b, curve, bars, first, starting, feeRate, slip);
    hide Following, MarkAt, TradesTargets, Charts, Charted, AllSettled;
    SoundOutcome(starting, feeRate, b.equity, b.trades, curve, |bars|);
  }

  lemma SettledOutcome(b: Books, u: Books, curve: seq<real>, bars: seq<Bar>, first: nat, starting: real, feeRate: real, slip: real)
    requires bars != [] && IsCharted(b, curve, bars, first, starting, feeRate, slip, |bars|) && b.holding.Some?
    requires BooksOk(starting, feeRate, u.equity, u.trades, None, |bars| + 1) && |u.trades| == |b.trades| + 1 && u.trades[..|b.trades|] == b.trades
    requires Closes(u.trades[|b.trades|], b.holding.value, |bars|, bars[|bars| - 1].close - slip)
    ensures IsOutcome(Outcome(u.equity, u.trades, curve + [u.equity]), bars, first, starting, feeRate, slip)
  {
    hide Following, MarkAt, TradesTargets, Charts, Charted, AllSettled, Entered, Closes, Evidence.Sound;
    var t := u.trades[|b.trades|];
    assert u.trades == b.trades + [t];
    EndsHeld(b, t, u.equity, curve, bars, first, starting, feeRate, slip);
    CurveGrows(starting, curve, b.equity, false, false, u.equity, u.equity, false, true);
    SoundOutcome(starting, feeRate, u.equity, u.trades, curve + [u.equity], |bars| + 1);
  }

  /** The end of data: an open position is settled at the last close. */
  method Finish(bars: seq<Bar>, first: nat, starting: real, feeRate: real, slip: real, b: Books, curve: seq<real>) returns (r: Result<Outcome, TradeError>)
    requires bars != [] && IsCharted(b, curve, bars, first, starting, feeRate, slip, |bars|)
    ensures r.Ok? ==> IsOutcome(r.value, bars, first, starting, feeRate, slip)
    ensures r.Err? ==> Untradable(bars[|bars| - 1], slip)
  {
    hide Following, MarkAt, Charted, AllSettled, Entered, Closes, IsOutcome, CurveOk;
    if b.holding.None? {
      FlatOutcome(b, curve, bars, first, starting, feeRate, slip);
      return Ok(Outcome(b.equity, b.trades, curve));
    }
    var settled :- SettleTrade(starting, feeRate, b, |bars|, bars[|bars| - 1].close - slip);
    SettledOutcome(b, settled, curve, bars, first, starting, feeRate, slip);
    return Ok(Outcome(settled.equity, settled.trades, curve + [settled.equity]));
  }
}
