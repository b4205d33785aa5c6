/** The evidence a ladder run publishes about a candidate, and the validator that reads it back.

  Metrics are quoted as integer numbers of quanta; the producer's arithmetic is exact before quoting.
 */
module Evidence {
  import opened Basics
  import opened Robustness
  import opened WinCount

  const TOP_N := 5

  /** Fee in basis points per side and slippage ticks, in the one order the validator takes. */
  const GRID: seq<(int, int)> := [(0, 0), (0, 1), (0, 2), (5, 0), (5, 1), (5, 2), (10, 0), (10, 1), (10, 2)]

  const DEFAULT_CELL := 3

  /** What one window's backtest reports. */
  datatype Window = Window(starting: real, ending: real, pnls: seq<real>, curve: seq<real>)

  datatype Cell = Cell(fee: int, ticks: int, windows: seq<Window>)

  datatype Summary = Summary(starting: real, ending: real, pnls: seq<real>, drawdown: real)

  datatype QuotedCell = QuotedCell(fee: int, ticks: int, totalReturn: int)

  datatype CandidateRobustness = CandidateRobustness(
    totalReturn: int,
    maxDrawdown: int,
    tradeCount: nat,
    winRate: int,
    topN: nat,
    concentration: Option<int>,
    stress: seq<QuotedCell>,
    survives: bool)

  // ---- quoting ----

  function RoundHalfEven(y: real): int {
    var floor := y.Floor;
    var rest := y - floor as real;
    if rest < 0.5 || (rest == 0.5 && floor % 2 == 0) then floor else floor + 1
  }

  function Quote(x: real): int {
    RoundHalfEven(x * 100000000.0)
  }

  lemma RoundMonotone(x: real, y: real)
    requires x <= y
    ensures RoundHalfEven(x) <= RoundHalfEven(y)
  {
  }

  lemma QuoteMonotone(x: real, y: real)
    requires x <= y
    ensures Quote(x) <= Quote(y)
  {
    RoundMonotone(x * 100000000.0, y * 100000000.0);
  }

  lemma RoundFraction(a: int, b: int, y: real)
    requires b > 0 && y * b as real == a as real
    ensures RoundHalfEven(y) == HalfEven(a, b)
  {
    var floor, rest := a / b, a % b;
    assert a == floor * b + rest;
    var d := y - floor as real;
    assert d * b as real == rest as real by { assert (floor * b) as real == floor as real * b as real; }
    Between(d, b as real, rest as real);
    assert y.Floor == floor;
    assert 2.0 * (d * b as real) == (2.0 * d) * b as real;
    Halves(d, b as real, rest as real);
  }

  lemma Between(d: real, b: real, rest: real)
    requires b > 0.0 && d * b == rest && 0.0 <= rest < b
    ensures 0.0 <= d < 1.0
  {
    ProductSign(d, b);
    ProductSign(d - 1.0, b);
    assert (d - 1.0) * b == d * b - b;
  }

  lemma ProductSign(d: real, b: real)
    requires b > 0.0
    ensures (d < 0.0 ==> d * b < 0.0) && (d >= 0.0 ==> d * b >= 0.0)
  {
  }

  lemma Halves(d: real, b: real, rest: real)
    requires b > 0.0 && d * b == rest
    ensures (d < 0.5 <==> 2.0 * rest < b) && (d == 0.5 <==> 2.0 * rest == b)
  {
    assert (d - 0.5) * b == rest - 0.5 * b;
    if d < 0.5 { assert (d - 0.5) * b < 0.0; }
    if d > 0.5 { assert (d - 0.5) * b > 0.0; }
  }

  /** Quoting a rate of w in n gives the rate the validator computes. */
  lemma QuotedFraction(w: nat, n: nat)
    requires n > 0
    ensures Quote(w as real / n as real) == ExactRate(w, n)
  {
    var y := w as real / n as real * 100000000.0;
    assert y * n as real == (w * QUANTA) as real by { Scaled(w as real, n as real); }
    RoundFraction(w * QUANTA, n, y);
  }

  lemma Scaled(w: real, n: real)
    requires n != 0.0
    ensures w / n * 100000000.0 * n == w * 100000000.0
  {
    assert w / n * n == w;
  }

  // ---- the producer ----

  function SumStarting(windows: seq<Window>): real {
    if windows == [] then 0.0 else SumStarting(windows[..|windows| - 1]) + windows[|windows| - 1].starting
  }

  function SumEnding(windows: seq<Window>): real {
    if windows == [] then 0.0 else SumEnding(windows[..|windows| - 1]) + windows[|windows| - 1].ending
  }

  function AllPnls(windows: seq<Window>): seq<real> {
    if windows == [] then [] else AllPnls(windows[..|windows| - 1]) + windows[|windows| - 1].pnls
  }

  function DeepestDrawdown(windows: seq<Window>): real
    requires windows != []
  {
    var last := Drawdown(windows[|windows| - 1].curve);
    if |windows| == 1 then last else Lesser(DeepestDrawdown(windows[..|windows| - 1]), last)
  }

  function Summarize(windows: seq<Window>): Summary {
    if windows == [] then Summary(10000.0, 10000.0, [], 0.0)
    else Summary(SumStarting(windows), SumEnding(windows), AllPnls(windows), DeepestDrawdown(windows))
  }

  function TotalReturn(s: Summary): real {
    if s.starting == 0.0 then 0.0 else s.ending / s.starting - 1.0
  }

  function WinRate(pnls: seq<real>): real {
    if pnls == [] then 0.0 else |Winners(pnls)| as real / |pnls| as real
  }

  function QuotedStress(cells: seq<Cell>): seq<QuotedCell> {
    seq(|cells|, i requires 0 <= i < |cells| => QuotedCell(cells[i].fee, cells[i].ticks, Quote(TotalReturn(Summarize(cells[i].windows)))))
  }

  predicate Survives(tradeCount: nat, stress: seq<QuotedCell>) {
    tradeCount > 0 && forall i :: 0 <= i < |stress| ==> stress[i].totalReturn >= 0
  }

  predicate InGridOrder(cells: seq<Cell>) {
    |cells| == |GRID| && forall i :: 0 <= i < |cells| ==> (cells[i].fee, cells[i].ticks) == GRID[i]
  }

  function Produce(cells: seq<Cell>): CandidateRobustness
    requires InGridOrder(cells)
  {
    var s := Summarize(cells[DEFAULT_CELL].windows);
    var totalReturn := Quote(TotalReturn(s));
    var share := TopShare(s.pnls, TOP_N);
    CandidateRobustness(
      totalReturn, Quote(s.drawdown), |s.pnls|, Quote(WinRate(s.pnls)), TOP_N,
      if totalReturn > 0 && share.Some? then Some(Quote(share.value)) else None,
      QuotedStress(cells), Survives(|s.pnls|, QuotedStress(cells)))
  }

  // ---- the validator ----

  predicate ConcentrationAccepted(r: CandidateRobustness) {
    r.concentration.Some? ==>
      && (r.topN == 0 ==> r.concentration.value == 0)
      && var wins := Scan(r.winRate, r.tradeCount, 0, r.tradeCount);
         && wins.Some? && wins.value.1 > 0
         && r.concentration.value >= ExactRate(Min(r.topN, wins.value.1), wins.value.1)
         && (wins.value.0 == r.tradeCount ==> r.concentration.value <= QUANTA)
  }

  predicate WinCountAccepted(r: CandidateRobustness) {
    && Scan(r.winRate, r.tradeCount, 0, r.tradeCount).Some?
    && (r.tradeCount > 0 && r.totalReturn > 0 ==> Scan(r.winRate, r.tradeCount, 1, r.tradeCount).Some?)
    && (r.tradeCount > 0 && r.totalReturn < 0 ==> Scan(r.winRate, r.tradeCount, 0, r.tradeCount - 1).Some?)
  }

  predicate StressAccepted(r: CandidateRobustness) {
    && |r.stress| == |GRID| && (forall i :: 0 <= i < |GRID| ==> (r.stress[i].fee, r.stress[i].ticks) == GRID[i])
    && r.stress[DEFAULT_CELL].totalReturn == r.totalReturn
    && r.survives == Survives(r.tradeCount, r.stress)
  }

  predicate Accepts(r: CandidateRobustness) {
    && r.maxDrawdown <= 0 && 0 <= r.winRate <= QUANTA
    && (r.concentration.Some? ==> r.concentration.value >= 0)
    && (r.survives ==> r.tradeCount > 0 && r.totalReturn >= 0)
    && (r.tradeCount == 0 ==> r.totalReturn == 0 && r.maxDrawdown == 0 && r.winRate == 0 && r.concentration.None?)
    && WinCountAccepted(r)
    && (r.totalReturn < 0 ==> r.maxDrawdown <= r.totalReturn)
    && (r.totalReturn > 0 <==> r.concentration.Some?)
    && ConcentrationAccepted(r)
    && StressAccepted(r)
  }

  // ---- what a window's result satisfies ----

  /** The accounting every backtest keeps: see BacktestEvidence and LongOnly. */
  predicate Sound(w: Window) {
    && w.starting > 0.0 && w.ending == w.starting + Sum(w.pnls)
    && (w.curve == [] ==> w.pnls == [])
    && (w.curve != [] ==> w.curve[0] == w.starting && w.curve[|w.curve| - 1] == w.ending)
    && (w.pnls == [] ==> forall i :: 0 <= i < |w.curve| ==> w.curve[i] == w.starting)
  }

  predicate AllSound(windows: seq<Window>) {
    forall w :: w in windows ==> Sound(w)
  }

  predicate NeverBelowZero(windows: seq<Window>) {
    forall w :: w in windows ==> w.ending >= 0.0
  }

  // ---- the summary ----

  lemma {:induction false} SummaryBalances(windows: seq<Window>)
    requires AllSound(windows)
    ensures SumEnding(windows) == SumStarting(windows) + Sum(AllPnls(windows))
    ensures windows != [] ==> SumStarting(windows) > 0.0
  {
    if windows != [] {
      var init, last := windows[..|windows| - 1], windows[|windows| - 1];
      assert last in windows;
      SummaryBalances(init);
      SumConcat(AllPnls(init), last.pnls);
    }
  }

  lemma {:induction false} DrawdownsNotPositive(windows: seq<Window>)
    requires windows != []
    ensures DeepestDrawdown(windows) <= 0.0
  {
    DrawdownNotPositive(windows[|windows| - 1].curve);
    if |windows| > 1 { DrawdownsNotPositive(windows[..|windows| - 1]); }
  }

  function Times(a: real, b: real): real { a * b }

  /** If no window fell as deep as the ratio, none lost as much, so neither did all together. */
  lemma {:induction false} ShallowMeansSmallLoss(windows: seq<Window>, ratio: real)
    requires windows != [] && AllSound(windows) && NeverBelowZero(windows) && ratio < 1.0
    requires DeepestDrawdown(windows) > ratio - 1.0
    ensures SumEnding(windows) > Times(ratio, SumStarting(windows))
  {
    var init, last := windows[..|windows| - 1], windows[|windows| - 1];
    assert last in windows;
    OneWindow(last.starting, last.ending, last.pnls, last.curve, ratio);
    Distributes(ratio, SumStarting(init), last.starting);
    if |windows| > 1 {
      ShallowMeansSmallLoss(init, ratio);
    } else {
      assert init == [] && Times(ratio, 0.0) == 0.0;
    }
  }

  lemma Distributes(c: real, a: real, b: real)
    ensures Times(c, a + b) == Times(c, a) + Times(c, b)
  {
  }

  lemma OneWindow(starting: real, ending: real, pnls: seq<real>, curve: seq<real>, ratio: real)
    requires Sound(Window(starting, ending, pnls, curve)) && ending >= 0.0 && ratio < 1.0 && Drawdown(curve) > ratio - 1.0
    ensures ending > Times(ratio, starting)
  {
    if curve == [] {
      assert pnls == [] && Sum(pnls) == 0.0;
      Smaller(ratio, starting);
    } else {
      DrawdownCoversLoss(curve);
      Above(ending, starting, ratio);
    }
  }

  lemma Smaller(ratio: real, x: real)
    requires ratio < 1.0 && x > 0.0
    ensures Times(ratio, x) < x
  {
    assert (1.0 - ratio) * x > 0.0;
  }

  lemma Above(end: real, start: real, ratio: real)
    requires start > 0.0 && end / start > ratio
    ensures end > Times(ratio, start)
  {
    assert end / start * start == end;
    assert (end / start - ratio) * start > 0.0;
  }

  /** The aggregate drawdown is at least as deep as an aggregate loss. */
  lemma DrawdownCoversTotalLoss(windows: seq<Window>)
    requires windows != [] && AllSound(windows) && NeverBelowZero(windows)
    requires TotalReturn(Summarize(windows)) < 0.0
    ensures Summarize(windows).drawdown <= TotalReturn(Summarize(windows))
  {
    SummaryBalances(windows);
    var start, end := SumStarting(windows), SumEnding(windows);
    RatioRange(end, start);
    if DeepestDrawdown(windows) > end / start - 1.0 { ShallowMeansSmallLoss(windows, end / start); }
  }

  lemma RatioRange(end: real, start: real)
    requires start > 0.0
    ensures Times(end / start, start) == end
  {
  }
}
