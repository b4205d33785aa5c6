/** What the validator's checks amount to: exactly the records that some list of trades could have made. */
module EvidenceMeaning {
  import opened Basics
  import opened Robustness
  import opened WinCount
  import opened Evidence
  import opened EvidenceAccepted

  /** So many winners of the record's trades are quoted as its win rate. */
  predicate IsWinCount(w: int, r: CandidateRobustness) {
    0 <= w <= r.tradeCount && ExactRate(w, r.tradeCount) == r.winRate
  }

  /** A win count the sign of the return allows: a gain needs a winner, a loss a trade that is not one. */
  predicate Explains(w: int, r: CandidateRobustness) {
    && IsWinCount(w, r)
    && (r.tradeCount > 0 && r.totalReturn > 0 ==> w >= 1)
    && (r.tradeCount > 0 && r.totalReturn < 0 ==> w < r.tradeCount)
  }

  /** The top trades' share is at least that of as many among w equal winners. */
  predicate Covers(share: int, w: int, r: CandidateRobustness) {
    w >= 1 && share >= ExactRate(Min(r.topN, w), w)
  }

  /** A share of the net result is claimed exactly for a gain: it covers the top trades for some win count,
      and does not exceed the whole when every trade must have won. */
  ghost predicate IsShare(r: CandidateRobustness) {
    && (r.concentration.Some? <==> r.totalReturn > 0)
    && (r.concentration.Some? ==>
          var share := r.concentration.value;
          && share >= 0 && (r.topN == 0 ==> share == 0)
          && (exists w :: IsWinCount(w, r) && Covers(share, w, r))
          && ((forall w :: IsWinCount(w, r) ==> w == r.tradeCount) ==> share <= 100_000_000))
  }

  /** All nine cells, by fee of 0, 5 and 10 and then by 0, 1 and 2 ticks; the record's return is that of a fee of 5
      without slippage, and it survives exactly when there are trades and no cell loses. */
  predicate IsGrid(r: CandidateRobustness) {
    && |r.stress| == 9 && (forall i :: 0 <= i < 9 ==> r.stress[i].fee == 5 * (i / 3) && r.stress[i].ticks == i % 3)
    && r.stress[3].totalReturn == r.totalReturn
    && (r.survives <==> r.tradeCount > 0 && forall i :: 0 <= i < 9 ==> r.stress[i].totalReturn >= 0)
  }

  ghost predicate IsCredible(r: CandidateRobustness) {
    && 0 <= r.winRate <= 100_000_000 && r.maxDrawdown <= 0
    && (r.totalReturn < 0 ==> r.maxDrawdown <= r.totalReturn)
    && (r.tradeCount == 0 ==> r.totalReturn == 0 && r.maxDrawdown == 0 && r.winRate == 0)
    && (exists w :: Explains(w, r))
    && IsShare(r) && IsGrid(r)
  }

  lemma WinCountMeans(r: CandidateRobustness)
    ensures WinCountAccepted(r) <==> exists w :: Explains(w, r)
  {
    var q: int, n: nat := r.winRate, r.tradeCount;
    var all, some, few := Scan(q, n, 0, n), Scan(q, n, 1, n), Scan(q, n, 0, r.tradeCount - 1);
    if WinCountAccepted(r) {
      var w := if n > 0 && r.totalReturn > 0 then some.value.0 else if n > 0 && r.totalReturn < 0 then few.value.0 else all.value.0;
      assert Explains(w, r);
    }
    if w :| Explains(w, r) {
      assert IsCompatible(w, q, n, 0, n);
      assert n > 0 && r.totalReturn > 0 ==> IsCompatible(w, q, n, 1, n);
      assert n > 0 && r.totalReturn < 0 ==> IsCompatible(w, q, n, 0, n - 1);
    }
  }

  /** The coverage bound only falls with more winners. */
  lemma CoverageQuoted(topN: nat, w: nat, v: nat)
    requires 0 < w <= v
    ensures ExactRate(Min(topN, v), v) <= ExactRate(Min(topN, w), w)
  {
    CoverageFalls(topN, w, v);
    QuotedFraction(Min(topN, w), w);
    QuotedFraction(Min(topN, v), v);
    QuoteMonotone(Min(topN, v) as real / v as real, Min(topN, w) as real / w as real);
  }

  lemma ShareMeans(r: CandidateRobustness)
    requires Scan(r.winRate, r.tradeCount, 0, r.tradeCount).Some?
    ensures IsShare(r) <==>
      (r.totalReturn > 0 <==> r.concentration.Some?) && ConcentrationAccepted(r) && (r.concentration.Some? ==> r.concentration.value >= 0)
  {
    var n, wins := r.tradeCount, Scan(r.winRate, r.tradeCount, 0, r.tradeCount).value;
    assert forall w :: IsWinCount(w, r) <==> 0 <= w <= n && IsCompatible(w, r.winRate, n, 0, n);
    assert IsWinCount(wins.0, r) && IsWinCount(wins.1, r);
    assert (forall w :: IsWinCount(w, r) ==> w == n) <==> wins.0 == n;
    if r.concentration.Some? {
      var share := r.concentration.value;
      if w :| IsWinCount(w, r) && Covers(share, w, r) { CoverageQuoted(r.topN, w, wins.1); }
      if wins.1 > 0 && share >= ExactRate(Min(r.topN, wins.1), wins.1) { assert IsWinCount(wins.1, r) && Covers(share, wins.1, r); }
    }
  }

  lemma GridMeans(r: CandidateRobustness)
    ensures IsGrid(r) <==> StressAccepted(r)
  {
    assert forall i :: 0 <= i < 9 ==> GRID[i] == (5 * (i / 3), i % 3);
  }

  /** A record is accepted exactly when it is credible: every other one is refused. */
  lemma AcceptsExactly(r: CandidateRobustness)
    ensures Accepts(r) <==> IsCredible(r)
  {
    hide WinCountAccepted, ConcentrationAccepted, StressAccepted, IsShare, IsGrid, Explains, Scan;
    WinCountMeans(r);
    GridMeans(r);
    if exists w :: Explains(w, r) {
      CountIsScanned(r);
      ShareMeans(r);
    }
    GridSurvives(r);
    GainIsClaimed(r);
  }

  lemma CountIsScanned(r: CandidateRobustness)
    requires exists w :: Explains(w, r)
    ensures Scan(r.winRate, r.tradeCount, 0, r.tradeCount).Some?
  {
    var w :| Explains(w, r);
    assert IsCompatible(w, r.winRate, r.tradeCount, 0, r.tradeCount);
  }

  lemma GridSurvives(r: CandidateRobustness)
    ensures IsGrid(r) && r.survives ==> r.tradeCount > 0 && r.totalReturn >= 0
  {
  }

  lemma GainIsClaimed(r: CandidateRobustness)
    ensures IsShare(r) ==> (r.concentration.Some? <==> r.totalReturn > 0)
  {
  }

  // ---- what a produced record says ----

  /** The nearest number of quanta. */
  predicate IsQuoteOf(q: int, x: real) {
    -1.0 <= 2.0 * (x * 100_000_000.0 - q as real) <= 1.0
  }

  lemma QuoteIsNearest(x: real)
    ensures IsQuoteOf(Quote(x), x)
  {
  }

  /** The drawdown of several windows is that of the deepest of them. */
  lemma {:induction false} DeepestMeans(windows: seq<Window>)
    requires windows != []
    ensures forall w :: w in windows ==> DeepestDrawdown(windows) <= Drawdown(w.curve)
    ensures exists w :: w in windows && DeepestDrawdown(windows) == Drawdown(w.curve)
  {
    var init, last := windows[..|windows| - 1], windows[|windows| - 1];
    assert windows == init + [last];
    if |windows| > 1 {
      DeepestMeans(init);
      var w :| w in init && DeepestDrawdown(init) == Drawdown(w.curve);
      assert w in windows && last in windows;
    } else {
      assert last in windows;
    }
  }

  /** The metrics of a record are those of all trades and windows of its default cell. */
  lemma ProducedMeans(cells: seq<Cell>)
    requires InGridOrder(cells) && cells[3].windows != [] && AllSound(cells[3].windows)
    ensures var windows, r := cells[3].windows, Produce(cells);
      var pnls := AllPnls(windows);
      && r.tradeCount == |pnls| && IsWinCount(|Winners(pnls)|, r)
      && (exists x :: IsQuoteOf(r.totalReturn, x) && SumEnding(windows) == SumStarting(windows) + Times(x, SumStarting(windows)))
      && IsQuoteOf(r.maxDrawdown, DeepestDrawdown(windows))
      && (r.concentration.Some? ==> TopShare(pnls, 5).Some? && IsQuoteOf(r.concentration.value, TopShare(pnls, 5).value))
      && r.topN == 5
      && forall i :: 0 <= i < 9 ==> (r.stress[i].fee, r.stress[i].ticks) == (cells[i].fee, cells[i].ticks)
  {
    var windows, r := cells[3].windows, Produce(cells);
    var pnls := AllPnls(windows);
    SummaryBalances(windows);
    WinRateIsQuoted(pnls);
    var x := TotalReturn(Summarize(windows));
    QuoteIsNearest(x);
    ReturnTimes(SumEnding(windows), SumStarting(windows));
    QuoteIsNearest(DeepestDrawdown(windows));
    if TopShare(pnls, 5).Some? { QuoteIsNearest(TopShare(pnls, 5).value); }
    hide Quote, TopShare, Winners, DeepestDrawdown, AllPnls, SumEnding, SumStarting, IsQuoteOf;
  }

  lemma ReturnTimes(end: real, start: real)
    requires start > 0.0
    ensures end == start + Times(end / start - 1.0, start)
  {
    assert end / start * start == end;
  }
}
