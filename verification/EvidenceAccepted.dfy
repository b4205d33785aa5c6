/** Every evidence record a ladder run produces passes the validator, as long as no window of the default
  cell ends below zero. */
module EvidenceAccepted {
  import opened Basics
  import opened Robustness
  import opened WinCount
  import opened Evidence

  lemma QuoteZeroAndOne()
    ensures Quote(0.0) == 0 && Quote(1.0) == QUANTA
  {
  }

  lemma QuoteSign(x: real)
    ensures (Quote(x) > 0 ==> x > 0.0) && (Quote(x) < 0 ==> x < 0.0) && (x >= 0.0 ==> Quote(x) >= 0) && (x <= 0.0 ==> Quote(x) <= 0)
  {
    QuoteZeroAndOne();
    if x <= 0.0 { QuoteMonotone(x, 0.0); }
    if x >= 0.0 { QuoteMonotone(0.0, x); }
  }

  /** The return has the sign of the net result. */
  lemma ReturnSign(windows: seq<Window>)
    requires windows != [] && AllSound(windows)
    ensures var s := Summarize(windows);
      && (TotalReturn(s) > 0.0 ==> Sum(s.pnls) > 0.0) && (TotalReturn(s) < 0.0 ==> Sum(s.pnls) < 0.0)
      && (Sum(s.pnls) == 0.0 ==> TotalReturn(s) == 0.0)
  {
    SummaryBalances(windows);
    QuotientSign(SumEnding(windows), SumStarting(windows));
  }

  lemma QuotientSign(end: real, start: real)
    requires start > 0.0
    ensures (end / start - 1.0 > 0.0 ==> end > start) && (end / start - 1.0 < 0.0 ==> end < start) && (end == start ==> end / start == 1.0)
  {
    assert (end / start - 1.0) * start == end - start;
  }

  // ---- win counts ----

  lemma RateInRange(w: nat, n: nat)
    requires 0 < n && w <= n
    ensures 0 <= ExactRate(w, n) <= QUANTA
  {
    RateMonotone(0, w, n);
    RateMonotone(w, n, n);
    NearestIsUnique(0, n, 0);
    NearestIsUnique(n * QUANTA, n, QUANTA);
  }

  /** The producer's own win count is compatible with its quoted rate, under whatever limits it meets. */
  lemma OwnCountIsFound(w: nat, n: nat, least: int, most: int)
    requires w <= n && least <= w <= most
    ensures var r := Scan(ExactRate(w, n), n, least, most); r.Some? && r.value.0 <= w <= r.value.1 <= n
  {
    assert IsCompatible(w, ExactRate(w, n), n, least, most);
  }

  lemma WinRateIsQuoted(pnls: seq<real>)
    ensures |Winners(pnls)| <= |pnls| && Quote(WinRate(pnls)) == ExactRate(|Winners(pnls)|, |pnls|)
    ensures 0 <= Quote(WinRate(pnls)) <= QUANTA
  {
    WinnersCoverNet(pnls);
    QuoteZeroAndOne();
    if pnls != [] {
      QuotedFraction(|Winners(pnls)|, |pnls|);
      RateInRange(|Winners(pnls)|, |pnls|);
    }
  }

  /** A gain needs a winner, and a loss needs a trade that is not. */
  lemma SignNeedsTrades(pnls: seq<real>)
    ensures Sum(pnls) > 0.0 ==> |Winners(pnls)| >= 1
    ensures Sum(pnls) < 0.0 ==> |Winners(pnls)| < |pnls|
  {
    WinnersCoverNet(pnls);
    if |Winners(pnls)| == |pnls| {
      forall i | 0 <= i < |pnls| ensures pnls[i] > 0.0 { assert pnls[i] in Winners(pnls); }
      NonNegativeSum(pnls);
    }
  }

  lemma WinCountsAccepted(pnls: seq<real>, totalReturn: int, r: CandidateRobustness)
    requires r.winRate == Quote(WinRate(pnls)) && r.tradeCount == |pnls| && r.totalReturn == totalReturn
    requires (totalReturn > 0 ==> Sum(pnls) > 0.0) && (totalReturn < 0 ==> Sum(pnls) < 0.0)
    ensures WinCountAccepted(r)
  {
    WinRateIsQuoted(pnls);
    SignNeedsTrades(pnls);
    var w, n := |Winners(pnls)|, |pnls|;
    OwnCountIsFound(w, n, 0, n);
    if totalReturn > 0 { OwnCountIsFound(w, n, 1, n); }
    if totalReturn < 0 { OwnCountIsFound(w, n, 0, n - 1); }
  }

  // ---- concentration ----

  /** More winners can only lower the least share of the top n. */
  lemma CoverageFalls(n: nat, w: nat, v: nat)
    requires 0 < w <= v
    ensures Min(n, v) as real / v as real <= Min(n, w) as real / w as real
  {
    FractionOrder(Min(n, v), v, Min(n, w), w) by { CrossProduct(n, w, v); }
  }

  lemma CrossProduct(n: nat, w: nat, v: nat)
    requires w <= v
    ensures Min(n, v) * w <= v * Min(n, w)
  {
    if n <= w {
      MulLe(w, v, n);
      assert n * w == w * n;
    } else {
      MulLe(Min(n, v), v, w);
    }
  }

  lemma FractionOrder(a: nat, b: nat, c: nat, d: nat)
    requires b > 0 && d > 0 && a * d <= b * c
    ensures a as real / b as real <= c as real / d as real
  {
    assert a as real * d as real == (a * d) as real && b as real * c as real == (b * c) as real;
    FractionLe(a as real, b as real, c as real, d as real);
  }

  lemma ShareIsAccepted(pnls: seq<real>, r: CandidateRobustness)
    requires Sum(pnls) > 0.0 && r.concentration == Some(Quote(TopShare(pnls, TOP_N).value))
    requires r.topN == TOP_N && r.winRate == Quote(WinRate(pnls)) && r.tradeCount == |pnls|
    ensures ConcentrationAccepted(r) && r.concentration.value >= 0
  {
    WinRateIsQuoted(pnls);
    ShareIsAtLeastItsPart(pnls, TOP_N);
    var w, n := |Winners(pnls)|, |pnls|;
    OwnCountIsFound(w, n, 0, n);
    var wins := Scan(r.winRate, n, 0, n).value;
    CoverageFalls(TOP_N, w, wins.1);
    QuotedFraction(Min(TOP_N, wins.1), wins.1);
    QuoteMonotone(Min(TOP_N, wins.1) as real / wins.1 as real, TopShare(pnls, TOP_N).value);
    RateInRange(Min(TOP_N, wins.1), wins.1);
    if wins.0 == n {
      AllWinningShare(pnls, TOP_N);
      QuoteZeroAndOne();
      QuoteMonotone(TopShare(pnls, TOP_N).value, 1.0);
    }
  }

  // ---- no trades ----

  lemma {:induction false} NoTradesNoChange(windows: seq<Window>)
    requires windows != [] && AllSound(windows) && AllPnls(windows) == []
    ensures DeepestDrawdown(windows) == 0.0
  {
    var init, last := windows[..|windows| - 1], windows[|windows| - 1];
    assert last in windows;
    assert AllPnls(windows) == AllPnls(init) + last.pnls;
    assert last.pnls == [] && AllPnls(init) == [];
    FlatDrawdown(last.curve, last.starting);
    if |windows| > 1 { NoTradesNoChange(init); }
  }

  // ---- the record ----

  /** The facts about a summary that hold whatever its windows end at. */
  predicate Consistent(s: Summary) {
    && (TotalReturn(s) > 0.0 ==> Sum(s.pnls) > 0.0) && (TotalReturn(s) < 0.0 ==> Sum(s.pnls) < 0.0)
    && s.drawdown <= 0.0 && (s.pnls == [] ==> TotalReturn(s) == 0.0 && s.drawdown == 0.0)
  }

  lemma SummaryIsConsistent(windows: seq<Window>)
    requires AllSound(windows)
    ensures Consistent(Summarize(windows))
  {
    if windows != [] {
      ReturnSign(windows);
      DrawdownsNotPositive(windows);
      if Summarize(windows).pnls == [] { NoTradesNoChange(windows); }
    }
  }

  lemma QuotedReturnFollows(s: Summary)
    requires Consistent(s)
    ensures var total, deepest := Quote(TotalReturn(s)), Quote(s.drawdown);
      && (total > 0 ==> Sum(s.pnls) > 0.0) && (total < 0 ==> Sum(s.pnls) < 0.0)
      && deepest <= 0 && (s.pnls == [] ==> total == 0 && deepest == 0)
  {
    QuoteSign(TotalReturn(s));
    QuoteSign(s.drawdown);
    QuoteZeroAndOne();
  }

  lemma StressIsAccepted(cells: seq<Cell>)
    requires InGridOrder(cells)
    ensures StressAccepted(Produce(cells)) && (Produce(cells).survives ==> Produce(cells).tradeCount > 0 && Produce(cells).totalReturn >= 0)
  {
    var r := Produce(cells);
    forall i | 0 <= i < |GRID| ensures (r.stress[i].fee, r.stress[i].ticks) == GRID[i] {
      assert (cells[i].fee, cells[i].ticks) == GRID[i];
    }
    assert r.stress[DEFAULT_CELL].totalReturn == r.totalReturn;
  }

  /** Of the validator's checks only one can refuse the record of sound windows: the drawdown check. */
  lemma OnlyDrawdownCanRefuse(cells: seq<Cell>)
    requires InGridOrder(cells) && AllSound(cells[DEFAULT_CELL].windows)
    ensures var r := Produce(cells); Accepts(r) <==> r.totalReturn >= 0 || r.maxDrawdown <= r.totalReturn
  {
    var s, r := Summarize(cells[DEFAULT_CELL].windows), Produce(cells);
    SummaryIsConsistent(cells[DEFAULT_CELL].windows);
    QuotedReturnFollows(s);
    WinRateIsQuoted(s.pnls);
    WinCountsAccepted(s.pnls, r.totalReturn, r);
    StressIsAccepted(cells);
    if r.totalReturn > 0 { ShareIsAccepted(s.pnls, r); }
    if s.pnls == [] { QuoteZeroAndOne(); }
  }

  /** Whatever the nine cells hold, the record of sound default windows that never end below zero is accepted. */
  lemma EvidenceIsAccepted(cells: seq<Cell>)
    requires InGridOrder(cells)
    requires AllSound(cells[DEFAULT_CELL].windows) && NeverBelowZero(cells[DEFAULT_CELL].windows)
    ensures Accepts(Produce(cells))
  {
    var windows := cells[DEFAULT_CELL].windows;
    var s := Summarize(windows);
    OnlyDrawdownCanRefuse(cells);
    QuoteSign(TotalReturn(s));
    if windows != [] && TotalReturn(s) < 0.0 {
      DrawdownCoversTotalLoss(windows);
      QuoteMonotone(s.drawdown, TotalReturn(s));
    }
  }

  lemma SummaryOfOne(w: Window)
    ensures Summarize([w]) == Summary(w.starting, w.ending, w.pnls, Drawdown(w.curve))
  {
    var windows := [w];
    assert windows[..|windows| - 1] == [];
    assert SumStarting([]) == 0.0 && SumEnding([]) == 0.0 && AllPnls([]) == [];
    assert SumStarting(windows) == w.starting && SumEnding(windows) == w.ending;
    assert [] + w.pnls == w.pnls;
    assert AllPnls(windows) == w.pnls;
  }
}
