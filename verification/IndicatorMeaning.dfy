/** What the indicators and the regime measure, apart from how they are computed. */
module IndicatorMeaning {
  import opened Basics
  import opened Indicators
  import opened MarketContext

  // ---- averages ----

  /** Towards the value by two parts in period + 1 of the distance. */
  predicate StepsTo(next: real, previous: real, value: real, period: nat) {
    (period as real + 1.0) * (next - previous) == 2.0 * (value - previous)
  }

  /** An exponential average starts at the first value and moves towards each next one. */
  lemma EmaMeans(values: seq<real>, period: nat, i: nat)
    requires i < |values|
    ensures var e := Ema(values, period);
      if i == 0 then e[0] == values[0] else StepsTo(e[i], e[i - 1], values[i], period)
  {
    hide Blend, StepsTo;
    EmaIsCausal(values, period, i + 1);
    EmaIsCausal(values, period, i);
    var upto := values[..i + 1];
    assert upto[..i] == values[..i] && Ema(values, period)[i] == Ema(values, period)[..i + 1][i];
    if i > 0 {
      assert Ema(values, period)[..i][i - 1] == Ema(values, period)[i - 1];
      BlendMoves(values[i], Ema(values, period)[i - 1], period);
    } else {
      Unmoved(values[0], period);
    }
  }

  lemma Unmoved(x: real, period: nat)
    ensures Blend(x, x, period) == x
  {
    var alpha := 2.0 / (period as real + 1.0);
    assert x * alpha + x * (1.0 - alpha) == x;
  }

  lemma BlendMoves(value: real, previous: real, period: nat)
    ensures StepsTo(Blend(value, previous, period), previous, value, period)
  {
    var k := period as real + 1.0;
    var alpha := 2.0 / k;
    assert alpha * k == 2.0;
    assert Blend(value, previous, period) - previous == alpha * (value - previous);
    assert k * (alpha * (value - previous)) == (alpha * k) * (value - previous);
  }

  lemma BlendBetween(value: real, previous: real, period: nat, low: real, high: real)
    requires low <= value <= high && low <= previous <= high && period >= 1
    ensures low <= Blend(value, previous, period) <= high
  {
    var alpha := 2.0 / (period as real + 1.0);
    assert 0.0 < alpha <= 1.0;
    Mixed(value, previous, alpha, low);
    Mixed(-value, -previous, alpha, -high);
  }

  lemma Mixed(a: real, b: real, alpha: real, low: real)
    requires low <= a && low <= b && 0.0 <= alpha <= 1.0
    ensures low <= a * alpha + b * (1.0 - alpha)
  {
    assert (a - low) * alpha >= 0.0 && (b - low) * (1.0 - alpha) >= 0.0;
  }

  /** An average never leaves the range of what it averages. */
  lemma {:induction false} EmaStaysBetween(values: seq<real>, period: nat, low: real, high: real)
    requires period >= 1 && forall i :: 0 <= i < |values| ==> low <= values[i] <= high
    ensures forall i :: 0 <= i < |values| ==> low <= Ema(values, period)[i] <= high
  {
    if values != [] {
      var n := |values| - 1;
      EmaStaysBetween(values[..n], period, low, high);
      BlendBetween(values[n], if n == 0 then values[0] else Ema(values[..n], period)[n - 1], period, low, high);
    }
  }

  /** The momentum is the line, a fast less a slow average, less the average of the line. */
  lemma HistogramMeans(values: seq<real>, line: seq<real>, i: nat)
    requires |line| == |values| && i < |values|
    requires forall j :: 0 <= j < |values| ==> line[j] == Ema(values, 12)[j] - Ema(values, 26)[j]
    ensures Histogram(values)[i] == line[i] - Ema(line, 9)[i]
  {
    assert line == MacdLine(values);
  }

  // ---- relative strength ----

  /** Over the first period the gains less the losses are the whole move. */
  lemma {:induction false} SumsAreTheMove(values: seq<real>)
    requires values != []
    ensures Sums(values).gain - Sums(values).loss == values[|values| - 1] - values[0]
  {
    if |values| >= 2 { SumsAreTheMove(values[..|values| - 1]); }
  }

  /** An average moves towards a part by one part in period of the distance. */
  predicate MovesTo(next: real, average: real, part: real, period: nat) {
    (next - average) * period as real == part - average
  }

  lemma SmoothMoves(average: real, part: real, period: nat)
    requires period > 0
    ensures MovesTo(Smooth(average, part, period), average, part, period)
  {
    var p := period as real;
    var total := average * (period - 1) as real + part;
    assert total / p * p == total;
    assert (period - 1) as real == p - 1.0;
  }

  lemma Spread(gain: real, loss: real, period: real)
    requires period > 0.0
    ensures (gain / period - loss / period) * period == gain - loss
  {
    assert gain / period * period == gain && loss / period * period == loss;
  }

  lemma FirstAverages(values: seq<real>, period: nat)
    requires 0 < period && |values| == period + 1
    ensures var a := AveragesOf(values, period); (a.gain - a.loss) * period as real == values[period] - values[0]
  {
    hide Sums;
    SumsAreTheMove(values);
    Spread(Sums(values).gain, Sums(values).loss, period as real);
  }

  /** The averages begin with the moves of the first period; each later change then counts for one part in
      period, a rise as a gain and a fall as a loss. */
  lemma AveragesMean(values: seq<real>, period: nat)
    requires 0 < period < |values|
    ensures var a, n := AveragesOf(values, period), |values| - 1;
      if n == period then (a.gain - a.loss) * period as real == values[n] - values[0]
      else
        var b, change := AveragesOf(values[..n], period), values[n] - values[n - 1];
        && MovesTo(a.gain, b.gain, if change > 0.0 then change else 0.0, period)
        && MovesTo(a.loss, b.loss, if change < 0.0 then -change else 0.0, period)
  {
    var n := |values| - 1;
    if n == period {
      FirstAverages(values, period);
    } else {
      hide MovesTo, Smooth;
      var b := AveragesOf(values[..n], period);
      SmoothMoves(b.gain, Gain(Change(values)), period);
      SmoothMoves(b.loss, Loss(Change(values)), period);
    }
  }

  /** The index is neutral before the period is complete, and then the gains' share of gains and losses in
      per cent: a hundred without losses, zero without gains. */
  lemma RsiMeans(values: seq<real>, period: nat, i: nat)
    requires period > 0 && i < |values|
    ensures var r := Rsi(values, period)[i];
      && 0.0 <= r <= 100.0
      && (i < period ==> r == 50.0)
      && (i >= period ==>
            var a := AveragesOf(values[..i + 1], period);
            && (a.loss == 0.0 ==> r == 100.0) && (a.gain == 0.0 < a.loss ==> r == 0.0)
            && r * (a.gain + a.loss) == 100.0 * a.gain)
  {
    if i >= period {
      AveragesNotNegative(values[..i + 1], period);
      ShareOfGains(AveragesOf(values[..i + 1], period));
    }
  }

  lemma ShareOfGains(a: Averages)
    requires a.gain >= 0.0 && a.loss >= 0.0
    ensures var r := FromAverages(a);
      0.0 <= r <= 100.0 && r * (a.gain + a.loss) == 100.0 * a.gain && (a.gain == 0.0 < a.loss ==> r == 0.0)
  {
    if a.loss > 0.0 {
      var ratio := a.gain / a.loss;
      assert ratio * a.loss == a.gain;
      assert ratio >= 0.0;
      var part := 100.0 / (1.0 + ratio);
      assert part * (1.0 + ratio) == 100.0;
      assert 0.0 <= part <= 100.0;
      assert a.gain + a.loss == (1.0 + ratio) * a.loss;
      assert part * (a.gain + a.loss) == (part * (1.0 + ratio)) * a.loss;
    }
  }

  // ---- the regime ----

  /** The values an hour is judged by. */
  datatype Readings = Readings(close: real, average: real, strength: real, momentum: real, before: real)

  function ReadingsAt(hours: seq<Hour>, i: nat): Readings
    requires i < |hours|
  {
    var closes := Closes(hours);
    Readings(hours[i].close, Ema(closes, 21)[i], Rsi(closes, 14)[i], Histogram(closes)[i], Histogram(closes)[if i == 0 then 0 else i - 1])
  }

  /** Weak, more than one and a half per cent below the average, or falling further below zero. */
  predicate IsWeak(r: Readings) {
    r.strength < 45.0 || 1000.0 * r.close < 985.0 * r.average || r.momentum < (if r.before < 0.0 then r.before else 0.0)
  }

  predicate IsStrong(r: Readings) {
    r.average < r.close && r.strength >= 50.0 && r.before <= r.momentum
  }

  /** An hour is red exactly when it is weak, and green exactly when it is strong and not weak. */
  lemma RegimeMeans(hours: seq<Hour>, i: nat)
    requires i < |hours|
    ensures var r := ReadingsAt(hours, i);
      && (StateAt(hours, i).Red? <==> IsWeak(r)) && (StateAt(hours, i).Green? <==> IsStrong(r) && !IsWeak(r))
  {
    hide Ema, Rsi, Histogram, Closes;
  }

  function Rank(r: Regime): int {
    match r case Red => 0 case Yellow => 1 case Green => 2
  }

  /** A higher close, strength or momentum over the same past never lowers the regime. */
  lemma RegimeIsMonotone(r: Readings, s: Readings)
    requires s.close >= r.close && s.strength >= r.strength && s.momentum >= r.momentum && s.average == r.average && s.before == r.before
    ensures Rank(OneHourRegime(r.close, r.average, r.strength, r.momentum, r.before))
         <= Rank(OneHourRegime(s.close, s.average, s.strength, s.momentum, s.before))
  {
  }

  /** A bar's regime is that of the last hour closed by its open: red, green or neither by its readings, and
      yellow when no hour has closed. */
  lemma RegimeIsRead(hours: seq<Hour>, time: int, k: nat, regime: Regime)
    requires IsCut(hours, time, k) && IsRegime(hours, time, regime)
    ensures k == 0 ==> regime == Yellow
    ensures k > 0 ==>
      var r := ReadingsAt(hours, k - 1);
      (regime.Red? <==> IsWeak(r)) && (regime.Green? <==> IsStrong(r) && !IsWeak(r))
  {
    RegimeIsUnique(hours, time, regime, if k == 0 then Yellow else StateAt(hours, k - 1));
    if k > 0 { RegimeMeans(hours, k - 1); }
  }
}
