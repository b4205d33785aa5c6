/** EMA, RSI and MACD as the loops compute them, and their causality: a value never depends on what
  comes after it. */
module Indicators {
  import opened Basics

  datatype PeriodError = PeriodError

  // ---- exponential moving average ----

  function Blend(value: real, previous: real, period: nat): real {
    var alpha := 2.0 / (period as real + 1.0);
    value * alpha + previous * (1.0 - alpha)
  }

  function Ema(values: seq<real>, period: nat): (r: seq<real>)
    ensures |r| == |values|
  {
    if values == [] then []
    else
      var n := |values| - 1;
      var before := Ema(values[..n], period);
      before + [Blend(values[n], if n == 0 then values[0] else before[n - 1], period)]
  }

  lemma {:induction false} EmaIsCausal(values: seq<real>, period: nat, k: nat)
    requires k <= |values|
    ensures Ema(values[..k], period) == Ema(values, period)[..k]
  {
    if k == |values| {
      assert values[..k] == values;
    } else {
      var n := |values| - 1;
      EmaIsCausal(values[..n], period, k);
      assert values[..n][..k] == values[..k];
    }
  }

  method ComputeEma(values: seq<real>, period: int) returns (r: Result<seq<real>, PeriodError>)
    ensures r == if period <= 0 then Err(PeriodError) else Ok(Ema(values, period))
  {
    if period <= 0 { return Err(PeriodError); }
    if values == [] { return Ok([]); }
    var output: seq<real> := [];
    var previous := values[0];
    for i := 0 to |values|
      invariant output == Ema(values[..i], period)
      invariant previous == if i == 0 then values[0] else output[i - 1]
    {
      assert values[..i + 1][..i] == values[..i];
      previous := Blend(values[i], previous, period);
      output := output + [previous];
    }
    assert values[..|values|] == values;
    return Ok(output);
  }

  // ---- relative strength ----

  datatype Averages = Averages(gain: real, loss: real)

  function Gain(change: real): real { if change >= 0.0 then change else 0.0 }

  function Loss(change: real): real { if change >= 0.0 then 0.0 else -change }

  function Change(values: seq<real>): real
    requires |values| >= 2
  {
    values[|values| - 1] - values[|values| - 2]
  }

  /** The sums of the gains and of the losses. */
  function Sums(values: seq<real>): Averages {
    if |values| < 2 then Averages(0.0, 0.0)
    else
      var s := Sums(values[..|values| - 1]);
      Averages(s.gain + Gain(Change(values)), s.loss + Loss(Change(values)))
  }

  function Smooth(average: real, part: real, period: nat): real
    requires period > 0
  {
    (average * (period - 1) as real + part) / period as real
  }

  /** The smoothed averages after the first period changes. */
  function AveragesOf(values: seq<real>, period: nat): Averages
    requires 0 < period < |values|
  {
    if |values| == period + 1 then
      var s := Sums(values);
      Averages(s.gain / period as real, s.loss / period as real)
    else
      var a := AveragesOf(values[..|values| - 1], period);
      Averages(Smooth(a.gain, Gain(Change(values)), period), Smooth(a.loss, Loss(Change(values)), period))
  }

  function FromAverages(a: Averages): real {
    if a.loss == 0.0 || 1.0 + a.gain / a.loss == 0.0 then 100.0 else 100.0 - 100.0 / (1.0 + a.gain / a.loss)
  }

  /** The value at the end of a prefix: neutral until the period is complete. */
  function RsiLast(values: seq<real>, period: nat): real
    requires period > 0
  {
    if |values| <= period then 50.0 else FromAverages(AveragesOf(values, period))
  }

  function Rsi(values: seq<real>, period: nat): (r: seq<real>)
    requires period > 0
    ensures |r| == |values|
  {
    seq(|values|, i requires 0 <= i < |values| => RsiLast(values[..i + 1], period))
  }

  lemma RsiIsCausal(values: seq<real>, period: nat, k: nat)
    requires period > 0 && k <= |values|
    ensures Rsi(values[..k], period) == Rsi(values, period)[..k]
  {
    forall i | 0 <= i < k ensures Rsi(values[..k], period)[i] == Rsi(values, period)[i] {
      assert values[..k][..i + 1] == values[..i + 1];
    }
  }

  /** The averages never go below zero, so the guard against a zero divisor in FromAverages is never taken. */
  lemma {:induction false} AveragesNotNegative(values: seq<real>, period: nat)
    requires 0 < period < |values|
    ensures AveragesOf(values, period).gain >= 0.0 && AveragesOf(values, period).loss >= 0.0
  {
    if |values| == period + 1 {
      SumsNotNegative(values);
    } else {
      AveragesNotNegative(values[..|values| - 1], period);
    }
  }

  lemma {:induction false} SumsNotNegative(values: seq<real>)
    ensures Sums(values).gain >= 0.0 && Sums(values).loss >= 0.0
  {
    if |values| >= 2 { SumsNotNegative(values[..|values| - 1]); }
  }

  /** The sums over the first period changes, as the first loop adds them up. */
  method SumChanges(values: seq<real>, period: nat) returns (s: Averages)
    requires 0 < period < |values|
    ensures s == Sums(values[..period + 1])
  {
    s := Averages(0.0, 0.0);
    for i := 1 to period + 1
      invariant s == Sums(values[..i])
    {
      assert values[..i + 1][..i] == values[..i];
      var change := values[i] - values[i - 1];
      if change >= 0.0 {
        s := s.(gain := s.gain + change);
      } else {
        s := s.(loss := s.loss - change);
      }
    }
  }

  method ComputeRsi(values: seq<real>, period: int) returns (r: Result<seq<real>, PeriodError>)
    ensures r == if period <= 0 then Err(PeriodError) else Ok(Rsi(values, period))
  {
    if period <= 0 { return Err(PeriodError); }
    if values == [] { return Ok([]); }
    var output := seq(|values|, i => 50.0);
    if |values| <= period {
      assert output == Rsi(values, period);
      return Ok(output);
    }
    var s := SumChanges(values, period);
    var a := Averages(s.gain / period as real, s.loss / period as real);
    output := output[period := FromAverages(a)];
    for i := period + 1 to |values|
      invariant |output| == |values|
      invariant a == AveragesOf(values[..i], period)
      invariant forall j :: 0 <= j < i ==> output[j] == RsiLast(values[..j + 1], period)
    {
      assert values[..i + 1][..i] == values[..i];
      var change := values[i] - values[i - 1];
      a := Averages(Smooth(a.gain, Gain(change), period), Smooth(a.loss, Loss(change), period));
      output := output[i := FromAverages(a)];
    }
    assert output == Rsi(values, period);
    return Ok(output);
  }

  // ---- convergence and divergence ----

  function Minus(a: seq<real>, b: seq<real>): (r: seq<real>)
    requires |a| == |b|
    ensures |r| == |a|
  {
    seq(|a|, i requires 0 <= i < |a| => a[i] - b[i])
  }

  const FAST := 12
  const SLOW := 26
  const SIGNAL := 9

  function MacdLine(values: seq<real>): (r: seq<real>)
    ensures |r| == |values|
  {
    Minus(Ema(values, FAST), Ema(values, SLOW))
  }

  function Histogram(values: seq<real>): (r: seq<real>)
    ensures |r| == |values|
  {
    Minus(MacdLine(values), Ema(MacdLine(values), SIGNAL))
  }

  lemma HistogramIsCausal(values: seq<real>, k: nat)
    requires k <= |values|
    ensures Histogram(values[..k]) == Histogram(values)[..k]
  {
    EmaIsCausal(values, FAST, k);
    EmaIsCausal(values, SLOW, k);
    assert MacdLine(values[..k]) == MacdLine(values)[..k];
    EmaIsCausal(MacdLine(values), SIGNAL, k);
  }
}
