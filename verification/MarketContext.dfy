/** The hourly regime of each 15-minute bar, by two pointers over two series. */
module MarketContext {
  import opened Basics
  import opened Indicators

  const HOUR_MS := 3_600_000
  const EMA_PERIOD := 21
  const RSI_PERIOD := 14

  datatype Regime = Red | Yellow | Green

  datatype Hour = Hour(openMs: int, close: real)

  function OneHourRegime(close: real, ema21: real, rsi14: real, hist: real, previousHist: real): Regime {
    if rsi14 < 45.0 || close < ema21 * 0.985 || (hist < 0.0 && hist < previousHist) then Red
    else if close > ema21 && rsi14 >= 50.0 && hist >= previousHist then Green
    else Yellow
  }

  function Closes(hours: seq<Hour>): (r: seq<real>)
    ensures |r| == |hours|
  {
    seq(|hours|, i requires 0 <= i < |hours| => hours[i].close)
  }

  /** The regime the indicators over a series give its candle i. */
  function StateAt(hours: seq<Hour>, i: nat): Regime
    requires i < |hours|
  {
    var closes := Closes(hours);
    var hist := Histogram(closes);
    OneHourRegime(hours[i].close, Ema(closes, EMA_PERIOD)[i], Rsi(closes, RSI_PERIOD)[i], hist[i], hist[if i > 0 then i - 1 else i])
  }

  /** A candle's regime needs only the candles up to it. */
  lemma StateIsCausal(hours: seq<Hour>, i: nat, k: nat)
    requires i < k <= |hours|
    ensures StateAt(hours[..k], i) == StateAt(hours, i)
  {
    var closes := Closes(hours);
    assert Closes(hours[..k]) == closes[..k];
    EmaIsCausal(closes, EMA_PERIOD, k);
    RsiIsCausal(closes, RSI_PERIOD, k);
    HistogramIsCausal(closes, k);
    assert Ema(closes, EMA_PERIOD)[..k][i] == Ema(closes, EMA_PERIOD)[i];
    assert Rsi(closes, RSI_PERIOD)[..k][i] == Rsi(closes, RSI_PERIOD)[i];
    var j := if i > 0 then i - 1 else i;
    assert Histogram(closes)[..k][i] == Histogram(closes)[i] && Histogram(closes)[..k][j] == Histogram(closes)[j];
  }

  predicate Ascending(hours: seq<Hour>) {
    forall i, j :: 0 <= i < j < |hours| ==> hours[i].openMs < hours[j].openMs
  }

  predicate AscendingTimes(times: seq<int>) {
    forall i, j :: 0 <= i < j < |times| ==> times[i] < times[j]
  }

  predicate ClosedBy(h: Hour, time: int) { h.openMs + HOUR_MS <= time }

  /** Exactly the first k candles have closed by the time. */
  predicate IsCut(hours: seq<Hour>, time: int, k: nat) {
    && k <= |hours|
    && (forall i :: 0 <= i < k ==> ClosedBy(hours[i], time))
    && (forall i :: k <= i < |hours| ==> !ClosedBy(hours[i], time))
  }

  /** The regime of the last hourly candle closed by the time, yellow when none has. */
  ghost predicate IsRegime(hours: seq<Hour>, time: int, r: Regime) {
    exists k: nat :: IsCut(hours, time, k) && r == if k == 0 then Yellow else StateAt(hours, k - 1)
  }

  lemma CutIsUnique(hours: seq<Hour>, time: int, j: nat, k: nat)
    requires IsCut(hours, time, j) && IsCut(hours, time, k)
    ensures j == k
  {
    var x := if j < k then j else k;
    if x < |hours| { var closed := ClosedBy(hours[x], time); }
  }

  lemma RegimeIsUnique(hours: seq<Hour>, time: int, r: Regime, s: Regime)
    requires IsRegime(hours, time, r) && IsRegime(hours, time, s)
    ensures r == s
  {
    var j: nat :| IsCut(hours, time, j) && r == if j == 0 then Yellow else StateAt(hours, j - 1);
    var k: nat :| IsCut(hours, time, k) && s == if k == 0 then Yellow else StateAt(hours, k - 1);
    CutIsUnique(hours, time, j, k);
  }

  /** No lookahead: series that agree on the candles closed by the time give the same regime, whatever else
      they hold. */
  lemma NoLookahead(a: seq<Hour>, b: seq<Hour>, time: int, k: nat, r: Regime)
    requires k <= |a| && k <= |b| && a[..k] == b[..k] && IsCut(a, time, k) && IsCut(b, time, k)
    ensures IsRegime(a, time, r) <==> IsRegime(b, time, r)
  {
    if k > 0 {
      StateIsCausal(a, k - 1, k);
      StateIsCausal(b, k - 1, k);
    }
    var s := if k == 0 then Yellow else StateAt(a, k - 1);
    assert IsRegime(a, time, s) && IsRegime(b, time, s);
    if IsRegime(a, time, r) { RegimeIsUnique(a, time, r, s); }
    if IsRegime(b, time, r) { RegimeIsUnique(b, time, r, s); }
  }

  /** The state of every hourly candle with the time from which it may be used. */
  method HourlyStates(hours: seq<Hour>) returns (states: States)
    ensures AreStates(hours, states)
  {
    var closes := Closes(hours);
    var ema := ComputeEma(closes, EMA_PERIOD);
    var rsi := ComputeRsi(closes, RSI_PERIOD);
    var hist := Histogram(closes);
    states := [];
    for i := 0 to |hours|
      invariant |states| == i && forall j :: 0 <= j < i ==> states[j] == (hours[j].openMs + HOUR_MS, StateAt(hours, j))
    {
      var previous := if i > 0 then hist[i - 1] else hist[i];
      states := states + [(hours[i].openMs + HOUR_MS, OneHourRegime(hours[i].close, ema.value[i], rsi.value[i], hist[i], previous))];
    }
  }

  // ---- the two pointers, over usable times and states ----

  type States = seq<(int, Regime)>

  predicate StatesAscend(states: States) {
    forall i, j :: 0 <= i < j < |states| ==> states[i].0 < states[j].0
  }

  function StateBefore(states: States, cursor: nat): Regime
    requires cursor <= |states|
  {
    if cursor == 0 then Yellow else states[cursor - 1].1
  }

  predicate AllUsable(states: States, cursor: nat, time: int) {
    cursor <= |states| && forall i :: 0 <= i < cursor ==> states[i].0 <= time
  }

  predicate NoneUsable(states: States, cursor: nat, time: int) {
    forall i :: cursor <= i < |states| ==> states[i].0 > time
  }

  ghost predicate IsCurrent(states: States, time: int, r: Regime) {
    exists k: nat :: AllUsable(states, k, time) && NoneUsable(states, k, time) && r == StateBefore(states, k)
  }

  /** Move the cursor over the states usable by the time. */
  method Advance(states: States, time: int, from: nat, before: Regime) returns (cursor: nat, current: Regime)
    requires from <= |states| && before == StateBefore(states, from)
    ensures from <= cursor <= |states| && current == StateBefore(states, cursor)
    ensures AllUsable(states, from, time) ==> AllUsable(states, cursor, time)
    ensures StatesAscend(states) ==> NoneUsable(states, cursor, time)
  {
    cursor, current := from, before;
    while cursor < |states| && states[cursor].0 <= time
      invariant from <= cursor <= |states| && current == StateBefore(states, cursor)
      invariant AllUsable(states, from, time) ==> AllUsable(states, cursor, time)
    {
      current := states[cursor].1;
      cursor := cursor + 1;
    }
  }

  ghost predicate Right(states: States, context: map<int, Regime>) {
    forall t :: t in context ==> IsCurrent(states, t, context[t])
  }

  ghost predicate Ordered(times: seq<int>, states: States) { StatesAscend(states) && AscendingTimes(times) }

  method Walk(times: seq<int>, states: States) returns (context: map<int, Regime>)
    ensures context.Keys == set t | t in times
    ensures Ordered(times, states) ==> Right(states, context)
  {
    context := map[];
    var cursor, current := 0, Yellow;
    for b := 0 to |times|
      invariant cursor <= |states| && current == StateBefore(states, cursor)
      invariant b == 0 ==> cursor == 0
      invariant Ordered(times, states) && b > 0 ==> AllUsable(states, cursor, times[b - 1])
      invariant context.Keys == set t | t in times[..b]
      invariant Ordered(times, states) ==> Right(states, context)
    {
      var time := times[b];
      assert Ordered(times, states) ==> AllUsable(states, cursor, time);
      cursor, current := Advance(states, time, cursor, current);
      context := context[time := current];
    }
    assert times[..|times|] == times;
  }

  // ---- the context ----

  ghost predicate AreStates(hours: seq<Hour>, states: States) {
    |states| == |hours| && forall i :: 0 <= i < |hours| ==> states[i] == (hours[i].openMs + HOUR_MS, StateAt(hours, i))
  }

  lemma CurrentIsRegime(hours: seq<Hour>, states: States, time: int, r: Regime)
    requires AreStates(hours, states) && IsCurrent(states, time, r)
    ensures IsRegime(hours, time, r)
  {
    var k: nat :| AllUsable(states, k, time) && NoneUsable(states, k, time) && r == StateBefore(states, k);
    forall i | 0 <= i < k ensures ClosedBy(hours[i], time) { assert states[i].0 <= time; }
    forall i | k <= i < |hours| ensures !ClosedBy(hours[i], time) { assert states[i].0 > time; }
    assert IsCut(hours, time, k);
  }

  /** On ascending series every bar gets the regime of the last hourly candle closed by its open. */
  method BuildHourlyContext(times: seq<int>, hours: seq<Hour>) returns (context: map<int, Regime>)
    ensures context.Keys == set t | t in times
    ensures Ascending(hours) && AscendingTimes(times) ==> forall t :: t in context ==> IsRegime(hours, t, context[t])
  {
    var states: States := [];
    if hours != [] { states := HourlyStates(hours); }
    context := Walk(times, states);
    ghost var ordered := Ascending(hours) && AscendingTimes(times);
    if ordered {
      forall t | t in context ensures IsRegime(hours, t, context[t]) { CurrentIsRegime(hours, states, t, context[t]); }
    }
  }
}
