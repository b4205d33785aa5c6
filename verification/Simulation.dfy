/** A whole replay: overnight moves, rebalances at the open, intraday moves and the final liquidation.

  The days of the replay are given with the targets that apply to them, the first day's being the latest
  known; choosing targets and counting orders are not part of this model.
 */
module Simulation {
  import opened Basics
  import opened Robustness
  import opened Rebalance

  const CAPITAL := 10000.0
  const BUDGET := 1.000000000001

  datatype Day = Day(opens: seq<real>, closes: seq<real>, target: Option<seq<real>>)

  datatype ReplayError = InvalidBounds | InvalidTarget

  datatype Replay = Replay(curve: seq<real>, costs: real, minCash: real)

  predicate Priced(prices: seq<real>, n: nat) {
    |prices| == n && forall p :: p in prices ==> p > 0.0
  }

  predicate ValidDays(days: seq<Day>, n: nat) {
    forall d :: d in days ==>
      Priced(d.opens, n) && Priced(d.closes, n) && (d.target.Some? ==> |d.target.value| == n)
  }

  predicate Accepted(target: seq<real>) {
    NonNegative(target) && Sum(target) <= BUDGET
  }

  // ---- holdings ----

  /** The value of each holding at the prices. */
  function Worths(units: seq<real>, prices: seq<real>): (r: seq<real>)
    requires |units| == |prices|
    ensures |r| == |units|
  {
    if units == [] then []
    else
      var n := |units| - 1;
      Worths(units[..n], prices[..n]) + [Times(units[n], prices[n])]
  }

  function Value(units: seq<real>, prices: seq<real>): real
    requires |units| == |prices|
  {
    Sum(Worths(units, prices))
  }

  function Divide(values: seq<real>, prices: seq<real>): (r: seq<real>)
    requires |values| == |prices|
    ensures |r| == |values|
  {
    if values == [] then []
    else
      var n := |values| - 1;
      Divide(values[..n], prices[..n]) + [if prices[n] == 0.0 then 0.0 else values[n] / prices[n]]
  }

  lemma PrefixPriced(prices: seq<real>, n: nat)
    requires Priced(prices, |prices|) && n <= |prices|
    ensures Priced(prices[..n], n)
  {
    forall p | p in prices[..n] ensures p > 0.0 { assert p in prices; }
  }

  /** Units bought at a price are worth at it what was paid for them. */
  lemma {:induction false} DividedWorth(values: seq<real>, prices: seq<real>)
    requires |values| == |prices| && Priced(prices, |prices|)
    ensures Worths(Divide(values, prices), prices) == values
    ensures NonNegative(values) ==> NonNegative(Divide(values, prices))
  {
    if values != [] {
      var n := |values| - 1;
      assert prices[n] in prices;
      PrefixPriced(prices, n);
      DividedWorth(values[..n], prices[..n]);
      Quotient(values[n], prices[n]);
      if NonNegative(values) { PrefixNonNegative(values, n); assert values[n] in values; }
    }
  }

  lemma Quotient(v: real, p: real)
    requires p > 0.0
    ensures Times(v / p, p) == v && (v >= 0.0 ==> v / p >= 0.0)
  {
  }

  lemma {:induction false} WorthsNotNegative(units: seq<real>, prices: seq<real>)
    requires |units| == |prices| && NonNegative(units) && Priced(prices, |prices|)
    ensures NonNegative(Worths(units, prices)) && Value(units, prices) >= 0.0
  {
    if units != [] {
      var n := |units| - 1;
      assert units[n] in units && prices[n] in prices;
      PrefixNonNegative(units, n);
      PrefixPriced(prices, n);
      WorthsNotNegative(units[..n], prices[..n]);
      TimesMonotone(units[n], 0.0, prices[n]);
      assert Times(units[n], 0.0) == 0.0;
      SumAppend(Worths(units[..n], prices[..n]), Times(units[n], prices[n]));
    }
  }

  lemma {:induction false} WorthsElsewhere(units: seq<real>, prices: seq<real>, others: seq<real>)
    requires |units| == |prices| == |others| && NonNegative(units) && Priced(prices, |prices|) && Priced(others, |others|)
    ensures Value(units, prices) > 0.0 ==> Value(units, others) > 0.0
  {
    if units != [] {
      var n := |units| - 1;
      assert units[n] in units && prices[n] in prices && others[n] in others;
      PrefixNonNegative(units, n);
      PrefixPriced(prices, n);
      PrefixPriced(others, n);
      WorthsElsewhere(units[..n], prices[..n], others[..n]);
      WorthsNotNegative(units[..n], others[..n]);
      SumAppend(Worths(units[..n], prices[..n]), Times(units[n], prices[n]));
      SumAppend(Worths(units[..n], others[..n]), Times(units[n], others[n]));
      OneElsewhere(units[n], prices[n], others[n]);
    }
  }

  lemma OneElsewhere(u: real, p: real, q: real)
    requires u >= 0.0 && p > 0.0 && q > 0.0
    ensures Times(u, q) >= 0.0 && (Times(u, p) > 0.0 ==> Times(u, q) > 0.0)
  {
  }

  // ---- the replay, day by day ----

  function Idle(n: nat): seq<real> { seq(n, i => 0.0) }

  /** The account after a day's open: cash, units held, and what the rebalance of that day cost. */
  datatype Morning = Morning(cash: real, units: seq<real>, paid: real)

  /** A day without a target changes nothing; another is rebalanced at its open, from what is held there. */
  function Opened(day: Day, before: Morning, cost: real): (m: Morning)
    requires |before.units| == |day.opens| && (day.target.Some? ==> |day.target.value| == |day.opens|)
    ensures |m.units| == |before.units|
  {
    if day.target.None? then before.(paid := 0.0)
    else
      var current := Worths(before.units, day.opens);
      var net := NetOf(before.cash + Sum(current), day.target.value, current, cost);
      Morning(LeftOf(before.cash, day.target.value, current, cost), Divide(Sized(net, day.target.value), day.opens),
              Paid(net, day.target.value, current, cost))
  }

  /** The account after the first k opens. */
  function After(days: seq<Day>, k: nat, n: nat, cost: real): (m: Morning)
    requires k <= |days| && ValidDays(days, n)
    ensures |m.units| == n
  {
    if k == 0 then Morning(CAPITAL, Idle(n), 0.0)
    else
      assert days[k - 1] in days;
      Opened(days[k - 1], After(days, k - 1, n, cost), cost)
  }

  /** What the units of day k are worth at its close. */
  function Held(days: seq<Day>, k: nat, n: nat, cost: real): real
    requires k < |days| && ValidDays(days, n)
  {
    assert days[k] in days;
    Value(After(days, k + 1, n, cost).units, days[k].closes)
  }

  function PaidSoFar(days: seq<Day>, k: nat, n: nat, cost: real): real
    requires k <= |days| && ValidDays(days, n)
  {
    if k == 0 then 0.0 else PaidSoFar(days, k - 1, n, cost) + After(days, k, n, cost).paid
  }

  /** The least cash any rebalance of the first k days left. */
  function LeastCash(days: seq<Day>, k: nat, n: nat, cost: real): real
    requires k <= |days| && ValidDays(days, n)
  {
    if k == 0 then CAPITAL
    else
      var least, cash := LeastCash(days, k - 1, n, cost), After(days, k, n, cost).cash;
      if days[k - 1].target.Some? && cash < least then cash else least
  }

  /** The samples after the first k closes. */
  ghost predicate Samples(curve: seq<real>, days: seq<Day>, k: nat, n: nat, cost: real)
    requires k <= |days| && ValidDays(days, n)
  {
    && |curve| == k + 1 && curve[0] == CAPITAL
    && forall i :: 0 <= i < k ==> curve[i + 1] == After(days, i + 1, n, cost).cash + Held(days, i, n, cost)
  }

  /** A replay reports the account at every close, the last time after liquidation; all costs, that of the
      liquidation among them; and the least cash of all rebalances. */
  ghost predicate IsReplay(r: Replay, days: seq<Day>, n: nat, cost: real)
    requires days != [] && ValidDays(days, n)
  {
    var last := |days| - 1;
    && |r.curve| == |days| + 1 && Samples(r.curve[..|days|], days, last, n, cost)
    && r.curve[|days|] == After(days, |days|, n, cost).cash + Times(Held(days, last, n, cost), 1.0 - cost)
    && r.costs == PaidSoFar(days, |days|, n, cost) + Times(cost, Held(days, last, n, cost))
    && r.minCash == LeastCash(days, |days|, n, cost)
  }

  predicate Refused(d: Day) {
    d.target.Some? && !Accepted(d.target.value)
  }

  predicate NoneRefused(days: seq<Day>, k: nat)
    requires k <= |days|
  {
    forall i :: 0 <= i < k ==> !Refused(days[i])
  }

  /** A day's open: rebalance to its target, if it has one. */
  method OpenDay(day: Day, before: Morning, cost: real) returns (r: Result<Morning, ReplayError>)
    requires |before.units| == |day.opens| && (day.target.Some? ==> |day.target.value| == |day.opens|)
    ensures r == if Refused(day) then Err(InvalidTarget) else Ok(Opened(day, before, cost))
  {
    if day.target.None? { return Ok(before.(paid := 0.0)); }
    if !Accepted(day.target.value) { return Err(InvalidTarget); }
    var current := Worths(before.units, day.opens);
    var left, values, paid := RebalanceOnce(before.cash, day.target.value, current, cost);
    return Ok(Morning(left, Divide(values, day.opens), paid));
  }

  datatype Books = Books(morning: Morning, costs: real, minCash: real, curve: seq<real>)

  /** The books after the first k closes. */
  ghost predicate Kept(b: Books, days: seq<Day>, k: nat, n: nat, cost: real)
    requires k <= |days| && ValidDays(days, n)
  {
    && NoneRefused(days, k) && b.morning == After(days, k, n, cost) && b.costs == PaidSoFar(days, k, n, cost)
    && b.minCash == LeastCash(days, k, n, cost) && Samples(b.curve, days, k, n, cost)
  }

  method OneDay(days: seq<Day>, k: nat, n: nat, b: Books, cost: real) returns (r: Result<Books, ReplayError>)
    requires k < |days| && ValidDays(days, n) && Kept(b, days, k, n, cost)
    ensures r.Ok? ==> Kept(r.value, days, k + 1, n, cost)
    ensures r.Err? ==> Refused(days[k])
  {
    hide NetOf, LeftOf, Opened, Accepted, Value;
    assert days[k] in days;
    var morning :- OpenDay(days[k], b.morning, cost);
    var minCash := if days[k].target.Some? && morning.cash < b.minCash then morning.cash else b.minCash;
    var value := Value(morning.units, days[k].closes);
    return Ok(Books(morning, b.costs + morning.paid, minCash, b.curve + [morning.cash + value]));
  }

  function Liquidated(b: Books, value: real, cost: real): Replay
    requires b.curve != []
  {
    Replay(b.curve[..|b.curve| - 1] + [b.morning.cash + Times(value, 1.0 - cost)], b.costs + Times(cost, value), b.minCash)
  }

  /** The replay of the source, or a refusal: exactly without days, on a cost outside [0, 1), or on a
      target that is negative or beyond the tolerated budget. */
  method Simulate(days: seq<Day>, n: nat, cost: real) returns (r: Result<Replay, ReplayError>)
    requires ValidDays(days, n)
    ensures r.Ok? <==> days != [] && 0.0 <= cost < 1.0 && NoneRefused(days, |days|)
    ensures r.Ok? ==> IsReplay(r.value, days, n, cost)
  {
    if days == [] || cost < 0.0 || cost >= 1.0 { return Err(InvalidBounds); }
    var b := Books(Morning(CAPITAL, Idle(n), 0.0), 0.0, CAPITAL, [CAPITAL]);
    for k := 0 to |days|
      invariant Kept(b, days, k, n, cost)
    {
      var next := OneDay(days, k, n, b, cost);
      if next.Err? { return Err(next.error); }
      b := next.value;
    }
    var last := days[|days| - 1];
    assert last in days;
    return Ok(Liquidated(b, Value(b.morning.units, last.closes), cost));
  }

  // ---- the books balance ----

  /** What the market gave on one day: the overnight move of what was held, and the move since the open of what is. */
  function DayGain(days: seq<Day>, k: nat, n: nat, cost: real): real
    requires k < |days| && ValidDays(days, n)
  {
    assert days[k] in days;
    var before := After(days, k, n, cost).units;
    var overnight := if k == 0 then 0.0 else assert days[k - 1] in days; Value(before, days[k].opens) - Held(days, k - 1, n, cost);
    overnight + Held(days, k, n, cost) - Value(After(days, k + 1, n, cost).units, days[k].opens)
  }

  function Gains(days: seq<Day>, k: nat, n: nat, cost: real): real
    requires k <= |days| && ValidDays(days, n)
  {
    if k == 0 then 0.0 else Gains(days, k - 1, n, cost) + DayGain(days, k - 1, n, cost)
  }

  lemma {:induction false} WorthsMean(units: seq<real>, prices: seq<real>, i: nat)
    requires |units| == |prices| && i < |units|
    ensures Worths(units, prices)[i] == Times(units[i], prices[i])
    decreases |units|
  {
    if i < |units| - 1 { WorthsMean(units[..|units| - 1], prices[..|units| - 1], i); }
  }

  /** After the open of a day with a target each symbol is worth its own weight of one net value, what was
      traded to get there is charged at the cost, and the net value is as much as the account can bear. */
  lemma OpeningMeans(day: Day, before: Morning, cost: real, i: nat) returns (net: real)
    requires |before.units| == |day.opens| && Priced(day.opens, |day.opens|) && i < |day.opens|
    requires day.target.Some? && |day.target.value| == |day.opens| && NonNegative(day.target.value)
    ensures var m, target := Opened(day, before, cost), day.target.value;
      && Times(m.units[i], day.opens[i]) == Times(net, target[i])
      && m.paid == Times(cost, Turnover(net, target, Worths(before.units, day.opens)))
      && m.cash + Times(net, Sum(target)) + m.paid == before.cash + Value(before.units, day.opens)
    ensures Solvent(before.cash, Worths(before.units, day.opens), cost) ==>
      Bracketed(net, before.cash + Value(before.units, day.opens), day.target.value, Worths(before.units, day.opens), cost)
  {
    hide Halved, Bracketed, Turnover, Worths, Sum;
    var target, current := day.target.value, Worths(before.units, day.opens);
    net := NetOf(before.cash + Sum(current), target, current, cost);
    if Solvent(before.cash, current, cost) { NetIsBracketed(before.cash, target, current, cost); }
    SizedMeans(net, target, i);
    DividedWorth(Sized(net, target), day.opens);
    WorthsMean(Divide(Sized(net, target), day.opens), day.opens, i);
  }

  /** An open moves wealth between cash, units and costs, and loses none. */
  lemma OpenConserves(day: Day, before: Morning, cost: real)
    requires |before.units| == |day.opens| && Priced(day.opens, |day.opens|)
    requires day.target.Some? ==> |day.target.value| == |day.opens| && NonNegative(day.target.value)
    ensures var m := Opened(day, before, cost);
      m.cash + Value(m.units, day.opens) + m.paid == before.cash + Value(before.units, day.opens)
  {
    hide NetOf, LeftOf;
    if day.target.Some? {
      var current := Worths(before.units, day.opens);
      RebalanceConserves(before.cash, day.target.value, current, cost);
      DividedWorth(Sized(NetOf(before.cash + Sum(current), day.target.value, current, cost), day.target.value), day.opens);
    }
  }

  lemma {:induction false} IdleIsWorthless(n: nat, prices: seq<real>)
    requires |prices| == n
    ensures Value(Idle(n), prices) == 0.0
  {
    if n > 0 {
      assert Idle(n)[..n - 1] == Idle(n - 1);
      IdleIsWorthless(n - 1, prices[..n - 1]);
      assert Times(0.0, prices[n - 1]) == 0.0;
      SumAppend(Worths(Idle(n - 1), prices[..n - 1]), 0.0);
    }
  }

  /** After every close, cash and holdings are the capital plus all market moves less all costs. */
  lemma {:induction false} ClosesBalance(days: seq<Day>, k: nat, n: nat, cost: real)
    requires ValidDays(days, n) && k < |days| && NoneRefused(days, |days|)
    ensures After(days, k + 1, n, cost).cash + Held(days, k, n, cost) ==
      CAPITAL + Gains(days, k + 1, n, cost) - PaidSoFar(days, k + 1, n, cost)
  {
    assert days[k] in days && !Refused(days[k]);
    var before := After(days, k, n, cost);
    hide Opened;
    OpenConserves(days[k], before, cost);
    if k == 0 {
      IdleIsWorthless(n, days[k].opens);
      assert Gains(days, 1, n, cost) == Gains(days, 0, n, cost) + DayGain(days, 0, n, cost);
      assert PaidSoFar(days, 1, n, cost) == PaidSoFar(days, 0, n, cost) + After(days, 1, n, cost).paid;
    } else {
      assert days[k - 1] in days;
      ClosesBalance(days, k - 1, n, cost);
    }
  }

  /** The last sample, after liquidation, is the capital plus all market moves on what was held, less all costs. */
  lemma ReplayConserves(r: Replay, days: seq<Day>, n: nat, cost: real)
    requires days != [] && ValidDays(days, n) && NoneRefused(days, |days|) && IsReplay(r, days, n, cost)
    ensures r.curve[|days|] == CAPITAL + Gains(days, |days|, n, cost) - r.costs
  {
    ClosesBalance(days, |days| - 1, n, cost);
    Liquidate(cost, Held(days, |days| - 1, n, cost));
  }

  lemma Liquidate(cost: real, value: real)
    ensures Times(value, 1.0 - cost) + Times(cost, value) == value
    ensures 0.0 <= cost < 1.0 && value >= 0.0 ==> Times(value, 1.0 - cost) >= 0.0 && Times(cost, value) >= 0.0
  {
    if 0.0 <= cost < 1.0 && value >= 0.0 {
      TimesMonotone(value, 0.0, 1.0 - cost);
      TimesMonotone(value, 0.0, cost);
      assert Times(value, 0.0) == 0.0 == Times(0.0, value);
    }
  }

  // ---- when cash stays, and when it is borrowed ----

  /** Nothing is owed, and something is owned. */
  predicate IsSound(m: Morning) {
    m.cash >= 0.0 && NonNegative(m.units) && m.paid >= 0.0
  }

  predicate WithinBudget(days: seq<Day>, k: nat)
    requires k <= |days|
  {
    forall i :: 0 <= i < k && days[i].target.Some? ==> Sum(days[i].target.value) <= 1.0
  }

  lemma OpenStaysSound(day: Day, before: Morning, cost: real)
    requires |before.units| == |day.opens| && Priced(day.opens, |day.opens|) && IsSound(before) && 0.0 <= cost < 1.0
    requires day.target.Some? ==> |day.target.value| == |day.opens| && NonNegative(day.target.value) && Sum(day.target.value) <= 1.0
    requires before.cash + Value(before.units, day.opens) > 0.0
    ensures var m := Opened(day, before, cost); IsSound(m) && m.cash + Value(m.units, day.opens) > 0.0
  {
    hide NetOf, LeftOf;
    OpenConserves(day, before, cost);
    if day.target.Some? {
      var current := Worths(before.units, day.opens);
      WorthsNotNegative(before.units, day.opens);
      RebalanceConserves(before.cash, day.target.value, current, cost);
      WealthStays(before.cash, day.target.value, current, cost);
      DividedWorth(Sized(NetOf(before.cash + Sum(current), day.target.value, current, cost), day.target.value), day.opens);
    }
  }

  /** While targets are within the budget the account owes nothing and owns something, at any prices. */
  lemma {:induction false} BudgetKeepsSound(days: seq<Day>, k: nat, n: nat, cost: real, prices: seq<real>)
    requires ValidDays(days, n) && k <= |days| && NoneRefused(days, k) && WithinBudget(days, k) && 0.0 <= cost < 1.0 && Priced(prices, n)
    ensures var m := After(days, k, n, cost);
      IsSound(m) && m.cash + Value(m.units, prices) > 0.0 && LeastCash(days, k, n, cost) >= 0.0 && PaidSoFar(days, k, n, cost) >= 0.0
  {
    if k == 0 {
      IdleIsWorthless(n, prices);
    } else {
      var day := days[k - 1];
      assert day in days && !Refused(day);
      BudgetKeepsSound(days, k - 1, n, cost, day.opens);
      OpenStaysSound(day, After(days, k - 1, n, cost), cost);
      hide Opened;
      var m := After(days, k, n, cost);
      WorthsElsewhere(m.units, day.opens, prices);
      WorthsNotNegative(m.units, prices);
      WorthsNotNegative(m.units, day.opens);
    }
  }

  /** Within the budget, neither cash nor any sample ever goes below zero. */
  lemma BudgetKeepsReplay(r: Replay, days: seq<Day>, n: nat, cost: real)
    requires days != [] && ValidDays(days, n) && NoneRefused(days, |days|) && WithinBudget(days, |days|) && 0.0 <= cost < 1.0
    requires IsReplay(r, days, n, cost)
    ensures r.minCash >= 0.0 && r.costs >= 0.0 && NonNegative(r.curve)
  {
    hide Opened;
    forall i | 0 <= i < |r.curve| ensures r.curve[i] >= 0.0 {
      if i > 0 {
        assert days[i - 1] in days;
        BudgetKeepsSound(days, i, n, cost, days[i - 1].closes);
        WorthsNotNegative(After(days, i, n, cost).units, days[i - 1].closes);
        Liquidate(cost, Held(days, i - 1, n, cost));
        assert i < |days| ==> r.curve[..|days|][i] == r.curve[i];
      } else {
        assert r.curve[..|days|][0] == CAPITAL;
      }
    }
    assert days[|days| - 1] in days;
    BudgetKeepsSound(days, |days|, n, cost, days[|days| - 1].closes);
    WorthsNotNegative(After(days, |days|, n, cost).units, days[|days| - 1].closes);
    Liquidate(cost, Held(days, |days| - 1, n, cost));
  }

  /** Every target sums to at most one or is clearly over the budget. */
  predicate Decided(days: seq<Day>, cost: real) {
    forall i :: 0 <= i < |days| && days[i].target.Some? ==>
      Sum(days[i].target.value) <= 1.0 || IsOverBudget(Sum(days[i].target.value), cost)
  }

  /** The first target over the budget borrows. */
  lemma FirstExcessBorrows(days: seq<Day>, k: nat, n: nat, cost: real)
    requires ValidDays(days, n) && k < |days| && NoneRefused(days, k + 1) && WithinBudget(days, k) && 0.0 <= cost < 1.0
    requires days[k].target.Some? && IsOverBudget(Sum(days[k].target.value), cost)
    ensures LeastCash(days, k + 1, n, cost) < 0.0
  {
    hide NetOf, LeftOf, IsOverBudget;
    var day, before := days[k], After(days, k, n, cost);
    assert day in days && !Refused(day);
    BudgetKeepsSound(days, k, n, cost, day.opens);
    var current := Worths(before.units, day.opens);
    WorthsNotNegative(before.units, day.opens);
    OverBudgetBorrows(before.cash, day.target.value, current, cost);
    assert After(days, k + 1, n, cost).cash < 0.0;
  }

  lemma {:induction false} LeastOnlyFalls(days: seq<Day>, j: nat, k: nat, n: nat, cost: real)
    requires j <= k <= |days| && ValidDays(days, n)
    ensures LeastCash(days, k, n, cost) <= LeastCash(days, j, n, cost)
    decreases k
  {
    hide Opened;
    if j < k { LeastOnlyFalls(days, j, k - 1, n, cost); }
  }

  lemma {:induction false} FirstExcess(days: seq<Day>, k: nat) returns (j: nat)
    requires k <= |days| && !WithinBudget(days, k)
    ensures j < k && WithinBudget(days, j) && days[j].target.Some? && Sum(days[j].target.value) > 1.0
  {
    if k > 0 && !WithinBudget(days, k - 1) {
      j := FirstExcess(days, k - 1);
    } else {
      j := k - 1;
    }
  }

  /** A replay borrows cash exactly when some target exceeds the whole budget, whatever the prices; the
      condition is about the targets and the cost alone. */
  lemma BorrowsExactly(days: seq<Day>, n: nat, cost: real)
    requires ValidDays(days, n) && NoneRefused(days, |days|) && 0.0 <= cost < 1.0 && Decided(days, cost)
    ensures LeastCash(days, |days|, n, cost) < 0.0 <==> !WithinBudget(days, |days|)
  {
    hide LeastCash, IsOverBudget;
    if WithinBudget(days, |days|) {
      if days == [] {
        NoDaysNoLoss(days, n, cost);
      } else {
        assert days[0] in days;
        BudgetKeepsSound(days, |days|, n, cost, days[0].opens);
      }
    } else {
      var j := FirstExcess(days, |days|);
      FirstExcessBorrows(days, j, n, cost);
      LeastOnlyFalls(days, j + 1, |days|, n, cost);
    }
  }

  lemma NoDaysNoLoss(days: seq<Day>, n: nat, cost: real)
    requires days == []
    ensures LeastCash(days, 0, n, cost) >= 0.0
  {
  }

  /** Accepted targets whose sums are doubles are decided at any cost up to nine tenths. */
  lemma DoubleTargetsAreDecided(days: seq<Day>, cost: real)
    requires NoneRefused(days, |days|) && 0.0 <= cost <= 0.9
    requires forall i :: 0 <= i < |days| && days[i].target.Some? ==>
      Sum(days[i].target.value) <= 1.0 || Sum(days[i].target.value) >= 1.0 + ULP
    ensures Decided(days, cost)
  {
    forall i | 0 <= i < |days| && days[i].target.Some? && Sum(days[i].target.value) > 1.0
      ensures IsOverBudget(Sum(days[i].target.value), cost)
    {
      assert !Refused(days[i]);
      DoublesAreDecided(Sum(days[i].target.value), cost);
    }
  }

  /** The tolerance on the budget is not harmless: a replay of one day at one price, at no cost, with a
      target the engine accepts, borrows. */
  lemma ToleratedTargetBorrows(day: Day)
    requires day == Day([1.0], [1.0], Some([BUDGET]))
    ensures ValidDays([day], 1) && NoneRefused([day], 1) && LeastCash([day], 1, 1, 0.0) < 0.0
  {
    var days := [day];
    assert Sum([BUDGET]) == BUDGET by { SumAppend([], BUDGET); }
    assert days[0].target.Some?;
    DoubleTargetsAreDecided(days, 0.0);
    BorrowsExactly(days, 1, 0.0);
  }
}
