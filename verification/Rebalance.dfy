/** Self-financing rebalances: the value left after costs is found by bisection before anything is sized.

  Symbols are positions in sequences; a symbol that a target or a portfolio lacks has weight or value zero.
 */
module Rebalance {
  import opened Basics
  import opened Robustness

  const HALVINGS := 60

  function Times(a: real, b: real): real { a * b }

  function Abs(x: real): real { if x < 0.0 then -x else x }

  function Power2(n: nat): (r: real)
    ensures r >= 1.0
  {
    if n == 0 then 1.0 else 2.0 * Power2(n - 1)
  }

  /** How far the holdings are from the target at a net value: what has to be traded. */
  function Turnover(net: real, weights: seq<real>, held: seq<real>): real
    requires |weights| == |held|
  {
    if weights == [] then 0.0
    else
      var n := |weights| - 1;
      Turnover(net, weights[..n], held[..n]) + Abs(Times(net, weights[n]) - held[n])
  }

  function Paid(net: real, weights: seq<real>, held: seq<real>, cost: real): real
    requires |weights| == |held|
  {
    Times(cost, Turnover(net, weights, held))
  }

  /** What a net value after costs takes from the equity before them. */
  function Needed(net: real, weights: seq<real>, held: seq<real>, cost: real): real
    requires |weights| == |held|
  {
    net + Paid(net, weights, held, cost)
  }

  predicate NonNegative(s: seq<real>) {
    forall x :: x in s ==> x >= 0.0
  }

  lemma PrefixNonNegative(s: seq<real>, n: nat)
    requires NonNegative(s) && n <= |s|
    ensures NonNegative(s[..n])
  {
    forall x | x in s[..n] ensures x >= 0.0 { assert x in s; }
  }

  // ---- arithmetic ----

  lemma TimesMonotone(c: real, a: real, b: real)
    requires c >= 0.0 && a <= b
    ensures Times(c, a) <= Times(c, b) && Times(a, c) <= Times(b, c)
  {
  }

  lemma TimesAdds(c: real, a: real, b: real)
    ensures Times(c, a + b) == Times(c, a) + Times(c, b) && Times(a + b, c) == Times(a, c) + Times(b, c)
  {
  }

  lemma OneLeg(a: real, b: real, weight: real, held: real)
    requires a <= b && weight >= 0.0
    ensures Abs(Times(b, weight) - held) - Abs(Times(a, weight) - held) <= Times(b - a, weight)
    ensures Abs(Times(a, weight) - held) - Abs(Times(b, weight) - held) <= Times(b - a, weight)
  {
    TimesAdds(weight, a, b - a);
    assert a + (b - a) == b;
    TimesMonotone(weight, 0.0, b - a);
    assert Times(weight, 0.0) == 0.0 == Times(0.0, weight);
  }

  /** The turnover changes at most by the weights' share of the net value's change. */
  lemma {:induction false} TurnoverIsSlow(a: real, b: real, weights: seq<real>, held: seq<real>)
    requires |weights| == |held| && a <= b && NonNegative(weights)
    ensures Turnover(b, weights, held) - Turnover(a, weights, held) <= Times(b - a, Sum(weights))
    ensures Turnover(a, weights, held) - Turnover(b, weights, held) <= Times(b - a, Sum(weights))
  {
    if weights == [] {
      assert Times(b - a, 0.0) == 0.0;
    } else {
      var n := |weights| - 1;
      assert weights[n] in weights;
      PrefixNonNegative(weights, n);
      TurnoverIsSlow(a, b, weights[..n], held[..n]);
      OneLeg(a, b, weights[n], held[n]);
      TimesAdds(b - a, Sum(weights[..n]), weights[n]);
    }
  }

  /** Costs below one and at most a whole budget: more net value always needs more equity. */
  lemma NeedIncreases(a: real, b: real, weights: seq<real>, held: seq<real>, cost: real)
    requires |weights| == |held| && a < b && NonNegative(weights) && 0.0 <= cost && Times(cost, Sum(weights)) < 1.0
    ensures Needed(a, weights, held, cost) < Needed(b, weights, held, cost)
  {
    TurnoverIsSlow(a, b, weights, held);
    Strict(a, b, Turnover(a, weights, held), Turnover(b, weights, held), Sum(weights), cost);
  }

  lemma Strict(a: real, b: real, s: real, t: real, w: real, cost: real)
    requires a < b && cost >= 0.0 && Times(cost, w) < 1.0 && s - t <= Times(b - a, w)
    ensures a + Times(cost, s) < b + Times(cost, t)
  {
    TimesMonotone(cost, s - t, Times(b - a, w));
    TimesAdds(cost, t, s - t);
    assert t + (s - t) == s;
    assert Times(cost, Times(b - a, w)) == Times(b - a, Times(cost, w));
    Shrinks(b - a, Times(cost, w));
  }

  lemma Shrinks(x: real, c: real)
    requires x > 0.0 && c < 1.0
    ensures Times(x, c) < x
  {
    assert x * (1.0 - c) > 0.0;
  }

  lemma {:induction false} TurnoverNotNegative(net: real, weights: seq<real>, held: seq<real>)
    requires |weights| == |held|
    ensures Turnover(net, weights, held) >= 0.0
  {
    if weights != [] { TurnoverNotNegative(net, weights[..|weights| - 1], held[..|weights| - 1]); }
  }

  /** At net value zero everything is sold. */
  lemma {:induction false} SellingEverything(weights: seq<real>, held: seq<real>)
    requires |weights| == |held| && NonNegative(held)
    ensures Turnover(0.0, weights, held) == Sum(held) >= 0.0
  {
    if weights != [] {
      var n := |weights| - 1;
      assert held[n] in held;
      PrefixNonNegative(held, n);
      SellingEverything(weights[..n], held[..n]);
      assert Times(0.0, weights[n]) == 0.0;
    }
  }

  // ---- the bisection ----

  /** The bracket after k halvings: affordable below, not affordable above. */
  predicate Brackets(low: real, high: real, k: nat, equity: real, weights: seq<real>, held: seq<real>, cost: real)
    requires |weights| == |held|
  {
    && 0.0 <= low <= high <= equity && Times(high - low, Power2(k)) == equity
    && Needed(low, weights, held, cost) <= equity <= Needed(high, weights, held, cost)
  }

  /** `net` is the lower end the search leaves: some upper end within equity over 2 to the 60 brackets it. */
  ghost predicate Bracketed(net: real, equity: real, weights: seq<real>, held: seq<real>, cost: real)
    requires |weights| == |held|
  {
    exists above :: Brackets(net, above, HALVINGS, equity, weights, held, cost)
  }

  lemma StartBrackets(cash: real, equity: real, weights: seq<real>, held: seq<real>, cost: real)
    requires |weights| == |held| && NonNegative(held) && cash >= 0.0 && equity == cash + Sum(held) && 0.0 <= cost < 1.0
    ensures equity >= 0.0 && Brackets(0.0, equity, 0, equity, weights, held, cost)
  {
    SellingEverything(weights, held);
    TurnoverNotNegative(equity, weights, held);
    TimesMonotone(cost, 0.0, Turnover(equity, weights, held));
    TimesMonotone(Sum(held), cost, 1.0);
    assert Times(1.0, Sum(held)) == Sum(held) && Times(cost, 0.0) == 0.0;
    assert Times(equity - 0.0, 1.0) == equity;
  }

  lemma HalfBracket(low: real, high: real, k: nat, equity: real)
    requires Times(high - low, Power2(k)) == equity
    ensures var mid := (low + high) / 2.0;
      Times(mid - low, Power2(k + 1)) == equity && Times(high - mid, Power2(k + 1)) == equity
  {
    var mid := (low + high) / 2.0;
    assert mid - low == (high - low) / 2.0 && high - mid == (high - low) / 2.0;
    Doubled((high - low) / 2.0, Power2(k));
  }

  lemma Doubled(x: real, p: real)
    ensures Times(x, 2.0 * p) == Times(2.0 * x, p)
  {
  }

  /** What the bisection starts from: cash and holdings that are not negative, and a cost below one. */
  predicate Solvent(cash: real, held: seq<real>, cost: real) {
    cash >= 0.0 && NonNegative(held) && 0.0 <= cost < 1.0
  }

  /** The lower end after some more halvings. */
  function Halved(low: real, high: real, more: nat, equity: real, weights: seq<real>, held: seq<real>, cost: real): real
    requires |weights| == |held|
    decreases more
  {
    if more == 0 then low
    else
      var mid := (low + high) / 2.0;
      if Needed(mid, weights, held, cost) > equity then Halved(low, mid, more - 1, equity, weights, held, cost)
      else Halved(mid, high, more - 1, equity, weights, held, cost)
  }

  /** The net value a rebalance is sized from. */
  function NetOf(equity: real, weights: seq<real>, held: seq<real>, cost: real): real
    requires |weights| == |held|
  {
    Halved(0.0, equity, HALVINGS, equity, weights, held, cost)
  }

  lemma {:induction false} HalvedIsBracketed(low: real, high: real, k: nat, more: nat, equity: real, weights: seq<real>, held: seq<real>, cost: real)
    requires |weights| == |held| && k + more == HALVINGS && Brackets(low, high, k, equity, weights, held, cost)
    ensures Bracketed(Halved(low, high, more, equity, weights, held, cost), equity, weights, held, cost)
    decreases more
  {
    if more > 0 {
      HalfBracket(low, high, k, equity);
      var mid := (low + high) / 2.0;
      if Needed(mid, weights, held, cost) > equity {
        HalvedIsBracketed(low, mid, k + 1, more - 1, equity, weights, held, cost);
      } else {
        HalvedIsBracketed(mid, high, k + 1, more - 1, equity, weights, held, cost);
      }
    }
  }

  /** Sixty halvings leave an affordable net value, and an unaffordable one a 2^-60 part of the equity above it. */
  lemma NetIsBracketed(cash: real, weights: seq<real>, held: seq<real>, cost: real)
    requires |weights| == |held| && Solvent(cash, held, cost)
    ensures Bracketed(NetOf(cash + Sum(held), weights, held, cost), cash + Sum(held), weights, held, cost)
  {
    hide Halved, Brackets, Bracketed;
    var equity := cash + Sum(held);
    StartBrackets(cash, equity, weights, held, cost);
    HalvedIsBracketed(0.0, equity, 0, HALVINGS, equity, weights, held, cost);
  }

  /** Sixty halvings of the interval from nothing to the whole equity. */
  method SolveNet(equity: real, weights: seq<real>, held: seq<real>, cost: real) returns (net: real)
    requires |weights| == |held|
    ensures net == NetOf(equity, weights, held, cost)
  {
    var low, high := 0.0, equity;
    for k := 0 to HALVINGS
      invariant Halved(low, high, HALVINGS - k, equity, weights, held, cost) == NetOf(equity, weights, held, cost)
    {
      var mid := (low + high) / 2.0;
      if Needed(mid, weights, held, cost) > equity {
        high := mid;
      } else {
        low := mid;
      }
    }
    return low;
  }

  /** The net value found is below any exact solution, by at most the equity over 2 to the 60. */
  lemma NetIsClose(net: real, above: real, exact: real, equity: real, weights: seq<real>, held: seq<real>, cost: real)
    requires |weights| == |held| && NonNegative(weights) && 0.0 <= cost && Times(cost, Sum(weights)) < 1.0
    requires Brackets(net, above, HALVINGS, equity, weights, held, cost) && Needed(exact, weights, held, cost) == equity
    ensures net <= exact && Times(exact - net, Power2(HALVINGS)) <= equity
  {
    if exact < net { NeedIncreases(exact, net, weights, held, cost); }
    if above < exact { NeedIncreases(above, exact, weights, held, cost); }
    TimesMonotone(Power2(HALVINGS), exact - net, above - net);
  }

  // ---- what a rebalance leaves ----

  /** The values held after the trades. */
  function Sized(net: real, weights: seq<real>): (r: seq<real>)
    ensures |r| == |weights|
  {
    if weights == [] then []
    else
      var n := |weights| - 1;
      Sized(net, weights[..n]) + [if weights[n] > 0.0 then Times(net, weights[n]) else 0.0]
  }

  lemma {:induction false} SizedSum(net: real, weights: seq<real>)
    requires NonNegative(weights)
    ensures Sum(Sized(net, weights)) == Times(net, Sum(weights)) && (net >= 0.0 ==> NonNegative(Sized(net, weights)))
  {
    if weights == [] {
      assert Times(net, 0.0) == 0.0;
    } else {
      var n := |weights| - 1;
      var last := if weights[n] > 0.0 then Times(net, weights[n]) else 0.0;
      assert weights[n] in weights;
      PrefixNonNegative(weights, n);
      SizedSum(net, weights[..n]);
      TimesAdds(net, Sum(weights[..n]), weights[n]);
      if net >= 0.0 { TimesMonotone(net, 0.0, weights[n]); }
      assert Times(net, 0.0) == 0.0;
      SumAppend(Sized(net, weights[..n]), last);
    }
  }

  /** Each symbol gets its weight of the net value. */
  lemma {:induction false} SizedMeans(net: real, weights: seq<real>, i: nat)
    requires NonNegative(weights) && i < |weights|
    ensures Sized(net, weights)[i] == Times(net, weights[i])
    decreases |weights|
  {
    assert weights[i] in weights;
    assert Times(net, 0.0) == 0.0;
    if i < |weights| - 1 {
      PrefixNonNegative(weights, |weights| - 1);
      SizedMeans(net, weights[..|weights| - 1], i);
    }
  }

  /** The cash a rebalance leaves. */
  function LeftOf(cash: real, weights: seq<real>, held: seq<real>, cost: real): real
    requires |weights| == |held|
  {
    var equity := cash + Sum(held);
    var net := NetOf(equity, weights, held, cost);
    equity - Paid(net, weights, held, cost) - Times(net, Sum(weights))
  }

  /** One rebalance, sized from the net value found. */
  method RebalanceOnce(cash: real, weights: seq<real>, held: seq<real>, cost: real)
    returns (left: real, values: seq<real>, paid: real)
    requires |weights| == |held|
    ensures var net := NetOf(cash + Sum(held), weights, held, cost);
      values == Sized(net, weights) && paid == Paid(net, weights, held, cost) && left == LeftOf(cash, weights, held, cost)
  {
    hide Halved;
    var equity := cash + Sum(held);
    var net := SolveNet(equity, weights, held, cost);
    paid := Paid(net, weights, held, cost);
    values := Sized(net, weights);
    left := equity - paid - Times(net, Sum(weights));
  }

  /** Rebalancing is self-financing: value after plus costs paid is the equity before.  From a solvent
      account nothing held is negative, nor is the cash while the target is within the budget. */
  lemma RebalanceConserves(cash: real, weights: seq<real>, held: seq<real>, cost: real)
    requires |weights| == |held| && NonNegative(weights)
    ensures var net := NetOf(cash + Sum(held), weights, held, cost);
      var left, values, paid := LeftOf(cash, weights, held, cost), Sized(net, weights), Paid(net, weights, held, cost);
      && left + Sum(values) + paid == cash + Sum(held)
      && (Solvent(cash, held, cost) ==>
            && NonNegative(values) && paid >= 0.0
            && left >= if Sum(weights) <= 1.0 then 0.0 else -Times(cash + Sum(held), Sum(weights) - 1.0))
  {
    hide Halved;
    var equity := cash + Sum(held);
    var net := NetOf(equity, weights, held, cost);
    SizedSum(net, weights);
    if Solvent(cash, held, cost) {
      NetIsBracketed(cash, weights, held, cost);
      TurnoverNotNegative(net, weights, held);
      TimesMonotone(cost, 0.0, Turnover(net, weights, held));
      assert Times(cost, 0.0) == 0.0;
      CashLeft(net, Sum(weights), equity);
    }
  }

  lemma CashLeft(net: real, w: real, equity: real)
    requires 0.0 <= net <= equity
    ensures Times(net, w) <= if w <= 1.0 then net else net + Times(equity, w - 1.0)
  {
    if w <= 1.0 {
      TimesMonotone(net, w, 1.0);
    } else {
      TimesMonotone(w - 1.0, net, equity);
      TimesAdds(net, 1.0, w - 1.0);
      assert Times(net, 1.0) == net && 1.0 + (w - 1.0) == w;
    }
  }

  // ---- when a target beyond the budget borrows ----

  /** The sum of a target is so far beyond the whole budget that no rounding of the search hides it. */
  predicate IsOverBudget(weight: real, cost: real) {
    var d := 1.0 + Times(cost, weight);
    weight > 1.0 && Times(weight - 1.0, Times(1.0 - cost, Power2(HALVINGS)) - d) > Times(d, d)
  }

  lemma {:induction false} TurnoverIsBounded(net: real, weights: seq<real>, held: seq<real>)
    requires |weights| == |held| && NonNegative(weights) && NonNegative(held) && net >= 0.0
    ensures Turnover(net, weights, held) <= Times(net, Sum(weights)) + Sum(held)
  {
    if weights == [] {
      assert Times(net, 0.0) == 0.0;
    } else {
      var n := |weights| - 1;
      assert weights[n] in weights && held[n] in held;
      PrefixNonNegative(weights, n);
      PrefixNonNegative(held, n);
      TurnoverIsBounded(net, weights[..n], held[..n]);
      TimesMonotone(net, 0.0, weights[n]);
      assert Times(net, 0.0) == 0.0;
      TimesAdds(net, Sum(weights[..n]), weights[n]);
    }
  }

  /** What the search leaves of the equity, and how much it finds at least. */
  lemma SearchIsTight(cash: real, weights: seq<real>, held: seq<real>, cost: real)
    requires |weights| == |held| && NonNegative(weights) && Solvent(cash, held, cost)
    ensures var equity, w := cash + Sum(held), Sum(weights);
      var net := NetOf(equity, weights, held, cost);
      var rest, d := equity - Needed(net, weights, held, cost), 1.0 + Times(cost, w);
      && 0.0 <= net <= equity && rest >= 0.0 && Times(rest, Power2(HALVINGS)) <= Times(equity, d)
      && Times(net, d) >= Times(equity, 1.0 - cost) - rest
      && LeftOf(cash, weights, held, cost) == rest - Times(net, w - 1.0)
  {
    hide Halved;
    var equity, w := cash + Sum(held), Sum(weights);
    var net := NetOf(equity, weights, held, cost);
    NetIsBracketed(cash, weights, held, cost);
    var above :| Brackets(net, above, HALVINGS, equity, weights, held, cost);
    TurnoverIsSlow(net, above, weights, held);
    TurnoverIsBounded(net, weights, held);
    RestIsSmall(net, above, Turnover(net, weights, held), Turnover(above, weights, held), equity, w, cost, Power2(HALVINGS));
    NetIsLarge(net, Turnover(net, weights, held), equity, Sum(held), w, cost);
    TimesAdds(net, w - 1.0, 1.0);
    assert (w - 1.0) + 1.0 == w && Times(net, 1.0) == net;
  }

  lemma RestIsSmall(net: real, above: real, s: real, t: real, equity: real, w: real, cost: real, halves: real)
    requires net <= above && cost >= 0.0 && halves >= 1.0 && Times(above - net, halves) == equity
    requires equity <= above + Times(cost, t) && t - s <= Times(above - net, w)
    ensures Times(equity - (net + Times(cost, s)), halves) <= Times(equity, 1.0 + Times(cost, w))
  {
    var x := above - net;
    TimesMonotone(cost, t - s, Times(x, w));
    TimesAdds(cost, s, t - s);
    assert s + (t - s) == t;
    assert Times(cost, Times(x, w)) == Times(x, Times(cost, w));
    TimesAdds(x, 1.0, Times(cost, w));
    assert Times(x, 1.0) == x;
    TimesMonotone(halves, equity - (net + Times(cost, s)), Times(x, 1.0 + Times(cost, w)));
    Swap(x, 1.0 + Times(cost, w), halves);
  }

  lemma Swap(x: real, y: real, z: real)
    ensures Times(Times(x, y), z) == Times(Times(x, z), y)
  {
  }

  lemma NetIsLarge(net: real, turnover: real, equity: real, held: real, w: real, cost: real)
    requires cost >= 0.0 && held <= equity && turnover <= Times(net, w) + held
    ensures Times(net, 1.0 + Times(cost, w)) >= Times(equity, 1.0 - cost) - (equity - (net + Times(cost, turnover)))
  {
    TimesMonotone(cost, turnover, Times(net, w) + held);
    TimesAdds(cost, Times(net, w), held);
    TimesMonotone(cost, held, equity);
    TimesAdds(net, 1.0, Times(cost, w));
    assert Times(net, 1.0) == net && Times(cost, Times(net, w)) == Times(net, Times(cost, w));
    TimesAdds(equity, 1.0, -cost);
    assert 1.0 + -cost == 1.0 - cost && Times(equity, 1.0) == equity && Times(equity, -cost) == -Times(cost, equity);
  }

  /** From net values alone: too large a target outweighs what the search left. */
  lemma RestIsOutweighed(net: real, rest: real, equity: real, w: real, cost: real, halves: real, d: real)
    requires equity > 0.0 && d >= 1.0 && w > 1.0 && halves >= 1.0 && rest >= 0.0
    requires Times(rest, halves) <= Times(equity, d) && Times(net, d) >= Times(equity, 1.0 - cost) - rest
    requires Times(w - 1.0, Times(1.0 - cost, halves) - d) > Times(d, d)
    ensures rest < Times(net, w - 1.0)
  {
    hide Times;
    var x := w - 1.0;
    Regroup(halves, x, d, net, rest, equity);
    Outgrows(equity, Times(x, Times(1.0 - cost, halves) - d), Times(d, d));
    PositiveProduct(halves, x);
    TimesMonotone(Times(halves, x), Times(equity, 1.0 - cost) - rest, Times(net, d));
    Expand(halves, x, equity, cost, rest);
    TimesMonotone(x, Times(rest, halves), Times(equity, d));
    TimesMonotone(d, Times(rest, halves), Times(equity, d));
    Gather(x, equity, cost, halves, d);
    PositiveProduct(halves, d);
    if rest >= Times(net, x) { TimesMonotone(Times(halves, d), Times(net, x), rest); }
  }

  lemma PositiveProduct(a: real, b: real)
    requires a > 0.0 && b > 0.0
    ensures Times(a, b) > 0.0
  {
  }

  lemma Regroup(halves: real, x: real, d: real, net: real, rest: real, equity: real)
    ensures Times(Times(halves, d), Times(net, x)) == Times(Times(halves, x), Times(net, d))
    ensures Times(Times(halves, d), rest) == Times(d, Times(rest, halves))
    ensures Times(d, Times(equity, d)) == Times(equity, Times(d, d))
  {
  }

  lemma Expand(halves: real, x: real, equity: real, cost: real, rest: real)
    ensures Times(Times(halves, x), Times(equity, 1.0 - cost) - rest) ==
      Times(equity, Times(x, Times(1.0 - cost, halves))) - Times(x, Times(rest, halves))
  {
    TimesAdds(Times(halves, x), Times(equity, 1.0 - cost), -rest);
    assert Times(Times(halves, x), -rest) == -Times(x, Times(rest, halves));
    assert Times(Times(halves, x), Times(equity, 1.0 - cost)) == Times(equity, Times(x, Times(1.0 - cost, halves)));
  }

  lemma Gather(x: real, equity: real, cost: real, halves: real, d: real)
    ensures Times(equity, Times(x, Times(1.0 - cost, halves))) - Times(x, Times(equity, d)) ==
      Times(equity, Times(x, Times(1.0 - cost, halves) - d))
  {
    TimesAdds(x, Times(1.0 - cost, halves), -d);
    TimesAdds(equity, Times(x, Times(1.0 - cost, halves)), Times(x, -d));
    assert Times(equity, Times(x, -d)) == -Times(x, Times(equity, d));
  }

  lemma Outgrows(e: real, a: real, b: real)
    requires e > 0.0 && a > b
    ensures Times(e, a) > Times(e, b)
  {
    assert e * (a - b) > 0.0;
  }

  /** The cash a rebalance leaves is never negative while its target sums to at most one, and always
      negative when the sum is over the budget, whatever the legs, the holdings and the equity. */
  lemma OverBudgetBorrows(cash: real, weights: seq<real>, held: seq<real>, cost: real)
    requires |weights| == |held| && NonNegative(weights) && Solvent(cash, held, cost) && cash + Sum(held) > 0.0
    ensures Sum(weights) <= 1.0 ==> LeftOf(cash, weights, held, cost) >= 0.0
    ensures IsOverBudget(Sum(weights), cost) ==> LeftOf(cash, weights, held, cost) < 0.0
  {
    hide Halved, LeftOf, NetOf, Needed;
    RebalanceConserves(cash, weights, held, cost);
    var equity, w := cash + Sum(held), Sum(weights);
    if IsOverBudget(w, cost) {
      SearchIsTight(cash, weights, held, cost);
      var net := NetOf(equity, weights, held, cost);
      TimesMonotone(cost, 0.0, w);
      assert Times(cost, 0.0) == 0.0;
      RestIsOutweighed(net, equity - Needed(net, weights, held, cost), equity, w, cost, Power2(HALVINGS), 1.0 + Times(cost, w));
    }
  }

  /** A rebalance never pays everything away. */
  lemma WealthStays(cash: real, weights: seq<real>, held: seq<real>, cost: real)
    requires |weights| == |held| && NonNegative(weights) && Solvent(cash, held, cost) && cash + Sum(held) > 0.0
    ensures cash + Sum(held) - Paid(NetOf(cash + Sum(held), weights, held, cost), weights, held, cost) > 0.0
  {
    hide Halved, LeftOf, NetOf;
    SearchIsTight(cash, weights, held, cost);
    PositiveProduct(cash + Sum(held), 1.0 - cost);
  }

  function SixteenTo(i: nat): real { if i == 0 then 1.0 else 16.0 * SixteenTo(i - 1) }

  lemma PowerAdds(n: nat)
    ensures Power2(n + 4) == 16.0 * Power2(n)
  {
    assert Power2(n + 4) == 2.0 * Power2(n + 3) && Power2(n + 3) == 2.0 * Power2(n + 2);
    assert Power2(n + 2) == 2.0 * Power2(n + 1) && Power2(n + 1) == 2.0 * Power2(n);
  }

  lemma {:induction false} PowersOfSixteen(i: nat)
    ensures Power2(4 * i) == SixteenTo(i)
  {
    if i > 0 {
      PowersOfSixteen(i - 1);
      PowerAdds(4 * (i - 1));
    }
  }

  lemma SixtyHalvings()
    ensures Power2(HALVINGS) == 1152921504606846976.0
  {
    PowersOfSixteen(15);
    assert SixteenTo(3) == 4096.0;
    assert SixteenTo(6) == 16777216.0;
    assert SixteenTo(9) == 68719476736.0;
    assert SixteenTo(12) == 281474976710656.0;
  }

  /** The spacing of doubles just above one. */
  const ULP := 1.0 / 4503599627370496.0

  /** A sum of weights that is a double, at a cost up to nine tenths, is within the budget or over it:
      nothing lies between. */
  lemma DoublesAreDecided(weight: real, cost: real)
    requires 0.0 <= cost <= 0.9 && 1.0 + ULP <= weight <= 1.1
    ensures IsOverBudget(weight, cost)
  {
    SixtyHalvings();
    var halves := 1152921504606846976.0;
    var x, d := weight - 1.0, 1.0 + Times(cost, weight);
    TimesMonotone(cost, 0.0, weight);
    TimesMonotone(cost, weight, 1.1);
    assert Times(cost, 0.0) == 0.0 && Times(cost, 1.1) == 1.1 * cost;
    assert 1.0 <= d <= 2.0;
    TimesMonotone(d, d, 2.0);
    assert Times(d, 2.0) == 2.0 * d;
    var y := Times(1.0 - cost, halves) - d;
    assert y >= 0.05 * halves;
    TimesMonotone(x, 0.05 * halves, y);
    assert Times(x, 0.05 * halves) == x * 0.05 * halves;
    assert x * halves >= 256.0;
  }
}
