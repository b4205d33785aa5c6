/** Trade concentration and drawdown of reported results, in exact arithmetic. */
module Robustness {
  import opened Basics

  function Sum(s: seq<real>): real {
    if s == [] then 0.0 else Sum(s[..|s| - 1]) + s[|s| - 1]
  }

  lemma SumAppend(s: seq<real>, x: real)
    ensures Sum(s + [x]) == Sum(s) + x
  {
    assert (s + [x])[..|s|] == s;
  }

  lemma {:induction false} SumConcat(a: seq<real>, b: seq<real>)
    ensures Sum(a + b) == Sum(a) + Sum(b)
  {
    if b == [] {
      assert a + b == a;
    } else {
      var last := b[|b| - 1];
      SumConcat(a, b[..|b| - 1]);
      assert a + b == (a + b[..|b| - 1]) + [last];
      SumAppend(a + b[..|b| - 1], last);
    }
  }

  // ---- trade concentration ----

  function Winners(pnls: seq<real>): seq<real> {
    if pnls == [] then []
    else Winners(pnls[..|pnls| - 1]) + (if pnls[|pnls| - 1] > 0.0 then [pnls[|pnls| - 1]] else [])
  }

  predicate Descending(s: seq<real>) {
    forall i, j :: 0 <= i < j < |s| ==> s[i] >= s[j]
  }

  /** Ranking keeps equal winners in the order they came. */
  function Rank(s: seq<real>, x: real): (r: seq<real>)
    ensures |r| == |s| + 1
  {
    if s == [] || s[|s| - 1] >= x then s + [x] else Rank(s[..|s| - 1], x) + [s[|s| - 1]]
  }

  function Ranked(s: seq<real>): (r: seq<real>)
    ensures |r| == |s|
  {
    if s == [] then [] else Rank(Ranked(s[..|s| - 1]), s[|s| - 1])
  }

  lemma {:induction false} RankSum(s: seq<real>, x: real)
    ensures Sum(Rank(s, x)) == Sum(s) + x
  {
    if s == [] || s[|s| - 1] >= x {
      SumAppend(s, x);
    } else {
      RankSum(s[..|s| - 1], x);
      SumAppend(Rank(s[..|s| - 1], x), s[|s| - 1]);
    }
  }

  lemma {:induction false} RankMembers(s: seq<real>, x: real)
    ensures multiset(Rank(s, x)) == multiset(s) + multiset{x}
  {
    if s != [] && s[|s| - 1] < x {
      RankMembers(s[..|s| - 1], x);
      assert s == s[..|s| - 1] + [s[|s| - 1]];
    }
  }

  lemma {:induction false} RankSorted(s: seq<real>, x: real)
    requires Descending(s)
    ensures Descending(Rank(s, x))
  {
    if s != [] && s[|s| - 1] < x {
      var init, last := s[..|s| - 1], s[|s| - 1];
      RankSorted(init, x);
      RankMembers(init, x);
      var r := Rank(init, x);
      forall i | 0 <= i < |r| ensures r[i] >= last {
        assert r[i] in multiset(r);
        assert r[i] in init || r[i] == x;
      }
    }
  }

  /** Ranking is a descending rearrangement. */
  lemma {:induction false} RankedIsSorted(s: seq<real>)
    ensures Descending(Ranked(s)) && Sum(Ranked(s)) == Sum(s) && multiset(Ranked(s)) == multiset(s)
  {
    if s != [] {
      assert s == s[..|s| - 1] + [s[|s| - 1]];
      RankedIsSorted(s[..|s| - 1]);
      RankSum(Ranked(s[..|s| - 1]), s[|s| - 1]);
      RankMembers(Ranked(s[..|s| - 1]), s[|s| - 1]);
      RankSorted(Ranked(s[..|s| - 1]), s[|s| - 1]);
    }
  }

  function Min(a: nat, b: nat): nat { if a <= b then a else b }

  function TopSum(pnls: seq<real>, n: nat): real {
    var ranked := Ranked(Winners(pnls));
    Sum(ranked[..Min(n, |ranked|)])
  }

  /** The share of the net result that the n largest winners make up, when the net result is positive. */
  function TopShare(pnls: seq<real>, n: nat): Option<real> {
    if Sum(pnls) > 0.0 then Some(TopSum(pnls, n) / Sum(pnls)) else None
  }

  /** k copies of x. */
  function Copies(k: nat, x: real): real {
    if k == 0 then 0.0 else Copies(k - 1, x) + x
  }

  lemma {:induction false} CopiesIs(k: nat, x: real)
    ensures Copies(k, x) == k as real * x
  {
    if k > 0 {
      CopiesIs(k - 1, x);
      assert k as real == (k - 1) as real + 1.0;
      OneMore((k - 1) as real, x);
    }
  }

  lemma OneMore(k: real, x: real)
    ensures (k + 1.0) * x == k * x + x
  {
  }

  lemma {:induction false} SumBetween(s: seq<real>, low: real, high: real)
    requires forall i :: 0 <= i < |s| ==> low <= s[i] <= high
    ensures Copies(|s|, low) <= Sum(s) <= Copies(|s|, high)
  {
    if s != [] { SumBetween(s[..|s| - 1], low, high); }
  }

  lemma ScaleLe(c: real, a: real, b: real)
    requires a <= b && c >= 0.0
    ensures c * a <= c * b
  {
  }

  lemma SplitSum(s: seq<real>, k: nat)
    requires k <= |s|
    ensures Sum(s) == Sum(s[..k]) + Sum(s[k..])
  {
    assert s == s[..k] + s[k..];
    SumConcat(s[..k], s[k..]);
  }

  lemma TopAbovePivot(s: seq<real>, k: nat)
    requires Descending(s) && k < |s|
    ensures Sum(s[..k]) >= Copies(k, s[k])
  {
    SumBetween(s[..k], s[k], s[0]);
  }

  lemma RestBelowPivot(s: seq<real>, k: nat)
    requires Descending(s) && k < |s|
    ensures Sum(s[k..]) <= Copies(|s| - k, s[k])
  {
    SumBetween(s[k..], s[|s| - 1], s[k]);
  }

  lemma PivotShare(k: nat, n: nat, top: real, rest: real, total: real, pivot: real)
    requires k <= n && top >= Copies(k, pivot) && rest <= Copies(n - k, pivot) && total == top + rest
    ensures Copies(n, top) >= Copies(k, total)
  {
    CopiesIs(k, pivot);
    CopiesIs(n - k, pivot);
    CopiesIs(n, top);
    CopiesIs(k, top + rest);
    Combine(k as real, (n - k) as real, top, rest, pivot);
  }

  /** The first k in descending order have at least their share, k of |s|, of the sum. */
  lemma TopHasItsShare(s: seq<real>, k: nat)
    requires Descending(s) && k <= |s|
    ensures Copies(|s|, Sum(s[..k])) >= Copies(k, Sum(s))
  {
    if k < |s| {
      ShareBelowPivot(s, k);
    } else {
      assert s[..k] == s;
    }
  }

  lemma ShareBelowPivot(s: seq<real>, k: nat)
    requires Descending(s) && k < |s|
    ensures Copies(|s|, Sum(s[..k])) >= Copies(k, Sum(s))
  {
    SplitSum(s, k);
    TopAbovePivot(s, k);
    RestBelowPivot(s, k);
    PivotShare(k, |s|, Sum(s[..k]), Sum(s[k..]), Sum(s), s[k]);
  }

  lemma Combine(k: real, m: real, top: real, rest: real, pivot: real)
    requires k >= 0.0 && m >= 0.0 && top >= k * pivot && rest <= m * pivot
    ensures (k + m) * top >= k * (top + rest)
  {
    ScaleLe(m, k * pivot, top);
    ScaleLe(k, rest, m * pivot);
    assert m * (k * pivot) == k * (m * pivot);
    assert (k + m) * top == k * top + m * top;
    assert k * (top + rest) == k * top + k * rest;
  }

  lemma {:induction false} WinnersCoverNet(pnls: seq<real>)
    ensures Sum(Winners(pnls)) >= Sum(pnls)
    ensures |Winners(pnls)| <= |pnls|
    ensures forall x :: x in Winners(pnls) ==> x > 0.0
    ensures |Winners(pnls)| == |pnls| ==> Winners(pnls) == pnls
  {
    if pnls != [] {
      var init, last := pnls[..|pnls| - 1], pnls[|pnls| - 1];
      WinnersCoverNet(init);
      if last > 0.0 { SumAppend(Winners(init), last); } else { assert Winners(pnls) == Winners(init); }
      assert pnls == init + [last];
    }
  }

  /** The ranked winners: as many, with the same sum, no less than the net result. */
  lemma RankedWinners(pnls: seq<real>)
    ensures var ranked := Ranked(Winners(pnls));
      && Descending(ranked) && |ranked| == |Winners(pnls)| && Sum(ranked) >= Sum(pnls)
      && (Sum(pnls) > 0.0 ==> ranked != [])
  {
    WinnersCoverNet(pnls);
    RankedIsSorted(Winners(pnls));
  }

  /** A positive net result needs a winner, and the n largest of W winners have at least min(n, W) / W of it. */
  lemma ShareIsAtLeastItsPart(pnls: seq<real>, n: nat)
    requires Sum(pnls) > 0.0
    ensures |Winners(pnls)| > 0
    ensures TopShare(pnls, n).value >= Min(n, |Winners(pnls)|) as real / |Winners(pnls)| as real
  {
    hide Ranked, Winners, Sum;
    RankedWinners(pnls);
    var ranked := Ranked(Winners(pnls));
    var k := Min(n, |ranked|);
    TopHasItsShare(ranked, k);
    PartOfNet(k, |ranked|, Sum(ranked[..k]), Sum(pnls), Sum(ranked));
  }

  lemma PartOfNet(k: nat, w: nat, top: real, net: real, gross: real)
    requires w > 0 && gross >= net > 0.0 && Copies(w, top) >= Copies(k, gross)
    ensures k as real / w as real <= top / net
  {
    CopiesIs(w, top);
    CopiesIs(k, gross);
    Part(k as real, w as real, top, net, gross);
  }

  lemma Part(k: real, w: real, top: real, net: real, gross: real)
    requires k >= 0.0 && w > 0.0 && gross >= net > 0.0 && w * top >= k * gross
    ensures k / w <= top / net
  {
    ScaleLe(k, net, gross);
    assert k * net <= w * top;
    FractionLe(k, w, top, net);
  }

  lemma FractionLe(a: real, b: real, c: real, d: real)
    requires b > 0.0 && d > 0.0 && a * d <= b * c
    ensures a / b <= c / d
  {
    if a / b > c / d {
      assert (a / b) * b == a && (c / d) * d == c;
      var x, y := a / b, c / d;
      StrictScale(x, y, b, d);
    }
  }

  lemma StrictScale(x: real, y: real, b: real, d: real)
    requires b > 0.0 && d > 0.0 && x > y
    ensures (x * b) * d > b * (y * d)
  {
    assert (x - y) * (b * d) > 0.0;
    assert (x * b) * d - b * (y * d) == (x - y) * (b * d);
  }

  /** When every trade won, the share cannot exceed one. */
  lemma AllWinningShare(pnls: seq<real>, n: nat)
    requires Sum(pnls) > 0.0 && |Winners(pnls)| == |pnls|
    ensures TopShare(pnls, n).value <= 1.0
  {
    WinnersCoverNet(pnls);
    var ranked := Ranked(Winners(pnls));
    RankedIsSorted(Winners(pnls));
    hide Winners, Ranked, Sum;
    var k := Min(n, |ranked|);
    assert ranked == ranked[..k] + ranked[k..];
    SumConcat(ranked[..k], ranked[k..]);
    RestIsPositive(ranked, Winners(pnls), k);
    AtMostOne(TopSum(pnls, n), Sum(pnls));
  }

  lemma AtMostOne(a: real, b: real)
    requires b > 0.0 && a <= b
    ensures a / b <= 1.0
  {
    FractionLe(a, b, 1.0, 1.0);
  }

  lemma RestIsPositive(ranked: seq<real>, winners: seq<real>, k: nat)
    requires multiset(ranked) == multiset(winners) && k <= |ranked| && forall x :: x in winners ==> x > 0.0
    ensures Sum(ranked[k..]) >= 0.0
  {
    forall i | 0 <= i < |ranked| ensures ranked[i] > 0.0 { assert ranked[i] in multiset(ranked); assert ranked[i] in winners; }
    NonNegativeSum(ranked[k..]);
  }

  lemma {:induction false} NonNegativeSum(s: seq<real>)
    requires forall i :: 0 <= i < |s| ==> s[i] > 0.0
    ensures Sum(s) >= 0.0
  {
    if s != [] { NonNegativeSum(s[..|s| - 1]); }
  }

  // ---- drawdown ----

  function Greater(a: real, b: real): real { if a >= b then a else b }

  function Lesser(a: real, b: real): real { if a <= b then a else b }

  function Peak(curve: seq<real>): real
    requires curve != []
  {
    if |curve| == 1 then curve[0] else Greater(Peak(curve[..|curve| - 1]), curve[|curve| - 1])
  }

  /** The deepest fall below the running peak, as a ratio; never positive. */
  function Drawdown(curve: seq<real>): real {
    if curve == [] then 0.0
    else
      var peak, last := Peak(curve), curve[|curve| - 1];
      var before := Drawdown(curve[..|curve| - 1]);
      if peak == 0.0 then before else Lesser(before, last / peak - 1.0)
  }

  /** max_drawdown_pct as its loop runs. */
  method MaxDrawdown(curve: seq<real>) returns (deepest: real)
    ensures deepest == Drawdown(curve)
  {
    if curve == [] { return 0.0; }
    var peak := curve[0];
    deepest := 0.0;
    for i := 0 to |curve|
      invariant i == 0 ==> peak == curve[0]
      invariant i > 0 ==> peak == Peak(curve[..i])
      invariant deepest == Drawdown(curve[..i])
    {
      assert curve[..i + 1][..i] == curve[..i];
      peak := Greater(peak, curve[i]);
      if peak != 0.0 { deepest := Lesser(deepest, curve[i] / peak - 1.0); }
    }
    assert curve[..|curve|] == curve;
  }

  lemma {:induction false} PeakIsHighest(curve: seq<real>, i: nat)
    requires i < |curve|
    ensures Peak(curve) >= curve[i]
    decreases |curve|
  {
    if i < |curve| - 1 { PeakIsHighest(curve[..|curve| - 1], i); }
  }

  lemma {:induction false} DrawdownNotPositive(curve: seq<real>)
    ensures Drawdown(curve) <= 0.0
  {
    if curve != [] { DrawdownNotPositive(curve[..|curve| - 1]); }
  }

  lemma {:induction false} FlatDrawdown(curve: seq<real>, level: real)
    requires level > 0.0 && forall i :: 0 <= i < |curve| ==> curve[i] == level
    ensures Drawdown(curve) == 0.0 && (curve != [] ==> Peak(curve) == level)
  {
    if curve != [] { FlatDrawdown(curve[..|curve| - 1], level); }
  }

  /** A curve that ends at no less than zero fell at least as deep as it lost overall. */
  lemma DrawdownCoversLoss(curve: seq<real>)
    requires curve != [] && curve[0] > 0.0 && curve[|curve| - 1] >= 0.0
    ensures Drawdown(curve) <= curve[|curve| - 1] / curve[0] - 1.0
  {
    PeakIsHighest(curve, 0);
    Shallower(curve[|curve| - 1], curve[0], Peak(curve));
  }

  lemma Shallower(last: real, first: real, peak: real)
    requires last >= 0.0 && 0.0 < first <= peak
    ensures last / peak <= last / first
  {
    ScaleLe(last, first, peak);
    assert peak * last == last * peak;
    FractionLe(last, peak, last, first);
  }

  /** No later sample lies deeper below an earlier one, as far as the account is not below zero ... */
  lemma {:induction false} DrawdownIsDeepest(curve: seq<real>, i: nat, j: nat)
    requires i <= j < |curve| && curve[i] > 0.0 && curve[j] >= 0.0
    ensures Drawdown(curve) <= curve[j] / curve[i] - 1.0
    decreases |curve|
  {
    if j < |curve| - 1 {
      DrawdownIsDeepest(curve[..|curve| - 1], i, j);
    } else {
      PeakIsHighest(curve, i);
      Shallower(curve[j], curve[i], Peak(curve));
    }
  }

  lemma {:induction false} PeakIsReached(curve: seq<real>) returns (i: nat)
    requires curve != []
    ensures i < |curve| && curve[i] == Peak(curve)
  {
    i := |curve| - 1;
    if |curve| > 1 && Peak(curve) != curve[i] { i := PeakIsReached(curve[..|curve| - 1]); }
  }

  /** ... and some sample lies just as deep, unless the curve never fell. */
  lemma {:induction false} DrawdownIsReached(curve: seq<real>) returns (i: nat, j: nat)
    requires Drawdown(curve) != 0.0
    ensures i <= j < |curve| && curve[i] != 0.0 && Drawdown(curve) == curve[j] / curve[i] - 1.0
  {
    var init := curve[..|curve| - 1];
    if Drawdown(curve) == Drawdown(init) {
      i, j := DrawdownIsReached(init);
    } else {
      i := PeakIsReached(curve);
      j := |curve| - 1;
    }
  }

  // ---- what the share is of ----

  lemma {:induction false} WinnersMean(pnls: seq<real>, x: real)
    ensures multiset(Winners(pnls))[x] == if x > 0.0 then multiset(pnls)[x] else 0
  {
    if pnls != [] {
      assert pnls == pnls[..|pnls| - 1] + [pnls[|pnls| - 1]];
      WinnersMean(pnls[..|pnls| - 1], x);
    }
  }

  lemma Tail(a: seq<real>)
    requires a != [] && Descending(a)
    ensures Descending(a[1..]) && multiset(a[1..]) == multiset(a) - multiset{a[0]} && forall x :: x in a ==> x <= a[0]
  {
    assert a == [a[0]] + a[1..];
  }

  lemma SameHead(a: seq<real>, b: seq<real>)
    requires multiset(a) == multiset(b) && a != [] && (forall x :: x in a ==> x <= a[0]) && b != [] && forall x :: x in b ==> x <= b[0]
    ensures a[0] == b[0]
  {
    assert a[0] in multiset(a) && b[0] in multiset(b);
    assert a[0] in b && b[0] in a;
  }

  lemma SameLength(a: seq<real>, b: seq<real>)
    requires multiset(a) == multiset(b)
    ensures |a| == |b|
  {
    assert |a| == |multiset(a)| && |b| == |multiset(b)|;
  }

  lemma {:induction false} OneDescent(a: seq<real>, b: seq<real>)
    requires Descending(a) && Descending(b) && multiset(a) == multiset(b)
    ensures a == b
  {
    SameLength(a, b);
    if a != [] {
      hide Descending;
      Tail(a);
      Tail(b);
      SameHead(a, b);
      OneDescent(a[1..], b[1..]);
      SameCons(a, b);
    }
  }

  lemma SameCons(a: seq<real>, b: seq<real>)
    requires a != [] && b != [] && a[0] == b[0] && a[1..] == b[1..]
    ensures a == b
  {
    assert a == [a[0]] + a[1..] && b == [b[0]] + b[1..];
  }

  lemma ShareTimesNet(top: real, net: real)
    requires net != 0.0
    ensures top / net * net == top
  {
  }

  /** The share times the net result is the sum of the first n winners in whatever descending order. */
  lemma TopShareMeans(pnls: seq<real>, n: nat, ranked: seq<real>)
    requires Sum(pnls) > 0.0 && Descending(ranked)
    requires forall x :: multiset(ranked)[x] == if x > 0.0 then multiset(pnls)[x] else 0
    ensures TopShare(pnls, n).value * Sum(pnls) == Sum(if n <= |ranked| then ranked[..n] else ranked)
  {
    hide Sum, Winners, Ranked, Descending;
    forall x ensures multiset(ranked)[x] == multiset(Winners(pnls))[x] { WinnersMean(pnls, x); }
    assert multiset(ranked) == multiset(Winners(pnls));
    RankedIsSorted(Winners(pnls));
    OneDescent(ranked, Ranked(Winners(pnls)));
    assert ranked[..|ranked|] == ranked;
    ShareTimesNet(TopSum(pnls, n), Sum(pnls));
  }
}
