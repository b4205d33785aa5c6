/** Win rates quoted to eight digits, and the search for the win counts behind one.

  A quoted metric is the integer number of its quanta of 0.00000001.
 */
module WinCount {
  import opened Basics

  const QUANTA := 100_000_000

  // ---- rounding half to even ----

  /** a / b rounded to the nearest integer, ties to the even one. */
  function HalfEven(a: int, b: int): int
    requires b > 0
  {
    var floor, rest := a / b, a % b;
    if 2 * rest < b || (2 * rest == b && floor % 2 == 0) then floor else floor + 1
  }

  lemma MulLe(a: int, b: int, c: int)
    requires a <= b && c >= 0
    ensures a * c <= b * c
  {
  }

  /** What rounding means: at most half away, and then even. */
  lemma HalfEvenIsNearest(a: int, b: int)
    requires b > 0
    ensures var k := HalfEven(a, b); -b <= 2 * (a - k * b) <= b && ((2 * (a - k * b) == b || 2 * (a - k * b) == -b) ==> k % 2 == 0)
  {
    var floor, rest := a / b, a % b;
    assert a == floor * b + rest;
    assert (floor + 1) * b == floor * b + b;
  }

  lemma Steps(h: int, k: int, b: int)
    requires b > 0
    ensures h > k ==> h * b >= k * b + b
    ensures h > k + 1 ==> h * b >= k * b + 2 * b
  {
    if h > k {
      MulLe(k + 1, h, b);
      assert (k + 1) * b == k * b + b;
    }
    if h > k + 1 {
      MulLe(k + 2, h, b);
      assert (k + 2) * b == k * b + 2 * b;
    }
  }

  lemma NearestIsUnique(a: int, b: int, k: int)
    requires b > 0
    requires -b <= 2 * (a - k * b) <= b && ((2 * (a - k * b) == b || 2 * (a - k * b) == -b) ==> k % 2 == 0)
    ensures HalfEven(a, b) == k
  {
    var h := HalfEven(a, b);
    HalfEvenIsNearest(a, b);
    Steps(h, k, b);
    Steps(k, h, b);
  }

  lemma HalfEvenMonotone(a: int, c: int, b: int)
    requires b > 0 && a <= c
    ensures HalfEven(a, b) <= HalfEven(c, b)
  {
    HalfEvenIsNearest(a, b);
    HalfEvenIsNearest(c, b);
    Steps(HalfEven(a, b), HalfEven(c, b), b);
  }

  // ---- the division is rounded twice ----

  function Pow10(n: nat): (r: int)
    ensures r > 0
  {
    if n == 0 then 1 else 10 * Pow10(n - 1)
  }

  lemma {:induction false} Pow10Add(m: nat, n: nat)
    ensures Pow10(m + n) == Pow10(m) * Pow10(n)
  {
    if m > 0 {
      Pow10Add(m - 1, n);
      assert Pow10(m + n) == 10 * Pow10(m - 1 + n);
      assert 10 * (Pow10(m - 1) * Pow10(n)) == (10 * Pow10(m - 1)) * Pow10(n);
    }
  }

  /** The number of decimal digits, as the length of the printed number. */
  function Digits(n: nat): (d: nat)
    ensures d >= 1 && n < Pow10(d) && (n > 0 ==> Pow10(d - 1) <= n)
  {
    if n < 10 then assert Pow10(1) == 10; 1 else 1 + Digits(n / 10)
  }

  /** The significant digits of the local decimal context. */
  function Precision(n: nat): nat {
    if Digits(n) + 20 > 28 then Digits(n) + 20 else 28
  }

  /** The decimal places that leave precision significant digits of w / n; one has at most n in front. */
  function Places(w: nat, n: nat, precision: nat, from: nat): (m: nat)
    requires 0 < w && 0 < n
    ensures m >= from
    decreases n * Pow10(precision) - w * Pow10(from)
  {
    if w * Pow10(from + 1) >= n * Pow10(precision) then from
    else
      assert w * Pow10(from + 1) == 10 * (w * Pow10(from)) by { assert Pow10(from + 1) == 10 * Pow10(from); }
      assert w * Pow10(from) > 0 by { MulLe(1, w, Pow10(from)); }
      Places(w, n, precision, from + 1)
  }

  /** The win rate of w among n trades in quanta: the quotient, rounded to the context's significant
      digits, then rounded again to eight places.  A quotient of at most one has its digits from
      place precision - 1 on. */
  function QuotedRate(w: nat, n: nat): int
    requires 0 < n && w <= n
  {
    if w == 0 then 0
    else
      var places := Places(w, n, Precision(n), Precision(n) - 1);
      HalfEven(HalfEven(w * Pow10(places), n), Pow10(places - 8))
  }

  /** The same rate with a single rounding. */
  function ExactRate(w: int, n: nat): int {
    if n == 0 then 0 else HalfEven(w * QUANTA, n)
  }

  /** Rounding a fraction first to a scale t finer than its denominator does not change how it rounds. */
  lemma RoundTwice(a: int, n: int, t: int)
    requires n > 0 && t > n && t % 2 == 0
    ensures HalfEven(HalfEven(a * t, n), t) == HalfEven(a, n)
  {
    var k, d := HalfEven(a, n), HalfEven(a * t, n);
    HalfEvenIsNearest(a, n);
    HalfEvenIsNearest(a * t, n);
    var e := 2 * (a - k * n);
    if -n < e < n {
      InsideStaysInside(a, n, t, k, e, d);
    } else {
      TieIsExact(a, n, t, k, e, d);
    }
    NearestIsUnique(d, t, k);
  }

  lemma InsideStaysInside(a: int, n: int, t: int, k: int, e: int, d: int)
    requires 0 < n < t && e == 2 * (a - k * n) && -n < e < n && -n <= 2 * (a * t - d * n) <= n
    ensures -t < 2 * (d - k * t) < t
  {
    Regroup(a, n, t, k, d);
    Confined(n, 2 * (d - k * t), t, e, 2 * (a * t - d * n));
  }

  lemma Confined(n: int, g: int, t: int, e: int, f: int)
    requires 0 < n < t && -n < e < n && -n <= f <= n && n * g == t * e - f
    ensures -t < g < t
  {
    MulLe(e, n - 1, t);
    MulLe(1 - n, e, t);
    assert (n - 1) * t == n * t - t && (1 - n) * t == t - n * t;
    assert n * -g == -(n * g) && n * -t == -(n * t);
    Cancel(n, g, t);
    Cancel(n, -g, t);
  }

  lemma Regroup(a: int, n: int, t: int, k: int, d: int)
    ensures n * (2 * (d - k * t)) == t * (2 * (a - k * n)) - 2 * (a * t - d * n)
  {
    assert n * (d - k * t) == d * n - k * n * t;
    assert t * (a - k * n) == a * t - k * n * t;
  }

  lemma Cancel(n: int, g: int, t: int)
    requires n > 0 && n * g < n * t
    ensures g < t
  {
    if g >= t { MulLe(t, g, n); }
  }

  /** At a tie the finer scale holds the fraction exactly. */
  lemma TieIsExact(a: int, n: int, t: int, k: int, e: int, d: int)
    requires 0 < n < t && t % 2 == 0 && e == 2 * (a - k * n) && (e == n || e == -n) && d == HalfEven(a * t, n)
    ensures 2 * (d - k * t) == t || 2 * (d - k * t) == -t
  {
    var half := t / 2;
    var x := if e == n then k * t + half else k * t - half;
    HalfOf(a, n, half, k, e);
    NearestIsUnique(a * t, n, x);
  }

  lemma HalfOf(a: int, n: int, half: int, k: int, e: int)
    requires e == 2 * (a - k * n) && (e == n || e == -n)
    ensures (if e == n then k * (2 * half) + half else k * (2 * half) - half) * n == a * (2 * half)
  {
    assert a * 2 == 2 * (k * n) + e;
    assert a * (2 * half) == (2 * (k * n) + e) * half;
    assert (2 * (k * n) + e) * half == 2 * (k * n) * half + e * half;
    assert (k * (2 * half)) * n == 2 * (k * n) * half;
  }

  lemma FinerThanDenominator(n: nat, digits: nat)
    requires digits >= Digits(n)
    ensures Pow10(digits) > n
  {
    Pow10Add(Digits(n), digits - Digits(n));
    MulLe(1, Pow10(digits - Digits(n)), Pow10(Digits(n)));
  }

  lemma EightPlaces(places: nat)
    requires places >= 8
    ensures Pow10(places) == QUANTA * Pow10(places - 8)
  {
    Pow10Add(8, places - 8);
    assert Pow10(8) == QUANTA;
  }

  lemma PowerIsEven(m: nat)
    requires m >= 1
    ensures Pow10(m) % 2 == 0
  {
    assert Pow10(m) == 10 * Pow10(m - 1);
  }

  /** The scale between the two roundings is even and finer than the denominator. */
  lemma ScaleIsFine(n: nat, places: nat)
    requires places >= Precision(n) - 1
    ensures Pow10(places) == QUANTA * Pow10(places - 8) && Pow10(places - 8) > n && Pow10(places - 8) % 2 == 0
  {
    EightPlaces(places);
    FinerThanDenominator(n, places - 8);
    PowerIsEven(places - 8);
  }

  /** Quoting a rate in two roundings is quoting it in one, for every count and every number of trades. */
  lemma QuotedIsExact(w: nat, n: nat)
    requires 0 < n && w <= n
    ensures QuotedRate(w, n) == ExactRate(w, n)
  {
    if w == 0 {
      NearestIsUnique(0, n, 0);
    } else {
      var places := Places(w, n, Precision(n), Precision(n) - 1);
      ScaleIsFine(n, places);
      var t := Pow10(places - 8);
      Associate(w, QUANTA, t);
      RoundTwice(w * QUANTA, n, t);
    }
  }

  lemma Associate(a: int, b: int, c: int)
    ensures a * (b * c) == (a * b) * c
  {
  }

  // ---- the search ----

  /** The win counts within limits whose rate is quoted as q. */
  predicate IsCompatible(w: int, q: int, n: nat, least: int, most: int) {
    0 <= w <= n && least <= w <= most && ExactRate(w, n) == q
  }

  /** Exactly the least and the greatest compatible win count, or nothing when there is none. */
  predicate AreBounds(r: Option<(int, int)>, q: int, n: nat, least: int, most: int) {
    match r
    case None => forall w :: 0 <= w <= n ==> !IsCompatible(w, q, n, least, most)
    case Some((low, high)) =>
      && IsCompatible(low, q, n, least, most) && IsCompatible(high, q, n, least, most)
      && forall w :: 0 <= w <= n && IsCompatible(w, q, n, least, most) ==> low <= w <= high
  }

  // ---- trying every win count ----

  function LeastCompatible(q: int, n: nat, w: int, most: int): (r: Option<int>)
    ensures r.Some? ==> w <= r.value <= most && ExactRate(r.value, n) == q && forall v :: w <= v < r.value ==> ExactRate(v, n) != q
    ensures r.None? ==> forall v :: w <= v <= most ==> ExactRate(v, n) != q
    decreases most - w
  {
    if w > most then None else if ExactRate(w, n) == q then Some(w) else LeastCompatible(q, n, w + 1, most)
  }

  function GreatestCompatible(q: int, n: nat, least: int, w: int): (r: Option<int>)
    ensures r.Some? ==> least <= r.value <= w && ExactRate(r.value, n) == q && forall v :: r.value < v <= w ==> ExactRate(v, n) != q
    ensures r.None? ==> forall v :: least <= v <= w ==> ExactRate(v, n) != q
    decreases w - least
  {
    if w < least then None else if ExactRate(w, n) == q then Some(w) else GreatestCompatible(q, n, least, w - 1)
  }

  function AtLeastZero(minimum: int): int { if minimum > 0 then minimum else 0 }

  function AtMost(n: nat, maximum: int): int { if maximum < n then maximum else n }

  /** The brute-force reference: the least and the greatest of all win counts tried in turn. */
  function Scan(q: int, n: nat, minimum: int, maximum: int): (r: Option<(int, int)>)
    ensures AreBounds(r, q, n, minimum, maximum)
  {
    var least, most := AtLeastZero(minimum), AtMost(n, maximum);
    match LeastCompatible(q, n, least, most)
    case None => None
    case Some(low) =>
      assert GreatestCompatible(q, n, least, most).Some?;
      Some((low, GreatestCompatible(q, n, least, most).value))
  }

  lemma BoundsAreUnique(r: Option<(int, int)>, s: Option<(int, int)>, q: int, n: nat, least: int, most: int)
    requires AreBounds(r, q, n, least, most) && AreBounds(s, q, n, least, most)
    ensures r == s
  {
    if r.Some? { assert IsCompatible(r.value.0, q, n, least, most) && IsCompatible(r.value.1, q, n, least, most); }
    if s.Some? { assert IsCompatible(s.value.0, q, n, least, most) && IsCompatible(s.value.1, q, n, least, most); }
  }

  // ---- trying a constant number of them ----

  /** The largest integer not above (q + offset / 2) quanta of n trades. */
  function Boundary(q: int, n: nat, offset: int): int {
    ((2 * q + offset) * n) / (2 * QUANTA)
  }

  predicate Near(w: int, boundary: int) { boundary - 2 <= w <= boundary + 2 }

  /** A compatible count whose predecessor is not is next to the lower boundary, and one whose successor
      is not is next to the upper one. */
  lemma EdgesAreNear(w: int, q: int, n: nat)
    requires n > 0 && ExactRate(w, n) == q
    ensures ExactRate(w - 1, n) != q ==> Near(w, Boundary(q, n, -1))
    ensures ExactRate(w + 1, n) != q ==> Near(w, Boundary(q, n, 1))
  {
    HalfEvenIsNearest(w * QUANTA, n);
    var low, high := (2 * q - 1) * n, (2 * q + 1) * n;
    assert low == 2 * (q * n) - n && high == 2 * (q * n) + n;
    assert low <= 2 * QUANTA * w <= high;
    if ExactRate(w - 1, n) != q {
      if 2 * QUANTA * (w - 1) > low { NearestIsUnique((w - 1) * QUANTA, n, q); }
    }
    if ExactRate(w + 1, n) != q {
      if 2 * QUANTA * (w + 1) < high { NearestIsUnique((w + 1) * QUANTA, n, q); }
    }
  }

  lemma RateMonotone(v: int, w: int, n: nat)
    requires n > 0 && v <= w
    ensures ExactRate(v, n) <= ExactRate(w, n)
  {
    HalfEvenMonotone(v * QUANTA, w * QUANTA, n);
  }

  /** Every compatible count lies between two compatible candidates. */
  lemma {:induction false} CandidateBelow(w: int, q: int, n: nat, least: int, most: int, candidates: seq<int>) returns (c: int)
    requires n > 0 && 0 <= least && most <= n && IsCompatible(w, q, n, least, most) && least in candidates
    requires forall x :: Near(x, Boundary(q, n, -1)) ==> x in candidates
    ensures c in candidates && c <= w && IsCompatible(c, q, n, least, most)
    decreases w - least
  {
    EdgesAreNear(w, q, n);
    if w == least || ExactRate(w - 1, n) != q {
      c := w;
    } else {
      c := CandidateBelow(w - 1, q, n, least, most, candidates);
    }
  }

  lemma {:induction false} CandidateAbove(w: int, q: int, n: nat, least: int, most: int, candidates: seq<int>) returns (c: int)
    requires n > 0 && 0 <= least && most <= n && IsCompatible(w, q, n, least, most) && most in candidates
    requires forall x :: Near(x, Boundary(q, n, 1)) ==> x in candidates
    ensures c in candidates && w <= c && IsCompatible(c, q, n, least, most)
    decreases most - w
  {
    EdgesAreNear(w, q, n);
    if w == most || ExactRate(w + 1, n) != q {
      c := w;
    } else {
      c := CandidateAbove(w + 1, q, n, least, most, candidates);
    }
  }

  /** The bounds among the candidates. */
  method BoundsAmong(candidates: seq<int>, q: int, n: nat, least: int, most: int) returns (r: Option<(int, int)>)
    requires n > 0 && 0 <= least && most <= n
    ensures r.None? ==> forall c :: c in candidates ==> !IsCompatible(c, q, n, least, most)
    ensures r.Some? ==> IsCompatible(r.value.0, q, n, least, most) && IsCompatible(r.value.1, q, n, least, most)
    ensures r.Some? ==> forall c :: c in candidates && IsCompatible(c, q, n, least, most) ==> r.value.0 <= c <= r.value.1
  {
    r := None;
    for i := 0 to |candidates|
      invariant r.None? ==> forall c :: c in candidates[..i] ==> !IsCompatible(c, q, n, least, most)
      invariant r.Some? ==> IsCompatible(r.value.0, q, n, least, most) && IsCompatible(r.value.1, q, n, least, most)
      invariant r.Some? ==> forall c :: c in candidates[..i] && IsCompatible(c, q, n, least, most) ==> r.value.0 <= c <= r.value.1
    {
      var c := candidates[i];
      if least <= c <= most {
        QuotedIsExact(c, n);
        if QuotedRate(c, n) == q {
          r := Some(if r.None? then (c, c)
                    else (if c < r.value.0 then c else r.value.0, if c > r.value.1 then c else r.value.1));
        }
      }
    }
  }

  /** The limits of the search and two counts either side of each boundary. */
  method Candidates(least: int, most: int, low: int, high: int) returns (candidates: seq<int>)
    ensures least in candidates && most in candidates
    ensures forall x :: Near(x, low) || Near(x, high) ==> x in candidates
  {
    candidates := [least, most];
    for i := -2 to 3
      invariant least in candidates && most in candidates
      invariant forall x :: low - 2 <= x < low + i ==> x in candidates
    {
      candidates := candidates + [low + i];
    }
    for i := -2 to 3
      invariant least in candidates && most in candidates
      invariant forall x :: Near(x, low) || high - 2 <= x < high + i ==> x in candidates
    {
      candidates := candidates + [high + i];
    }
  }

  lemma ClampedLimits(r: Option<(int, int)>, q: int, n: nat, minimum: int, maximum: int)
    requires AreBounds(r, q, n, AtLeastZero(minimum), AtMost(n, maximum))
    ensures AreBounds(r, q, n, minimum, maximum)
  {
    forall w | 0 <= w <= n && IsCompatible(w, q, n, minimum, maximum) ensures r.Some? && r.value.0 <= w <= r.value.1 {
      assert IsCompatible(w, q, n, AtLeastZero(minimum), AtMost(n, maximum));
    }
  }

  /** A constant number of candidates finds exactly what trying every win count would. */
  method CompatibleWinCountBounds(q: int, n: nat, minimum: int, maximum: Option<int>) returns (r: Option<(int, int)>)
    ensures r == Scan(q, n, minimum, if maximum.Some? then maximum.value else n)
  {
    var least, most := AtLeastZero(minimum), AtMost(n, if maximum.Some? then maximum.value else n);
    if least > most {
      r := None;
    } else if n == 0 {
      r := if least == 0 && most == 0 && q == 0 then Some((0, 0)) else None;
      assert IsCompatible(0, q, n, least, most) <==> least == 0 && most == 0 && q == 0;
    } else {
      var candidates := Candidates(least, most, Boundary(q, n, -1), Boundary(q, n, 1));
      r := BoundsAmong(candidates, q, n, least, most);
      CandidatesSuffice(r, q, n, least, most, candidates);
    }
    ClampedLimits(r, q, n, minimum, if maximum.Some? then maximum.value else n);
    BoundsAreUnique(r, Scan(q, n, minimum, if maximum.Some? then maximum.value else n), q, n, minimum, if maximum.Some? then maximum.value else n);
  }

  lemma CandidatesSuffice(r: Option<(int, int)>, q: int, n: nat, least: int, most: int, candidates: seq<int>)
    requires n > 0 && 0 <= least && most <= n && least in candidates && most in candidates
    requires forall x :: Near(x, Boundary(q, n, -1)) || Near(x, Boundary(q, n, 1)) ==> x in candidates
    requires r.None? ==> forall c :: c in candidates ==> !IsCompatible(c, q, n, least, most)
    requires r.Some? ==> IsCompatible(r.value.0, q, n, least, most) && IsCompatible(r.value.1, q, n, least, most)
    requires r.Some? ==> forall c :: c in candidates && IsCompatible(c, q, n, least, most) ==> r.value.0 <= c <= r.value.1
    ensures AreBounds(r, q, n, least, most)
  {
    forall w | 0 <= w <= n && IsCompatible(w, q, n, least, most) ensures r.Some? && r.value.0 <= w <= r.value.1 {
      var a := CandidateBelow(w, q, n, least, most, candidates);
      var b := CandidateAbove(w, q, n, least, most, candidates);
    }
  }
}
