/**
 * The JavaScript number helpers the layout code relies on (Math.floor, Math.ceil,
 * Math.round, Math.min, Math.max over spread lists, Array.reduce for sums), stated
 * over exact reals. Dafny's `.Floor` on reals is the mathematical floor.
 */
module JsMath {

  /** Number.MAX_SAFE_INTEGER, the default cap of the join helpers. */
  const MaxSafeInteger: real := 9007199254740991.0

  /** Math.floor */
  function Floor(x: real): (r: int)
    ensures r as real <= x < r as real + 1.0
  {
    x.Floor
  }

  /** Math.ceil */
  function Ceil(x: real): (r: int)
    ensures r as real - 1.0 < x <= r as real
  {
    -((-x).Floor)
  }

  /** Math.round: halves round towards positive infinity, as in JavaScript. */
  function Round(x: real): (r: int)
    ensures r as real - 0.5 <= x < r as real + 0.5
  {
    (x + 0.5).Floor
  }

  function Min(a: real, b: real): (r: real)
    ensures r <= a && r <= b && (r == a || r == b)
  {
    if a <= b then a else b
  }

  function Max(a: real, b: real): (r: real)
    ensures r >= a && r >= b && (r == a || r == b)
  {
    if a >= b then a else b
  }

  /** Math.max(...xs) for a non-empty list. */
  function MaxOf(xs: seq<real>): (r: real)
    requires |xs| > 0
    ensures r in xs
    ensures forall i :: 0 <= i < |xs| ==> xs[i] <= r
  {
    if |xs| == 1 then xs[0] else Max(MaxOf(xs[..|xs| - 1]), xs[|xs| - 1])
  }

  /** Math.min(...xs) for a non-empty list. */
  function MinOf(xs: seq<real>): (r: real)
    requires |xs| > 0
    ensures r in xs
    ensures forall i :: 0 <= i < |xs| ==> r <= xs[i]
  {
    if |xs| == 1 then xs[0] else Min(MinOf(xs[..|xs| - 1]), xs[|xs| - 1])
  }

  /** k copies of x added up; the product k * x kept linear for the solver. */
  function Times(k: nat, x: real): real
  {
    if k == 0 then 0.0 else Times(k - 1, x) + x
  }

  lemma {:induction false} TimesIsProduct(k: nat, x: real)
    ensures Times(k, x) == k as real * x
  {
    if k > 0 {
      TimesIsProduct(k - 1, x);
      assert k as real * x == (k - 1) as real * x + x;
    }
  }

  /** xs.reduce((a, b) => a + b) */
  function Sum(xs: seq<real>): real
  {
    if xs == [] then 0.0 else Sum(xs[..|xs| - 1]) + xs[|xs| - 1]
  }

  lemma {:induction false} SumAppend(xs: seq<real>, x: real)
    ensures Sum(xs + [x]) == Sum(xs) + x
  {
    assert (xs + [x])[..|xs + [x]| - 1] == xs;
  }

  /** k copies of nothing are nothing. */
  lemma {:induction false} TimesZero(k: nat)
    ensures Times(k, 0.0) == 0.0
  {
    if k > 0 {
      TimesZero(k - 1);
    }
  }

  /** One or more copies of x are positive exactly when x is. */
  lemma {:induction false} TimesPositive(k: nat, x: real)
    requires k >= 1
    ensures Times(k, x) > 0.0 <==> x > 0.0
  {
    TimesIsProduct(k, x);
    if x > 0.0 {
      assert k as real * x >= 1.0 * x;
    } else {
      assert k as real * x <= 0.0;
    }
  }

  /** Adding up a constant sequence multiplies the constant by its length. */
  lemma {:induction false} SumConstant(xs: seq<real>, c: real)
    requires forall i :: 0 <= i < |xs| ==> xs[i] == c
    ensures Sum(xs) == Times(|xs|, c)
  {
    if xs != [] {
      SumConstant(xs[..|xs| - 1], c);
    }
  }

  lemma {:induction false} MaxOfConstant(xs: seq<real>, c: real)
    requires |xs| > 0
    requires forall i :: 0 <= i < |xs| ==> xs[i] == c
    ensures MaxOf(xs) == c
  {
  }

  /** `${n}` for an integer n: its decimal digits, with a leading '-' when negative. */
  function IntToString(n: int): (s: string)
    ensures |s| > 0 && s[|s| - 1] in "0123456789"
    ensures ' ' !in s
    decreases if n < 0 then 1 - n else n
  {
    if n < 0 then "-" + IntToString(-n)
    else if n < 10 then ["0123456789"[n]]
    else IntToString(n / 10) + ["0123456789"[n % 10]]
  }

  /** Search for Math.round(Math.sqrt(n)) from k upwards. */
  function RoundSqrtFrom(n: nat, k: nat): (r: nat)
    requires k * k - k < n || k == 0
    ensures (r * r - r < n || r == 0) && n <= r * r + r
    ensures k <= r
    decreases n - k
  {
    if n <= k * k + k then k else RoundSqrtFrom(n, k + 1)
  }

  /**
   * Math.round(Math.sqrt(n)). The square root of a natural number is never a half-integer,
   * so the rounded root is the unique k with k*k - k < n <= k*k + k (0 for n == 0).
   */
  function RoundSqrt(n: nat): (r: nat)
    ensures n == 0 ==> r == 0
    ensures n > 0 ==> r >= 1 && r * r - r < n <= r * r + r
  {
    RoundSqrtFrom(n, 0)
  }

  /** Multiplying lo < x <= hi by a positive d, where x * d == n. */
  lemma ScaleBounds(lo: real, x: real, hi: real, d: real, n: real)
    requires lo < x <= hi && d > 0.0 && x * d == n
    ensures lo * d < n <= hi * d
  {
  }

  /** Math.ceil(n / d) for positive integers is the least multiple count covering n. */
  lemma CeilDivCovers(n: nat, d: nat)
    requires d > 0
    ensures Ceil(n as real / d as real) >= 0
    ensures n <= Ceil(n as real / d as real) * d
    ensures (Ceil(n as real / d as real) - 1) * d < n || n == 0
  {
    var x := n as real / d as real;
    var q := Ceil(x);
    ScaleBounds(q as real - 1.0, x, q as real, d as real, n as real);
    assert (q as real - 1.0) * d as real == ((q - 1) * d) as real;
    assert q as real * d as real == (q * d) as real;
  }

  /** Math.floor(full * value / total): a share of `full` in proportion value / total, floored. */
  function FloorShare(full: real, value: int, total: int): int
    requires total != 0
  {
    Floor(full * value as real / total as real)
  }

  /** a <= b scaled by a non-negative c. */
  lemma MulMonotone(a: real, b: real, c: real)
    requires a <= b && c >= 0.0
    ensures a * c <= b * c
  {
  }

  /** a < b scaled by a positive c. */
  lemma MulStrict(a: real, b: real, c: real)
    requires a < b && c > 0.0
    ensures a * c < b * c
  {
  }

  lemma DivMul(n: real, d: real)
    requires d != 0.0
    ensures (n / d) * d == n
  {
  }

  /** full * v / t for v in [0, t] lies in [0, full], and is full for v == t. */
  lemma ShareBounds(full: real, v: real, t: real)
    requires 0.0 <= v <= t && t > 0.0 && full >= 0.0
    ensures 0.0 <= full * v / t <= full
    ensures v == t ==> full * v / t == full
  {
    var q := full * v / t;
    DivMul(full * v, t);
    MulMonotone(v, t, full);
    MulMonotone(0.0, v, full);
    if q > full {
      MulStrict(full, q, t);
    }
    if q < 0.0 {
      MulStrict(q, 0.0, t);
    }
    if v == t {
      if q < full {
        MulStrict(q, full, t);
      } else if q > full {
        MulStrict(full, q, t);
      }
    }
  }

  /** full * v / t grows with v. */
  lemma ShareMonotone(full: real, s: real, l: real, t: real)
    requires s <= l && t > 0.0 && full >= 0.0
    ensures full * s / t <= full * l / t
  {
    var a := full * s / t;
    var b := full * l / t;
    DivMul(full * s, t);
    DivMul(full * l, t);
    MulMonotone(s, l, full);
    if a > b {
      MulStrict(b, a, t);
    }
  }

  /** The share of a value in [0, total] lies in [0, full], and the whole total gets Math.floor(full). */
  lemma FloorShareBounds(full: real, value: int, total: int)
    requires 0 <= value <= total && total > 0 && full >= 0.0
    ensures 0 <= FloorShare(full, value, total) && FloorShare(full, value, total) as real <= full
    ensures value == total ==> FloorShare(full, value, total) == Floor(full)
  {
    var x := full * value as real / total as real;
    ShareBounds(full, value as real, total as real);
    var r := FloorShare(full, value, total);
    assert r == Floor(x);
    assert r as real <= x < r as real + 1.0;
    if value == total {
      assert x == full;
    }
  }

  /** A larger value never gets a smaller share. */
  lemma FloorShareMonotone(full: real, small: int, large: int, total: int)
    requires small <= large && total > 0 && full >= 0.0
    ensures FloorShare(full, small, total) <= FloorShare(full, large, total)
  {
    var a := full * small as real / total as real;
    var b := full * large as real / total as real;
    ShareMonotone(full, small as real, large as real, total as real);
    FloorMonotone(a, b);
    assert FloorShare(full, small, total) == Floor(a);
    assert FloorShare(full, large, total) == Floor(b);
  }

  /** Math.floor keeps order. */
  lemma FloorMonotone(x: real, y: real)
    requires x <= y
    ensures Floor(x) <= Floor(y)
  {
  }
}
