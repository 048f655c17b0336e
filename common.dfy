/** Numeric helpers shared by both filter-design applications: the optional
    and error-carrying results that stand for Python's None and exceptions,
    ceiling and rounding on exact reals, the "make it odd, then clamp" rule
    both apps apply to a filter order, and symmetry of tap sequences. */
module Common {

  datatype Option<+T> = None | Some(value: T)

  datatype Result<+T, +E> = Ok(value: T) | Err(error: E)

  /** numpy's double value of pi, used as an exact real. */
  const Pi: real := 3.141592653589793

  function Abs(x: real): (r: real)
    ensures r >= 0.0 && (r == x || r == -x)
  {
    if x < 0.0 then -x else x
  }

  function MaxReal(a: real, b: real): (r: real)
    ensures r >= a && r >= b && (r == a || r == b)
  {
    if a < b then b else a
  }

  function MinReal(a: real, b: real): (r: real)
    ensures r <= a && r <= b && (r == a || r == b)
  {
    if a < b then a else b
  }

  /** Python's max(lo, min(hi, x)) on floats. */
  function ClampReal(lo: real, hi: real, x: real): (r: real)
    requires lo <= hi
    ensures lo <= r <= hi
    ensures lo <= x <= hi ==> r == x
    ensures x < lo ==> r == lo
    ensures x > hi ==> r == hi
  {
    MaxReal(lo, MinReal(hi, x))
  }

  /** Python's max(lo, min(hi, n)) on integers. */
  function ClampInt(lo: int, hi: int, n: int): (r: int)
    requires lo <= hi
    ensures lo <= r <= hi
    ensures lo <= n <= hi ==> r == n
    ensures n < lo ==> r == lo
    ensures n > hi ==> r == hi
  {
    if n < lo then lo else if n > hi then hi else n
  }

  /** int(np.ceil(x)): the least integer not below x. */
  function Ceil(x: real): (n: int)
    ensures x <= n as real < x + 1.0
  {
    var f := x.Floor;
    if f as real == x then f else f + 1
  }

  lemma CeilMonotone(x: real, y: real)
    requires x <= y
    ensures Ceil(x) <= Ceil(y)
  {
  }

  /** np.sign: -1, 0 or 1. */
  function Sign(x: real): (s: int)
    ensures s == 0 <==> x == 0.0
    ensures s == 1 <==> x > 0.0
    ensures s == -1 <==> x < 0.0
  {
    if x > 0.0 then 1 else if x < 0.0 then -1 else 0
  }

  /** "if order % 2 == 0: order += 1" (Python's % on 2 agrees with Dafny's). */
  function BumpToOdd(n: int): (r: int)
    ensures r % 2 == 1
    ensures n <= r <= n + 1
    ensures n % 2 == 1 ==> r == n
  {
    if n % 2 == 0 then n + 1 else n
  }

  /** The order rule of both applications: make the raw order odd, then
      clamp it to [11, maxOrder] (201 in one app, 501 in the other). */
  function OddOrderInRange(raw: int, maxOrder: int): (n: int)
    requires 11 <= maxOrder && maxOrder % 2 == 1
    ensures n % 2 == 1 && 11 <= n <= maxOrder
    ensures raw <= maxOrder ==> raw <= n
    ensures n <= (if raw + 1 < 11 then 11 else raw + 1)
    ensures 11 <= raw <= maxOrder && raw % 2 == 1 ==> n == raw
    ensures 11 <= raw < maxOrder && raw % 2 == 0 ==> n == raw + 1
    ensures raw > maxOrder ==> n == maxOrder
    ensures raw < 11 ==> n == 11
  {
    ClampInt(11, maxOrder, BumpToOdd(raw))
  }

  lemma {:induction false} OddOrderInRangeMonotone(raw1: int, raw2: int, maxOrder: int)
    requires 11 <= maxOrder && maxOrder % 2 == 1
    requires raw1 <= raw2
    ensures OddOrderInRange(raw1, maxOrder) <= OddOrderInRange(raw2, maxOrder)
  {
    var b1, b2 := BumpToOdd(raw1), BumpToOdd(raw2);
    if raw1 < raw2 {
      assert b1 <= raw1 + 1 <= raw2 <= b2;
    } else {
      assert b1 == b2;
    }
  }

  /** The integer nearest to y, ties going to the even one: the rounding
      of Python's round() and of its "f" formats. */
  function RoundHalfEven(y: real): (k: int)
    ensures -0.5 <= k as real - y <= 0.5
    ensures k as real - y == 0.5 ==> k % 2 == 0
    ensures k as real - y == -0.5 ==> k % 2 == 0
  {
    var f := y.Floor;
    var d := y - f as real;
    if d < 0.5 then f else if d > 0.5 then f + 1 else if f % 2 == 0 then f else f + 1
  }

  /** Rounding never crosses an integer: at or above k stays at or above
      it, at or below stays at or below. */
  lemma RoundHalfEvenBetween(y: real, k: int)
    ensures y >= k as real ==> RoundHalfEven(y) >= k
    ensures y <= k as real ==> RoundHalfEven(y) <= k
  {
  }

  lemma RoundHalfEvenOfInteger(y: real, k: int)
    requires y == k as real
    ensures RoundHalfEven(y) == k
  {
  }

  lemma RoundHalfEvenMonotone(y1: real, y2: real)
    requires y1 <= y2
    ensures RoundHalfEven(y1) <= RoundHalfEven(y2)
  {
    RoundHalfEvenBetween(y1, RoundHalfEven(y2) + 1);
    RoundHalfEvenBetween(y2, RoundHalfEven(y1) - 1);
  }

  /** The scales 10^d of the d = 1, 2, 3 decimals the applications use. */
  predicate DecimalScale(scale: nat)
  {
    scale == 10 || scale == 100 || scale == 1000
  }

  /** Python's round(x, d) and f"{x:.{d}f}" on the exact value of x, with
      scale == 10^d. */
  function RoundTo(x: real, scale: nat): real
    requires DecimalScale(scale)
  {
    RoundHalfEven(x * scale as real) as real / scale as real
  }

  lemma RoundToUnfold(x: real, scale: nat)
    requires DecimalScale(scale)
    ensures RoundTo(x, scale) == RoundHalfEven(x * scale as real) as real / scale as real
  {
  }

  /** x has at most d decimals when scale == 10^d. */
  predicate OnGrid(x: real, scale: nat)
    requires DecimalScale(scale)
  {
    (x * scale as real).Floor as real == x * scale as real
  }

  /** round(x, d) is on the 10^-d grid, within half a unit of x. */
  lemma RoundToSpec(x: real, scale: nat)
    requires DecimalScale(scale)
    ensures OnGrid(RoundTo(x, scale), scale)
    ensures Abs(RoundTo(x, scale) - x) <= 0.5 / scale as real
  {
    var k := RoundHalfEven(x * scale as real);
    assert RoundTo(x, scale) * scale as real == k as real;
    assert (RoundTo(x, scale) * scale as real).Floor == k;
  }

  /** A value already on the grid is left unchanged. */
  lemma RoundToMultiple(k: int, scale: nat)
    requires DecimalScale(scale)
    ensures RoundTo(k as real / scale as real, scale) == k as real / scale as real
  {
    var x := k as real / scale as real;
    RoundToUnfold(x, scale);
    QuotientTimesDivisor(k as real, scale as real);
    RoundHalfEvenOfInteger(x * scale as real, k);
  }

  /** Rounding stays inside [lo, hi] / scale when x * scale does. */
  lemma RoundToWithin(x: real, scale: nat, lo: int, hi: int)
    requires DecimalScale(scale)
    requires lo as real <= x * scale as real <= hi as real
    ensures lo as real / scale as real <= RoundTo(x, scale) <= hi as real / scale as real
  {
    RoundHalfEvenBetween(x * scale as real, lo);
    RoundHalfEvenBetween(x * scale as real, hi);
  }

  /** Rounding to the grid never crosses a grid point k / 10^d. */
  lemma RoundStaysBelow(x: real, scale: nat, k: int)
    requires DecimalScale(scale)
    requires x <= k as real / scale as real
    ensures RoundTo(x, scale) <= k as real / scale as real
  {
    var s := scale as real;
    var m := RoundHalfEven(x * s);
    assert m <= k by {
      QuotientTimesDivisor(k as real, s);
      ScaleMonotone(x, k as real / s, scale);
      RoundHalfEvenBetween(x * s, k);
    }
    assert RoundTo(x, scale) == m as real / s by {
      RoundToUnfold(x, scale);
    }
    QuotientMonotone(m, k, scale);
  }

  lemma RoundStaysAbove(x: real, scale: nat, k: int)
    requires DecimalScale(scale)
    requires x >= k as real / scale as real
    ensures RoundTo(x, scale) >= k as real / scale as real
  {
    var s := scale as real;
    var m := RoundHalfEven(x * s);
    assert m >= k by {
      QuotientTimesDivisor(k as real, s);
      ScaleMonotone(k as real / s, x, scale);
      RoundHalfEvenBetween(x * s, k);
    }
    assert RoundTo(x, scale) == m as real / s by {
      RoundToUnfold(x, scale);
    }
    QuotientMonotone(k, m, scale);
  }

  /** Rounding twice is rounding once. */
  lemma RoundToIdempotent(x: real, scale: nat)
    requires DecimalScale(scale)
    ensures RoundTo(RoundTo(x, scale), scale) == RoundTo(x, scale)
  {
    RoundToUnfold(x, scale);
    RoundToMultiple(RoundHalfEven(x * scale as real), scale);
  }

  lemma RoundToMonotone(x: real, y: real, scale: nat)
    requires DecimalScale(scale)
    requires x <= y
    ensures RoundTo(x, scale) <= RoundTo(y, scale)
  {
    RoundHalfEvenMonotone(x * scale as real, y * scale as real);
  }

  lemma ScaleMonotone(x: real, y: real, scale: nat)
    requires DecimalScale(scale)
    requires x <= y
    ensures x * scale as real <= y * scale as real
  {
  }

  lemma QuotientMonotone(p: int, q: int, scale: nat)
    requires DecimalScale(scale)
    requires p <= q
    ensures p as real / scale as real <= q as real / scale as real
  {
  }

  /** k / 10^d has at most d decimals. */
  lemma MultipleOnGrid(k: int, scale: nat)
    requires DecimalScale(scale)
    ensures OnGrid(k as real / scale as real, scale)
  {
    QuotientTimesDivisor(k as real, scale as real);
  }

  lemma NonnegativeProduct(a: real, b: real)
    requires a >= 0.0 && b >= 0.0
    ensures a * b >= 0.0
  {
  }

  lemma QuotientTimesDivisor(a: real, s: real)
    requires s != 0.0
    ensures a / s * s == a
  {
  }

  lemma DivideBound(e: real, s: real, b: real)
    requires s > 0.0 && -b <= e * s <= b
    ensures Abs(e) <= b / s
  {
    if e > b / s {
      assert e * s > b / s * s;
    }
    if e < -b / s {
      assert e * s < -b / s * s;
    }
  }

  /** h[i] == h[N-1-i] for every i: the coefficient symmetry of a
      linear-phase filter of type I or II. */
  ghost predicate Symmetric(s: seq<real>)
  {
    forall i :: 0 <= i < |s| ==> s[i] == s[|s| - 1 - i]
  }

  /** h_ideal * window in numpy: the elementwise product of equal-length arrays. */
  function Product(a: seq<real>, b: seq<real>): (r: seq<real>)
    requires |a| == |b|
    ensures |r| == |a|
    ensures forall i :: 0 <= i < |r| ==> r[i] == a[i] * b[i]
  {
    seq(|a|, i requires 0 <= i < |a| => a[i] * b[i])
  }

  lemma ProductSymmetric(a: seq<real>, b: seq<real>)
    requires |a| == |b| && Symmetric(a) && Symmetric(b)
    ensures Symmetric(Product(a, b))
  {
    var p := Product(a, b);
    forall i | 0 <= i < |p|
      ensures p[i] == p[|p| - 1 - i]
    {
      assert a[i] == a[|a| - 1 - i] && b[i] == b[|b| - 1 - i];
    }
  }

  /** An odd function, as sine is: f(-x) == -f(x). */
  ghost predicate OddFunction(f: real -> real)
  {
    forall x, y :: x + y == 0.0 ==> f(x) == -f(y)
  }

  /** The facts of cosine that the window formulas rely on: bounded by one,
      even, 2*pi-periodic, and the double-angle identity. */
  ghost predicate CosineLike(cos: real -> real)
  {
    && (forall x :: -1.0 <= cos(x) <= 1.0)
    && (forall x, y :: x + y == 0.0 ==> cos(x) == cos(y))
    && (forall x, y :: y == x + 2.0 * Pi ==> cos(y) == cos(x))
    && (forall x, y :: y == 2.0 * x ==> cos(y) == 2.0 * cos(x) * cos(x) - 1.0)
  }
}
