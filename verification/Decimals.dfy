/** Exact decimal arithmetic: the `Decimal.quantize` roundings the bot uses, as floor,
    ceiling and round-half-even on a grid of a given step. */
module Decimals {

  const SHARE_LOT: real := 0.01             // smallest share lot a buy is rounded down to
  const FEE_QUANTUM: real := 0.00001        // fees are rounded up to this step
  const ACCOUNTING_Q: real := 0.0000000001  // pro-rata cost removal is rounded to this step

  function Min(a: real, b: real): real {
    if a <= b then a else b
  }

  function Max(a: real, b: real): real {
    if a >= b then a else b
  }

  function Abs(a: real): real {
    if a < 0.0 then -a else a
  }

  /** The largest multiple of `q` that is at most `x` (ROUND_FLOOR). */
  function FloorTo(x: real, q: real): (r: real)
    requires q > 0.0
    ensures r <= x < r + q
  {
    Scale(x, q);
    Multiple((x / q).Floor, q)
  }

  /** The least multiple of `q` that is at least `x` (ROUND_CEILING). */
  function CeilTo(x: real, q: real): (r: real)
    requires q > 0.0
    ensures x <= r < x + q
  {
    -FloorTo(-x, q)
  }

  /** Round to the nearest multiple of `q`, ties to the even multiple (the Decimal default). */
  function RoundHalfEven(x: real, q: real): (r: real)
    requires q > 0.0
    ensures x - q / 2.0 <= r <= x + q / 2.0
  {
    Scale(x, q);
    var k := (x / q).Floor;
    var frac := x - Multiple(k, q);
    if frac < q / 2.0 || (frac == q / 2.0 && k % 2 == 0) then Multiple(k, q) else Multiple(k + 1, q)
  }

  lemma RoundedOnGrid(x: real, q: real)
    requires q > 0.0
    ensures OnGrid(FloorTo(x, q), q) && OnGrid(CeilTo(x, q), q) && OnGrid(RoundHalfEven(x, q), q)
  {
    GridNegate(FloorTo(-x, q), q);
  }

  function Multiple(k: int, q: real): real {
    k as real * q
  }

  ghost predicate OnGrid(x: real, q: real) {
    exists k: int :: x == Multiple(k, q)
  }

  lemma Scale(x: real, q: real)
    requires q > 0.0
    ensures Multiple((x / q).Floor, q) <= x < Multiple((x / q).Floor, q) + q
    ensures Multiple((x / q).Floor + 1, q) == Multiple((x / q).Floor, q) + q
  {
    ScaleBelow(x / q, q);
    ScaleAbove(x / q, q);
    MultipleStep((x / q).Floor, q);
    DivMul(x, q);
  }

  lemma ScaleBelow(y: real, q: real)
    requires q > 0.0
    ensures Multiple(y.Floor, q) <= y * q
  {
    MulLe(y.Floor as real, y, q);
  }

  lemma ScaleAbove(y: real, q: real)
    requires q > 0.0
    ensures y * q < Multiple(y.Floor + 1, q)
  {
    MulLt(y, (y.Floor + 1) as real, q);
  }

  lemma MultipleStep(k: int, q: real)
    ensures Multiple(k + 1, q) == Multiple(k, q) + q
  {
    assert (k + 1) as real == k as real + 1.0;
  }

  lemma MulLe(a: real, b: real, c: real)
    requires a <= b && c >= 0.0
    ensures a * c <= b * c
  {
    assert (b - a) * c >= 0.0;
  }

  lemma MulLt(a: real, b: real, c: real)
    requires a < b && c > 0.0
    ensures a * c < b * c
  {
    assert (b - a) * c > 0.0;
  }

  lemma DivMul(a: real, b: real)
    requires b != 0.0
    ensures (a / b) * b == a
  {
  }

  lemma GridNegate(x: real, q: real)
    requires OnGrid(x, q)
    ensures OnGrid(-x, q)
  {
    var k: int :| x == Multiple(k, q);
    assert -x == Multiple(-k, q);
  }

  lemma GridAdd(x: real, y: real, q: real)
    requires OnGrid(x, q) && OnGrid(y, q)
    ensures OnGrid(x + y, q) && OnGrid(x - y, q)
  {
    var j: int :| x == Multiple(j, q);
    var k: int :| y == Multiple(k, q);
    assert x + y == Multiple(j + k, q);
    assert x - y == Multiple(j - k, q);
  }

  lemma GridStep(x: real, y: real, q: real)
    requires q > 0.0 && OnGrid(x, q) && OnGrid(y, q) && x < y
    ensures x + q <= y
  {
    var j: int :| x == Multiple(j, q);
    var k: int :| y == Multiple(k, q);
    if k <= j {
      MulLe(k as real, j as real, q);
    } else {
      MultipleStep(j, q);
      MulLe((j + 1) as real, k as real, q);
    }
  }

  /** Rounding down gives the largest multiple that is at most the number. */
  lemma FloorIsLargest(x: real, q: real, y: real)
    requires q > 0.0
    ensures OnGrid(FloorTo(x, q), q) && FloorTo(x, q) <= x
    ensures OnGrid(y, q) && y <= x ==> y <= FloorTo(x, q)
  {
    RoundedOnGrid(x, q);
    hide FloorTo;
    if OnGrid(y, q) && FloorTo(x, q) < y {
      GridStep(FloorTo(x, q), y, q);
    }
  }

  /** Rounding up gives the least multiple that is at least the number. */
  lemma CeilIsLeast(x: real, q: real, y: real)
    requires q > 0.0
    ensures OnGrid(CeilTo(x, q), q) && x <= CeilTo(x, q)
    ensures OnGrid(y, q) && x <= y ==> CeilTo(x, q) <= y
  {
    RoundedOnGrid(x, q);
    hide CeilTo;
    if OnGrid(y, q) && y < CeilTo(x, q) {
      GridStep(y, CeilTo(x, q), q);
    }
  }

  /** Rounding never leaves an interval whose ends are on the grid. */
  lemma RoundStaysBetween(lo: real, x: real, hi: real, q: real)
    requires q > 0.0 && OnGrid(lo, q) && OnGrid(hi, q) && lo <= x <= hi
    ensures lo <= RoundHalfEven(x, q) <= hi
  {
    var r := RoundHalfEven(x, q);
    RoundedOnGrid(x, q);
    if r < lo {
      GridStep(r, lo, q);
    }
    if hi < r {
      GridStep(hi, r, q);
    }
  }

  /** Halfway between two multiples the even one is taken. */
  lemma TiesGoEven(k: int, q: real)
    requires q > 0.0
    ensures RoundHalfEven(Multiple(k, q) + q / 2.0, q) == Multiple(if k % 2 == 0 then k else k + 1, q)
  {
    var x := Multiple(k, q) + q / 2.0;
    Scale(x, q);
    MultipleStep(k, q);
    hide Multiple;
    var j := (x / q).Floor;
    if j < k {
      MultipleUp(j + 1, k, q);
    } else if k < j {
      MultipleUp(k + 1, j, q);
    }
    assert j == k;
  }

  lemma MultipleUp(j: int, k: int, q: real)
    requires q > 0.0 && j <= k
    ensures Multiple(j, q) <= Multiple(k, q)
  {
    MulLe(j as real, k as real, q);
  }

  /** A number on the grid is what every rounding leaves it. */
  lemma GridStays(k: int, q: real)
    requires q > 0.0
    ensures FloorTo(Multiple(k, q), q) == Multiple(k, q) && CeilTo(Multiple(k, q), q) == Multiple(k, q)
    ensures RoundHalfEven(Multiple(k, q), q) == Multiple(k, q)
  {
    hide FloorTo, CeilTo, RoundHalfEven, Multiple;
    assert OnGrid(Multiple(k, q), q);
    FloorIsLargest(Multiple(k, q), q, Multiple(k, q));
    CeilIsLeast(Multiple(k, q), q, Multiple(k, q));
    RoundStaysBetween(Multiple(k, q), Multiple(k, q), Multiple(k, q), q);
  }
}
