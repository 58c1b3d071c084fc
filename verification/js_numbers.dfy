/**
 * The parts of JavaScript number semantics the dashboard relies on:
 * division that yields NaN or an infinity for a zero divisor, comparisons
 * that are false on NaN, the truncating remainder operator, `Math.round`,
 * and the `x || d` default for a property that may be missing or zero.
 * Finite JavaScript numbers are modelled as exact rationals (`real`).
 */
module JsNumbers {
  import opened Wrappers

  /** A JavaScript number: finite, one of the two infinities, or NaN. */
  datatype JsNum = Finite(value: real) | PosInf | NegInf | NaN

  /** `a / b` for two finite numbers: IEEE 754 gives NaN for `0 / 0` and an infinity otherwise. */
  function Div(a: real, b: real): (r: JsNum)
    ensures r.Finite? <==> b != 0.0
    ensures r.Finite? ==> r.value * b == a
    ensures r.NaN? <==> a == 0.0 && b == 0.0
  {
    if b != 0.0 then Finite(a / b)
    else if a > 0.0 then PosInf
    else if a < 0.0 then NegInf
    else NaN
  }

  /** `x > c`; every comparison with NaN is false. */
  predicate Gt(x: JsNum, c: real) {
    match x
    case Finite(v) => v > c
    case PosInf => true
    case NegInf => false
    case NaN => false
  }

  /** `x >= c`; every comparison with NaN is false. */
  predicate Ge(x: JsNum, c: real) {
    match x
    case Finite(v) => v >= c
    case PosInf => true
    case NegInf => false
    case NaN => false
  }

  /** `c + k * x` for finite constants `c` and `k > 0`. */
  function AffinePos(c: real, k: real, x: JsNum): (r: JsNum)
    requires k > 0.0
    ensures r.Finite? <==> x.Finite?
  {
    match x
    case Finite(v) => Finite(c + k * v)
    case PosInf => PosInf
    case NegInf => NegInf
    case NaN => NaN
  }

  /** JavaScript's `a % b`: the remainder takes the sign of the dividend (truncating division). */
  function Rem(a: int, b: int): (r: int)
    requires b != 0
    ensures a >= 0 ==> 0 <= r < (if b > 0 then b else -b)
    ensures a < 0 ==> -(if b > 0 then b else -b) < r <= 0
    ensures a == Quot(a, b) * b + r
  {
    var m := if b > 0 then b else -b;
    if a >= 0 then
      QuotTimesDivisor(a, b);
      a % m
    else
      QuotTimesDivisor(a, b);
      -((-a) % m)
  }

  /** The truncating quotient (`Math.trunc(a / b)`), which JavaScript's `%` pairs with. */
  function Quot(a: int, b: int): int
    requires b != 0
  {
    var m := if b > 0 then b else -b;
    var q := if a >= 0 then a / m else -((-a) / m);
    if b > 0 then q else -q
  }

  lemma QuotTimesDivisor(a: int, b: int)
    requires b != 0
    ensures var m := if b > 0 then b else -b;
      Quot(a, b) * b == if a >= 0 then (a / m) * m else -(((-a) / m) * m)
  {
    var m := if b > 0 then b else -b;
    var q := if a >= 0 then a / m else -((-a) / m);
    if b > 0 {
      assert Quot(a, b) * b == q * m;
    } else {
      assert Quot(a, b) * b == (-q) * (-m) == q * m;
    }
  }

  /** `Math.round(x)`: the nearest integer, halves rounded towards positive infinity. */
  function Round(x: real): (r: int)
    ensures x - 0.5 < r as real <= x + 0.5
  {
    (x + 0.5).Floor
  }

  /** `x || d` for a numeric property that may be missing: missing, or the falsy value 0, gives `d`. */
  function OrDefault(x: Option<real>, d: real): (r: real)
    ensures x.Some? && x.value != 0.0 ==> r == x.value
    ensures x.None? || x.value == 0.0 ==> r == d
  {
    if x.Some? && x.value != 0.0 then x.value else d
  }

  /** With a zero default, `x || 0` is just "missing counts as zero". */
  lemma OrZeroIsGetOrZero(x: Option<real>)
    ensures OrDefault(x, 0.0) == x.GetOr(0.0)
  {
  }

  /** `Math.max(...xs)` over a non-empty list of finite numbers. */
  function Max(xs: seq<real>): (m: real)
    requires |xs| > 0
    ensures m in xs
    ensures forall i :: 0 <= i < |xs| ==> xs[i] <= m
  {
    if |xs| == 1 then xs[0]
    else var t := Max(xs[1..]); if xs[0] >= t then xs[0] else t
  }

  /** `Math.min(...xs)` over a non-empty list of finite numbers. */
  function Min(xs: seq<real>): (m: real)
    requires |xs| > 0
    ensures m in xs
    ensures forall i :: 0 <= i < |xs| ==> m <= xs[i]
  {
    if |xs| == 1 then xs[0]
    else var t := Min(xs[1..]); if xs[0] <= t then xs[0] else t
  }

  /** The sum of a list of numbers, as `reduce((s, v) => s + v, 0)` computes it. */
  function Sum(xs: seq<real>): real
  {
    if xs == [] then 0.0 else Sum(xs[..|xs| - 1]) + xs[|xs| - 1]
  }

  /** A sum of values between `lo` and `hi` lies between `n * lo` and `n * hi`. */
  lemma {:induction false} SumBounds(xs: seq<real>, lo: real, hi: real)
    requires forall i :: 0 <= i < |xs| ==> lo <= xs[i] <= hi
    ensures |xs| as real * lo <= Sum(xs) <= |xs| as real * hi
  {
    if xs != [] {
      SumBounds(xs[..|xs| - 1], lo, hi);
    }
  }
}
