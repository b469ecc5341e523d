/** JavaScript values the core computes with, idealised: a number is a real
    or NaN (no infinities, no rounding), `null`/`undefined` is `None`. */
module Js {

  datatype Option<+T> = None | Some(value: T)

  /** A JavaScript number. */
  datatype Number = Num(r: real) | NaN {
    /** A number is truthy unless it is 0 or NaN. */
    predicate Truthy() {
      Num? && r != 0.0
    }
  }

  /** `a >= b`: every comparison with NaN is false. */
  predicate AtLeast(a: Number, b: Number) {
    a.Num? && b.Num? && a.r >= b.r
  }

  /** `a <= b`: every comparison with NaN is false. */
  predicate AtMost(a: Number, b: Number) {
    a.Num? && b.Num? && a.r <= b.r
  }

  /** `a / d` for a non-zero constant divisor. */
  function Divide(a: Number, d: real): (q: Number)
    requires d != 0.0
    ensures q.NaN? <==> a.NaN?
    ensures q.Num? ==> q.r * d == a.r
  {
    match a
    case NaN => NaN
    case Num(x) => Num(x / d)
  }

  /** Integer division truncating toward zero, the quotient that goes with
      JavaScript's `%`. */
  function Quot(a: int, n: int): (q: int)
    requires n > 0
  {
    if a >= 0 then a / n else -((-a) / n)
  }

  /** JavaScript `a % n` on integers: the remainder truncates toward zero,
      so it carries the sign of the dividend. */
  function Rem(a: int, n: int): (r: int)
    requires n > 0
    ensures -n < r < n
    ensures a >= 0 ==> r >= 0
    ensures a <= 0 ==> r <= 0
    ensures a == Quot(a, n) * n + r
  {
    if a >= 0 then a % n else -((-a) % n)
  }

  /** `%` leaves a non-negative dividend below `n` alone and takes `n` off
      one in `[n, 2n)`: the two cases a wrap-around counter meets. */
  lemma RemInRange(a: int, n: int)
    requires n > 0
    ensures 0 <= a < n ==> Rem(a, n) == a
    ensures n <= a < 2 * n ==> Rem(a, n) == a - n
  {
    if n <= a < 2 * n {
      var q := a / n;
      assert a == q * n + a % n && 0 <= a % n < n;
      assert -n < (q - 1) * n < n;
      assert q == 1;
    }
  }
}
