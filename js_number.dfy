/** The part of JavaScript's number semantics the dashboard relies on: a
    division that may yield Infinity or NaN, and the `x || 0` idiom that maps
    NaN (and 0) to 0. Float rounding is not modelled: finite values are reals. */
module JsNumber {

  datatype JsNum = Num(r: real) | PosInfinity | NegInfinity | NaN

  /** `a / b` on two numbers. */
  function Div(a: real, b: real): (q: JsNum)
    ensures b != 0.0 ==> q == Num(a / b)
    ensures b == 0.0 && a > 0.0 ==> q == PosInfinity
    ensures b == 0.0 && a < 0.0 ==> q == NegInfinity
    ensures b == 0.0 && a == 0.0 ==> q == NaN
  {
    if b != 0.0 then Num(a / b)
    else if a > 0.0 then PosInfinity
    else if a < 0.0 then NegInfinity
    else NaN
  }

  predicate IsInfinite(x: JsNum) {
    x.PosInfinity? || x.NegInfinity?
  }

  /** `-x` on an infinity. */
  function Negated(x: JsNum): (r: JsNum)
    requires IsInfinite(x)
    ensures IsInfinite(r) && r != x
  {
    if x.PosInfinity? then NegInfinity else PosInfinity
  }

  /** `a / b` on any two numbers (IEEE 754 division): NaN spreads, a finite
      value over an infinity is 0, an infinity over a finite value keeps its
      sign unless the divisor is negative, and an infinity over an infinity
      is NaN. A zero divisor counts as +0. */
  function DivParsed(a: JsNum, b: JsNum): (q: JsNum)
    ensures a.NaN? || b.NaN? ==> q.NaN?
    ensures a.Num? && b.Num? ==> q == Div(a.r, b.r)
    ensures a.Num? && IsInfinite(b) ==> q == Num(0.0)
    ensures IsInfinite(a) && b.Num? && b.r >= 0.0 ==> q == a
    ensures IsInfinite(a) && b.Num? && b.r < 0.0 ==> q == Negated(a)
    ensures IsInfinite(a) && IsInfinite(b) ==> q.NaN?
  {
    match (a, b)
    case (NaN, _) => NaN
    case (_, NaN) => NaN
    case (Num(x), Num(y)) => Div(x, y)
    case (Num(_), _) => Num(0.0)
    case (_, Num(y)) => if y < 0.0 then Negated(a) else a
    case _ => NaN
  }

  /** `x || 0`: NaN and 0 are falsy and become 0; every other value stays. */
  function OrZero(x: JsNum): (r: JsNum)
    ensures !r.NaN?
    ensures x.NaN? ==> r == Num(0.0)
    ensures !x.NaN? ==> r == x
  {
    if x.NaN? then Num(0.0) else x
  }

  /** `x > c` for a finite constant `c`: NaN compares false, Infinity true. */
  predicate Exceeds(x: JsNum, c: real) {
    match x
    case Num(r) => r > c
    case PosInfinity => true
    case NegInfinity => false
    case NaN => false
  }

  /** The order of the non-NaN numbers: -Infinity, the finite values, then
      Infinity. */
  predicate AtLeast(x: JsNum, y: JsNum) {
    match (x, y)
    case (PosInfinity, _) => true
    case (_, NegInfinity) => true
    case (Num(a), Num(b)) => a >= b
    case _ => false
  }

  /** Being at least `hi` implies being at least any smaller `lo`. */
  lemma AtLeastLower(x: JsNum, lo: real, hi: real)
    requires lo <= hi && AtLeast(x, Num(hi))
    ensures AtLeast(x, Num(lo))
  {
  }

  /** A number at least as large as one exceeding `c` exceeds `c` too. */
  lemma ExceedsMonotone(x: JsNum, y: JsNum, c: real)
    requires AtLeast(x, y) && Exceeds(y, c)
    ensures Exceeds(x, c)
  {
  }

  /** With a positive divisor, `a / b > c` compares `a` with `c * b`. */
  lemma DivExceeds(a: real, b: real, c: real)
    requires b > 0.0
    ensures Exceeds(Div(a, b), c) <==> a > c * b
  {
    var q := a / b;
    assert a == q * b;
    if q > c {
      assert (q - c) * b > 0.0;
      assert (q - c) * b == q * b - c * b;
    } else {
      assert (c - q) * b >= 0.0;
      assert (c - q) * b == c * b - q * b;
    }
  }
}
