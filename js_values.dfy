/**
  The few JavaScript value semantics the client relies on: values that may be
  missing (`null`/`undefined`), thrown errors, the `x || y` fallback on numbers,
  and the IEEE-754 special values that an unguarded division can produce.
  Floating-point rounding is not modelled: finite numbers are exact reals.
 */
module JsValues {

  /** A value that may be `null` or `undefined` (both are `None`). */
  datatype Option<+T> = None | Some(value: T)

  /** The outcome of an awaited call: a value, or the error it threw. */
  datatype Result<+T, +E> = Success(value: T) | Failure(error: E)

  /** JavaScript truthiness of a number that may be missing: `0` is falsy. */
  predicate Truthy(x: Option<real>)
  {
    x.Some? && x.value != 0.0
  }

  /** `a || b` on numbers that may be missing. */
  function Or(a: Option<real>, b: Option<real>): (r: Option<real>)
    ensures Truthy(a) ==> r == a
    ensures !Truthy(a) ==> r == b
  {
    if Truthy(a) then a else b
  }

  /** `x || 0`: a missing (or zero) number reads as zero. */
  function OrZero(x: Option<real>): (r: real)
    ensures Truthy(x) ==> r == x.value
    ensures !Truthy(x) ==> r == 0.0
  {
    match x
    case Some(v) => v
    case None => 0.0
  }

  /** `x || null`: a falsy number is replaced by `null`. */
  function OrNull(x: Option<real>): (r: Option<real>)
    ensures r.Some? <==> Truthy(x)
    ensures r.Some? ==> r == x
  {
    if Truthy(x) then x else None
  }

  /**
    A JavaScript number: a finite value or one of the IEEE-754 special values.
    Signed zero is not distinguished.
   */
  datatype Number = Finite(value: real) | PosInfinity | NegInfinity | NaN

  /** A value read from a response that may be `undefined`, `null` or a number. */
  datatype JsValue = Undefined | Null | Num(number: Number)

  /**
    The global `isNaN(v)`, which first converts `v` to a number: `undefined`
    converts to NaN and `null` to 0.
   */
  predicate IsNaN(v: JsValue)
  {
    match v
    case Undefined => true
    case Null => false
    case Num(n) => n.NaN?
  }

  /** Negation (`-x`). */
  function Neg(x: Number): Number
  {
    match x
    case Finite(v) => Finite(-v)
    case PosInfinity => NegInfinity
    case NegInfinity => PosInfinity
    case NaN => NaN
  }

  /** Addition (`a + b`) with IEEE-754 special values. */
  function Add(a: Number, b: Number): Number
  {
    match (a, b)
    case (NaN, _) => NaN
    case (_, NaN) => NaN
    case (Finite(x), Finite(y)) => Finite(x + y)
    case (PosInfinity, NegInfinity) => NaN
    case (NegInfinity, PosInfinity) => NaN
    case (PosInfinity, _) => PosInfinity
    case (NegInfinity, _) => NegInfinity
    case (_, PosInfinity) => PosInfinity
    case (_, NegInfinity) => NegInfinity
  }

  /** Subtraction (`a - b`). */
  function Sub(a: Number, b: Number): Number
  {
    Add(a, Neg(b))
  }

  /**
    A sum is finite exactly when both operands are, and is then their sum; it
    is NaN exactly when an operand is NaN or the operands are opposite infinities.
   */
  lemma AddSpecialValues(a: Number, b: Number)
    ensures Add(a, b).Finite? <==> a.Finite? && b.Finite?
    ensures Add(a, b).Finite? ==> Add(a, b).value == a.value + b.value
    ensures Add(a, b).NaN? <==> a.NaN? || b.NaN? || (a.PosInfinity? && b.NegInfinity?) || (a.NegInfinity? && b.PosInfinity?)
  {
  }

  /**
    A finite difference comes from finite operands and is their difference; it
    is NaN exactly when an operand is NaN or both are the same infinity.
   */
  lemma SubSpecialValues(a: Number, b: Number)
    ensures Sub(a, b).Finite? ==> a.Finite? && b.Finite? && Sub(a, b).value == a.value - b.value
    ensures Sub(a, b).NaN? <==> a.NaN? || b.NaN? || (a.PosInfinity? && b.PosInfinity?) || (a.NegInfinity? && b.NegInfinity?)
  {
  }

  /** The sign of a non-NaN number: -1, 0 or 1. */
  function Sign(x: Number): int
    requires !x.NaN?
  {
    match x
    case Finite(v) => if v > 0.0 then 1 else if v < 0.0 then -1 else 0
    case PosInfinity => 1
    case NegInfinity => -1
  }

  /**
    Division (`a / b`) with IEEE-754 special values: a non-zero number divided
    by zero is an infinity of its sign, `0 / 0` and `Infinity / Infinity` are
    NaN, and a finite number divided by an infinity is zero.
   */
  function Div(a: Number, b: Number): (r: Number)
    ensures a.Finite? && b.Finite? && b.value != 0.0 ==> r == Finite(a.value / b.value)
    ensures a.Finite? && b.Finite? && b.value == 0.0 ==>
      r == (if a.value > 0.0 then PosInfinity else if a.value < 0.0 then NegInfinity else NaN)
  {
    match (a, b)
    case (NaN, _) => NaN
    case (_, NaN) => NaN
    case (Finite(x), Finite(y)) =>
      if y != 0.0 then Finite(x / y)
      else if x > 0.0 then PosInfinity
      else if x < 0.0 then NegInfinity
      else NaN
    case (Finite(_), _) => Finite(0.0)
    case (_, Finite(y)) =>
      // an infinity divided by a finite number; division by zero keeps the sign
      if Sign(a) * (if y < 0.0 then -1 else 1) > 0 then PosInfinity else NegInfinity
    case (_, _) => NaN
  }
}
