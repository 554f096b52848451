/** Optional values and results with an error, for JavaScript's `undefined`/`null` and for
    handlers that either produce a value or report a message. */
module Wrappers {

  datatype Option<+T> = None | Some(value: T)

  datatype Result<+T, +E> = Ok(value: T) | Err(error: E)
}

/** Types shared by the option-chain and portfolio parts of the application. */
module Market {

  /** The two sides of an option chain in NSE notation: call (CE) and put (PE). */
  datatype OptionSide = CE | PE
}

/** JavaScript division, including the non-finite results of dividing by zero. */
module JsNumbers {

  /** A number that a JavaScript division produced: finite, or one of IEEE-754's results
      of dividing by zero (a positive or negative numerator gives an infinity, zero gives NaN). */
  datatype Quotient = Finite(value: real) | PlusInfinity | MinusInfinity | NotANumber

  /** `a / b` as JavaScript evaluates it. */
  function Divide(a: real, b: real): (q: Quotient)
    ensures b != 0.0 ==> q == Finite(a / b)
    ensures b == 0.0 ==> (q.PlusInfinity? <==> a > 0.0)
    ensures b == 0.0 ==> (q.MinusInfinity? <==> a < 0.0)
    ensures b == 0.0 ==> (q.NotANumber? <==> a == 0.0)
  {
    if b != 0.0 then Finite(a / b)
    else if a > 0.0 then PlusInfinity
    else if a < 0.0 then MinusInfinity
    else NotANumber
  }

  /** For finite factors of which neither is -0, whether JavaScript's `x * y` is -0: one factor
      is zero and the other negative. Dividing by -0 flips the sign of the infinity. */
  predicate ProductIsNegativeZero(x: real, y: real)
  {
    (x == 0.0 && y < 0.0) || (y == 0.0 && x < 0.0)
  }

  /** `q * 100`: infinities and NaN are kept as they are. */
  function Percent(q: Quotient): Quotient
  {
    if q.Finite? then Finite(q.value * 100.0) else q
  }

  /** `q < bound`; every comparison with NaN is false. */
  predicate Below(q: Quotient, bound: real)
  {
    q.MinusInfinity? || (q.Finite? && q.value < bound)
  }

  /** `q > bound`. */
  predicate Above(q: Quotient, bound: real)
  {
    q.PlusInfinity? || (q.Finite? && q.value > bound)
  }

  /** `q >= bound`. */
  predicate AtLeast(q: Quotient, bound: real)
  {
    q.PlusInfinity? || (q.Finite? && q.value >= bound)
  }
}
