/** Failure-carrying results used throughout the model.

    The Go code does not return errors from its arithmetic: a decimal division
    by zero or an out-of-range slice index panics and ends the backtest.  The
    model makes each such panic an explicit `Fail` value so that contracts can
    say exactly when it happens. */
module Wrappers {

  /** Why a computation stopped. */
  datatype Failure =
    | DivisionByZero      // decimal `Div` with a zero divisor
    | IndexOutOfRange     // slice index past the end
    | SplitDepthExceeded  // the position ledger's reversal split recursed past its budget

  datatype Result<+T> = Ok(value: T) | Fail(error: Failure) {

    predicate IsFailure() {
      Fail?
    }

    function PropagateFailure<U>(): Result<U>
      requires Fail?
    {
      Fail(error)
    }

    function Extract(): T
      requires Ok?
    {
      value
    }
  }

  /** Decimal division as shopspring/decimal performs it, with exact reals:
      a zero divisor panics. */
  function Div(x: real, y: real): (r: Result<real>)
    ensures r.Ok? <==> y != 0.0
    ensures r.Ok? ==> r.value * y == x
  {
    if y == 0.0 then Fail(DivisionByZero) else Ok(x / y)
  }

  /** Decimal multiplication, exact.  Kept as a named function so that the
      loops that accumulate products are reasoned about one product at a
      time. */
  function Mul(x: real, y: real): real {
    x * y
  }

  function Abs(x: real): (r: real)
    ensures r >= 0.0
    ensures r == x || r == -x
  {
    if x < 0.0 then -x else x
  }
}
