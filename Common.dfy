/** Shared vocabulary of the two engines: Python's two-argument min/max over reals,
    the points where a run or an audit raises ZeroDivisionError, and a result type
    that carries either a value or that fault. */
module Common {

  /** Python's `min(a, b)`: the first argument when it is not larger. */
  function Min(a: real, b: real): (r: real)
    ensures r <= a && r <= b
    ensures r == a || r == b
  {
    if b < a then b else a
  }

  /** Python's `max(a, b)`: the first argument when it is not smaller. */
  function Max(a: real, b: real): (r: real)
    ensures a <= r && b <= r
    ensures r == a || r == b
  {
    if a < b then b else a
  }

  /** The expressions of the engines that can divide by zero. */
  datatype Fault =
    | ProgressPeriodZero  // `step % (steps // 10)` with `steps // 10 == 0`
    | ReturnBaseZero      // a return divided by a previous price equal to 0
    | NoReturns           // the return list is empty: `sum(..) / len(returns)` with length 0
    | PeakZero            // the drawdown `(px - peak) / peak` with a running peak equal to 0

  datatype Result<+T> = Success(value: T) | Failure(fault: Fault)
}
