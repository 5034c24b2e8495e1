/** Exceptions raised by the shape library, as values.
    Every Python `raise` that the modelled code can reach becomes an `Err`
    carrying the exception class; the message text is not modelled. */
module Outcomes {

  /** The Python exception classes the core can raise. */
  datatype Error =
    | TypeError          // a coordinate leaf that is not a real number
    | ValueError         // a failed shape, argument or parameter check
    | ZeroDivisionError  // a float or complex division by zero
    | IndexError         // indexing an empty list of sides
    | StatisticsError    // `statistics.mean` of no values
    | TclError           // the canvas refusing an odd number of coordinates

  /** A value or the exception that replaced it. */
  datatype Result<+T> = Ok(value: T) | Err(error: Error) {
    predicate IsFailure() { Err? }

    function PropagateFailure<U>(): Result<U>
      requires Err?
    {
      Err(error)
    }

    function Extract(): T
      requires Ok?
    {
      value
    }
  }

  /** The outcome of a Python method that returns `None` or raises. */
  datatype Outcome = Pass | Fail(error: Error) {
    predicate IsFailure() { Fail? }

    function PropagateFailure(): Outcome
      requires Fail?
    {
      this
    }
  }

  datatype Option<+T> = None | Some(value: T)
}
