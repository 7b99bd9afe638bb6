/** Failure-carrying results and the Python exception kinds the dashboard can raise. */
module Wrappers {

  datatype Option<+T> = None | Some(value: T)

  /** The exception a Python expression of the dashboard would raise. */
  datatype Error =
    | KeyError(key: string)      // a dict lookup of a missing key
    | TypeError                  // subscripting or assigning into a non-dict, arithmetic on a non-number
    | AttributeError             // `setdefault` called on a non-dict
    | ZeroDivisionError          // Python float or int division by zero
    | ValueError                 // an explicit `raise ValueError` or `max` of an empty sequence
    | NameError(name: string)    // an undefined global name
    | IndexError                 // indexing an empty list
    | OverflowError              // `int()` of an infinite float

  datatype Result<+T> = Ok(value: T) | Err(error: Error) {
    predicate IsFailure() { Err? }
    function PropagateFailure<U>(): Result<U>
      requires Err?
    {
      Err(error)
    }
    function Extract(): T
      requires Ok?
    {
      value
    }
  }
}
