/** Optional values, and results that carry either a value or the Python
    exception class the modelled code raises. */
module Wrappers {

  datatype Option<+T> = None | Some(value: T)

  /** The exception classes that the modelled Python code can raise. */
  datatype PyError = KeyError | IndexError | TypeError | AttributeError | ValueError

  /** A computation that either returns a value or raises; usable with `:-`. */
  datatype Result<+T> = Ok(value: T) | Err(error: PyError) {

    predicate IsFailure() {
      Err?
    }

    function PropagateFailure<U>(): Result<U>
      requires Err?
    {
      Err(error)
    }

    function Extract(): T
      requires Ok?
    {
      value
    }
  }
}
