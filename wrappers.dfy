/** Optional values, and results of Python code that may raise an exception. */
module Wrappers {
  datatype Option<+T> = None | Some(value: T)

  /**
   * The outcome of Python code that returns a value or raises an exception
   * (the model does not distinguish exception types). `:-` propagates the
   * exception.
   */
  datatype Result<+T> = Ok(value: T) | Raised {
    predicate IsFailure() {
      Raised?
    }

    function PropagateFailure<U>(): Result<U>
      requires Raised?
    {
      Raised
    }

    function Extract(): T
      requires Ok?
    {
      value
    }
  }
}
