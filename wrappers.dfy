/** Option, the Python exceptions the core can raise, and error-carrying results. */
module Wrappers {

  datatype Option<+T> = None | Some(value: T) {
    /** The value, or `default` when there is none. */
    function GetOr(default: T): T {
      match this
      case Some(v) => v
      case None => default
    }
  }

  /**
   * The Python exceptions that the modelled code lets propagate to its
   * caller, and `NonFinite`: a numpy float divided by zero, which raises
   * nothing but yields inf or nan, values this model does not carry on.
   */
  datatype PyError =
    | IndexError        // a list index or `l[0]` on an empty list
    | ValueError        // `list.index` of a missing element, `min` of an empty list
    | KeyError          // a missing dictionary key
    | AttributeError    // a method called on `None`
    | ZeroDivisionError // a Python int or float divided by the float 0.0
    | NonFinite         // a numpy float64 divided by 0.0: inf or nan, no exception

  /** The outcome of an operation that returns a value or raises. */
  datatype Result<+T> = Ok(value: T) | Err(error: PyError)

  /** The outcome of an operation that only changes state or raises. */
  datatype Outcome = Pass | Fail(error: PyError)
}
