/** Option, and the outcome of a computation that may raise a Python exception. */
module Wrappers {

  datatype Option<+T> = None | Some(value: T) {

    /** Returns the value in Some, or `default` for None. */
    function GetOr(default: T): T {
      match this
      case Some(v) => v
      case None => default
    }
  }

  /** The exceptions that escape the modelled functions. Which Python class a
      shape error is (AttributeError, TypeError) is not observed by any caller,
      so the model keeps only the distinctions a caller can see. */
  datatype Exc =
    | JsonDecodeError   // json.load on a document that is not JSON
    | ShapeError        // AttributeError or TypeError from using a value of the wrong shape
    | IoError           // a file that cannot be opened

  /** The outcome of a call: its value, or the exception it raised. */
  datatype Result<+T> = Ok(value: T) | Raised(exc: Exc) {

    predicate IsFailure() {
      Raised?
    }

    function PropagateFailure<U>(): Result<U>
      requires Raised?
    {
      Raised(exc)
    }

    function Extract(): T
      requires Ok?
    {
      value
    }
  }
}
