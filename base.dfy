/** Values shared by every part of the model: optional values, results, and
    the Python exceptions that the modelled code can raise. */
module Base {

  datatype Option<+T> = None | Some(value: T) {
    function GetOr(default: T): T {
      match this
      case Some(v) => v
      case None => default
    }
  }

  datatype Result<+T, +E> = Success(value: T) | Failure(error: E)

  /** The outcome of a step that returns nothing: it either completes or raises. */
  datatype Outcome<+E> = Pass | Fail(error: E)

  /** The Python exceptions that the modelled code raises on its own
      (a missing dictionary key, an index past the end of a list, a local
      variable read before any assignment, a global that was never defined,
      an explicit `raise ValueError`, `.lower()` on a value that is not a string). */
  datatype Exception =
    | KeyError(key: string)
    | IndexError
    | UnboundLocalError(variable: string)
    | NameError(variable: string)
    | ValueError(message: string)
    | AttributeError(attribute: string)
}
