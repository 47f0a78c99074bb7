/** Optional values and results with a failure value, as used throughout the model. */
module Wrappers {

  /** A value that may be absent: C#'s `null` for reference and nullable types. */
  datatype Option<+T> = None | Some(value: T) {
    function GetOr(default: T): T {
      match this
      case Some(v) => v
      case None => default
    }
  }

  /** The outcome of an operation that can throw: `Failure` carries the exception. */
  datatype Result<+T, +E> = Success(value: T) | Failure(error: E)
}

/** The exceptions the modelled code can raise and catch. */
module Faults {

  /**
   * `ArgumentOutOfRange`: String.Substring with a negative start index.
   * `DbUpdate`: SaveChanges rejected a row that breaks a unique index or a length limit.
   * `NullReference`: a navigation property that was not loaded.
   * `SaltParse`: BCrypt's Verify given a stored hash that is not a BCrypt hash.
   */
  datatype Fault = ArgumentOutOfRange | DbUpdate | NullReference | SaltParse {
    /** Stand-in for `Exception.Message`: the exception's type name, not .NET's message text. */
    function Message(): string {
      match this
      case ArgumentOutOfRange => "ArgumentOutOfRangeException"
      case DbUpdate => "DbUpdateException"
      case NullReference => "NullReferenceException"
      case SaltParse => "SaltParseException"
    }
  }
}
