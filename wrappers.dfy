/** Failure-carrying values: `None`/`Err` stand for a Python `None` or a raised exception. */
module Wrappers {

  datatype Option<+T> = None | Some(value: T) {
    function GetOr(default: T): T {
      match this
      case Some(v) => v
      case None => default
    }
  }

  /** `Err` carries the text of the exception (Python's `str(e)`). */
  datatype Result<+T> = Ok(value: T) | Err(error: string)

  /** The `Pass`/`Fail` outcome of a call made only for its side effects. */
  datatype Outcome = Pass | Fail(error: string)
}
