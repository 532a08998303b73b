/** The two sum types every layer of the model builds on. */
module Wrappers {

  /** Absent or present. Stands for a JSON field that is missing or null, a
      form field left empty, and a Python `None`. */
  datatype Option<+T> = None | Some(value: T) {

    /** `x ?? d` in the scripts, `x if x is not None else d` in the service. */
    function GetOr(d: T): T {
      if Some? then value else d
    }
  }

  /** What a call ends with: the value it produced, or the error it stopped on. */
  datatype Result<+R, +E> = Success(value: R) | Failure(error: E)
}
