/** Option and Outcome: `null`/`undefined` and "resolved or rejected" in the model. */
module Wrappers {

  datatype Option<+T> = None | Some(value: T) {

    /** `x ?? default` */
    function GetOr(default: T): T {
      match this
      case Some(v) => v
      case None => default
    }
  }

  /** The settled state of a promise: resolved, or rejected with an error message. */
  datatype Outcome = Pass | Fail(error: string)
}
