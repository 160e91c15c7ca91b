/** Option and Result values shared by every module of the model. */
module Wrappers {

  /** A value that may be absent; stands for Go's nil pointers and missing keys. */
  datatype Option<+T> = None | Some(value: T) {

    /** The wrapped value, or `default` when absent. */
    function GetOr(default: T): T {
      if Some? then value else default
    }
  }

  /** A Go `(value, error)` pair: exactly one of the two is meaningful. */
  datatype Result<+T> = Ok(value: T) | Err(error: string)
}
