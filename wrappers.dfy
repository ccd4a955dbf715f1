/** Option, Result and Outcome: the model's stand-ins for Swift optionals,
    `throws` and `Result<Success, Failure>`. */
module Wrappers {

  datatype Option<+T> = None | Some(value: T) {
    function GetOr(default: T): T {
      match this
      case Some(v) => v
      case None => default
    }
  }

  datatype Result<+T, +E> = Ok(value: T) | Err(error: E)

  /** The outcome of a throwing Swift function returning Void. */
  datatype Outcome<+E> = Pass | Fail(error: E)

  /** Bytes of a Swift `Data` value. */
  newtype Byte = x: int | 0 <= x < 256

  type Bytes = seq<Byte>
}
