/** Option and Result values used across the model. */
module Wrappers {

  datatype Option<+T> = None | Some(value: T) {
    function GetOr(default: T): T {
      match this
      case Some(v) => v
      case None => default
    }
  }

  datatype Result<+T, +E> = Ok(value: T) | Err(error: E)

  /** The outcome of a call into a collaborator that can throw. */
  datatype Call<+T> = Returned(value: T) | Raised(message: string)
}
