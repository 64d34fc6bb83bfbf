/** Option and Result values used for nullable JavaScript values and for
    calls into the backend client that either resolve or throw. */
module Wrappers {

  datatype Option<+T> = None | Some(value: T)

  /** The outcome of an awaited backend call: it resolves with a value, or it
      throws an error whose `message` is the string carried by `Err`. */
  datatype Result<+T> = Ok(value: T) | Err(message: string)
}
