/** Failure-compatible wrappers used throughout the model. */
module Wrappers {

  datatype Option<+T> = None | Some(value: T)

  /** The outcome of a fallible operation; usable with `:-`. */
  datatype Result<+T, +E> = Success(value: T) | Failure(error: E) {
    predicate IsFailure() {
      Failure?
    }

    function PropagateFailure<U>(): Result<U, E>
      requires Failure?
    {
      Failure(error)
    }

    function Extract(): T
      requires Success?
    {
      value
    }
  }

  /** One HTTP exchange as seen after `serde_json` decoding: the request
      itself failed, the body did not decode, or it decoded to a value. */
  datatype Response<+T> = Failed(reason: string) | Undecodable(reason: string) | Decoded(body: T)
}
