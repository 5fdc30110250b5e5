/** Small value wrappers shared by every module of the model. */
module Wrappers {

  /** A value that may be absent (`null`/`undefined` in the client, `None` on the server). */
  datatype Option<+T> = None | Some(value: T)

  /** How an awaited call settled: fulfilled with a value, or rejected with an error whose
      `message` property may be missing. Every transport call of the client is one of these. */
  datatype Settled<+T> = Fulfilled(value: T) | Rejected(message: Option<string>)

  /** The outcome of a step that may raise: a value, or the text of the exception. */
  datatype Result<+T> = Success(value: T) | Failure(error: string)
}
