/** Optional values and service-call results shared by every module. */
module Wrappers {

  /** A value that may be absent: Python's `None`, C#'s `null`. */
  datatype Option<+T> = None | Some(value: T)

  /** The outcome of a call into code outside the model: it returns a value or throws. */
  datatype Outcome<+T> = Returns(value: T) | Throws(message: string)

  /** The outcome of one connection attempt made against a broker or a database. */
  datatype AttemptOutcome = Succeeded | Failed(reason: string)
}
