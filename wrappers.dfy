/** Option values and the outcome of a Python call that may raise. */
module Wrappers {

  datatype Option<+T> = None | Some(value: T)

  /** The exceptions the core can raise: `datetime` rejecting a date or time
      (ValueError), `date + timedelta` leaving the supported range
      (OverflowError) and a missing key in a response dictionary (KeyError). */
  datatype Exception = ValueError | OverflowError | KeyError

  /** A value returned normally, or an exception raised. */
  datatype Result<+T> = Ok(value: T) | Raise(exception: Exception)
}
