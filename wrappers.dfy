/** Small value types shared by the page models. */
module Wrappers {

  /** A value that may be absent: for parseInt, None stands for NaN; for a handler, for "no backend call made". */
  datatype Option<+T> = None | Some(value: T)

  /** How an awaited actor call ended: it resolved with a value, or it rejected and the catch branch ran. */
  datatype Outcome<+T> = Returned(value: T) | Thrown
}
