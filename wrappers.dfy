/** Small value wrappers shared by both handlers. */
module Wrappers {

  /** A value that may be absent: TypeScript's `T | undefined`. */
  datatype Option<+T> = None | Some(value: T)

  /** How an awaited promise settles: with a value, or by throwing. */
  datatype Settled<+T> = Resolved(value: T) | Rejected
}
