/** Optional values and outcomes of JavaScript operations that may throw. */
module Wrappers {

  /** A JavaScript value that may be `undefined` (or `null`). */
  datatype Option<+T> = None | Some(value: T)

  /** The outcome of a call that either returns a value or throws; `reason`
      is the thrown value as `String(err)` renders it. */
  datatype Try<+T> = Done(value: T) | Threw(reason: string)
}
