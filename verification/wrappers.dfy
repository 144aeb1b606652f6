/** Optional values and the outcome of an awaited call, shared by every module. */
module Wrappers {

  datatype Option<+T> = None | Some(value: T)

  /** The outcome of an awaited service call: its value, or a rejected promise. */
  datatype Call<+T> = Resolved(value: T) | Rejected
}
