/** Nullable values as they arrive from the record store. */
module Wrappers {

  /** `None` stands for a column that is `null` or `undefined`. */
  datatype Option<+T> = None | Some(value: T)
}
