/** A value that may be absent: a storage entry not yet written, a round not yet loaded. */
module Wrappers {
  datatype Option<+T> = None | Some(value: T)
}
