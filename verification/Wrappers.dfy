/** The one failure-free container every other module uses. */
module Wrappers {
  datatype Option<+T> = None | Some(value: T)
}
