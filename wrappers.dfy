/** The absent-or-present value used wherever the dashboard returns `None`. */
module Wrappers {
  datatype Option<+T> = None | Some(value: T)
}
