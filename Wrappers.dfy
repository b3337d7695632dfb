/** The absent-or-present value used wherever the source returns `null`,
    `undefined` or an empty lookup. */
module Wrappers {

  datatype Option<+T> = None | Some(value: T)
}
