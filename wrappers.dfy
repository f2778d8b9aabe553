/** The Some/None datatype used wherever the editor's JavaScript returns
    `null` or falls off the end of a function (`undefined`). */
module Wrappers {

  datatype Option<+T> = None | Some(value: T)
}
