/** The usual optional-value wrapper: JavaScript's `null`/`undefined` become `None`. */
module Wrappers {
  datatype Option<+T> = None | Some(value: T)
}
