/** The optional-value datatype used for props and state that may be absent (`null`/`undefined`). */
module Wrappers {

  datatype Option<+T> = None | Some(value: T)
}
