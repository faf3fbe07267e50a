/** The optional value used wherever a JavaScript field may be absent (`undefined`). */
module Wrappers {

  datatype Option<+T> = None | Some(value: T)
}
