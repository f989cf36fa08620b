/** An optional value: a JavaScript field or argument that may be absent (the key is missing). */
module Wrappers {

  datatype Option<+T> = None | Some(value: T)
}
