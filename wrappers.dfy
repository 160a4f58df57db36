/** Small helper datatypes shared by the whole model. */
module Wrappers {

  /** An optional value: JavaScript's `undefined`/absent field or Python's `None`. */
  datatype Option<+T> = None | Some(value: T)
}
