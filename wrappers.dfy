/** Small helper datatypes shared by the modules of this model. */
module Wrappers {

  /** A value that may be absent: JavaScript's `null`/`undefined`, or a PHP error return. */
  datatype Option<+T> = None | Some(value: T)
}
