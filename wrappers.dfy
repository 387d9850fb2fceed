/** The optional value used throughout the model (a JavaScript `null`/`undefined`,
    a Python `None`, a missing dictionary key). */
module Wrappers {

  datatype Option<+T> = None | Some(value: T)
}
