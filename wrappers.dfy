/** Small helper datatype shared by the model. */
module Wrappers {

  /** Rust's `Option<T>`: either no value or one value. */
  datatype Option<+T> = None | Some(value: T)
}
