/** An optional value: the model's rendering of a pointer that may be NULL. */
module Wrappers {

  datatype Option<T> = None | Some(value: T)
}
