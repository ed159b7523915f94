/** The optional value shared by the car model and the JSON model. */
module Wrappers {
  datatype Option<T> = None | Some(value: T)
}
