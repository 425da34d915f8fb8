/** The optional value every factory of the engine returns where the original returns nullptr. */
module Wrappers {

  datatype Option<T> = None | Some(value: T)
}
