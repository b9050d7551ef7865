/** The Option type used throughout: a value that the source may leave null or undefined. */
module Wrappers {

  datatype Option<+T> = None | Some(value: T)
}
