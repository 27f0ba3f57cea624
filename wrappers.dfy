/** Small failure-carrying datatypes shared by the sprite and the effect modules. */
module Wrappers {

  /** A value that may be absent: a C# reference that may be null, or a nullable struct. */
  datatype Option<+T> = None | Some(value: T)

  /** The outcome of a C# method that returns nothing: it completes, or it throws `error`. */
  datatype Outcome<+E> = Pass | Fail(error: E)
}
