/** The absent-or-present value that Java's `Optional` (and a nullable reference) stands for. */
module Wrappers {

  datatype Option<+T> = None | Some(value: T)

}
