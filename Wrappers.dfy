/** Option type standing in for the nullable values of the calculator. */
module Wrappers {

  datatype Option<+T> = None | Some(value: T)

}
