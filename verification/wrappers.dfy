/** The optional value used wherever the C# code uses a nullable reference. */
module Wrappers {

  datatype Option<+T> = None | Some(value: T)
}
