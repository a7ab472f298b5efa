/** The optional result of a cache read: the model of java.util.Optional. */
module Wrappers {

  datatype Option<+T> = None | Some(value: T)
}
