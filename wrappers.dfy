/** An optional value: what a lookup in the user collection returns. */
module Wrappers {

  datatype Option<+T> = None | Some(value: T)

}
