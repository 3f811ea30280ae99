/** The optional value used where the allocator keeps a Java `null`. */
module Wrappers {

  datatype Option<+T> = None | Some(value: T)
}
