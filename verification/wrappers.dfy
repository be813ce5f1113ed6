/** The optional value used for partial results (a parse that may fail, a pattern
    argument that may be absent). */
module Wrappers {

  datatype Option<+T> = None | Some(value: T)

}
