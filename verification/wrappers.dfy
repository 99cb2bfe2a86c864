/** The optional value used wherever a JavaScript operation may come back empty. */
module Wrappers {

  datatype Option<+T> = None | Some(value: T)
}
