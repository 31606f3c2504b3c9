/** The optional-value datatype used for the user id and for replies of requests. */
module Wrappers {

  datatype Option<+T> = None | Some(value: T)
}
