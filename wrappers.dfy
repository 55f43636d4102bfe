/** A value that JavaScript may leave as `null`: a publication date, a page token. */
module Wrappers {

  datatype Option<+T> = None | Some(value: T)
}
