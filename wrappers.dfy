/** A value that may be missing: a header that was not sent, a form field that
    was not filled in, a key the store does not hold. */
module Wrappers {
  datatype Option<+T> = None | Some(value: T)
}
