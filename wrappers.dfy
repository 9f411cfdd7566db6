/** The optional value used wherever the program may have nothing: a failed
    fetch, an unset answer, a token with no closing braces. */
module Wrappers {
  datatype Option<+T> = None | Some(value: T)
}
