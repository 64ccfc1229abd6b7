/** An optional value: the error a dispatcher may return, or a run of pool operations that cannot proceed. */
module Wrappers {

  datatype Option<+T> = None | Some(value: T)
}
