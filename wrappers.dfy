/** An optional value: None stands for a call into a back end that raised. */
module Wrappers {
  datatype Option<+T> = None | Some(value: T)
}
