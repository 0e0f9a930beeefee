/** The optional-value type used for values Python represents with `None`. */
module Wrappers {

  datatype Option<+T> = None | Some(value: T)
}
