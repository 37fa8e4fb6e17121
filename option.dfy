/** An optional value: the model's rendering of JavaScript's `T | null`. */
module Opt {
  datatype Option<+T> = None | Some(value: T)
}
