/** Option, and nothing else: the only type every module shares. */
module Prelude {
  datatype Option<+T> = None | Some(value: T)
}
