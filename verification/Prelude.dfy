/** Shared vocabulary. */
module Prelude {
  datatype Option<+T> = None | Some(value: T)
}
