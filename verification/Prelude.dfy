/** Shared by every component: optional values. */
module Prelude {
  datatype Option<+T> = None | Some(value: T)
}
