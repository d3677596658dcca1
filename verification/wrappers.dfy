/** The conventional optional value, used for the single-slot debounce timer and for searches. */
module Wrappers {
  datatype Option<+T> = None | Some(value: T)
}
