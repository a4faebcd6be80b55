/** Kotlin's nullable values, as used by the widget for an absent direction, event or drawable. */
module Wrappers {

  datatype Option<+T> = None | Some(value: T)
}
