/** Swift optionals, as a tagged variant. */
module Wrappers {

  datatype Option<+T> = None | Some(value: T)

  /** The last element of a non-empty sequence (Swift's `last!`). */
  function Last<T>(s: seq<T>): T
    requires |s| > 0
  {
    s[|s| - 1]
  }
}
