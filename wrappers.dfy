/** An optional value: `None` stands for a missing dictionary key, a pandas
    NaN, or the error raised by `max()` on an empty collection. */
module Wrappers {
  datatype Option<+T> = None | Some(value: T)
}
