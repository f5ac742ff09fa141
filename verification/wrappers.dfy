/** The nullable values of the modelled system (`T | null`, optional fields). */
module Wrappers {

  /** `None` stands for JavaScript's `null`/`undefined`, `Some(v)` for a present value. */
  datatype Option<+T> = None | Some(value: T)
}
