/** The absent-or-present value the model uses for PHP's `null`-or-value returns. */
module Wrappers {

  datatype Option<+T> = None | Some(value: T)

  function Min(a: int, b: int): int
  {
    if a <= b then a else b
  }
}
