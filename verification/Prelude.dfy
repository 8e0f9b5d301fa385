/** The option type used by every other module. */
module Prelude {
  datatype Option<+T> = None | Some(value: T)

  function Min(a: int, b: int): int {
    if a <= b then a else b
  }
}
