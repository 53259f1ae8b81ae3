/** Small definitions shared by the other modules. */
module Basics {

  /** The outcome of a call that may fail. */
  datatype Option<+T> = None | Some(value: T)

  function Min(a: int, b: int): int { if a <= b then a else b }

}
