/** The optional value used throughout the model: Python's `None` or a value. */
module Wrappers {

  datatype Option<+T> = None | Some(value: T)

  /** The larger of two integers, as Python's built-in `max`. */
  function Max(a: int, b: int): (r: int)
    ensures r >= a && r >= b
    ensures r == a || r == b
  {
    if a >= b then a else b
  }

  /** The smaller of two integers, as Python's built-in `min`. */
  function Min(a: int, b: int): (r: int)
    ensures r <= a && r <= b
    ensures r == a || r == b
  {
    if a <= b then a else b
  }
}
