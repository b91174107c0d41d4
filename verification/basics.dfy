/** What several modules share. */
module Basics {

  datatype Option<+T> = None | Some(value: T)

  /** Go's integer division truncates toward zero. */
  function GoDiv(a: int, b: int): int
    requires b > 0
  {
    if a >= 0 then a / b else -(-a / b)
  }
}
