/** Small vocabulary shared by every module. */
module Basics {

  datatype Option<+T> = None | Some(value: T)

  function Min(x: int, y: int): int {
    if x <= y then x else y
  }
}
