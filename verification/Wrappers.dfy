/** Optional values and small arithmetic, used by every other module. */
module Wrappers {

  datatype Option<+T> = None | Some(value: T)

  const TWO64: nat := 0x1_0000_0000_0000_0000

  function Min(a: int, b: int): int {
    if a <= b then a else b
  }

  function Max(a: int, b: int): int {
    if a >= b then a else b
  }
}
