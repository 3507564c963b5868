/** What several of the models share: optional values and unsigned 32-bit words. */
module Basics {
  datatype Option<+T> = None | Some(value: T)

  const WORD: nat := 0x1_0000_0000
  const HALF: nat := 0x8000_0000

  /** The value as an unsigned 32-bit number. */
  function U32(x: int): (r: nat)
    ensures r < WORD
    ensures 0 <= x < WORD ==> r == x
  {
    x % WORD
  }
}
