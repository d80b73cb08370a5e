/** What every module uses: optional values, minimum and maximum, and the sizes of machine words. */
module Basics {

  datatype Option<T> = None | Some(value: T)

  const U32: nat := 0x1_0000_0000
  const U64: nat := 0x1_0000_0000_0000_0000

  function Min(a: nat, b: nat): nat { if a <= b then a else b }
  function Max(a: nat, b: nat): nat { if a >= b then a else b }
}
