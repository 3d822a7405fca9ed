/** Arithmetic the other modules share. */
module Arithmetic {

  const UINT64_SIZE := 0x1_0000_0000_0000_0000

  function Min(a: nat, b: nat): nat {
    if a < b then a else b
  }

  function Max(a: nat, b: nat): nat {
    if a < b then b else a
  }
}
