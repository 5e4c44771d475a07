// Small types the other modules share.
module Prelude {
  datatype Option<+T> = None | Some(value: T)

  datatype Result<+T, +E> = Ok(value: T) | Err(error: E)

  /// Abstract capability tier, ordered Small < Mid < Frontier (src/ir.rs:83).
  datatype Tier = Small | Mid | Frontier
  {
    function Rank(): nat {
      match this case Small => 0 case Mid => 1 case Frontier => 2
    }
  }

  const U32_MAX: nat := 0xFFFF_FFFF

  type u32 = n: nat | n <= U32_MAX

  /// Rust's saturating_add(1) and saturating_sub(1) on u32.
  function SatInc(n: u32): u32 {
    if n == U32_MAX then n else n + 1
  }

  function SatDec(n: u32): u32 {
    if n == 0 then 0 else n - 1
  }
}
