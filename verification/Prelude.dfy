/** Small shared vocabulary: optional values and failure-carrying results. */
module Prelude {

  datatype Option<+T> = None | Some(value: T)

  datatype Result<+T, +E> = Ok(value: T) | Err(error: E)

  /** Capacity of the 256-bit `Quantity` of canister/src/order/mod.rs. */
  const U256: nat := 0x1_0000000000000000_0000000000000000_0000000000000000_0000000000000000

  /** A value that the repository keeps in a `NonZero` integer. */
  type pos = n: nat | 0 < n witness 1
}
