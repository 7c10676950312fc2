/** Machine integer types and the Option/Result shapes shared by the model. */
module Prelude {

  /** An 8-bit byte, Rust's `u8`; C strings are runs of these. */
  newtype byte = x: int | 0 <= x < 0x100

  /** Rust's `u32` (also Binaryen's `BinaryenIndex`). */
  newtype u32 = x: int | 0 <= x < 0x1_0000_0000

  /** Rust's `Option<T>`. */
  datatype Option<+T> = None | Some(value: T)

  /** Rust's `Result<T, E>`; a panic of the source is modelled as an `Err` carrying its cause. */
  datatype Result<+T, +E> = Ok(value: T) | Err(error: E)
}
