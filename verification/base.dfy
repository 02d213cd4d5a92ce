/** Machine integer widths and the failure-carrying datatypes shared by the model. */
module Base {

  /** Rust's `u8`: chip and channel indices. */
  type u8 = x: int | 0 <= x < 0x100

  /** Rust's `u32`: periods and duty cycles in nanoseconds. */
  type u32 = x: int | 0 <= x < 0x1_0000_0000

  const U32Max: u32 := 0xFFFF_FFFF

  datatype Option<T> = None | Some(value: T)

  /** The `Result<T, E>` every fallible operation of the controller returns. */
  datatype Result<T, E> = Ok(value: T) | Err(error: E)
}
