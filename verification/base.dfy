/** Value types shared by every module: optional values, results, the fixed-width
    integers of the binding's records, and carriers for floating-point values. */
module Base {

  datatype Option<+T> = None | Some(value: T)

  /** The binding returns `Result<T, TaoError>` from every fallible call. */
  datatype Result<+T, +E> = Ok(value: T) | Err(error: E)

  const U64_LIMIT: int := 0x1_0000_0000_0000_0000

  type U16 = x: int | 0 <= x < 0x1_0000
  type U32 = x: int | 0 <= x < 0x1_0000_0000
  type I32 = x: int | -0x8000_0000 <= x < 0x8000_0000
  type U64 = x: int | 0 <= x < U64_LIMIT

  /** An `f32` or `f64` is carried as its IEEE-754 bit pattern: the binding copies
      floating-point values between records and never computes with them. */
  datatype F32 = F32(bits: bv32)
  datatype F64 = F64(bits: bv64)

  /** The `f64` value 1.0. */
  const ONE_F64: F64 := F64(0x3FF0_0000_0000_0000)
}
