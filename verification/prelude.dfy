/** Small value types shared by the model: an optional value and the fixed-width
    numbers of the scraper's records. */
module Prelude {

  /** Rust's `Option<T>`. */
  datatype Option<T> = None | Some(value: T)

  /** Rust's `u64`. */
  type U64 = n: int | 0 <= n < 0x1_0000_0000_0000_0000

  /** Rust's `i32`. */
  type I32 = n: int | -0x8000_0000 <= n < 0x8000_0000

  /** Rust's `f64`, kept as its IEEE-754 bit pattern: the scraper only copies these
      values from one record to another and never computes with them. */
  type F64 = bv64
}
