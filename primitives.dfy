/** Small value types shared by the other modules: Rust's `Option` and the
    fixed-width unsigned integers that appear in the client's signatures. */
module Primitives {

  datatype Option<+T> = None | Some(value: T)

  /** Rust `u8` (the page number of a paginated query). */
  newtype u8 = x: int | 0 <= x < 0x100

  /** Rust `u16` (items per page, HTTP status codes). */
  newtype u16 = x: int | 0 <= x < 0x1_0000
}
