/** Small helper types shared by every component of the firmware model. */
module Wrappers {
  /** A value that may be absent: a C pointer that may be NULL, an optional result. */
  datatype Option<T> = None | Some(value: T)

  /** A C pointer the model does not follow: an opaque address, 0 being NULL. */
  type Ptr = nat
  const NULL: Ptr := 0
}

/**
 * The `esp_err_t` return codes of ESP-IDF (esp_err.h) that the components use.
 * Component-specific codes are declared next to their component.
 */
module Esp {
  type Err = int

  const OK: Err := 0
  const FAIL: Err := -1
  const ERR_NO_MEM: Err := 0x101
  const ERR_INVALID_ARG: Err := 0x102
  const ERR_INVALID_STATE: Err := 0x103
  const ERR_INVALID_SIZE: Err := 0x104
  const ERR_NOT_FOUND: Err := 0x105
  const ERR_NOT_SUPPORTED: Err := 0x106
  const ERR_TIMEOUT: Err := 0x107

  /** Unsigned 64-bit arithmetic as C performs it on `uint64_t`. */
  const TWO_64: int := 0x1_0000_0000_0000_0000
  type U64 = x: int | 0 <= x < TWO_64
  type U32 = x: int | 0 <= x < 0x1_0000_0000
  type U16 = x: int | 0 <= x < 0x1_0000
  type U8 = x: int | 0 <= x < 0x100
  type I16 = x: int | -0x8000 <= x < 0x8000
  type I8 = x: int | -0x80 <= x < 0x80

  function AddU64(a: U64, b: U64): (r: U64)
    ensures a + b < TWO_64 ==> r == a + b
    ensures a + b >= TWO_64 ==> r == a + b - TWO_64
  {
    (a + b) % TWO_64
  }

  function SubU64(a: U64, b: U64): (r: U64)
    ensures a >= b ==> r == a - b
    ensures a < b ==> r == a - b + TWO_64
  {
    (a - b) % TWO_64
  }
}
