/** Failure-carrying values and the fixed-width numbers shared by every module. */
module Wrappers {

  datatype Option<+T> = None | Some(value: T)

  datatype Result<+T, +E> = Ok(value: T) | Err(error: E)

  const U64_MAX: int := 0xFFFF_FFFF_FFFF_FFFF
  const I128_MAX: int := 0x7FFF_FFFF_FFFF_FFFF_FFFF_FFFF_FFFF_FFFF

  /** JavaScript's `Number.MAX_SAFE_INTEGER`. */
  const MAX_SAFE_INTEGER: int := 0x1F_FFFF_FFFF_FFFF

  /** Rust's `u64` and `i128`. */
  type u64 = x: int | 0 <= x <= U64_MAX
  type i128 = x: int | -I128_MAX - 1 <= x <= I128_MAX

  type byte = x: int | 0 <= x < 256

  /** Soroban's `BytesN<32>`. */
  type Bytes32 = b: seq<byte> | |b| == 32 witness seq(32, _ => 0)

  /** The value of `m` at `k`, or zero where it has none. */
  function GetOrZero<K>(m: map<K, int>, k: K): int {
    if k in m then m[k] else 0
  }
}
