/** Fixed-width integers and byte strings shared by the crates. */
module Primitives {
  import opened Wrappers

  newtype byte = x: int | 0 <= x < 0x100

  /** Rust's `u32`. */
  newtype u32 = x: int | 0 <= x < 0x1_0000_0000

  type Bytes = seq<byte>

  /** `tw_number::U256`; only its range matters here. */
  type U256 = x: nat | x < 0x1_0000_0000_0000_0000_0000_0000_0000_0000_0000_0000_0000_0000_0000_0000_0000_0000

  /** `tw_hash::H256`: exactly 32 bytes. */
  type H256 = s: Bytes | |s| == 32 witness ZERO_BYTES_32

  const ZERO_BYTES_32: Bytes := seq(32, _ => 0)

  const ZERO_H256: H256 := ZERO_BYTES_32

  /** `H256::try_from(&[u8])`: succeeds exactly on 32-byte slices. */
  function H256TryFrom(s: Bytes): (r: Option<H256>)
    ensures r.Some? <==> |s| == 32
    ensures r.Some? ==> r.value == s
  {
    if |s| == 32 then Some(s) else None
  }

  /**
   * `tw_hash::sha3::keccak256`, an external primitive. The only thing the
   * model assumes about it is what the source's `expect` relies on: every
   * output is 32 bytes long, which the range type states.
   */
  type Keccak256 = Bytes -> H256
}
