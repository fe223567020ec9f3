// `LengthRoundUp` of the AES-CBC encryption example (aes_cbc_encrypt.c):
// a byte count rounded up to the 16-byte AES block, in 32-bit unsigned
// arithmetic.
module AesLength {
  import opened CInt

  const AES_BLOCK_BYTES := 16

  /** `LengthRoundUp`: the length plus what is missing from its last block,
      wrapping modulo 2^32 like the `uint32_t` sum. */
  function LengthRoundUp(length: U32): (r: U32)
    // always a whole number of blocks, even when the sum wraps
    ensures r % AES_BLOCK_BYTES == 0
    // multiples of 16 come back unchanged
    ensures length % AES_BLOCK_BYTES == 0 ==> r == length
  {
    var remainder := length % AES_BLOCK_BYTES;
    if remainder == 0 then length
    else Wrap32(length + (AES_BLOCK_BYTES - remainder))
  }

  /** Without wrap-around the result is the least multiple of 16 at or
      above the length. */
  lemma RoundsUpToNextBlock(length: U32, m: int)
    requires length <= 0x1_0000_0000 - AES_BLOCK_BYTES
    ensures length <= LengthRoundUp(length) < length + AES_BLOCK_BYTES
    ensures m % AES_BLOCK_BYTES == 0 && m >= length ==> m >= LengthRoundUp(length)
  {
    var r := LengthRoundUp(length);
    assert r == length + (AES_BLOCK_BYTES - length % AES_BLOCK_BYTES) || r == length;
  }

  /** Rounding twice is rounding once. */
  lemma RoundUpIdempotent(length: U32)
    ensures LengthRoundUp(LengthRoundUp(length)) == LengthRoundUp(length)
  {
  }

  /** Above the last block boundary below 2^32 the sum wraps and the
      rounded length becomes 0. */
  lemma LargeLengthWrapsToZero(length: U32)
    requires length > 0x1_0000_0000 - AES_BLOCK_BYTES
    ensures LengthRoundUp(length) == 0
  {
  }
}
