/** Scalar types shared by the reasoning-budget sampler model. */
module Types {

  /** A vocabulary token id (`llama_token`); the sampler only compares ids for equality. */
  type Token = int

  const U32_LIMIT: int := 0x1_0000_0000

  /** An unsigned 32-bit counter (`uint32_t`). */
  type u32 = x: int | 0 <= x < 0x1_0000_0000

  /** `x++` on a `uint32_t`: one more, wrapping to 0 past the largest value. */
  function WrapInc(x: u32): (r: u32)
    ensures x + 1 < U32_LIMIT ==> r == x + 1
    ensures x + 1 == U32_LIMIT ==> r == 0
  {
    (x + 1) % U32_LIMIT
  }

  function Abs(x: int): (r: nat)
    ensures r == x || r == -x
  {
    if x >= 0 then x else -x
  }
}
