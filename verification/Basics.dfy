/** Values shared by the contract model and by the provider-engine model. */
module Basics {

  datatype Option<+T> = None | Some(value: T)

  /** A 32-byte identity or digest, read as a number; only equality and the zero test matter. */
  type Id = nat

  const ZERO_ID: Id := 0

  /** A `bit_4096` value: a revealed preimage or the entropy of one tier. */
  type Bits = s: seq<bool> | |s| == 4096 witness seq(4096, _ => false)

  function Zeros(): Bits { seq(4096, _ => false) }

  const ZERO_BITS: Bits := Zeros()

  /** The 4096-bit-to-32-byte hash; nothing is assumed about it unless a lemma says so. */
  type Hash = Bits -> Id

  const U32_MAX: nat := 0xffff_ffff

  function Xor(a: Bits, b: Bits): Bits {
    seq(4096, i requires 0 <= i < 4096 => a[i] != b[i])
  }

  lemma XorZero(a: Bits)
    ensures Xor(a, ZERO_BITS) == a == Xor(ZERO_BITS, a)
  {
    assert forall i :: 0 <= i < 4096 ==> Xor(a, ZERO_BITS)[i] == a[i] == Xor(ZERO_BITS, a)[i];
  }

  lemma XorCommutes(a: Bits, b: Bits)
    ensures Xor(a, b) == Xor(b, a)
  {
    assert forall i :: 0 <= i < 4096 ==> Xor(a, b)[i] == Xor(b, a)[i];
  }

  lemma XorAssociates(a: Bits, b: Bits, c: Bits)
    ensures Xor(Xor(a, b), c) == Xor(a, Xor(b, c))
  {
    assert forall i :: 0 <= i < 4096 ==> Xor(Xor(a, b), c)[i] == Xor(a, Xor(b, c))[i];
  }

  function Max(a: nat, b: nat): nat { if a < b then b else a }

  function Min(a: nat, b: nat): nat { if a < b then a else b }

  /** `u32::checked_add`: no value where the sum would leave the 32-bit range. */
  function CheckedAdd(a: nat, b: nat): Option<nat> {
    if a + b <= U32_MAX then Some(a + b) else None
  }

  /** `u32::saturating_add`. */
  function SaturatingAdd(a: nat, b: nat): nat { Min(a + b, U32_MAX) }

  /** `u32::saturating_sub`. */
  function SaturatingSub(a: nat, b: nat): nat { if a < b then 0 else a - b }
}
