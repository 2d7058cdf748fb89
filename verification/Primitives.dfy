/** Bytes, hashes, powers of two and the small wrappers the other modules share.

The hash functions the daemon calls (double SHA-256, SHA-256, the revocation
key derivation) are never defined here. They are function-valued parameters,
so every theorem holds for whatever functions are plugged in.
 */
module Primitives {

  type byte = x: int | 0 <= x < 256

  /** A wire.ShaHash: 32 bytes. */
  type Hash = s: seq<byte> | |s| == 32 witness seq(32, _ => 0)

  /** A function from bytes to a hash, such as wire.DoubleSha256SH. */
  type Hasher = seq<byte> -> Hash

  function ZeroHash(): Hash {
    seq(32, _ => 0)
  }

  /** A transaction output. */
  datatype OutPoint = OutPoint(hash: Hash, index: nat)

  const TWO32: nat := 0x1_0000_0000
  const TWO64: nat := 0x1_0000_0000_0000_0000

  datatype Option<+T> = None | Some(value: T)

  function Pow2(n: nat): (r: nat)
    ensures r >= 1
    ensures r > n
  {
    if n == 0 then 1 else 2 * Pow2(n - 1)
  }

  lemma Pow2Values()
    ensures Pow2(8) == 0x100 && Pow2(24) == 0x100_0000 && Pow2(25) == 0x200_0000
    ensures Pow2(32) == 0x1_0000_0000 && Pow2(47) == 0x8000_0000_0000
    ensures Pow2(48) == 0x1_0000_0000_0000 && Pow2(64) == 0x1_0000_0000_0000_0000
  {
    assert Pow2(8) == 0x100;
    assert Pow2(16) == 0x1_0000;
    assert Pow2(24) == 0x100_0000;
    assert Pow2(32) == 0x1_0000_0000;
    assert Pow2(40) == 0x100_0000_0000;
    assert Pow2(48) == 0x1_0000_0000_0000;
    assert Pow2(56) == 0x100_0000_0000_0000;
  }

  lemma {:induction false} Pow2Monotonic(a: nat, b: nat)
    requires a <= b
    ensures Pow2(a) <= Pow2(b)
    ensures a < b ==> 2 * Pow2(a) <= Pow2(b)
    decreases b
  {
    if a < b {
      Pow2Monotonic(a, b - 1);
    }
  }
}
