/** Integers and byte strings as bytes, and the reader the decoders use. */
module Bytes {
  import opened Primitives

  const TWO63: int := 0x8000_0000_0000_0000

  function Pow256(w: nat): (r: nat)
    ensures r > 0
  {
    if w == 0 then 1 else 256 * Pow256(w - 1)
  }

  /** The low `w` bytes of `x`, most significant first. */
  function BigEndian(x: nat, w: nat): (bs: seq<byte>)
    ensures |bs| == w
  {
    if w == 0 then [] else BigEndian(x / 256, w - 1) + [x % 256]
  }

  function BigEndianValue(bs: seq<byte>): nat {
    if bs == [] then 0 else 256 * BigEndianValue(bs[..|bs| - 1]) + bs[|bs| - 1]
  }

  /** The low `w` bytes of `x`, least significant first. */
  function LittleEndian(x: nat, w: nat): (bs: seq<byte>)
    ensures |bs| == w
  {
    if w == 0 then [] else [x % 256] + LittleEndian(x / 256, w - 1)
  }

  function LittleEndianValue(bs: seq<byte>): nat {
    if bs == [] then 0 else bs[0] + 256 * LittleEndianValue(bs[1..])
  }

  lemma {:induction false} BigEndianRoundTrip(x: nat, w: nat)
    requires x < Pow256(w)
    ensures BigEndianValue(BigEndian(x, w)) == x
    decreases w
  {
    if w > 0 {
      BigEndianRoundTrip(x / 256, w - 1);
      assert BigEndian(x, w)[..w - 1] == BigEndian(x / 256, w - 1);
    }
  }

  lemma {:induction false} LittleEndianRoundTrip(x: nat, w: nat)
    requires x < Pow256(w)
    ensures LittleEndianValue(LittleEndian(x, w)) == x
    decreases w
  {
    if w > 0 {
      LittleEndianRoundTrip(x / 256, w - 1);
      assert LittleEndian(x, w)[1..] == LittleEndian(x / 256, w - 1);
    }
  }

  lemma {:induction false} BigEndianExact(bs: seq<byte>)
    ensures BigEndianValue(bs) < Pow256(|bs|) && BigEndian(BigEndianValue(bs), |bs|) == bs
    decreases |bs|
  {
    if bs != [] {
      BigEndianExact(bs[..|bs| - 1]);
    }
  }

  lemma Pow256Values()
    ensures Pow256(2) == 0x1_0000 && Pow256(4) == TWO32 && Pow256(8) == TWO64
  {
    assert Pow256(2) == 0x1_0000;
    assert Pow256(4) == TWO32;
    assert Pow256(6) == 0x1_0000_0000_0000;
  }

  /** A signed 64-bit amount as the unsigned word it is stored as, and back. */
  function ToWord64(x: int): (v: nat)
    ensures v < TWO64
  {
    x % TWO64
  }

  function FromWord64(v: nat): int
    requires v < TWO64
  {
    if v < TWO63 then v else v - TWO64
  }

  predicate IsInt64(x: int) {
    -TWO63 <= x < TWO63
  }

  /** The two's complement trip is exact for the signed 64-bit integers and for no others. */
  lemma Int64RoundTrip(x: int)
    ensures FromWord64(ToWord64(x)) == x <==> IsInt64(x)
  {
    if 0 <= x < TWO63 {
      assert x % TWO64 == x;
    } else if -TWO63 <= x < 0 {
      assert x % TWO64 == x + TWO64;
    }
  }

  /** One Read call on a bytes.Reader into the buffer `into`: at the end of the input an
  error; before it whatever is left, which may fill only part of the buffer. */
  function ReadInto(input: seq<byte>, into: seq<byte>): (r: Option<(seq<byte>, seq<byte>)>)
    ensures r.Some? ==> |r.value.0| == |into| && |r.value.1| <= |input|
    ensures r.Some? && into != [] ==> |r.value.1| < |input|
  {
    if input == [] then None
    else
      var n := if |input| < |into| then |input| else |into|;
      Some((input[..n] + into[n..], input[n..]))
  }

  lemma ReadExactly(field: seq<byte>, rest: seq<byte>, into: seq<byte>)
    requires |field| == |into| > 0
    ensures ReadInto(field + rest, into) == Some((field, rest))
  {
    var n := |into|;
    assert (field + rest)[..n] + into[n..] == field && (field + rest)[n..] == rest;
  }

  /** A Bitcoin variable-length integer. */
  function VarInt(n: nat): (bs: seq<byte>)
    requires n < TWO64
    ensures bs != []
  {
    if n < 0xfd then [n]
    else if n < 0x1_0000 then [0xfd] + LittleEndian(n, 2)
    else if n < TWO32 then [0xfe] + LittleEndian(n, 4)
    else [0xff] + LittleEndian(n, 8)
  }

  /** The reader refuses truncated integers and those with a shorter form. */
  function VarIntFrom(input: seq<byte>): Option<(nat, seq<byte>)> {
    if input == [] then None
    else if input[0] == 0xff then VarIntWord(input[1..], 8, TWO32)
    else if input[0] == 0xfe then VarIntWord(input[1..], 4, 0x1_0000)
    else if input[0] == 0xfd then VarIntWord(input[1..], 2, 0xfd)
    else Some((input[0], input[1..]))
  }

  function VarIntWord(input: seq<byte>, w: nat, least: nat): Option<(nat, seq<byte>)> {
    if |input| < w || LittleEndianValue(input[..w]) < least then None
    else Some((LittleEndianValue(input[..w]), input[w..]))
  }

  lemma VarIntRoundTrip(n: nat, rest: seq<byte>)
    requires n < TWO64
    ensures VarIntFrom(VarInt(n) + rest) == Some((n, rest))
  {
    var w := if n < 0xfd then 0 else if n < 0x1_0000 then 2 else if n < TWO32 then 4 else 8;
    var input := VarInt(n) + rest;
    if w == 0 {
      assert input[1..] == rest;
    } else {
      Pow256Values();
      LittleEndianRoundTrip(n, w);
      hide LittleEndian, LittleEndianValue, Pow256;
      assert input[1..][..w] == LittleEndian(n, w) && input[1..][w..] == rest;
    }
  }

  /** Bytes with their number in front. */
  function VarBytes(bs: seq<byte>): seq<byte>
    requires |bs| < TWO64
  {
    VarInt(|bs|) + bs
  }

  /** The reader refuses more than `cap` bytes, and truncated input. */
  function VarBytesFrom(input: seq<byte>, cap: nat): Option<(seq<byte>, seq<byte>)> {
    var count := VarIntFrom(input);
    if count.None? || count.value.0 > cap || count.value.0 > |count.value.1| then None
    else Some((count.value.1[..count.value.0], count.value.1[count.value.0..]))
  }

  /** What was written is read back, exactly if it is within the cap. */
  lemma VarBytesRoundTrip(bs: seq<byte>, rest: seq<byte>, cap: nat)
    requires |bs| < TWO64
    ensures VarBytesFrom(VarBytes(bs) + rest, cap) == if |bs| <= cap then Some((bs, rest)) else None
  {
    hide VarInt, VarIntFrom;
    VarIntRoundTrip(|bs|, bs + rest);
    assert VarBytes(bs) + rest == VarInt(|bs|) + (bs + rest);
    assert (bs + rest)[..|bs|] == bs && (bs + rest)[|bs|..] == rest;
  }
}
