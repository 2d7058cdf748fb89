/** The bytes on disk, offset by offset. The round trips of the codecs would hold of any
encoding; these say which one it is.
 */
module Layouts {
  import opened Primitives
  import opened Bytes
  import opened ChannelSpec
  import opened RevocationLog
  import opened ChannelDisk
  import opened ElkremSerdes
  import Elk = ElkremSpec

  /* --- integers ---------------------------------------------------------------------------------- */

  lemma DivisionsCompose(x: nat, k: nat)
    requires k > 0
    ensures x / 256 / k == x / (256 * k)
  {
    var q := x / (256 * k);
    var r := x - (256 * k) * q;
    assert x == 256 * (k * q) + r && 0 <= r < 256 * k;
    assert x / 256 == k * q + r / 256 && 0 <= r / 256 < k;
    QuotientIs(x / 256, k, q, r / 256);
  }

  lemma QuotientIs(x: nat, k: nat, q: nat, r: nat)
    requires k > 0 && x == k * q + r && r < k
    ensures x / k == q
  {
    var y := x / k;
    var d: int := q - y;
    assert k * d == k * q - k * y == x % k - r;
    assert d >= 1 ==> k * d >= k;
    assert d <= -1 ==> k * d + k <= 0;
  }

  /** The big-endian bytes of `x`: the one with `j` bytes after it counts `256^j`. */
  lemma {:induction false} BigEndianAt(x: nat, w: nat, i: nat)
    requires i < w
    ensures BigEndian(x, w)[i] == x / Pow256(w - 1 - i) % 256
    decreases w
  {
    if i < w - 1 {
      BigEndianAt(x / 256, w - 1, i);
      DivisionsCompose(x, Pow256(w - 2 - i));
      assert Pow256(w - 1 - i) == 256 * Pow256(w - 2 - i);
    } else {
      assert Pow256(0) == 1;
    }
  }

  /** The little-endian bytes: the one with `i` bytes before it counts `256^i`. */
  lemma {:induction false} LittleEndianAt(x: nat, w: nat, i: nat)
    requires i < w
    ensures LittleEndian(x, w)[i] == x / Pow256(i) % 256
    decreases w
  {
    if i > 0 {
      LittleEndianAt(x / 256, w - 1, i - 1);
      DivisionsCompose(x, Pow256(i - 1));
      assert Pow256(i) == 256 * Pow256(i - 1);
    } else {
      assert Pow256(0) == 1;
    }
  }

  /** `w` bytes from offset `at` are the integer `x`, most significant first. */
  ghost predicate WordAt(bs: seq<byte>, at: nat, w: nat, x: nat) {
    && at + w <= |bs|
    && var word := bs[at..at + w];
    forall i | 0 <= i < w :: word[i] == x / Pow256(w - 1 - i) % 256
  }

  lemma WordIs(bs: seq<byte>, at: nat, w: nat, x: nat)
    requires at + w <= |bs| && bs[at..at + w] == BigEndian(x, w)
    ensures WordAt(bs, at, w, x)
  {
    hide BigEndian, Pow256;
    var word := bs[at..at + w];
    forall i | 0 <= i < w ensures word[i] == x / Pow256(w - 1 - i) % 256 {
      BigEndianAt(x, w, i);
    }
  }

  /** The two's complement of a signed amount. */
  function Unsigned64(x: int): nat
    requires IsInt64(x)
  {
    if x >= 0 then x else TWO64 + x
  }

  lemma UnsignedIs(x: int)
    requires IsInt64(x)
    ensures ToWord64(x) == Unsigned64(x)
  {
    if x < 0 {
      QuotientIs(x + TWO64, TWO64, 0, x + TWO64);
    }
  }

  /** A variable-length integer is one byte below 0xfd, and otherwise a tag and two, four or
  eight bytes, least significant first, the shortest that hold it. */
  lemma VarIntLayout(n: nat)
    requires n < TWO64
    ensures n < 0xfd ==> VarInt(n) == [n]
    ensures n >= 0xfd ==>
              var (w, tag) := if n < 0x1_0000 then (2, 0xfd) else if n < TWO32 then (4, 0xfe) else (8, 0xff);
              && |VarInt(n)| == 1 + w && VarInt(n)[0] == tag
              && forall i | 0 <= i < w :: VarInt(n)[1 + i] == n / Pow256(i) % 256
  {
    hide LittleEndian, Pow256;
    var w := if n < 0x1_0000 then 2 else if n < TWO32 then 4 else 8;
    forall i | 0 <= i < w ensures LittleEndian(n, w)[i] == n / Pow256(i) % 256 {
      LittleEndianAt(n, w, i);
    }
  }

  /* --- the revocation log -------------------------------------------------------------------------- */

  /** A stored HTLC: direction, amount, payment hash, timeout, delay. */
  lemma HtlcLayout(h: DiskHtlc)
    requires HtlcFits(h)
    ensures var bs := HtlcBytes(h);
            && |bs| == 49 && bs[0] == (if h.incoming then 1 else 0) && WordAt(bs, 1, 8, Unsigned64(h.amount))
            && bs[9..41] == h.rhash && WordAt(bs, 41, 4, h.timeout) && WordAt(bs, 45, 4, h.delay)
  {
    hide BigEndian, ToWord64, Pow256, WordAt;
    var bs := HtlcBytes(h);
    UnsignedIs(h.amount);
    assert bs[1..9] == BigEndian(ToWord64(h.amount), 8);
    assert bs[41..45] == BigEndian(h.timeout, 4) && bs[45..49] == BigEndian(h.delay, 4);
    WordIs(bs, 1, 8, ToWord64(h.amount));
    WordIs(bs, 41, 4, h.timeout);
    WordIs(bs, 45, 4, h.delay);
  }

  lemma ReadShort(input: seq<byte>, into: seq<byte>)
    requires 0 < |input| < |into|
    ensures ReadInto(input, into) == Some((input + into[|input|..], []))
  {
    assert input[..|input|] == input && input[|input|..] == [];
  }

  /** The delay that a read sees if the last `cut` of its four bytes are missing: the buffer
  still holds the timeout there. */
  function ShortDelay(h: DiskHtlc, cut: nat): nat
    requires cut <= 4
  {
    BigEndianValue(BigEndian(h.delay, 4)[..4 - cut] + BigEndian(h.timeout, 4)[4 - cut..])
  }

  /** Reads are not checked for their length: an HTLC cut short within its last field is read
  without an error, with the end of the timeout in place of what is missing. If the whole
  field is missing, the read fails. */
  lemma CutHtlcIsRead(h: DiskHtlc, cut: nat)
    requires HtlcFits(h) && 1 <= cut <= 4
    ensures HtlcFrom(HtlcBytes(h)[..49 - cut])
         == if cut < 4 then Some((h.(delay := ShortDelay(h, cut)), [])) else None
  {
    hide BigEndian, BigEndianValue, Pow256, ToWord64, FromWord64, ZeroHash, ReadInto;
    var zero: seq<byte> := seq(8, _ => 0);
    var a: seq<byte> := [if h.incoming then 1 else 0];
    var b := BigEndian(ToWord64(h.amount), 8);
    var d := BigEndian(h.timeout, 4);
    var e := BigEndian(h.delay, 4)[..4 - cut];
    assert HtlcBytes(h)[..49 - cut] == a + (b + (h.rhash + (d + e)));
    Pow256Values();
    BigEndianRoundTrip(ToWord64(h.amount), 8);
    BigEndianRoundTrip(h.timeout, 4);
    Int64RoundTrip(h.amount);
    ReadExactly(a, b + (h.rhash + (d + e)), zero[..1]);
    ReadExactly(b, h.rhash + (d + e), a + zero[1..]);
    ReadExactly(h.rhash, d + e, ZeroHash());
    ReadExactly(d, e, b[..4]);
    if cut < 4 {
      ReadShort(e, d);
    } else {
      NothingRead(d);
    }
  }

  lemma NothingRead(into: seq<byte>)
    ensures ReadInto([], into) == None
  {
  }

  lemma {:induction false} HtlcsLayout(hs: seq<DiskHtlc>, j: nat)
    requires j < |hs|
    ensures |HtlcsBytes(hs)| == 49 * |hs| && HtlcsBytes(hs)[49 * j..49 * j + 49] == HtlcBytes(hs[j])
    decreases |hs|
  {
    hide HtlcBytes;
    if |hs| > 1 {
      HtlcsLayout(hs[1..], if j > 0 then j - 1 else 0);
    } else {
      assert hs[1..] == [];
    }
    var rest := HtlcsBytes(hs[1..]);
    assert HtlcsBytes(hs) == HtlcBytes(hs[0]) + rest;
    if j > 0 {
      assert HtlcsBytes(hs)[49 * j..49 * j + 49] == rest[49 * (j - 1)..49 * (j - 1) + 49];
    }
  }

  /** A stored state: our balance, the peer's, the update number, then the number of HTLCs and
  the HTLCs, 49 bytes each. */
  lemma DeltaLayout(d: Delta, j: nat)
    requires DeltaFits(d) && j < |d.htlcs|
    ensures var (bs, n) := (DeltaBytes(d), |VarInt(|d.htlcs|)|);
            && WordAt(bs, 0, 8, Unsigned64(d.localBalance)) && WordAt(bs, 8, 8, Unsigned64(d.remoteBalance))
            && WordAt(bs, 16, 4, d.updateNum)
            && |bs| == 20 + n + 49 * |d.htlcs| && bs[20..20 + n] == VarInt(|d.htlcs|)
            && bs[20 + n + 49 * j..20 + n + 49 * j + 49] == HtlcBytes(d.htlcs[j])
  {
    hide BigEndian, ToWord64, Pow256, WordAt, VarInt, HtlcBytes, HtlcsBytes;
    var bs, count, list := DeltaBytes(d), VarInt(|d.htlcs|), HtlcsBytes(d.htlcs);
    HtlcsLayout(d.htlcs, j);
    assert |DeltaHead(d)| == 20 && bs == DeltaHead(d) + (count + list);
    assert bs[20 + |count| + 49 * j..20 + |count| + 49 * j + 49] == list[49 * j..49 * j + 49];
    HeadLayout(d, count + list);
  }

  lemma HeadLayout(d: Delta, rest: seq<byte>)
    requires DeltaFits(d)
    ensures var bs := DeltaHead(d) + rest;
            && WordAt(bs, 0, 8, Unsigned64(d.localBalance)) && WordAt(bs, 8, 8, Unsigned64(d.remoteBalance))
            && WordAt(bs, 16, 4, d.updateNum)
  {
    hide BigEndian, ToWord64, Pow256, WordAt;
    var bs := DeltaHead(d) + rest;
    UnsignedIs(d.localBalance);
    UnsignedIs(d.remoteBalance);
    assert bs[0..8] == BigEndian(ToWord64(d.localBalance), 8);
    assert bs[8..16] == BigEndian(ToWord64(d.remoteBalance), 8);
    assert bs[16..20] == BigEndian(d.updateNum, 4);
    WordIs(bs, 0, 8, ToWord64(d.localBalance));
    WordIs(bs, 8, 8, ToWord64(d.remoteBalance));
    WordIs(bs, 16, 4, d.updateNum);
  }

  /** A log key: transaction, output, update number. */
  lemma LogKeyLayout(o: OutPoint, n: nat)
    requires o.index < TWO32 && n < TWO32
    ensures var key := LogKey(o, n);
            |key| == 40 && key[..32] == o.hash && WordAt(key, 32, 4, o.index) && WordAt(key, 36, 4, n)
  {
    hide BigEndian, Pow256, WordAt;
    var key := LogKey(o, n);
    assert key[32..36] == BigEndian(o.index, 4) && key[36..40] == BigEndian(n, 4);
    WordIs(key, 32, 4, o.index);
    WordIs(key, 36, 4, n);
  }

  /* --- elkrem states ------------------------------------------------------------------------------- */

  lemma {:induction false} NodesLayout(s: seq<Elk.Node>, j: nat)
    requires j < |s|
    ensures NodesBytes(s)[41 * j..41 * j + 41] == NodeBytes(s[j])
    decreases |s|
  {
    hide NodeBytes;
    if j > 0 {
      NodesLayout(s[1..], j - 1);
      var rest := NodesBytes(s[1..]);
      assert NodesBytes(s)[41 * j..41 * j + 41] == rest[41 * (j - 1)..41 * (j - 1) + 41];
    }
  }

  /** A stored receiver: the number of nodes, then for each its height, index and hash. */
  lemma ReceiverLayout(s: seq<Elk.Node>, j: nat)
    requires j < |s| < 256 && s[j].h < 256 && s[j].i < TWO64
    ensures var (bs, at) := (Encoded(s), 1 + 41 * j);
            && |bs| == 1 + 41 * |s| && bs[0] == |s| && bs[at] == s[j].h
            && WordAt(bs, at + 1, 8, s[j].i) && bs[at + 9..at + 41] == s[j].sha
  {
    hide BigEndian, Pow256, WordAt, NodesBytes;
    NodesLayout(s, j);
    var bs, at, node := Encoded(s), 1 + 41 * j, NodeBytes(s[j]);
    PartOfRest([|s|], NodesBytes(s), 41 * j, 41);
    assert bs[at..at + 41] == node;
    assert bs[at] == bs[at..at + 41][0];
    NodeParts(s[j]);
    hide NodeBytes, Encoded;
    PartOfPart(bs, at, 41, 1, 9);
    PartOfPart(bs, at, 41, 9, 41);
    WordIs(bs, at + 1, 8, s[j].i);
  }

  lemma NodeParts(n: Elk.Node)
    requires n.h < 256 && n.i < TWO64
    ensures var bs := NodeBytes(n); bs[0] == n.h && bs[1..9] == BigEndian(n.i, 8) && bs[9..41] == n.sha
  {
    hide BigEndian;
  }

  lemma PartOfPart(bs: seq<byte>, at: nat, n: nat, x: nat, y: nat)
    requires at + n <= |bs| && x <= y <= n
    ensures bs[at + x..at + y] == bs[at..at + n][x..y]
  {
    var part := bs[at..at + n];
    var p, q := bs[at + x..at + y], part[x..y];
    forall i | 0 <= i < y - x ensures p[i] == q[i] {
      assert q[i] == part[x + i] == bs[at + (x + i)];
    }
    assert p == q;
  }

  lemma PartOfRest(front: seq<byte>, rest: seq<byte>, at: nat, n: nat)
    requires at + n <= |rest|
    ensures (front + rest)[|front| + at..|front| + at + n] == rest[at..at + n]
  {
  }

  /** A stored elkrem state: the peer's current revocation key and hash, the root of our own
  tree, and the receiver, all but the hash with their length in front. */
  lemma StateLayout(st: ElkremState)
    requires |st.key| == COMPRESSED_KEY_SIZE && StateBytes(st).Some?
    ensures var bs := StateBytes(st).value;
            && |bs| >= 99 && bs[0] == 33 && bs[1..34] == st.key && bs[34..66] == st.hash
            && bs[66] == 32 && bs[67..99] == st.root
            && Stored(st.receiver).Some? && |Stored(st.receiver).value| < TWO64
            && bs[99..] == VarBytes(Stored(st.receiver).value)
  {
    hide VarInt, NodesBytes;
    var receiver := Stored(st.receiver).value;
    VarIntLayout(33);
    VarIntLayout(32);
    var bs := StateBytes(st).value;
    assert bs == [33] + st.key + st.hash + ([32] + st.root) + VarBytes(receiver);
  }

  /** Its key: "esk" and the outpoint, the hash with its length in front. */
  lemma ElkremKeyLayout(o: OutPoint)
    requires o.index < TWO32
    ensures var key := ElkremKey(o);
            && |key| == 40 && key[..4] == [0x65, 0x73, 0x6b, 32] && key[4..36] == o.hash && WordAt(key, 36, 4, o.index)
  {
    hide BigEndian, Pow256, WordAt, VarInt;
    VarIntLayout(32);
    var key := ElkremKey(o);
    assert key == [0x65, 0x73, 0x6b] + ([32] + o.hash + BigEndian(o.index, 4));
    assert key[36..40] == BigEndian(o.index, 4);
    WordIs(key, 36, 4, o.index);
  }
}
