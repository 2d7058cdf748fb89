/** What the check of a merkle block does when two siblings are equal. The join of the two is
left empty and the rounds go on, so hashes meant for other nodes can fill the gap, and what
was taken below it stays taken: soundness fails.
 */
module MerkleTwins {
  import opened Primitives
  import opened Merkle
  import opened MerklePositions
  import opened MerkleBlock

  function Empty(p: nat): MerkleNode {
    MerkleNode(p, None)
  }

  function Full(p: nat, h: Hash): MerkleNode {
    MerkleNode(p, Some(h))
  }

  function Taken(wanted: bool, x: Hash): seq<Hash> {
    if wanted then [x] else []
  }

  lemma NoneTaken(h: Hash)
    ensures Taken(false, h) == []
  {
  }

  /* --- rounds at a given node ------------------------------------------------------------------ */

  ghost predicate NoFull(s: seq<MerkleNode>) {
    && (|s| == 1 ==> s[0].h.None?)
    && (|s| > 2 ==> s[|s| - 2].h.None? || s[|s| - 1].h.None?)
  }

  /** A round that goes down from node (t, k). */
  lemma Descends(dsha: Hasher, m: Block, s: seq<MerkleNode>, r: seq<Hash>, t: nat, k: nat, bit: nat, hs: seq<Hash>)
    requires 0 < m.transactions <= MAX_LEAVES && Live(m.transactions, t, k) && t > 0 && hs != [] && NoFull(s)
    requires bit < 8 * |m.flags| && FlagBit(m.flags, bit)
    ensures Run(dsha, m, Machine(s, r, Pos(m.transactions, t, k), bit, hs))
         == Run(dsha, m, Machine(s + [Empty(Pos(m.transactions, t, k))], r, Pos(m.transactions, t - 1, 2 * k), bit + 1, hs))
  {
    hide Dead, Depth, Pow2, FlagBit, Run, HasBit, SetBit, FlipBit, Double, Pos, Width;
    var n := m.transactions;
    LivePos(n, t, k);
    PosChild(n, t, k);
    RunQuiet(dsha, m, Machine(s, r, Pos(n, t, k), bit, hs));
  }

  /** Where the position goes once node (t, k) is filled from the block. */
  function Next(n: nat, t: nat, k: nat): nat {
    if k % 2 == 0 then Pos(n, t, k) + 1 else if t > 0 then Pos(n, t + 1, k / 2) else Pos(n, t, k)
  }

  lemma PushFills(n: nat, flag: bool, s: seq<MerkleNode>, r: seq<Hash>, t: nat, k: nat, bit: nat, h: Hash, rest: seq<Hash>)
    requires 0 < n && Live(n, t, k) && (t == 0 || !flag) && (k % 2 == 1 ==> t < Depth(n))
    ensures Push(Pow2(Depth(n)), flag, Machine(s, r, Pos(n, t, k), bit, [h] + rest))
         == Machine(s + [Full(Pos(n, t, k), h)], r + Taken(flag, h), Next(n, t, k), bit + 1, rest)
  {
    hide Dead, Depth, Pow2, HasBit, SetBit, FlipBit, Double, Pos, Width;
    LivePos(n, t, k);
    if k % 2 == 1 {
      PosParent(n, t, k);
    }
    assert ([h] + rest)[1..] == rest;
  }

  lemma LeafPos(n: nat, k: nat)
    ensures Pos(n, 0, k) == k && (Live(n, 0, k) ==> k < n)
  {
    hide Depth;
  }

  /** A round that fills node (t, k) from the block. */
  lemma Fills(dsha: Hasher, m: Block, s: seq<MerkleNode>, r: seq<Hash>, t: nat, k: nat, bit: nat, h: Hash, rest: seq<Hash>)
    requires 0 < m.transactions <= MAX_LEAVES && Live(m.transactions, t, k) && NoFull(s) && bit < 8 * |m.flags|
    requires (t == 0 || !FlagBit(m.flags, bit)) && (k % 2 == 1 ==> t < Depth(m.transactions))
    ensures Run(dsha, m, Machine(s, r, Pos(m.transactions, t, k), bit, [h] + rest))
         == Run(dsha, m, Machine(s + [Full(Pos(m.transactions, t, k), h)], r + Taken(FlagBit(m.flags, bit), h),
                                 Next(m.transactions, t, k), bit + 1, rest))
  {
    hide Dead, Depth, Pow2, FlagBit, Run, HasBit, Push, Pos, Next, Width, Taken, Full;
    var n := m.transactions;
    LivePos(n, t, k);
    if t == 0 {
      LeafPos(n, k);
    }
    PushFills(n, FlagBit(m.flags, bit), s, r, t, k, bit, h, rest);
    RunQuiet(dsha, m, Machine(s, r, Pos(n, t, k), bit, [h] + rest));
  }

  lemma PairJoins(dsha: Hasher, n: nat, s: seq<MerkleNode>, t: nat, p: MerkleNode, l: MerkleNode, q: MerkleNode,
                  r: seq<Hash>, pos: nat, bit: nat, hs: seq<Hash>)
    requires 0 < n && Live(n, t, 0) && p.p == Pos(n, t, 0)
    ensures Pair(dsha, Machine(s + [p] + [l] + [q], r, pos, bit, hs))
         == Machine(s + [MerkleNode(p.p, MakeMerkleParent(dsha, l.h, q.h))], r, Pos(n, t, 0) + 1, bit, hs)
  {
    hide Dead, Depth, Pow2, HasBit, SetBit, Pos, Width, MakeMerkleParent;
    LivePos(n, t, 0);
    assert (s + [p] + [l] + [q])[..|s|] == s;
  }

  /** A round that joins two siblings into the first node of a row. */
  lemma Joins(dsha: Hasher, m: Block, s: seq<MerkleNode>, t: nat, p: MerkleNode, l: MerkleNode, q: MerkleNode,
              r: seq<Hash>, pos: nat, bit: nat, hs: seq<Hash>)
    requires 0 < m.transactions && !Dead(m.transactions, pos) && Live(m.transactions, t, 0)
    requires p.p == Pos(m.transactions, t, 0) && l.h.Some? && q.h.Some?
    ensures Run(dsha, m, Machine(s + [p] + [l] + [q], r, pos, bit, hs))
         == Run(dsha, m, Machine(s + [MerkleNode(p.p, MakeMerkleParent(dsha, l.h, q.h))], r,
                                 Pos(m.transactions, t, 0) + 1, bit, hs))
  {
    hide Dead, Depth, Run, Pair, MakeMerkleParent, Pos, Live;
    PairJoins(dsha, m.transactions, s, t, p, l, q, r, pos, bit, hs);
    RunPair(dsha, m, Machine(s + [p] + [l] + [q], r, pos, bit, hs));
  }

  /* --- down the left edge to two equal leaves -------------------------------------------------- */

  /** The nodes of the left edge from the root down to height `t`, waiting for their children. */
  function Edge(n: nat, t: nat): seq<MerkleNode>
    decreases Depth(n) + 1 - t
  {
    if t > Depth(n) then [] else Edge(n, t + 1) + [Empty(Pos(n, t, 0))]
  }

  lemma EdgeWaits(n: nat, t: nat)
    ensures NoFull(Edge(n, t)) && forall f :: Edge(n, t) != [] ==> NoFull(Edge(n, t) + [f])
    ensures t <= Depth(n) ==> Edge(n, t) == Edge(n, t + 1) + [Empty(Pos(n, t, 0))]
    ensures Edge(n, Depth(n) + 1) == []
  {
    hide Depth, Pos;
    assert Edge(n, t) != [] ==> Edge(n, t)[|Edge(n, t)| - 1].h.None?;
    if t < Depth(n) {
      assert Edge(n, t + 1)[|Edge(n, t + 1)| - 1].h.None?;
    }
  }

  lemma EdgeLive(n: nat, t: nat)
    requires 0 < n && t <= Depth(n)
    ensures Live(n, t, 0) && (t < Depth(n) ==> Live(n, t, 1))
  {
    hide Depth;
    WidthBound(n, Depth(n), t);
    if t < Depth(n) {
      TwoWide(n, t);
    }
  }

  lemma TwoWide(n: nat, t: nat)
    requires t < Depth(n)
    ensures Width(n, t) >= 2
  {
    var d := Depth(n);
    assert Pow2(d - 1) < n;
    Pow2Monotonic(t, d - 1);
    hide Depth;
    WidthCoversLeaf(n, t, 1);
  }

  /** The flags start with `ones` ones; zeros follow. */
  ghost predicate FlagsAre(flags: seq<byte>, ones: nat, bits: nat) {
    ones <= bits <= 8 * |flags| && forall b | 0 <= b < bits :: FlagBit(flags, b) <==> b < ones
  }

  lemma {:induction false} GoesDown(dsha: Hasher, m: Block, ones: nat, bits: nat, t: nat, hs: seq<Hash>)
    requires 0 < m.transactions <= MAX_LEAVES && t <= Depth(m.transactions) <= ones && hs != []
    requires FlagsAre(m.flags, ones, bits)
    ensures var n := m.transactions;
            Run(dsha, m, Machine([], [], Pos(n, Depth(n), 0), 0, hs)) ==
            Run(dsha, m, Machine(Edge(n, t + 1), [], Pos(n, t, 0), Depth(n) - t, hs))
    decreases Depth(m.transactions) - t
  {
    hide FlagBit, Run, Depth, Pos, Width, Empty;
    var n := m.transactions;
    EdgeWaits(n, t + 1);
    if t < Depth(n) {
      GoesDown(dsha, m, ones, bits, t + 1, hs);
      EdgeWaits(n, t + 2);
      EdgeLive(n, t + 1);
      Descends(dsha, m, Edge(n, t + 2), [], t + 1, 0, Depth(n) - t - 1, hs);
    }
  }

  /** Two hashes for the first two leaves. */
  lemma TakesLeaves(dsha: Hasher, m: Block, wanted: bool, bits: nat, x: Hash, y: Hash, rest: seq<Hash>)
    requires 2 <= m.transactions <= MAX_LEAVES && 0 < Depth(m.transactions)
    requires FlagsAre(m.flags, Depth(m.transactions) + (if wanted then 1 else 0), bits) && bits >= Depth(m.transactions) + 2
    ensures var (n, d) := (m.transactions, Depth(m.transactions));
            Run(dsha, m, Machine(Edge(n, 1), [], Pos(n, 0, 0), d, [x] + ([y] + rest))) ==
            Run(dsha, m, Machine(Edge(n, 1) + [Full(0, x)] + [Full(1, y)], Taken(wanted, x), 1, d + 2, rest))
  {
    hide FlagBit, Run, Depth, Pos, Width, Empty, Full, Taken, NoFull, Edge, Live;
    var n := m.transactions;
    var (d, r) := (Depth(n), Taken(wanted, x));
    EdgeWaits(n, 1);
    EdgeGrows(n, 1);
    EdgeLive(n, 0);
    NoneTaken(x);
    NoneTaken(y);
    LeafPos(n, 0);
    LeafPos(n, 1);
    assert [] + r == r && r + [] == r;
    Fills(dsha, m, Edge(n, 1), [], 0, 0, d, x, [y] + rest);
    Fills(dsha, m, Edge(n, 1) + [Full(0, x)], r, 0, 1, d + 1, y, rest);
  }

  /** The first two leaves are equal: node (1, 0) stays empty, and what was taken stays. */
  lemma TwinsLeaveGap(dsha: Hasher, m: Block, wanted: bool, bits: nat, x: Hash, rest: seq<Hash>)
    requires 2 <= m.transactions <= MAX_LEAVES && 0 < Depth(m.transactions)
    requires FlagsAre(m.flags, Depth(m.transactions) + (if wanted then 1 else 0), bits) && bits >= Depth(m.transactions) + 2
    ensures var n := m.transactions;
            Run(dsha, m, Machine([], [], Pos(n, Depth(n), 0), 0, [x] + ([x] + rest))) ==
            Run(dsha, m, Machine(Edge(n, 1), Taken(wanted, x), Pos(n, 1, 0) + 1, Depth(n) + 2, rest))
  {
    hide FlagBit, Run, Depth, Pos, Width, Empty, Full, Taken, NoFull, Edge, Live, FlagsAre, Dead;
    var n := m.transactions;
    var (d, r) := (Depth(n), Taken(wanted, x));
    GoesDown(dsha, m, d + (if wanted then 1 else 0), bits, 0, [x] + ([x] + rest));
    TakesLeaves(dsha, m, wanted, bits, x, x, rest);
    EdgeWaits(n, 1);
    EdgeLive(n, 0);
    EdgeLive(n, 1);
    LeafPos(n, 1);
    LivePos(n, 0, 1);
    FullHas(0, x);
    FullHas(1, x);
    FullHas(Pos(n, 1, 0), x);
    Joins(dsha, m, Edge(n, 2), 1, Empty(Pos(n, 1, 0)), Full(0, x), Full(1, x), r, 1, d + 2, rest);
  }

  lemma FullHas(p: nat, h: Hash)
    ensures Full(p, h) == MerkleNode(p, Some(h)) && Empty(p) == MerkleNode(p, None)
  {
  }

  /* --- up the left edge to the root ---------------------------------------------------------------- */

  /** The hash reached from `h` with the hashes of its right siblings on the way up. */
  function Fold(dsha: Hasher, h: Hash, sides: seq<Hash>): Hash
    decreases |sides|
  {
    if sides == [] then h else Fold(dsha, Join(dsha, h, sides[0]), sides[1..])
  }

  /** No right sibling on the way up is equal to the left one. */
  predicate Differ(dsha: Hasher, h: Hash, sides: seq<Hash>)
    decreases |sides|
  {
    sides != [] ==> h != sides[0] && Differ(dsha, Join(dsha, h, sides[0]), sides[1..])
  }

  /** Node (t, 0) is known, and the block goes on with the right siblings up to the root. */
  lemma {:induction false} GoesUp(dsha: Hasher, m: Block, ones: nat, bits: nat, t: nat, h: Hash, r: seq<Hash>,
                                  bit: nat, sides: seq<Hash>)
    requires 0 < m.transactions <= MAX_LEAVES && 0 < t <= Depth(m.transactions) && |sides| == Depth(m.transactions) - t
    requires FlagsAre(m.flags, ones, bits) && ones <= bit && bit + |sides| <= bits
    requires Differ(dsha, h, sides) && m.root == Fold(dsha, h, sides)
    ensures var n := m.transactions;
            Run(dsha, m, Machine(Edge(n, t + 1) + [Full(Pos(n, t, 0), h)], r, Pos(n, t, 0) + 1, bit, sides)) == Txids(r)
    decreases |sides|
  {
    hide FlagBit, Run, Depth, Pos, Width, NoFull, Edge, Live;
    var n := m.transactions;
    EdgeWaits(n, t + 1);
    if sides == [] {
      RunEnds(dsha, m, Machine([] + [Full(Pos(n, t, 0), h)], r, Pos(n, t, 0) + 1, bit, sides));
    } else {
      var (c, rest) := (sides[0], sides[1..]);
      assert sides == [c] + rest;
      EdgeWaits(n, t + 2);
      EdgeLive(n, t);
      EdgeLive(n, t + 1);
      SiblingPos(n, t);
      assert r + [] == r;
      var s := Edge(n, t + 1) + [Full(Pos(n, t, 0), h)];
      assert NoFull(s) by {
        EdgeGrows(n, t + 1);
      }
      Fills(dsha, m, s, r, t, 1, bit, c, rest);
      LivePos(n, t + 1, 0);
      Joins(dsha, m, Edge(n, t + 2), t + 1, Empty(Pos(n, t + 1, 0)), Full(Pos(n, t, 0), h), Full(Pos(n, t, 1), c),
            r, Pos(n, t + 1, 0), bit + 1, rest);
      GoesUp(dsha, m, ones, bits, t + 1, Join(dsha, h, c), r, bit + 1, rest);
    }
  }

  lemma SiblingPos(n: nat, t: nat)
    ensures Pos(n, t, 1) == Pos(n, t, 0) + 1
  {
  }

  lemma EdgeGrows(n: nat, t: nat)
    ensures t <= Depth(n) ==> Edge(n, t) != []
  {
    hide Depth, Pos;
  }

  /** The gap at (1, 0) is filled by two hashes taken for the nodes (1, 1) and (2, 0). */
  lemma GapIsFilled(dsha: Hasher, m: Block, ones: nat, bits: nat, r: seq<Hash>, bit: nat, a: Hash, b: Hash, rest: seq<Hash>)
    requires 0 < m.transactions <= MAX_LEAVES && Depth(m.transactions) >= 3 && a != b
    requires FlagsAre(m.flags, ones, bits) && ones <= bit && bit + 2 <= bits
    ensures var n := m.transactions;
            Run(dsha, m, Machine(Edge(n, 1), r, Pos(n, 1, 0) + 1, bit, [a] + ([b] + rest))) ==
            Run(dsha, m, Machine(Edge(n, 2) + [Full(Pos(n, 1, 0), Join(dsha, a, b))], r, Pos(n, 1, 0) + 1, bit + 2, rest))
  {
    hide FlagBit, Run, Depth, Pos, Width, NoFull, Edge, Live;
    var n := m.transactions;
    EdgeWaits(n, 1);
    EdgeGrows(n, 1);
    EdgeLive(n, 1);
    EdgeLive(n, 2);
    SiblingPos(n, 1);
    SiblingPos(n, 2);
    assert r + [] == r;
    Fills(dsha, m, Edge(n, 1), r, 1, 1, bit, a, [b] + rest);
    Fills(dsha, m, Edge(n, 1) + [Full(Pos(n, 1, 1), a)], r, 2, 0, bit + 1, b, rest);
    LivePos(n, 2, 1);
    Joins(dsha, m, Edge(n, 2), 1, Empty(Pos(n, 1, 0)), Full(Pos(n, 1, 1), a), Full(Pos(n, 2, 0), b),
          r, Pos(n, 2, 1), bit + 2, rest);
  }

  /** In a tree of height two there is no node (2, 1): a third hash is needed. */
  lemma LowGapIsFilled(dsha: Hasher, m: Block, ones: nat, bits: nat, r: seq<Hash>, bit: nat, a: Hash, b: Hash, c: Hash,
                       rest: seq<Hash>)
    requires 0 < m.transactions <= MAX_LEAVES && Depth(m.transactions) == 2 && Join(dsha, b, b) != c
    requires FlagsAre(m.flags, ones, bits) && ones <= bit && bit + 3 <= bits
    ensures var n := m.transactions;
            Run(dsha, m, Machine(Edge(n, 1), r, Pos(n, 1, 0) + 1, bit, [a] + ([b] + ([c] + rest)))) ==
            Run(dsha, m, Machine(Edge(n, 2) + [Full(Pos(n, 1, 0), Join(dsha, Join(dsha, b, b), c))], r,
                                 Pos(n, 1, 0) + 1, bit + 3, rest))
  {
    hide FlagBit, Run, Depth, Pos, Width, NoFull, Edge, Live, Dead, Join;
    var n := m.transactions;
    var bb := Join(dsha, b, b);
    EdgeWaits(n, 1);
    EdgeGrows(n, 1);
    EdgeLive(n, 1);
    EdgeLive(n, 2);
    SiblingPos(n, 1);
    assert r + [] == r;
    Fills(dsha, m, Edge(n, 1), r, 1, 1, bit, a, [b] + ([c] + rest));
    Fills(dsha, m, Edge(n, 1) + [Full(Pos(n, 1, 1), a)], r, 2, 0, bit + 1, b, [c] + rest);
    PastRoot(dsha, m, Edge(n, 1), a, b, r, bit + 2, [c] + rest);
    Fills(dsha, m, Edge(n, 1) + [Full(Pos(n, 1, 1), bb)], r, 1, 1, bit + 2, c, rest);
    LivePos(n, 2, 0);
    Joins(dsha, m, Edge(n, 2), 1, Empty(Pos(n, 1, 0)), Full(Pos(n, 1, 1), bb), Full(Pos(n, 1, 1), c),
          r, Pos(n, 2, 0), bit + 3, rest);
  }

  /** Past the root every position is dead: the top of the stack is joined with itself into the
  node below it. */
  lemma PastRoot(dsha: Hasher, m: Block, s: seq<MerkleNode>, a: Hash, b: Hash, r: seq<Hash>, bit: nat, hs: seq<Hash>)
    requires 0 < m.transactions <= MAX_LEAVES && Depth(m.transactions) == 2 && Live(m.transactions, 1, 1)
    ensures var n := m.transactions;
            Run(dsha, m, Machine(s + [Full(Pos(n, 1, 1), a)] + [Full(Pos(n, 2, 0), b)], r, Pos(n, 2, 0) + 1, bit, hs)) ==
            Run(dsha, m, Machine(s + [Full(Pos(n, 1, 1), Join(dsha, b, b))], r, Pos(n, 1, 1), bit, hs))
  {
    var n := m.transactions;
    assert Dead(n, Pos(n, 2, 0) + 1) by {
      RootPos(n);
    }
    hide Run, Depth, Pos, Width, Live, Dead, Join, SetBit, HasBit;
    LivePos(n, 1, 1);
    var x := Machine(s + [Full(Pos(n, 1, 1), a)] + [Full(Pos(n, 2, 0), b)], r, Pos(n, 2, 0) + 1, bit, hs);
    RunDead(dsha, m, x);
    assert x.s[..|s|] == s;
  }

  /* --- flag bytes ---------------------------------------------------------------------------------- */

  /** The lowest `r` bits set. */
  function OnesByte(r: nat): (b: nat)
    ensures b == Pow2(r) - 1
  {
    if r == 0 then 0 else 2 * OnesByte(r - 1) + 1
  }

  lemma OnesByteStep(r: nat, j: nat)
    ensures r > 0 ==> OnesByte(r) == 2 * OnesByte(r - 1) + 1
    ensures j > 0 ==> Pow2(j) == 2 * Pow2(j - 1)
    ensures OnesByte(0) == 0 && Pow2(0) == 1
  {
  }

  lemma {:induction false} OnesByteBits(r: nat, j: nat)
    ensures OnesByte(r) / Pow2(j) % 2 == 1 <==> j < r
    decreases j
  {
    hide OnesByte, Pow2;
    OnesByteStep(r, j);
    if r == 0 {
      assert 0 / Pow2(j) == 0;
    } else if j > 0 {
      OnesByteBits(r - 1, j - 1);
      HalfQuotient(OnesByte(r - 1), Pow2(j - 1));
    }
  }

  lemma AtLeastOnce(k: int, m: nat)
    requires k >= 1
    ensures k * m >= m
  {
    assert (k - 1) * m >= 0;
    assert k * m == (k - 1) * m + m;
  }

  lemma QuotientIs(x: nat, m: nat, q: nat, e: nat)
    requires m > 0 && e < m && x == q * m + e
    ensures x / m == q
  {
    var (q', e') := (x / m, x % m);
    assert x == q' * m + e';
    assert (q - q') * m == q * m - q' * m && (q' - q) * m == q' * m - q * m;
    if q' < q {
      AtLeastOnce(q - q', m);
    } else if q < q' {
      AtLeastOnce(q' - q, m);
    }
  }

  lemma HalfQuotient(x: nat, p: nat)
    requires p > 0
    ensures (2 * x + 1) / (2 * p) == x / p
  {
    var (q, e) := (x / p, x % p);
    assert x == q * p + e;
    assert q * (2 * p) == 2 * (q * p);
    QuotientIs(2 * x + 1, 2 * p, q, 2 * e + 1);
  }

  lemma EightBits(r: nat)
    requires r <= 8
    ensures OnesByte(r) < 256
  {
    Pow2Monotonic(r, 8);
    Pow2Values();
  }

  /** `ones` ones, and zeros for at least eighty bits more. */
  function Flags(ones: nat): seq<byte> {
    seq(ones / 8 + 12, j requires j >= 0 => FlagByte(ones, j))
  }

  function FlagByte(ones: nat, j: nat): byte {
    var r := if 8 * j + 8 <= ones then 8 else if ones <= 8 * j then 0 else ones - 8 * j;
    EightBits(r);
    OnesByte(r)
  }

  lemma FlagsRead(ones: nat)
    ensures FlagsAre(Flags(ones), ones, ones + 80)
  {
    hide OnesByte, Pow2;
    var flags := Flags(ones);
    forall b | 0 <= b < ones + 80 ensures FlagBit(flags, b) <==> b < ones {
      var (j, i) := (b / 8, b % 8);
      assert flags[j] == FlagByte(ones, j);
      var r := if 8 * j + 8 <= ones then 8 else if ones <= 8 * j then 0 else ones - 8 * j;
      OnesByteBits(r, i);
    }
  }

  /* --- under the root of a true tree ----------------------------------------------------------------- */

  /** The hash of node (t, k) of the true tree over the txids. */
  function TrueHash(dsha: Hasher, txs: seq<Hash>, t: nat, k: nat): Hash
    requires k < Width(|txs|, t)
  {
    TreeHash(dsha, Subtree(txs, NoMarks(|txs|), t, k))
  }

  ghost predicate TrueNoTwins(dsha: Hasher, txs: seq<Hash>, t: nat)
    requires 0 < Width(|txs|, t)
  {
    NoTwins(dsha, Subtree(txs, NoMarks(|txs|), t, 0))
  }

  function TrueRoot(dsha: Hasher, txs: seq<Hash>): Hash
    requires txs != []
  {
    RootWidth(|txs|);
    TrueHash(dsha, txs, Depth(|txs|), 0)
  }

  /** On the left edge below the root every node has two children. */
  lemma TrueStep(dsha: Hasher, txs: seq<Hash>, t: nat)
    requires txs != [] && t < Depth(|txs|)
    ensures Width(|txs|, t) >= 2 && Width(|txs|, t + 1) > 0
    ensures TrueHash(dsha, txs, t + 1, 0) == Join(dsha, TrueHash(dsha, txs, t, 0), TrueHash(dsha, txs, t, 1))
    ensures TrueNoTwins(dsha, txs, t + 1) ==>
              TrueNoTwins(dsha, txs, t) && TrueHash(dsha, txs, t, 0) != TrueHash(dsha, txs, t, 1)
  {
    TwoWide(|txs|, t);
    hide Depth, NoMarks, Join;
  }

  /** The right siblings of the left edge from height `t` up. */
  function Sides(dsha: Hasher, txs: seq<Hash>, t: nat): (sides: seq<Hash>)
    requires txs != [] && t <= Depth(|txs|)
    ensures |sides| == Depth(|txs|) - t
    decreases Depth(|txs|) - t
  {
    if t == Depth(|txs|) then []
    else
      TwoWide(|txs|, t);
      [TrueHash(dsha, txs, t, 1)] + Sides(dsha, txs, t + 1)
  }

  lemma {:induction false} TrueNoTwinsBelow(dsha: Hasher, txs: seq<Hash>, t: nat)
    requires txs != [] && t <= Depth(|txs|) && Width(|txs|, Depth(|txs|)) == 1
    requires TrueNoTwins(dsha, txs, Depth(|txs|))
    ensures Width(|txs|, t) > 0 && TrueNoTwins(dsha, txs, t)
    decreases Depth(|txs|) - t
  {
    hide Depth, Width, TrueNoTwins, TrueHash;
    if t < Depth(|txs|) {
      TrueNoTwinsBelow(dsha, txs, t + 1);
      TrueStep(dsha, txs, t);
    }
  }

  lemma {:induction false} SidesFold(dsha: Hasher, txs: seq<Hash>, t: nat)
    requires txs != [] && t <= Depth(|txs|) && Width(|txs|, Depth(|txs|)) == 1
    requires TrueNoTwins(dsha, txs, Depth(|txs|))
    ensures Width(|txs|, t) > 0
    ensures Fold(dsha, TrueHash(dsha, txs, t, 0), Sides(dsha, txs, t)) == TrueRoot(dsha, txs)
    ensures Differ(dsha, TrueHash(dsha, txs, t, 0), Sides(dsha, txs, t))
    decreases Depth(|txs|) - t
  {
    hide Depth, Width, TrueNoTwins, TrueHash, Join;
    if t < Depth(|txs|) {
      TrueNoTwinsBelow(dsha, txs, t + 1);
      TrueStep(dsha, txs, t);
      SidesFold(dsha, txs, t + 1);
      var sides := Sides(dsha, txs, t);
      assert sides[0] == TrueHash(dsha, txs, t, 1) && sides[1..] == Sides(dsha, txs, t + 1);
    }
  }

  /** Two equal hashes in front, then the first two txids and the right siblings of the true
  tree's left edge. */
  function TwinBlock(dsha: Hasher, txs: seq<Hash>, x: Hash, wanted: bool): Block
    requires |txs| >= 2 && 1 <= Depth(|txs|)
  {
    Block(|txs|, TrueRoot(dsha, txs), [x] + ([x] + ([txs[0]] + ([txs[1]] + Sides(dsha, txs, 1)))),
          Flags(Depth(|txs|) + if wanted then 1 else 0))
  }

  /** The parse goes down the left edge and finds the first two leaves equal. */
  lemma {:induction false} TwinsAreParsed(dsha: Hasher, n: nat, flags: seq<byte>, ones: nat, bits: nat, t: nat, b: nat,
                                          x: Hash, rest: seq<Hash>)
    requires n >= 2 && t >= 1 && FlagsAre(flags, ones, bits) && b + t <= ones && b + t + 2 <= bits
    ensures Parse(dsha, n, flags, t, 0, b, [x] + ([x] + rest)) == Twins
    decreases t
  {
    hide FlagBit, Parse, Width, Join;
    var hs := [x] + ([x] + rest);
    ParseDescends(dsha, n, flags, t, 0, b, hs);
    if t == 1 {
      assert hs[1..] == [x] + rest;
      ParseStays(dsha, n, flags, 0, 0, b + 1, hs);
      ParseStays(dsha, n, flags, 0, 1, b + 2, [x] + rest);
      assert Width(n, 0) == n by {
        LeafWidth(n);
      }
    } else {
      TwinsAreParsed(dsha, n, flags, ones, bits, t - 1, b + 1, x, rest);
    }
  }

  lemma LeafWidth(n: nat)
    ensures Width(n, 0) == n
  {
  }

  lemma StartsAtRoot(m: Block)
    requires 0 < m.transactions <= MAX_LEAVES
    ensures Start(m) == Machine([], [], Pos(m.transactions, Depth(m.transactions), 0), 0, m.hashes)
  {
    hide Depth, Pow2, Double;
    DepthBound(m.transactions);
    DoubleRoot(Pow2(Depth(m.transactions)));
    RootPos(m.transactions);
  }

  lemma DeepFrom(n: nat, d: nat)
    requires n > Pow2(d)
    ensures Depth(n) > d
  {
    if Depth(n) <= d {
      Pow2Monotonic(Depth(n), d);
    }
  }

  lemma FirstPair(dsha: Hasher, txs: seq<Hash>)
    requires |txs| >= 5 && Depth(|txs|) >= 3
    ensures Width(|txs|, 1) > 0 && TrueHash(dsha, txs, 1, 0) == Join(dsha, txs[0], txs[1])
    ensures TrueNoTwins(dsha, txs, 1) ==> txs[0] != txs[1]
  {
    hide Depth, Join;
    TrueStep(dsha, txs, 0);
  }

  /** A block with twins in front is one the parser stops at. */
  lemma FrontTwins(dsha: Hasher, m: Block, ones: nat, x: Hash, rest: seq<Hash>)
    requires 2 <= m.transactions <= MAX_LEAVES && 1 <= Depth(m.transactions) <= ones
    requires m.hashes == [x] + ([x] + rest) && m.flags == Flags(ones)
    ensures HasTwins(dsha, m) && FlagsAre(m.flags, ones, ones + 80) && Depth(m.transactions) <= 31
    ensures Checked(dsha, m)
         == Run(dsha, m, Machine([], [], Pos(m.transactions, Depth(m.transactions), 0), 0, [x] + ([x] + rest)))
  {
    hide FlagBit, Flags, Run, Parse, Depth, Pos, FlagsAre, Start;
    var d := Depth(m.transactions);
    FlagsRead(ones);
    SomeFlags(ones);
    DepthBound(m.transactions);
    TwinsAreParsed(dsha, m.transactions, m.flags, ones, ones + 80, d, 0, x, rest);
    StartsAtRoot(m);
  }

  lemma SomeFlags(ones: nat)
    ensures Flags(ones) != []
  {
  }

  /** The block starts with `x` twice. */
  ghost predicate Fronts(m: Block, wanted: bool, x: Hash, rest: seq<Hash>) {
    m.hashes == [x] + ([x] + rest) && m.flags == Flags(Depth(m.transactions) + if wanted then 1 else 0)
  }

  /** The rest fills the gap with the join of `a` and `b` and leads up to the root. */
  ghost predicate Completes(dsha: Hasher, m: Block, a: Hash, b: Hash, sides: seq<Hash>, rest: seq<Hash>) {
    && a != b && rest == [a] + ([b] + sides) && |sides| == Depth(m.transactions) - 1
    && Differ(dsha, Join(dsha, a, b), sides) && m.root == Fold(dsha, Join(dsha, a, b), sides)
  }

  /** Two hashes fill the gap, and right siblings lead up to the root. */
  lemma FillsAndGoesUp(dsha: Hasher, m: Block, ones: nat, bits: nat, r: seq<Hash>, bit: nat, a: Hash, b: Hash, sides: seq<Hash>,
                       rest: seq<Hash>)
    requires 0 < m.transactions <= MAX_LEAVES && Depth(m.transactions) >= 3 && Completes(dsha, m, a, b, sides, rest)
    requires FlagsAre(m.flags, ones, bits) && ones <= bit && bit + 1 + Depth(m.transactions) <= bits
    ensures var n := m.transactions;
            Run(dsha, m, Machine(Edge(n, 1), r, Pos(n, 1, 0) + 1, bit, rest)) == Txids(r)
  {
    hide FlagBit, Run, Depth, Pos, Join, FlagsAre, Fold, Differ, Edge, Full;
    GapIsFilled(dsha, m, ones, bits, r, bit, a, b, sides);
    GoesUp(dsha, m, ones, bits, 1, Join(dsha, a, b), r, bit + 2, sides);
  }

  /** Two equal leaves in front, and a rest with which the run from the gap is accepted. */
  lemma TwinsLeadTo(dsha: Hasher, m: Block, wanted: bool, x: Hash, rest: seq<Hash>)
    requires 2 <= m.transactions <= MAX_LEAVES && Depth(m.transactions) >= 1 && Fronts(m, wanted, x, rest)
    ensures HasTwins(dsha, m)
    ensures var (n, d) := (m.transactions, Depth(m.transactions));
            Checked(dsha, m) == Run(dsha, m, Machine(Edge(n, 1), Taken(wanted, x), Pos(n, 1, 0) + 1, d + 2, rest))
    ensures var d := Depth(m.transactions);
            d <= 31 && FlagsAre(m.flags, d + (if wanted then 1 else 0), d + 80)
  {
    hide FlagBit, Flags, Run, Depth, Pos, Taken, Edge, HasTwins, Checked;
    var ones := Depth(m.transactions) + (if wanted then 1 else 0);
    FrontTwins(dsha, m, ones, x, rest);
    TwinsLeaveGap(dsha, m, wanted, ones + 80, x, rest);
  }

  /** Two equal leaves in front, two hashes that fill the gap and right siblings up to the
  root: the block is accepted, and the twin is taken if it is wanted. */
  lemma TwinsAccepted(dsha: Hasher, m: Block, wanted: bool, x: Hash, a: Hash, b: Hash, sides: seq<Hash>, rest: seq<Hash>)
    requires 2 <= m.transactions <= MAX_LEAVES && Depth(m.transactions) >= 3
    requires Fronts(m, wanted, x, rest) && Completes(dsha, m, a, b, sides, rest)
    ensures HasTwins(dsha, m) && Checked(dsha, m) == Txids(Taken(wanted, x))
  {
    hide Fronts, Completes, Run, Depth, Pos, Taken, FlagsAre, Edge, HasTwins, Checked;
    var d := Depth(m.transactions);
    var (ones, r) := (d + (if wanted then 1 else 0), Taken(wanted, x));
    assert ones <= d + 1;
    TwinsLeadTo(dsha, m, wanted, x, rest);
    FillsAndGoesUp(dsha, m, ones, d + 80, r, d + 2, a, b, sides, rest);
  }

  lemma DeepTree(dsha: Hasher, txs: seq<Hash>)
    requires 5 <= |txs| && NoTwins(dsha, BlockTree(txs, NoMarks(|txs|)))
    ensures Depth(|txs|) >= 3 && Width(|txs|, Depth(|txs|)) == 1 && TrueNoTwins(dsha, txs, Depth(|txs|))
  {
    hide NoTwins;
    assert Pow2(2) == 4;
    DeepFrom(|txs|, 2);
    RootWidth(|txs|);
  }

  /** With equal siblings the check is not sound. Whatever the txids of the true tree, if there
  are five or more and no two siblings are equal, and whatever `x` is, the block is accepted
  under the true root, and `x` is taken from it if its leaf is wanted. If it is not, nothing
  is taken: not every block with equal siblings breaks soundness. */
  lemma TwinsAreTaken(dsha: Hasher, txs: seq<Hash>, x: Hash, wanted: bool)
    requires 5 <= |txs| <= MAX_LEAVES && NoTwins(dsha, BlockTree(txs, NoMarks(|txs|)))
    ensures Depth(|txs|) >= 3
    ensures HasTwins(dsha, TwinBlock(dsha, txs, x, wanted))
    ensures Checked(dsha, TwinBlock(dsha, txs, x, wanted)) == Txids(Taken(wanted, x))
  {
    hide Flags, Depth, Width, Taken, TrueHash, TrueRoot, TrueNoTwins, Join, NoTwins, BlockTree, Fold, Differ, Sides,
         HasTwins, Checked;
    DeepTree(dsha, txs);
    SidesFold(dsha, txs, 1);
    TrueNoTwinsBelow(dsha, txs, 1);
    FirstPair(dsha, txs);
    var sides := Sides(dsha, txs, 1);
    TwinsAccepted(dsha, TwinBlock(dsha, txs, x, wanted), wanted, x, txs[0], txs[1], sides, [txs[0]] + ([txs[1]] + sides));
  }
}
