/** The loop that checks a merkle block, as the code runs it: a stack, a position, the unread
hashes and the unread flag bytes with a bit number. It is proved to compute the run of module
MerkleBlock for every block.
 */
module MerkleCheck {
  import opened Primitives
  import opened Merkle
  import opened MerklePositions
  import opened MerkleBlock

  /** What is left of the flags after `b` bits: the rest of the bytes and a bit within the
  first of them. */
  ghost predicate Unread(all: seq<byte>, flags: seq<byte>, i: nat, b: nat) {
    && i < 8 && |flags| <= |all| && (flags == [] ==> i == 0)
    && flags == all[|all| - |flags|..]
    && b == 8 * (|all| - |flags|) + i
  }

  lemma ReadBit(all: seq<byte>, flags: seq<byte>, i: nat, b: nat)
    requires Unread(all, flags, i, b)
    ensures flags == [] <==> b >= 8 * |all|
    ensures flags != [] ==> FlagBit(all, b) == (flags[0] / Pow2(i) % 2 == 1)
    ensures flags != [] && i == 7 ==> Unread(all, flags[1..], 0, b + 1)
    ensures flags != [] && i < 7 ==> Unread(all, flags, i + 1, b + 1)
  {
    if flags != [] {
      var q := |all| - |flags|;
      assert b / 8 == q && b % 8 == i;
      assert flags[0] == all[q];
      assert flags[1..] == all[q + 1..];
    }
  }

  lemma UnreadAll(all: seq<byte>)
    ensures Unread(all, all, 0, 0)
  {
  }

  /** A new node for position `pos` (the second half of the loop body). */
  method NewNode(msb: nat, flag: bool, pos: nat, s: seq<MerkleNode>, r: seq<Hash>, hashes: seq<Hash>, ghost b: nat)
    returns (pos': nat, s': seq<MerkleNode>, r': seq<Hash>, hashes': seq<Hash>)
    requires hashes != [] && msb > 0
    ensures |s'| == |s| + 1
    ensures Machine(s', r', pos', b + 1, hashes') == Push(msb, flag, Machine(s, r, pos, b, hashes))
  {
    hide HasBit, SetBit, FlipBit, Double;
    pos', s', r', hashes' := pos, s, r, hashes;
    if HasBit(pos, msb) {
      if !flag {
        hashes' := hashes[1..];
        pos' := if HasBit(pos, 1) then SetBit(pos / 2, msb) else SetBit(pos, 1);
        s' := s + [MerkleNode(pos, Some(hashes[0]))];
        assert r' == r + [];
      } else {
        pos' := Double(FlipBit(pos, msb));
        s' := s + [MerkleNode(pos, None)];
      }
    } else {
      hashes' := hashes[1..];
      if flag {
        r' := r + [hashes[0]];
      }
      assert r' == r + if flag then [hashes[0]] else [];
      if !HasBit(pos, 1) {
        pos' := SetBit(pos, 1);
      }
      s' := s + [MerkleNode(pos, Some(hashes[0]))];
    }
  }

  /** Positions fit a 32-bit word. */
  ghost predicate Words(x: Machine) {
    x.pos < TWO32 && forall j | 0 <= j < |x.s| :: x.s[j].p < TWO32
  }

  lemma WordsKept(dsha: Hasher, n: nat, x: Machine)
    requires n <= MAX_LEAVES && Words(x)
    ensures |x.s| >= 2 ==> Words(Single(dsha, x))
    ensures |x.s| > 2 ==> Words(Pair(dsha, x))
    ensures x.hashes != [] ==> forall flag :: Words(Push(Pow2(Depth(n)), flag, x))
  {
    hide HasBit, SetBit, FlipBit, Double, MakeMerkleParent, Depth, Pow2;
    var msb := Pow2(Depth(n));
    DepthBound(n);
    LowBitFits(x.pos);
    TopBitFits(x.pos / 2, msb);
    DoubleFits(FlipBit(x.pos, msb));
    if |x.s| >= 2 {
      LowBitFits(x.s[|x.s| - 2].p);
    }
    if |x.s| > 2 {
      LowBitFits(x.s[|x.s| - 3].p);
    }
  }

  /** The outcome for every block of up to 2^31 transactions; the one the recursive parser
  defines, unless the parse meets two equal siblings. */
  method CheckMBlock(dsha: Hasher, m: Block) returns (out: Outcome)
    requires m.transactions <= MAX_LEAVES
    ensures out == Checked(dsha, m)
    ensures !HasTwins(dsha, m) ==>
              out == match Extract(dsha, m) case Some(ids) => Txids(ids) case None => Rejected
  {
    hide Parse, Depth, Run, Start;
    if !HasTwins(dsha, m) {
      CheckedExtracts(dsha, m);
    }
    if m.transactions == 0 || m.flags == [] {
      return Rejected;
    }
    out := WalkTree(dsha, m);
  }

  /** The main loop. */
  method WalkTree(dsha: Hasher, m: Block) returns (out: Outcome)
    requires 0 < m.transactions <= MAX_LEAVES && m.flags != []
    ensures out == Run(dsha, m, Start(m))
  {
    hide Depth, Dead, Quiet, HasBit, SetBit, FlipBit, Double, Pow2, FlagBit, Unread, Words, Run, Push, MakeMerkleParent;
    var s: seq<MerkleNode>, r: seq<Hash> := [], [];
    var hashes, flags, i := m.hashes, m.flags, 0;
    var n := m.transactions;
    var e := TreeDepth(n);
    var msb := Pow2(e);
    var pos: nat := (Double(msb) - 2) % TWO32;
    ghost var b := 0;
    UnreadAll(m.flags);
    assert Words(Start(m)) by {
      StartWords(m);
    }
    while true
      invariant i < 8 && (flags == [] ==> i == 0) && Unread(m.flags, flags, i, b)
      invariant Words(Machine(s, r, pos, b, hashes))
      invariant Run(dsha, m, Machine(s, r, pos, b, hashes)) == Run(dsha, m, Start(m))
      decreases 2 * (8 * |flags| - i) + |s|
    {
      var tip := |s| - 1;
      ghost var x := Machine(s, r, pos, b, hashes);
      if tip == 0 && s[0].h.Some? {
        RunEnds(dsha, m, x);
        return if s[0].h.value == m.root then Txids(r) else Rejected;
      }
      WordsKept(dsha, n, x);
      FitsWord(x);
      var dead := InDeadZone(pos, n);
      if dead {
        RunDead(dsha, m, x);
        if tip < 1 {
          return Panicked;
        }
        s := s[..tip - 1] + [s[tip - 1].(h := MakeMerkleParent(dsha, s[tip].h, None))];
        pos := SetBit(s[tip - 1].p, 1);
        assert Machine(s, r, pos, b, hashes) == Single(dsha, x);
        continue;
      }
      if tip > 1 && s[tip - 1].h.Some? && s[tip].h.Some? {
        RunPair(dsha, m, x);
        s := s[..tip - 2] + [s[tip - 2].(h := MakeMerkleParent(dsha, s[tip - 1].h, s[tip].h))];
        pos := SetBit(s[tip - 2].p, 1);
        assert Machine(s, r, pos, b, hashes) == Pair(dsha, x);
        continue;
      }
      ReadBit(m.flags, flags, i, b);
      StillQuiet(n, x);
      RunQuiet(dsha, m, x);
      if hashes == [] || flags == [] || (pos >= n && !HasBit(pos, msb)) {
        return Rejected;
      }
      pos, s, r, hashes := NewNode(msb, flags[0] / Pow2(i) % 2 == 1, pos, s, r, hashes, b);
      b := b + 1;
      i := i + 1;
      if i == 8 {
        i, flags := 0, flags[1..];
      }
    }
  }

  lemma StartWords(m: Block)
    requires m.transactions <= MAX_LEAVES
    ensures Words(Start(m))
  {
  }

  lemma FitsWord(x: Machine)
    requires Words(x)
    ensures x.pos < TWO32
  {
  }

  lemma StillQuiet(n: nat, x: Machine)
    requires !Dead(n, x.pos) && !(|x.s| == 1 && x.s[0].h.Some?)
    requires !(|x.s| > 2 && x.s[|x.s| - 2].h.Some? && x.s[|x.s| - 1].h.Some?)
    ensures Quiet(n, x)
  {
  }

  /* --- what acceptance means ------------------------------------------------------------------- */

  /** Completeness: the block an honest peer builds for any list of txids and any choice of
  wanted ones, if no two siblings of the tree are equal, is accepted with exactly the wanted
  ones. */
  lemma HonestBlockAccepted(dsha: Hasher, txs: seq<Hash>, marks: seq<bool>, flags: seq<byte>, rest: seq<Hash>)
    requires txs != [] && |marks| == |txs| <= MAX_LEAVES
    requires NoTwins(dsha, BlockTree(txs, marks)) && BitsAt(flags, 0, BuildBits(BlockTree(txs, marks)))
    ensures var tree := BlockTree(txs, marks);
            var m := Block(|txs|, TreeHash(dsha, tree), BuildHashes(dsha, tree) + rest, flags);
            !HasTwins(dsha, m) && Checked(dsha, m) == Txids(Picked(tree))
  {
    hide Parse, Depth, FlagBit, Checked;
    RootWidth(|txs|);
    ParseBuilt(dsha, txs, marks, flags, Depth(|txs|), 0, 0, rest);
    var tree := BlockTree(txs, marks);
    CheckedExtracts(dsha, Block(|txs|, TreeHash(dsha, tree), BuildHashes(dsha, tree) + rest, flags));
  }

  lemma PairTree(dsha: Hasher, a: Hash, b: Hash)
    ensures BlockTree([a, b], [true, true]) == Two(Leaf(a, true), Leaf(b, true))
    ensures BuildBits(Two(Leaf(a, true), Leaf(b, true))) == [true, true, true]
    ensures BuildHashes(dsha, Two(Leaf(a, true), Leaf(b, true))) == [a, b]
  {
    assert Pow2(0) == 1 && Pow2(1) == 2;
    DepthIs(2, 1);
    assert Width(2, 0) == 2;
    var tree := Two(Leaf(a, true), Leaf(b, true));
    assert BuildBits(tree.left) == [true] && BuildBits(tree.right) == [true];
    assert BuildHashes(dsha, tree.left) == [a] && BuildHashes(dsha, tree.right) == [b];
  }

  lemma ThreeBits()
    ensures BitsAt([7], 0, [true, true, true])
  {
    assert Pow2(0) == 1 && Pow2(1) == 2 && Pow2(2) == 4;
    assert FlagBit([7], 0) && FlagBit([7], 1) && FlagBit([7], 2);
  }

  /** The real block of two different txids, both wanted, is accepted with both. */
  lemma PairAccepted(dsha: Hasher, a: Hash, b: Hash)
    requires a != b
    ensures Checked(dsha, Block(2, dsha(a + b), [a, b], [7])) == Txids([a, b])
  {
    hide Checked, Parse, BlockTree, BitsAt, HasTwins, BuildBits, BuildHashes;
    PairTree(dsha, a, b);
    ThreeBits();
    HonestBlockAccepted(dsha, [a, b], [true, true], [7], []);
    assert [a, b] + [] == [a, b];
  }

  /** Soundness, for blocks whose parse meets no equal siblings, honest or not: every txid
  taken from an accepted block has a Merkle path to the header's root, at leaves of
  increasing number below the block's transaction count. Module MerkleSound shows that the
  condition cannot be dropped from three transactions on. */
  lemma AcceptedIsSound(dsha: Hasher, m: Block) returns (at: seq<nat>, paths: seq<seq<Hash>>)
    requires m.transactions <= MAX_LEAVES && Checked(dsha, m).Txids?
    ensures !HasTwins(dsha, m) ==>
              Proofs(dsha, m.transactions, Checked(dsha, m).ids, at, paths, Depth(m.transactions), 0, m.root)
  {
    hide Parse, Depth, Proofs, Checked;
    at, paths := [], [];
    if !HasTwins(dsha, m) {
      CheckedExtracts(dsha, m);
      RootWidth(m.transactions);
      at, paths := ParseSound(dsha, m.transactions, m.flags, Depth(m.transactions), 0, 0, m.hashes);
    }
  }
}
