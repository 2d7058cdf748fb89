/** For which blocks the check is sound, by the number of their transactions: for all of them
up to two transactions, and from three on not for all.
 */
module MerkleSound {
  import opened Primitives
  import opened Merkle
  import opened MerklePositions
  import opened MerkleBlock
  import opened MerkleCheck
  import opened MerkleTwins

  /** Every txid taken from the block has a Merkle path to its root. */
  ghost predicate Sound(dsha: Hasher, m: Block)
    requires Checked(dsha, m).Txids?
  {
    exists at, paths :: Proofs(dsha, m.transactions, Checked(dsha, m).ids, at, paths, Depth(m.transactions), 0, m.root)
  }

  /** Every accepted block with `n` transactions is sound, whatever the hash function. */
  ghost predicate AlwaysSound(n: nat) {
    forall dsha: Hasher, m: Block | m.transactions == n && Checked(dsha, m).Txids? :: Sound(dsha, m)
  }

  /* --- a hash function that shows where a txid went --------------------------------------------- */

  function Mix(l: int, r: int): byte {
    (2 * l + r + 1) % 256
  }

  /** A txid with a mark in its first byte. */
  function Txid(marked: bool, b: byte): (h: Hash)
    ensures h[0] == (if marked then 1 else 0) && h[1] == b
  {
    seq(32, i => if i == 0 then if marked then 1 else 0 else if i == 1 then b else 0)
  }

  /** Marks its result if either half of its input is marked. */
  function Toy(bs: seq<byte>): Hash {
    var (l, r) := (if |bs| > 1 then bs[1] else 0, if |bs| > 33 then bs[33] else 0);
    Txid((|bs| > 0 && bs[0] == 1) || (|bs| > 32 && bs[32] == 1), Mix(l, r))
  }

  lemma ToyJoin(l: Hash, r: Hash)
    ensures Join(Toy, l, r)[0] == if l[0] == 1 || r[0] == 1 then 1 else 0
  {
    assert (l + r)[0] == l[0] && (l + r)[32] == r[0];
  }

  /** A marked txid leads to marked hashes only. */
  lemma {:induction false} MarkClimbs(n: nat, i: nat, x: Hash, path: seq<Hash>, t: nat)
    requires t <= |path| && x[0] == 1
    ensures Climb(Toy, n, i, x, path, t)[0] == 1
    decreases t
  {
    hide Toy, Width, Above;
    if t > 0 {
      MarkClimbs(n, i, x, path, t - 1);
      var below := Climb(Toy, n, i, x, path, t - 1);
      ToyJoin(path[t - 1], below);
      ToyJoin(below, path[t - 1]);
      ToyJoin(below, below);
    }
  }

  lemma MarkedIsUnsound(m: Block, x: Hash)
    requires x[0] == 1 && m.root[0] == 0 && Checked(Toy, m) == Txids([x])
    ensures !Sound(Toy, m)
  {
    hide Checked, Toy, Depth;
    forall at, paths ensures !Proofs(Toy, m.transactions, [x], at, paths, Depth(m.transactions), 0, m.root) {
      if Proofs(Toy, m.transactions, [x], at, paths, Depth(m.transactions), 0, m.root) {
        assert Proven(Toy, m.transactions, [x][0], at[0], paths[0], Depth(m.transactions), 0, m.root);
        MarkClimbs(m.transactions, at[0], x, paths[0], Depth(m.transactions));
      }
    }
  }

  /** An unmarked hash other than `h`. */
  function Beside(h: Hash): (c: Hash)
    ensures c[0] == 0 && c != h
  {
    var b: byte := if h[1] == 0 then 1 else 0;
    assert Txid(false, b)[1] != h[1];
    Txid(false, b)
  }

  function ToySides(h: Hash, k: nat): (sides: seq<Hash>)
    ensures |sides| == k
    decreases k
  {
    if k == 0 then [] else [Beside(h)] + ToySides(Join(Toy, h, Beside(h)), k - 1)
  }

  lemma {:induction false} ToySidesFold(h: Hash, k: nat)
    requires h[0] == 0
    ensures Differ(Toy, h, ToySides(h, k)) && Fold(Toy, h, ToySides(h, k))[0] == 0
    decreases k
  {
    hide Toy, Beside, Join;
    if k > 0 {
      var c := Beside(h);
      ToyJoin(h, c);
      ToySidesFold(Join(Toy, h, c), k - 1);
      var sides := ToySides(h, k);
      assert sides[0] == c && sides[1..] == ToySides(Join(Toy, h, c), k - 1);
    }
  }

  /* --- from three transactions on --------------------------------------------------------------------- */

  lemma HighUnsound(n: nat) returns (m: Block)
    requires 3 <= n <= MAX_LEAVES && Depth(n) >= 3
    ensures m.transactions == n && Checked(Toy, m).Txids? && !Sound(Toy, m)
  {
    hide Toy, Depth, Beside, Flags, Checked, HasTwins, Fold, Differ, ToySides, Sound, Join, Txid;
    var (x, a) := (Txid(true, 0), Txid(false, 0));
    var b := Beside(a);
    var h := Join(Toy, a, b);
    ToyJoin(a, b);
    var sides := ToySides(h, Depth(n) - 1);
    ToySidesFold(h, Depth(n) - 1);
    var rest := [a] + ([b] + sides);
    m := Block(n, Fold(Toy, h, sides), [x] + ([x] + rest), Flags(Depth(n) + 1));
    assert Fronts(m, true, x, rest) && Completes(Toy, m, a, b, sides, rest);
    hide Fronts, Completes;
    TwinsAccepted(Toy, m, true, x, a, b, sides, rest);
    MarkedIsUnsound(m, x);
  }

  /** The same with one hash more, where the tree has height two. */
  lemma LowAccepted(dsha: Hasher, m: Block, x: Hash, a: Hash, b: Hash, c: Hash, sides: seq<Hash>, rest: seq<Hash>)
    requires 2 <= m.transactions <= MAX_LEAVES && Depth(m.transactions) == 2 && Fronts(m, true, x, rest)
    requires Join(dsha, b, b) != c && rest == [a] + ([b] + ([c] + sides)) && |sides| == 1
    requires var h := Join(dsha, Join(dsha, b, b), c); Differ(dsha, h, sides) && m.root == Fold(dsha, h, sides)
    ensures Checked(dsha, m) == Txids([x])
  {
    hide Fronts, Flags, FlagBit, Run, Depth, Pos, FlagsAre, Edge, Full, HasTwins, Checked, Fold, Differ, Join;
    TwinsLeadTo(dsha, m, true, x, rest);
    var h := Join(dsha, Join(dsha, b, b), c);
    LowGapIsFilled(dsha, m, 3, 82, Taken(true, x), 4, a, b, c, sides);
    GoesUp(dsha, m, 3, 82, 1, h, Taken(true, x), 7, sides);
  }

  lemma LowUnsound(n: nat) returns (m: Block)
    requires 3 <= n <= MAX_LEAVES && Depth(n) == 2
    ensures m.transactions == n && Checked(Toy, m).Txids? && !Sound(Toy, m)
  {
    hide Toy, Depth, Beside, Flags, Checked, HasTwins, Fold, Differ, ToySides, Sound, Join, Txid;
    var (x, a) := (Txid(true, 0), Txid(false, 0));
    var bb := Join(Toy, a, a);
    ToyJoin(a, a);
    var c := Beside(bb);
    var h := Join(Toy, bb, c);
    ToyJoin(bb, c);
    var sides := ToySides(h, 1);
    ToySidesFold(h, 1);
    var rest := [a] + ([a] + ([c] + sides));
    m := Block(n, Fold(Toy, h, sides), [x] + ([x] + rest), Flags(Depth(n) + 1));
    assert Fronts(m, true, x, rest);
    hide Fronts;
    LowAccepted(Toy, m, x, a, a, c, sides, rest);
    MarkedIsUnsound(m, x);
  }

  /* --- up to two transactions --------------------------------------------------------------------------- */

  lemma OneHasNoTwins(dsha: Hasher, m: Block)
    requires m.transactions <= 1
    ensures !HasTwins(dsha, m)
  {
    hide FlagBit, Parse;
    if m.transactions == 1 {
      assert Pow2(0) == 1;
      DepthIs(1, 0);
      ParseStays(dsha, 1, m.flags, 0, 0, 0, m.hashes);
    }
  }

  /** The parse of two leaves meets twins only if it reads them. */
  lemma TwinsOfTwo(dsha: Hasher, m: Block)
    requires m.transactions == 2 && HasTwins(dsha, m)
    ensures Depth(2) == 1 && |m.hashes| >= 2 && m.hashes[0] == m.hashes[1]
    ensures 3 <= 8 * |m.flags| && FlagBit(m.flags, 0)
  {
    hide FlagBit, Parse, Join;
    assert Pow2(0) == 1 && Pow2(1) == 2;
    DepthIs(2, 1);
    var (flags, hs) := (m.flags, m.hashes);
    ParseStays(dsha, 2, flags, 1, 0, 0, hs);
    ParseDescends(dsha, 2, flags, 1, 0, 0, hs);
    ParseStays(dsha, 2, flags, 0, 0, 1, hs);
    ParseStays(dsha, 2, flags, 0, 1, 2, hs[1..]);
  }

  /** Two equal leaves right below the root: the check indexes below its stack. */
  lemma TwinsUnderRoot(dsha: Hasher, m: Block)
    requires m.transactions == 2 && HasTwins(dsha, m)
    ensures Checked(dsha, m) == Panicked
  {
    hide FlagBit, Parse, Run, Depth, Pos, Width, Edge, Live, Full, Taken, Start, Dead, HasTwins;
    TwinsOfTwo(dsha, m);
    var (x, rest) := (m.hashes[0], m.hashes[2..]);
    assert m.hashes == [x] + ([x] + rest);
    StartsAtRoot(m);
    LeafPairPanics(dsha, m, x, rest);
  }

  lemma PastRootOfTwo()
    requires Depth(2) == 1
    ensures Dead(2, Pos(2, 1, 0) + 1)
  {
    RootPos(2);
  }

  lemma LeafPairPanics(dsha: Hasher, m: Block, x: Hash, rest: seq<Hash>)
    requires m.transactions == 2 && Depth(2) == 1 && 3 <= 8 * |m.flags| && FlagBit(m.flags, 0)
    ensures Run(dsha, m, Machine([], [], Pos(2, 1, 0), 0, [x] + ([x] + rest))) == Panicked
  {
    hide FlagBit, Run, Depth, Pos, Width, Live, Full, Taken, Dead, Empty;
    PastRootOfTwo();
    EdgeLive(2, 0);
    EdgeLive(2, 1);
    LeafPos(2, 0);
    LeafPos(2, 1);
    var top := [] + [Empty(Pos(2, 1, 0))];
    FullHas(Pos(2, 1, 0), x);
    FullHas(0, x);
    FullHas(1, x);
    Descends(dsha, m, [], [], 1, 0, 0, [x] + ([x] + rest));
    Fills(dsha, m, top, [], 0, 0, 1, x, [x] + rest);
    var r := [] + Taken(FlagBit(m.flags, 1), x);
    Fills(dsha, m, top + [Full(0, x)], r, 0, 1, 2, x, rest);
    var r' := r + Taken(FlagBit(m.flags, 2), x);
    LivePos(2, 0, 1);
    Joins(dsha, m, [], 1, Empty(Pos(2, 1, 0)), Full(0, x), Full(1, x), r', 1, 3, rest);
    RunDead(dsha, m, Machine([] + [Empty(Pos(2, 1, 0))], r', Pos(2, 1, 0) + 1, 3, rest));
  }

  lemma UpToTwoIsSound(dsha: Hasher, m: Block)
    requires m.transactions <= 2 && Checked(dsha, m).Txids?
    ensures Sound(dsha, m)
  {
    hide Checked, HasTwins, Depth, Proofs;
    if m.transactions == 2 {
      if HasTwins(dsha, m) {
        TwinsUnderRoot(dsha, m);
      }
    } else {
      OneHasNoTwins(dsha, m);
    }
    var at, paths := AcceptedIsSound(dsha, m);
  }

  /** The check is sound for every block of `n` transactions if and only if there are at most
  two of them. */
  lemma SoundExactlyUpToTwo(n: nat)
    requires n <= MAX_LEAVES
    ensures AlwaysSound(n) <==> n <= 2
  {
    hide Checked, Sound, Toy, Depth;
    if n <= 2 {
      forall dsha: Hasher, m: Block | m.transactions == n && Checked(dsha, m).Txids? ensures Sound(dsha, m) {
        UpToTwoIsSound(dsha, m);
      }
    } else {
      assert Depth(n) >= 2 by {
        assert Pow2(1) == 2;
        DeepFrom(n, 1);
      }
      var m;
      if Depth(n) == 2 {
        m := LowUnsound(n);
      } else {
        m := HighUnsound(n);
      }
    }
  }
}
