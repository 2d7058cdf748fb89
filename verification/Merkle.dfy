/** Merkle trees over a list of transaction ids, and the partial trees of BIP 37 with a
recursive parser ("Parsing a partial merkle tree object" in BIP 37).

A node is named by its height `t` and its number `k` within that height. `Width(n, t)`
is how many nodes of height `t` a tree of `n` leaves has.
 */
module Merkle {
  import opened Primitives

  function Join(dsha: Hasher, l: Hash, r: Hash): Hash {
    dsha(l + r)
  }

  /** A missing right child is the left one again; equal children and a missing left
  child give no parent. */
  function MakeMerkleParent(dsha: Hasher, left: Option<Hash>, right: Option<Hash>): Option<Hash> {
    if left.Some? && right.Some? && left == right then None
    else if left.None? then None
    else Some(Join(dsha, left.value, if right.None? then left.value else right.value))
  }

  /** Smallest exponent of a power of two that is at least `n`. */
  function Depth(n: nat): (e: nat)
    ensures n <= Pow2(e) && (e > 0 ==> Pow2(e - 1) < n)
  {
    DepthFrom(n, 0)
  }

  function DepthFrom(n: nat, e: nat): (r: nat)
    requires e > 0 ==> Pow2(e - 1) < n
    ensures e <= r && n <= Pow2(r) && (r > 0 ==> Pow2(r - 1) < n)
    decreases n - e
  {
    if n <= Pow2(e) then e else DepthFrom(n, e + 1)
  }

  lemma DepthIs(n: nat, e: nat)
    requires n <= Pow2(e) && (e > 0 ==> Pow2(e - 1) < n)
    ensures Depth(n) == e
  {
    if Depth(n) < e {
      Pow2Monotonic(Depth(n), e - 1);
    } else if e < Depth(n) {
      Pow2Monotonic(e, Depth(n) - 1);
    }
  }

  function Width(n: nat, t: nat): nat {
    if t == 0 then n else (Width(n, t - 1) + 1) / 2
  }

  /** A node exists exactly if its subtree covers a real leaf. */
  lemma {:induction false} WidthCoversLeaf(n: nat, t: nat, k: nat)
    ensures k < Width(n, t) <==> k * Pow2(t) < n
    decreases t
  {
    if t > 0 {
      WidthCoversLeaf(n, t - 1, 2 * k);
      assert (2 * k) * Pow2(t - 1) == k * Pow2(t) by {
        var p := Pow2(t - 1);
        assert Pow2(t) == 2 * p;
        assert (2 * k) * p == k * (2 * p);
      }
    }
  }

  lemma {:induction false} WidthBound(n: nat, d: nat, t: nat)
    requires t <= d && n <= Pow2(d)
    ensures Width(n, t) <= Pow2(d - t) && (n > 0 ==> Width(n, t) > 0)
    decreases t
  {
    if t > 0 {
      WidthBound(n, d, t - 1);
      assert Pow2(d - (t - 1)) == 2 * Pow2(d - t);
    }
  }

  lemma RootWidth(n: nat)
    requires n > 0
    ensures Width(n, Depth(n)) == 1
  {
    WidthBound(n, Depth(n), Depth(n));
  }

  /* --- complete trees ------------------------------------------------------------------- */

  /** A subtree over transaction ids, each marked wanted or not; the last node of a row may
  have one child only. */
  datatype Tree = Leaf(txid: Hash, mark: bool) | One(left: Tree) | Two(left: Tree, right: Tree)

  function Subtree(txs: seq<Hash>, marks: seq<bool>, t: nat, k: nat): Tree
    requires |marks| == |txs| && k < Width(|txs|, t)
    decreases t
  {
    if t == 0 then Leaf(txs[k], marks[k])
    else
      var l := Subtree(txs, marks, t - 1, 2 * k);
      if 2 * k + 1 < Width(|txs|, t - 1) then Two(l, Subtree(txs, marks, t - 1, 2 * k + 1)) else One(l)
  }

  /** None of `n` txids is wanted. */
  function NoMarks(n: nat): (marks: seq<bool>)
    ensures |marks| == n
  {
    seq(n, _ => false)
  }

  function BlockTree(txs: seq<Hash>, marks: seq<bool>): Tree
    requires txs != [] && |marks| == |txs|
  {
    RootWidth(|txs|);
    Subtree(txs, marks, Depth(|txs|), 0)
  }

  /** The hash of the left child's bytes followed by the right child's; an only child is paired
  with itself. */
  function TreeHash(dsha: Hasher, tree: Tree): Hash {
    match tree
    case Leaf(txid, _) => txid
    case One(l) => dsha(TreeHash(dsha, l) + TreeHash(dsha, l))
    case Two(l, r) => dsha(TreeHash(dsha, l) + TreeHash(dsha, r))
  }

  /** No two siblings are equal. */
  predicate NoTwins(dsha: Hasher, tree: Tree) {
    match tree
    case Leaf(_, _) => true
    case One(l) => NoTwins(dsha, l)
    case Two(l, r) => NoTwins(dsha, l) && NoTwins(dsha, r) && TreeHash(dsha, l) != TreeHash(dsha, r)
  }

  predicate Wanted(tree: Tree) {
    match tree
    case Leaf(_, mark) => mark
    case One(l) => Wanted(l)
    case Two(l, r) => Wanted(l) || Wanted(r)
  }

  /** The wanted txids, in block order. */
  function Picked(tree: Tree): seq<Hash> {
    match tree
    case Leaf(txid, mark) => if mark then [txid] else []
    case One(l) => Picked(l)
    case Two(l, r) => Picked(l) + Picked(r)
  }

  /** The flag bits of the partial tree, depth first ("Constructing a partial merkle tree
  object" in BIP 37). */
  function BuildBits(tree: Tree): (bits: seq<bool>)
    ensures bits != [] && bits[0] == Wanted(tree)
  {
    if tree.Leaf? || !Wanted(tree) then [Wanted(tree)]
    else if tree.One? then [true] + BuildBits(tree.left)
    else [true] + (BuildBits(tree.left) + BuildBits(tree.right))
  }

  /** The hashes of the partial tree, depth first. */
  function BuildHashes(dsha: Hasher, tree: Tree): (hs: seq<Hash>)
    ensures hs != []
  {
    if tree.Leaf? || !Wanted(tree) then [TreeHash(dsha, tree)]
    else if tree.One? then BuildHashes(dsha, tree.left)
    else BuildHashes(dsha, tree.left) + BuildHashes(dsha, tree.right)
  }

  lemma {:induction false} UnwantedPicksNothing(tree: Tree)
    requires !Wanted(tree)
    ensures Picked(tree) == []
  {
    match tree
    case Leaf(_, _) =>
    case One(l) => UnwantedPicksNothing(l);
    case Two(l, r) => UnwantedPicksNothing(l); UnwantedPicksNothing(r);
  }

  /* --- partial trees --------------------------------------------------------------------- */

  /** The parse of a subtree: broken, stopped at two equal siblings, or its hash, what is
  left of the message, and the matched txids in order. */
  datatype Parsed =
    | Broken
    | Twins
    | Good(hash: Hash, bit: nat, hashes: seq<Hash>, matched: seq<Hash>)

  /** Flag bit `b`, least significant bit of each byte first. */
  function FlagBit(flags: seq<byte>, b: nat): bool
    requires b < 8 * |flags|
  {
    flags[b / 8] / Pow2(b % 8) % 2 == 1
  }

  function Parse(dsha: Hasher, n: nat, flags: seq<byte>, t: nat, k: nat, b: nat, hs: seq<Hash>): Parsed
    decreases t
  {
    if hs == [] || b >= 8 * |flags| then Broken
    else if t == 0 then Good(hs[0], b + 1, hs[1..], if FlagBit(flags, b) then [hs[0]] else [])
    else if !FlagBit(flags, b) then Good(hs[0], b + 1, hs[1..], [])
    else
      var l := Parse(dsha, n, flags, t - 1, 2 * k, b + 1, hs);
      if !l.Good? then l
      else if 2 * k + 1 >= Width(n, t - 1) then l.(hash := Join(dsha, l.hash, l.hash))
      else
        var r := Parse(dsha, n, flags, t - 1, 2 * k + 1, l.bit, l.hashes);
        Paired(dsha, l, r)
  }

  function Paired(dsha: Hasher, l: Parsed, r: Parsed): Parsed
    requires l.Good?
  {
    if !r.Good? then r
    else if l.hash == r.hash then Twins
    else r.(hash := Join(dsha, l.hash, r.hash), matched := l.matched + r.matched)
  }

  /** One step of the parse at an inner node whose flag bit says descend. */
  function Descended(dsha: Hasher, n: nat, flags: seq<byte>, t: nat, k: nat, l: Parsed): Parsed
    requires t > 0
  {
    if !l.Good? then l
    else if 2 * k + 1 >= Width(n, t - 1) then l.(hash := Join(dsha, l.hash, l.hash))
    else Paired(dsha, l, Parse(dsha, n, flags, t - 1, 2 * k + 1, l.bit, l.hashes))
  }

  lemma ParseDescends(dsha: Hasher, n: nat, flags: seq<byte>, t: nat, k: nat, b: nat, hs: seq<Hash>)
    requires t > 0 && hs != [] && b < 8 * |flags| && FlagBit(flags, b)
    ensures Parse(dsha, n, flags, t, k, b, hs)
         == Descended(dsha, n, flags, t, k, Parse(dsha, n, flags, t - 1, 2 * k, b + 1, hs))
  {
    hide FlagBit, Width;
  }

  lemma ParseStays(dsha: Hasher, n: nat, flags: seq<byte>, t: nat, k: nat, b: nat, hs: seq<Hash>)
    ensures hs == [] || b >= 8 * |flags| ==> Parse(dsha, n, flags, t, k, b, hs) == Broken
    ensures hs != [] && b < 8 * |flags| && (t == 0 || !FlagBit(flags, b)) ==>
              Parse(dsha, n, flags, t, k, b, hs)
              == Good(hs[0], b + 1, hs[1..], if FlagBit(flags, b) then [hs[0]] else [])
  {
    hide FlagBit, Width;
  }

  datatype Block = Block(transactions: nat, root: Hash, hashes: seq<Hash>, flags: seq<byte>)

  /** What a whole merkle block should yield: the matched txids, or nothing if the block
  is malformed or its root is not the header's. */
  function Extract(dsha: Hasher, m: Block): Option<seq<Hash>>
    requires !HasTwins(dsha, m)
  {
    if m.transactions == 0 || m.flags == [] then None
    else
      match Parse(dsha, m.transactions, m.flags, Depth(m.transactions), 0, 0, m.hashes)
      case Good(hash, _, _, matched) => if hash == m.root then Some(matched) else None
      case Broken => None
      case Twins => None
  }

  /** The parse meets two equal siblings (CVE-2012-2459). */
  predicate HasTwins(dsha: Hasher, m: Block) {
    m.transactions > 0 && m.flags != [] &&
    Parse(dsha, m.transactions, m.flags, Depth(m.transactions), 0, 0, m.hashes).Twins?
  }

  /* --- completeness: parsing what an honest peer builds -------------------------------------- */

  ghost predicate BitsAt(flags: seq<byte>, b: nat, bits: seq<bool>) {
    b + |bits| <= 8 * |flags| && forall i | 0 <= i < |bits| :: FlagBit(flags, b + i) == bits[i]
  }

  lemma BitsSplit(flags: seq<byte>, b: nat, x: seq<bool>, y: seq<bool>)
    requires BitsAt(flags, b, x + y)
    ensures BitsAt(flags, b, x) && BitsAt(flags, b + |x|, y)
  {
    hide FlagBit;
    forall i | 0 <= i < |x| ensures FlagBit(flags, b + i) == x[i] {
      assert (x + y)[i] == x[i];
    }
    forall i | 0 <= i < |y| ensures FlagBit(flags, b + |x| + i) == y[i] {
      assert (x + y)[|x| + i] == y[i];
      assert b + (|x| + i) == b + |x| + i;
    }
  }

  /** What parsing a built subtree gives. */
  ghost function Rebuilt(dsha: Hasher, tree: Tree, b: nat, rest: seq<Hash>): Parsed {
    Good(TreeHash(dsha, tree), b + |BuildBits(tree)|, rest, Picked(tree))
  }

  lemma ParseStops(dsha: Hasher, n: nat, flags: seq<byte>, t: nat, k: nat, b: nat, tree: Tree, rest: seq<Hash>)
    requires tree.Leaf? || !Wanted(tree)
    requires t == 0 <==> tree.Leaf?
    requires b < 8 * |flags| && FlagBit(flags, b) == Wanted(tree)
    ensures Parse(dsha, n, flags, t, k, b, BuildHashes(dsha, tree) + rest) == Rebuilt(dsha, tree, b, rest)
  {
    hide FlagBit;
    var hs := [TreeHash(dsha, tree)] + rest;
    assert hs[1..] == rest;
    if t > 0 {
      UnwantedPicksNothing(tree);
    }
  }

  lemma ParseOne(dsha: Hasher, n: nat, flags: seq<byte>, t: nat, k: nat, b: nat, tree: Tree, rest: seq<Hash>)
    requires tree.One? && Wanted(tree) && t > 0 && 2 * k + 1 >= Width(n, t - 1)
    requires b < 8 * |flags| && FlagBit(flags, b)
    requires Parse(dsha, n, flags, t - 1, 2 * k, b + 1, BuildHashes(dsha, tree.left) + rest)
          == Rebuilt(dsha, tree.left, b + 1, rest)
    ensures Parse(dsha, n, flags, t, k, b, BuildHashes(dsha, tree) + rest) == Rebuilt(dsha, tree, b, rest)
  {
    hide FlagBit, Width;
    assert |BuildBits(tree)| == 1 + |BuildBits(tree.left)|;
  }

  lemma ParseTwo(dsha: Hasher, n: nat, flags: seq<byte>, t: nat, k: nat, b: nat, tree: Tree,
                 hs: seq<Hash>, mid: seq<Hash>, rest: seq<Hash>)
    requires tree.Two? && Wanted(tree) && NoTwins(dsha, tree) && t > 0 && 2 * k + 1 < Width(n, t - 1) && hs != []
    requires b < 8 * |flags| && FlagBit(flags, b)
    requires Parse(dsha, n, flags, t - 1, 2 * k, b + 1, hs) == Rebuilt(dsha, tree.left, b + 1, mid)
    requires var b' := b + 1 + |BuildBits(tree.left)|;
             Parse(dsha, n, flags, t - 1, 2 * k + 1, b', mid) == Rebuilt(dsha, tree.right, b', rest)
    ensures Parse(dsha, n, flags, t, k, b, hs) == Rebuilt(dsha, tree, b, rest)
  {
    hide Parse, FlagBit, Width;
    ParseDescends(dsha, n, flags, t, k, b, hs);
    assert |BuildBits(tree)| == 1 + |BuildBits(tree.left)| + |BuildBits(tree.right)|;
  }

  /** Parsing a built subtree gives back its hash and its matches and consumes exactly it. */
  lemma {:induction false} ParseBuilt(dsha: Hasher, txs: seq<Hash>, marks: seq<bool>, flags: seq<byte>,
                                      t: nat, k: nat, b: nat, rest: seq<Hash>)
    requires |marks| == |txs| && k < Width(|txs|, t)
    requires NoTwins(dsha, Subtree(txs, marks, t, k))
    requires BitsAt(flags, b, BuildBits(Subtree(txs, marks, t, k)))
    ensures var tree := Subtree(txs, marks, t, k);
            Parse(dsha, |txs|, flags, t, k, b, BuildHashes(dsha, tree) + rest) == Rebuilt(dsha, tree, b, rest)
    decreases t
  {
    hide FlagBit, Parse, Rebuilt;
    var tree := Subtree(txs, marks, t, k);
    var bits := BuildBits(tree);
    assert FlagBit(flags, b + 0) == bits[0];
    if tree.Leaf? || !Wanted(tree) {
      ParseStops(dsha, |txs|, flags, t, k, b, tree, rest);
    } else if tree.One? {
      BitsSplit(flags, b, [true], BuildBits(tree.left));
      ParseBuilt(dsha, txs, marks, flags, t - 1, 2 * k, b + 1, rest);
      ParseOne(dsha, |txs|, flags, t, k, b, tree, rest);
    } else {
      var bl := BuildBits(tree.left);
      BitsSplit(flags, b, [true], bl + BuildBits(tree.right));
      BitsSplit(flags, b + 1, bl, BuildBits(tree.right));
      var mid := BuildHashes(dsha, tree.right) + rest;
      var hs := BuildHashes(dsha, tree.left) + mid;
      ParseBuilt(dsha, txs, marks, flags, t - 1, 2 * k, b + 1, mid);
      ParseBuilt(dsha, txs, marks, flags, t - 1, 2 * k + 1, b + 1 + |bl|, rest);
      ParseTwo(dsha, |txs|, flags, t, k, b, tree, hs, mid, rest);
      assert BuildHashes(dsha, tree) + rest == hs;
    }
  }

  /* --- soundness: every match has a Merkle path ------------------------------------------------ */

  /** The node of height `t` above leaf `i`. */
  function Above(i: nat, t: nat): nat {
    if t == 0 then i else Above(i, t - 1) / 2
  }

  /** The hash reached from txid `x` at leaf `i` after `t` steps up, `path` holding the
  siblings from the bottom. */
  function Climb(dsha: Hasher, n: nat, i: nat, x: Hash, path: seq<Hash>, t: nat): Hash
    requires t <= |path|
    decreases t
  {
    if t == 0 then x
    else
      var below := Climb(dsha, n, i, x, path, t - 1);
      var k := Above(i, t - 1);
      if k % 2 == 1 then dsha(path[t - 1] + below)
      else if k + 1 < Width(n, t - 1) then dsha(below + path[t - 1])
      else dsha(below + below)
  }

  lemma {:induction false} ClimbPrefix(dsha: Hasher, n: nat, i: nat, x: Hash, path: seq<Hash>, more: Hash, t: nat)
    requires t <= |path|
    ensures Climb(dsha, n, i, x, path + [more], t) == Climb(dsha, n, i, x, path, t)
    decreases t
  {
    if t > 0 {
      ClimbPrefix(dsha, n, i, x, path, more, t - 1);
    }
  }

  /** `x` is leaf `i` of a subtree (t, k) whose hash is `h`. */
  ghost predicate Proven(dsha: Hasher, n: nat, x: Hash, i: nat, path: seq<Hash>, t: nat, k: nat, h: Hash) {
    |path| == t && i < n && Above(i, t) == k && Climb(dsha, n, i, x, path, t) == h
  }

  ghost predicate Proofs(dsha: Hasher, n: nat, matched: seq<Hash>, at: seq<nat>, paths: seq<seq<Hash>>,
                         t: nat, k: nat, h: Hash) {
    && |at| == |paths| == |matched|
    && (forall j | 0 <= j < |matched| :: Proven(dsha, n, matched[j], at[j], paths[j], t, k, h))
    && (forall i, j | 0 <= i < j < |at| :: at[i] < at[j])
  }

  lemma ProvenLifts(dsha: Hasher, n: nat, x: Hash, i: nat, path: seq<Hash>, t: nat, k: nat, h: Hash, sibling: Hash)
    requires Proven(dsha, n, x, i, path, t, k, h)
    ensures k % 2 == 1 ==> Proven(dsha, n, x, i, path + [sibling], t + 1, k / 2, Join(dsha, sibling, h))
    ensures k % 2 == 0 && k + 1 < Width(n, t) ==>
              Proven(dsha, n, x, i, path + [sibling], t + 1, k / 2, Join(dsha, h, sibling))
    ensures k % 2 == 0 && k + 1 >= Width(n, t) ==>
              Proven(dsha, n, x, i, path + [sibling], t + 1, k / 2, Join(dsha, h, h))
  {
    ClimbPrefix(dsha, n, i, x, path, sibling, t);
  }

  lemma ProofsLift(dsha: Hasher, n: nat, matched: seq<Hash>, at: seq<nat>, paths: seq<seq<Hash>>,
                   t: nat, k: nat, h: Hash, sibling: Hash) returns (longer: seq<seq<Hash>>)
    requires Proofs(dsha, n, matched, at, paths, t, k, h)
    ensures k % 2 == 1 ==> Proofs(dsha, n, matched, at, longer, t + 1, k / 2, Join(dsha, sibling, h))
    ensures k % 2 == 0 && k + 1 < Width(n, t) ==>
              Proofs(dsha, n, matched, at, longer, t + 1, k / 2, Join(dsha, h, sibling))
    ensures k % 2 == 0 && k + 1 >= Width(n, t) ==>
              Proofs(dsha, n, matched, at, longer, t + 1, k / 2, Join(dsha, h, h))
  {
    longer := seq(|paths|, j requires 0 <= j < |paths| => paths[j] + [sibling]);
    forall j | 0 <= j < |matched|
      ensures k % 2 == 1 ==> Proven(dsha, n, matched[j], at[j], longer[j], t + 1, k / 2, Join(dsha, sibling, h))
      ensures k % 2 == 0 && k + 1 < Width(n, t) ==>
                Proven(dsha, n, matched[j], at[j], longer[j], t + 1, k / 2, Join(dsha, h, sibling))
      ensures k % 2 == 0 && k + 1 >= Width(n, t) ==>
                Proven(dsha, n, matched[j], at[j], longer[j], t + 1, k / 2, Join(dsha, h, h))
    {
      ProvenLifts(dsha, n, matched[j], at[j], paths[j], t, k, h, sibling);
    }
  }

  lemma {:induction false} AboveMonotone(i: nat, j: nat, t: nat)
    requires Above(i, t) < Above(j, t)
    ensures i < j
    decreases t
  {
    if t > 0 {
      AboveMonotone(i, j, t - 1);
    }
  }

  lemma ProofsConcat(dsha: Hasher, n: nat, ml: seq<Hash>, al: seq<nat>, pl: seq<seq<Hash>>,
                     mr: seq<Hash>, ar: seq<nat>, pr: seq<seq<Hash>>, t: nat, k: nat, h: Hash)
    requires Proofs(dsha, n, ml, al, pl, t, k, h) && Proofs(dsha, n, mr, ar, pr, t, k, h)
    requires forall i, j | 0 <= i < |al| && 0 <= j < |ar| :: al[i] < ar[j]
    ensures Proofs(dsha, n, ml + mr, al + ar, pl + pr, t, k, h)
  {
    hide Proven;
  }

  lemma ProofsJoin(dsha: Hasher, n: nat, ml: seq<Hash>, al: seq<nat>, pl: seq<seq<Hash>>, l: Hash,
                   mr: seq<Hash>, ar: seq<nat>, pr: seq<seq<Hash>>, r: Hash, t: nat, k: nat)
    returns (paths: seq<seq<Hash>>)
    requires 2 * k + 1 < Width(n, t)
    requires Proofs(dsha, n, ml, al, pl, t, 2 * k, l) && Proofs(dsha, n, mr, ar, pr, t, 2 * k + 1, r)
    ensures Proofs(dsha, n, ml + mr, al + ar, paths, t + 1, k, Join(dsha, l, r))
  {
    var left := ProofsLift(dsha, n, ml, al, pl, t, 2 * k, l, r);
    var right := ProofsLift(dsha, n, mr, ar, pr, t, 2 * k + 1, r, l);
    forall i, j | 0 <= i < |al| && 0 <= j < |ar| ensures al[i] < ar[j] {
      assert Proven(dsha, n, ml[i], al[i], pl[i], t, 2 * k, l);
      assert Proven(dsha, n, mr[j], ar[j], pr[j], t, 2 * k + 1, r);
      AboveMonotone(al[i], ar[j], t);
    }
    hide Proofs;
    ProofsConcat(dsha, n, ml, al, left, mr, ar, right, t + 1, k, Join(dsha, l, r));
    paths := left + right;
  }

  /** Whatever the message, each txid a good parse matches has a Merkle path to the parsed
  hash, at leaves of increasing number. */
  lemma {:induction false} ParseSound(dsha: Hasher, n: nat, flags: seq<byte>, t: nat, k: nat, b: nat, hs: seq<Hash>)
    returns (at: seq<nat>, paths: seq<seq<Hash>>)
    requires k < Width(n, t) && Parse(dsha, n, flags, t, k, b, hs).Good?
    ensures var p := Parse(dsha, n, flags, t, k, b, hs); Proofs(dsha, n, p.matched, at, paths, t, k, p.hash)
    decreases t
  {
    hide FlagBit, Parse;
    ParseStays(dsha, n, flags, t, k, b, hs);
    if t == 0 {
      at, paths := if FlagBit(flags, b) then [k] else [], if FlagBit(flags, b) then [[]] else [];
    } else if !FlagBit(flags, b) {
      at, paths := [], [];
    } else {
      hide Proofs;
      ParseDescends(dsha, n, flags, t, k, b, hs);
      var l := Parse(dsha, n, flags, t - 1, 2 * k, b + 1, hs);
      var al, pl := ParseSound(dsha, n, flags, t - 1, 2 * k, b + 1, hs);
      if 2 * k + 1 < Width(n, t - 1) {
        var r := Parse(dsha, n, flags, t - 1, 2 * k + 1, l.bit, l.hashes);
        var ar, pr := ParseSound(dsha, n, flags, t - 1, 2 * k + 1, l.bit, l.hashes);
        paths := ProofsJoin(dsha, n, l.matched, al, pl, l.hash, r.matched, ar, pr, r.hash, t - 1, k);
        at := al + ar;
      } else {
        paths := ProofsLift(dsha, n, l.matched, al, pl, t - 1, 2 * k, l.hash, l.hash);
        at := al;
      }
    }
  }
}
