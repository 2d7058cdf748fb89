/** The root of a full block, computed with a queue: the leaves are padded with nothing to a
power of two, then the first two of the queue are joined and their parent appended until
one is left.
 */
module MerkleRoot {
  import opened Primitives
  import opened Merkle
  import opened MerklePositions

  /** Node (t, k) of the tree over the txids padded with nothing to a power of two. */
  function Padded(dsha: Hasher, txs: seq<Hash>, t: nat, k: nat): Option<Hash>
    decreases t
  {
    if t == 0 then if k < |txs| then Some(txs[k]) else None
    else MakeMerkleParent(dsha, Padded(dsha, txs, t - 1, 2 * k), Padded(dsha, txs, t - 1, 2 * k + 1))
  }

  /** Without equal siblings, the padded tree holds the hashes of the real one and nothing
  beyond it. */
  lemma {:induction false} PaddedIsTree(dsha: Hasher, txs: seq<Hash>, marks: seq<bool>, t: nat, k: nat)
    requires |marks| == |txs|
    requires k < Width(|txs|, t) ==> NoTwins(dsha, Subtree(txs, marks, t, k))
    ensures Padded(dsha, txs, t, k)
         == if k < Width(|txs|, t) then Some(TreeHash(dsha, Subtree(txs, marks, t, k))) else None
    decreases t
  {
    if t > 0 {
      PaddedIsTree(dsha, txs, marks, t - 1, 2 * k);
      PaddedIsTree(dsha, txs, marks, t - 1, 2 * k + 1);
    }
  }

  /** The queue while row `t`, of `size` nodes, is being joined: `j` pairs of it are done. */
  ghost predicate Queue(dsha: Hasher, txs: seq<Hash>, q: seq<Option<Hash>>, size: nat, t: nat, j: nat) {
    && 2 * j <= size && |q| == size - j
    && (forall i | 0 <= i < size - 2 * j :: q[i] == Padded(dsha, txs, t, 2 * j + i))
    && (forall i | size - 2 * j <= i < size - j :: q[i] == Padded(dsha, txs, t + 1, i - (size - 2 * j)))
  }

  lemma QueueStep(dsha: Hasher, txs: seq<Hash>, q: seq<Option<Hash>>, size: nat, t: nat, j: nat)
    requires Queue(dsha, txs, q, size, t, j) && 2 * j + 1 < size
    ensures Queue(dsha, txs, q[2..] + [MakeMerkleParent(dsha, q[0], q[1])], size, t, j + 1)
  {
    hide MakeMerkleParent;
    var next := q[2..] + [MakeMerkleParent(dsha, q[0], q[1])];
    assert next[|next| - 1] == Padded(dsha, txs, t + 1, j);
    hide Padded;
  }

  lemma QueueTurns(dsha: Hasher, txs: seq<Hash>, q: seq<Option<Hash>>, size: nat, t: nat)
    requires Queue(dsha, txs, q, 2 * size, t, size)
    ensures Queue(dsha, txs, q, size, t + 1, 0)
  {
    hide Padded;
  }

  lemma QueueLength(dsha: Hasher, txs: seq<Hash>, q: seq<Option<Hash>>, e: nat, t: nat, j: nat)
    requires t <= e && Queue(dsha, txs, q, Pow2(e - t), t, j) && (2 * j < Pow2(e - t) || j == 0)
    ensures |q| > 1 ==> t < e && 2 * j + 1 < Pow2(e - t) == 2 * Pow2(e - t - 1)
    ensures |q| == 1 ==> t == e && q[0] == Padded(dsha, txs, e, 0)
    ensures |q| > 0
  {
    hide Padded;
    if t == e {
      assert Pow2(e - t) == 1;
    } else {
      assert Pow2(e - t) == 2 * Pow2(e - t - 1);
    }
  }

  /** The leaves padded with nothing to a power of two. */
  method PadLeaves(dsha: Hasher, txs: seq<Hash>) returns (q: seq<Option<Hash>>)
    ensures Queue(dsha, txs, q, Pow2(Depth(|txs|)), 0, 0)
  {
    q := seq(|txs|, i requires 0 <= i < |txs| => Some(txs[i]));
    ghost var e := Depth(|txs|);
    while |q| < Pow2(Depth(|q|))
      invariant |txs| <= |q| <= Pow2(e) && Depth(|q|) == e
      invariant forall i | 0 <= i < |q| :: q[i] == Padded(dsha, txs, 0, i)
      decreases Pow2(e) - |q|
    {
      DepthIs(|q| + 1, e);
      q := q + [None];
    }
  }

  /** For a list without equal siblings the queue gives the Merkle root. */
  lemma PaddedRoot(dsha: Hasher, txs: seq<Hash>, marks: seq<bool>)
    requires txs != [] && |marks| == |txs| && NoTwins(dsha, BlockTree(txs, marks))
    ensures Padded(dsha, txs, Depth(|txs|), 0) == Some(TreeHash(dsha, BlockTree(txs, marks)))
  {
    RootWidth(|txs|);
    PaddedIsTree(dsha, txs, marks, Depth(|txs|), 0);
  }

  lemma TrueRoot(dsha: Hasher, txs: seq<Hash>)
    ensures txs != [] && NoTwins(dsha, BlockTree(txs, NoMarks(|txs|))) ==>
              Padded(dsha, txs, Depth(|txs|), 0) == Some(TreeHash(dsha, BlockTree(txs, NoMarks(|txs|))))
  {
    hide Padded, Depth, NoTwins, TreeHash, BlockTree;
    if txs != [] && NoTwins(dsha, BlockTree(txs, NoMarks(|txs|))) {
      PaddedRoot(dsha, txs, NoMarks(|txs|));
    }
  }

  /** Repeatedly joins the first two of the queue and appends the parent: the padded tree's
  root for every list, the Merkle root for a list without equal siblings. */
  method CalcRoot(dsha: Hasher, txs: seq<Hash>) returns (root: Option<Hash>)
    requires |txs| <= MAX_LEAVES
    ensures root == Padded(dsha, txs, Depth(|txs|), 0)
    ensures txs != [] && NoTwins(dsha, BlockTree(txs, NoMarks(|txs|))) ==>
              root == Some(TreeHash(dsha, BlockTree(txs, NoMarks(|txs|))))
  {
    hide BlockTree, NoMarks, NoTwins, TreeHash, Depth, Padded, MakeMerkleParent, Queue, Pow2;
    TrueRoot(dsha, txs);
    var q := PadLeaves(dsha, txs);
    ghost var e, t, j := Depth(|txs|), 0, 0;
    QueueLength(dsha, txs, q, e, t, j);
    while |q| > 1
      invariant t <= e && Queue(dsha, txs, q, Pow2(e - t), t, j) && (2 * j < Pow2(e - t) || j == 0)
      invariant |q| > 0
      decreases |q|
    {
      QueueLength(dsha, txs, q, e, t, j);
      QueueStep(dsha, txs, q, Pow2(e - t), t, j);
      q := q[2..] + [MakeMerkleParent(dsha, q[0], q[1])];
      j := j + 1;
      if 2 * j == Pow2(e - t) {
        QueueTurns(dsha, txs, q, j, t);
        t, j := t + 1, 0;
      }
    }
    root := q[0];
    QueueLength(dsha, txs, q, e, t, j);
  }
}
