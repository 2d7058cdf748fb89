/** What the secrets of the elkrem tree hash, with the byte strings written out: every node
determines its two children, and equal secrets of one height betray a hash collision.
 */
module ElkremPaths {
  import opened Primitives
  import opened ElkremSpec

  /** The height of node `w` of the subtree whose root is at index `i`, height `h`. Its own
  subtree lies within. */
  function HeightOf(w: nat, i: nat, h: nat): (g: nat)
    requires w <= i < w + Size(h)
    ensures g <= h && w + Size(h) >= i + Size(g)
    decreases h
  {
    if w == i then h
    else if w <= i - Pow2(h) then HeightOf(w, i - Pow2(h), h - 1)
    else HeightOf(w, i - 1, h - 1)
  }

  /** What is hashed first on the way down, and the index reached. */
  function FirstHashed(w: nat, i: nat, h: nat, sha: Hash): seq<byte> {
    if w <= i - Pow2(h) then sha else sha + [1]
  }

  function FirstIndex(w: nat, i: nat, h: nat): int {
    if w <= i - Pow2(h) then i - Pow2(h) else i - 1
  }

  /** One step down, for any node below the root. */
  lemma Down(dsha: Hasher, w: nat, i: nat, h: nat, sha: Hash)
    requires w < i < w + Size(h)
    ensures h > 0 && w <= FirstIndex(w, i, h) < w + Size(h - 1)
    ensures var (j, bs) := (FirstIndex(w, i, h), FirstHashed(w, i, h, sha));
            && SubtreeAt(dsha, w, i, h, sha) == SubtreeAt(dsha, w, j, h - 1, dsha(bs))
            && HeightOf(w, i, h) == HeightOf(w, j, h - 1)
  {
  }

  lemma SizeIs(h: nat)
    ensures Size(h) == 2 * Pow2(h) - 1 && (h > 0 ==> Size(h) == 2 * Size(h - 1) + 1 && Pow2(h) >= 2)
  {
  }

  /** A node's subtree lies on one side of the tree it is in. */
  lemma SameSide(dsha: Hasher, w: nat, i: nat, h: nat, sha: Hash)
    requires w < i < w + Size(h) && HeightOf(w, i, h) > 0 && i + 1 >= Size(h)
    ensures var g := HeightOf(w, i, h);
            && Pow2(g) >= 2 && w - Pow2(g) >= 0 && i < w - Pow2(g) + Size(h)
            && FirstIndex(w - Pow2(g), i, h) == FirstIndex(w, i, h) == FirstIndex(w - 1, i, h)
            && FirstHashed(w - Pow2(g), i, h, sha) == FirstHashed(w, i, h, sha) == FirstHashed(w - 1, i, h, sha)
            && h > 0 && FirstIndex(w, i, h) + 1 >= Size(h - 1)
  {
    var g := HeightOf(w, i, h);
    Down(dsha, w, i, h, sha);
    hide HeightOf, Size;
    SizeIs(g);
    SizeIs(h);
    SizeIs(h - 1);
    assert w + Size(h - 1) >= FirstIndex(w, i, h) + Size(g);
    assert w + Size(h) >= i + Size(g);
  }

  lemma RootChildren(dsha: Hasher, i: nat, h: nat, sha: Hash)
    requires h > 0 && i + 1 >= Size(h)
    ensures 0 <= i - Pow2(h) && i < i - Pow2(h) + Size(h) && SubtreeAt(dsha, i, i, h, sha) == sha
    ensures SubtreeAt(dsha, i - Pow2(h), i, h, sha) == dsha(sha)
    ensures SubtreeAt(dsha, i - 1, i, h, sha) == dsha(sha + [1])
  {
    SizeIs(h);
  }

  /** The children of a node of height `g` above the leaves: `2^g` before it the hash of its
  value, just before it the hash of its value and a byte 1. */
  lemma {:induction false} ChildrenOf(dsha: Hasher, w: nat, i: nat, h: nat, sha: Hash)
    requires w <= i < w + Size(h) && HeightOf(w, i, h) > 0 && i + 1 >= Size(h)
    ensures var (g, v) := (HeightOf(w, i, h), SubtreeAt(dsha, w, i, h, sha));
            && i < w - Pow2(g) + Size(h) && 0 <= w - Pow2(g)
            && SubtreeAt(dsha, w - Pow2(g), i, h, sha) == dsha(v)
            && SubtreeAt(dsha, w - 1, i, h, sha) == dsha(v + [1])
    decreases h
  {
    hide SubtreeAt, HeightOf, Size, FirstIndex, FirstHashed;
    HeightBelow(w, i, h);
    if w == i {
      RootChildren(dsha, i, h, sha);
    } else {
      SameSide(dsha, w, i, h, sha);
      Down(dsha, w, i, h, sha);
      var g, j, bs := HeightOf(w, i, h), FirstIndex(w, i, h), FirstHashed(w, i, h, sha);
      Down(dsha, w - Pow2(g), i, h, sha);
      Down(dsha, w - 1, i, h, sha);
      ChildrenOf(dsha, w, j, h - 1, dsha(bs));
    }
  }

  /** The height of the sender's secret number `w`. */
  function SecretHeight(w: nat): nat
    requires w <= MAX_INDEX
  {
    assert Size(MAX_HEIGHT) == MAX_INDEX + 1 by { Pow2Values(); }
    HeightOf(w, MAX_INDEX, MAX_HEIGHT)
  }

  /** The law of the sender's tree: the last secret is the root, and every secret above the
  leaves gives the two below it. */
  lemma SecretsFollow(dsha: Hasher, root: Hash, w: nat)
    requires w <= MAX_INDEX
    ensures SecretAt(dsha, root, MAX_INDEX) == root
    ensures var g := SecretHeight(w);
            g > 0 ==> && 0 < Pow2(g) <= w
                      && SecretAt(dsha, root, w - Pow2(g)) == dsha(SecretAt(dsha, root, w))
                      && SecretAt(dsha, root, w - 1) == dsha(SecretAt(dsha, root, w) + [1])
  {
    hide Size, HeightOf;
    WholeTree();
    if SecretHeight(w) > 0 {
      ChildrenOf(dsha, w, MAX_INDEX, MAX_HEIGHT, root);
    }
  }

  /** The tree has 2^48 - 1 nodes. */
  lemma WholeTree()
    ensures Size(MAX_HEIGHT) == MAX_INDEX + 1 == 0x1_0000_0000_0000 - 1
  {
    Pow2Values();
  }

  /** A receiver replaces two nodes by their parent only if they are its two hashes. */
  lemma MergedAreChildren(dsha: Hasher, s: seq<Node>, sha: Hash)
    requires |s| >= 2 && s[|s| - 2].h == s[|s| - 1].h
    ensures AddNext(dsha, s, sha).Some? <==> s[|s| - 2].sha == dsha(sha) && s[|s| - 1].sha == dsha(sha + [1])
  {
  }

  /* --- equal secrets ------------------------------------------------------------------------- */

  /** The byte string is hashed on the way down to node `w`. */
  ghost predicate HashedOnPath(dsha: Hasher, w: nat, i: nat, h: nat, sha: Hash, bs: seq<byte>)
    requires w <= i < w + Size(h)
    decreases h
  {
    w < i &&
    if w <= i - Pow2(h) then bs == sha || HashedOnPath(dsha, w, i - Pow2(h), h - 1, dsha(sha), bs)
    else bs == sha + [1] || HashedOnPath(dsha, w, i - 1, h - 1, dsha(sha + [1]), bs)
  }

  ghost predicate Collide(dsha: Hasher, a: seq<byte>, b: seq<byte>) {
    a != b && dsha(a) == dsha(b)
  }

  lemma StepDown(dsha: Hasher, w: nat, i: nat, h: nat, sha: Hash)
    requires w < i < w + Size(h)
    ensures h > 0 && w <= FirstIndex(w, i, h) < w + Size(h - 1)
    ensures var (j, bs) := (FirstIndex(w, i, h), FirstHashed(w, i, h, sha));
            && SubtreeAt(dsha, w, i, h, sha) == SubtreeAt(dsha, w, j, h - 1, dsha(bs))
            && HeightOf(w, i, h) == HeightOf(w, j, h - 1) && HashedOnPath(dsha, w, i, h, sha, bs)
            && forall x :: HashedOnPath(dsha, w, j, h - 1, dsha(bs), x) ==> HashedOnPath(dsha, w, i, h, sha, x)
  {
  }

  lemma FirstDiffers(w: nat, i: nat, w': nat, i': nat, h: nat, sha: Hash, sha': Hash)
    requires sha != sha'
    ensures FirstHashed(w, i, h, sha) != FirstHashed(w', i', h, sha')
  {
    assert (sha + [1])[..32] == sha && (sha' + [1])[..32] == sha';
  }

  /** Two different values that lead to equal ones of the same height below. */
  lemma {:induction false} PathsCollide(dsha: Hasher, w: nat, i: nat, w': nat, i': nat, h: nat, sha: Hash, sha': Hash)
    returns (a: seq<byte>, b: seq<byte>)
    requires w <= i < w + Size(h) && w' <= i' < w' + Size(h) && HeightOf(w, i, h) == HeightOf(w', i', h)
    requires sha != sha' && SubtreeAt(dsha, w, i, h, sha) == SubtreeAt(dsha, w', i', h, sha')
    ensures Collide(dsha, a, b)
    ensures HashedOnPath(dsha, w, i, h, sha, a) && HashedOnPath(dsha, w', i', h, sha', b)
    decreases h
  {
    hide SubtreeAt, HeightOf, HashedOnPath, Size, FirstHashed, FirstIndex;
    HeightBelow(w, i, h);
    HeightBelow(w', i', h);
    RootIsItself(dsha, i, h, sha);
    RootIsItself(dsha, i', h, sha');
    StepDown(dsha, w, i, h, sha);
    StepDown(dsha, w', i', h, sha');
    FirstDiffers(w, i, w', i', h, sha, sha');
    a, b := FirstHashed(w, i, h, sha), FirstHashed(w', i', h, sha');
    if dsha(a) != dsha(b) {
      a, b := PathsCollide(dsha, w, FirstIndex(w, i, h), w', FirstIndex(w', i', h), h - 1, dsha(a), dsha(b));
    }
  }

  lemma HeightBelow(w: nat, i: nat, h: nat)
    requires w <= i < w + Size(h)
    ensures HeightOf(w, i, h) == h <==> w == i
  {
  }

  lemma RootIsItself(dsha: Hasher, i: nat, h: nat, sha: Hash)
    ensures SubtreeAt(dsha, i, i, h, sha) == sha
  {
  }

  lemma SameStep(w: nat, w': nat, i: nat, h: nat, sha: Hash)
    ensures FirstHashed(w, i, h, sha) == FirstHashed(w', i, h, sha) ==> FirstIndex(w, i, h) == FirstIndex(w', i, h)
  {
  }

  /** Two nodes of one height in one subtree with the same value: two different byte strings,
  one hashed on the way to each, have the same hash. */
  lemma {:induction false} EqualNodesCollide(dsha: Hasher, w: nat, w': nat, i: nat, h: nat, sha: Hash)
    returns (a: seq<byte>, b: seq<byte>)
    requires w <= i < w + Size(h) && w' <= i < w' + Size(h) && w != w' && HeightOf(w, i, h) == HeightOf(w', i, h)
    requires SubtreeAt(dsha, w, i, h, sha) == SubtreeAt(dsha, w', i, h, sha)
    ensures Collide(dsha, a, b)
    ensures HashedOnPath(dsha, w, i, h, sha, a) && HashedOnPath(dsha, w', i, h, sha, b)
    decreases h
  {
    hide SubtreeAt, HeightOf, HashedOnPath, Size, FirstHashed, FirstIndex;
    HeightBelow(w, i, h);
    HeightBelow(w', i, h);
    StepDown(dsha, w, i, h, sha);
    StepDown(dsha, w', i, h, sha);
    SameStep(w, w', i, h, sha);
    var j, j' := FirstIndex(w, i, h), FirstIndex(w', i, h);
    a, b := FirstHashed(w, i, h, sha), FirstHashed(w', i, h, sha);
    if a == b {
      a, b := EqualNodesCollide(dsha, w, w', j, h - 1, dsha(a));
    } else if dsha(a) != dsha(b) {
      a, b := PathsCollide(dsha, w, j, w', j', h - 1, dsha(a), dsha(b));
    }
  }

  /** The byte string is hashed to derive secret number `w`. */
  ghost predicate HashedFor(dsha: Hasher, root: Hash, w: nat, bs: seq<byte>)
    requires w <= MAX_INDEX
  {
    assert Size(MAX_HEIGHT) == MAX_INDEX + 1 by { Pow2Values(); }
    HashedOnPath(dsha, w, MAX_INDEX, MAX_HEIGHT, root, bs)
  }

  /** So two different secrets of one height are equal only if the hash function has a
  collision among the strings the sender hashes to derive them. */
  lemma EqualSecretsCollide(dsha: Hasher, root: Hash, w: nat, w': nat) returns (a: seq<byte>, b: seq<byte>)
    requires w <= MAX_INDEX && w' <= MAX_INDEX && w != w' && SecretHeight(w) == SecretHeight(w')
    requires SecretAt(dsha, root, w) == SecretAt(dsha, root, w')
    ensures Collide(dsha, a, b) && HashedFor(dsha, root, w, a) && HashedFor(dsha, root, w', b)
  {
    hide Size, Collide, HashedOnPath, HeightOf, SubtreeAt;
    WholeTree();
    a, b := EqualNodesCollide(dsha, w, w', MAX_INDEX, MAX_HEIGHT, root);
  }
}
