/** The elkrem hash tree: a sender derives 2^48 - 1 secrets from one root, a
receiver keeps a logarithmic stack of nodes and can still produce every secret
it was given.

Nodes are numbered in post-order. A node of height `h` at index `i` is the last
of its subtree, which covers the `Size(h)` consecutive indexes ending at `i`.
 */
module ElkremSpec {
  import opened Primitives

  const MAX_INDEX: nat := 281474976710654
  const MAX_HEIGHT: nat := 47

  datatype Node = Node(h: nat, i: nat, sha: Hash)

  function LeftSha(dsha: Hasher, sha: Hash): Hash {
    dsha(sha)
  }

  function RightSha(dsha: Hasher, sha: Hash): Hash {
    dsha(sha + [1])
  }

  /** Number of nodes of a full subtree of height `h`. */
  function Size(h: nat): (r: nat)
    ensures r >= 1
  {
    2 * Pow2(h) - 1
  }

  /** The value of node `w` of the subtree with root `sha` at index `i`, height `h`. */
  function SubtreeAt(dsha: Hasher, w: nat, i: nat, h: nat, sha: Hash): Hash
    requires w <= i < w + Size(h)
    decreases h, sha
  {
    if w == i then sha
    else if w <= i - Pow2(h) then SubtreeAt(dsha, w, i - Pow2(h), h - 1, LeftSha(dsha, sha))
    else SubtreeAt(dsha, w, i - 1, h - 1, RightSha(dsha, sha))
  }

  /** uint64 subtraction of `1 << h`, wrapping around below zero. */
  function SubShift64(i: nat, h: nat): (r: int)
    requires i < TWO64
    ensures h < 64 && Pow2(h) <= i ==> r == i - Pow2(h)
  {
    var shift := if h < 64 then Pow2(h) else 0;
    (i - shift) % TWO64
  }

  lemma ShiftFits(i: nat, h: nat)
    requires i < TWO64 && Size(h) <= i + 1
    ensures h < 64 && Pow2(h) <= i + 1
    ensures 0 < i ==> Pow2(h) <= i
  {
    if h >= 64 {
      Pow2Monotonic(64, h);
      Pow2Values();
    }
  }

  /** The receiver's insertion of one hash; None when it does not fit. */
  function AddNext(dsha: Hasher, s: seq<Node>, sha: Hash): Option<seq<Node>> {
    var t := |s| - 1;
    var i := if t >= 0 then s[t].i + 1 else 0;
    if t > 0 && s[t - 1].h == s[t].h then
      if s[t - 1].sha == LeftSha(dsha, sha) && s[t].sha == RightSha(dsha, sha)
      then Some(s[..t - 1] + [Node(s[t].h + 1, i, sha)])
      else None
    else
      Some(s + [Node(0, i, sha)])
  }

  /** The stack after a list of hashes, each of which was accepted. */
  function Feed(dsha: Hasher, list: seq<Hash>): Option<seq<Node>> {
    if list == [] then Some([])
    else
      var before := Feed(dsha, list[..|list| - 1]);
      if before.None? then None else AddNext(dsha, before.value, list[|list| - 1])
  }

  /** First index covered by node `k` of the stack. */
  function Start(s: seq<Node>, k: nat): nat
    requires k <= |s|
  {
    if k == 0 then 0 else s[k - 1].i + 1
  }

  /** Each node's subtree starts where the one before it ends, the first at index 0. */
  ghost predicate Adjacent(s: seq<Node>) {
    && (s != [] ==> s[0].i + 1 == Size(s[0].h))
    && (forall j, k | 0 <= j && k == j + 1 && k < |s| :: s[k].i == s[j].i + Size(s[k].h))
  }

  /** Indexes rise and heights fall along the stack; only the last two heights may tie. */
  ghost predicate Falling(s: seq<Node>) {
    && (forall j, k | 0 <= j < k < |s| :: s[j].i < s[k].i && s[j].h >= s[k].h)
    && (forall j, k | 0 <= j < k < |s| - 1 :: s[j].h > s[k].h)
  }

  ghost predicate Geometry(s: seq<Node>) {
    Adjacent(s) && Falling(s)
  }

  ghost predicate NodeHolds(dsha: Hasher, n: Node, list: seq<Hash>) {
    forall w: nat | w <= n.i < w + Size(n.h) && w < |list| :: SubtreeAt(dsha, w, n.i, n.h, n.sha) == list[w]
  }

  /** The stack stands for the plain list of hashes received so far. */
  ghost predicate Represents(dsha: Hasher, s: seq<Node>, list: seq<Hash>) {
    && Geometry(s)
    && |list| == Start(s, |s|)
    && (forall k | 0 <= k < |s| :: NodeHolds(dsha, s[k], list))
  }

  lemma NodeHoldsExtends(dsha: Hasher, n: Node, list: seq<Hash>, sha: Hash)
    requires NodeHolds(dsha, n, list) && n.i < |list|
    ensures NodeHolds(dsha, n, list + [sha])
  {
  }

  /** Two equal-height nodes and a hash whose children they are make the parent. */
  lemma MergeHolds(dsha: Hasher, l: Node, r: Node, list: seq<Hash>, sha: Hash)
    requires NodeHolds(dsha, l, list) && NodeHolds(dsha, r, list)
    requires l.h == r.h && r.i == l.i + Size(r.h) && |list| == r.i + 1
    requires l.sha == LeftSha(dsha, sha) && r.sha == RightSha(dsha, sha)
    ensures NodeHolds(dsha, Node(r.h + 1, r.i + 1, sha), list + [sha])
  {
    var n := Node(r.h + 1, r.i + 1, sha);
    assert n.i - Pow2(n.h) == l.i;
    forall w: nat | w <= n.i < w + Size(n.h)
      ensures SubtreeAt(dsha, w, n.i, n.h, sha) == (list + [sha])[w]
    {
      if w < n.i {
        if w <= l.i {
          assert SubtreeAt(dsha, w, n.i, n.h, sha) == SubtreeAt(dsha, w, l.i, l.h, l.sha);
        } else {
          assert SubtreeAt(dsha, w, n.i, n.h, sha) == SubtreeAt(dsha, w, r.i, r.h, r.sha);
        }
      }
    }
  }

  /** Every accepted hash extends the represented list by itself and nothing else. */
  lemma AddNextRefinesAppend(dsha: Hasher, s: seq<Node>, list: seq<Hash>, sha: Hash)
    requires Represents(dsha, s, list)
    requires AddNext(dsha, s, sha).Some?
    ensures Represents(dsha, AddNext(dsha, s, sha).value, list + [sha])
  {
    var s' := AddNext(dsha, s, sha).value;
    AddNextGeometry(dsha, s, sha);
    forall k | 0 <= k < |s'| ensures NodeHolds(dsha, s'[k], list + [sha]) {
      AddNextHolds(dsha, s, list, sha, k);
    }
  }

  lemma PushFalling(s: seq<Node>, n: Node)
    requires Falling(s)
    requires |s| >= 2 ==> s[|s| - 2].h > s[|s| - 1].h
    requires s != [] ==> s[|s| - 1].i < n.i && n.h <= s[|s| - 1].h
    ensures Falling(s + [n])
  {
    var s' := s + [n];
    var e := |s| - 1;
    forall j | 0 <= j < |s| ensures s[j].i < n.i && s[j].h >= n.h {
      assert j < e ==> s[j].i < s[e].i && s[j].h >= s[e].h;
    }
    forall j, k | 0 <= j < k < |s| ensures s[j].h > s[k].h {
      assert k == e && j < e - 1 ==> s[j].h > s[e - 1].h;
    }
  }

  lemma AddNextGeometry(dsha: Hasher, s: seq<Node>, sha: Hash)
    requires Geometry(s)
    requires AddNext(dsha, s, sha).Some?
    ensures Geometry(AddNext(dsha, s, sha).value)
    ensures Start(AddNext(dsha, s, sha).value, |AddNext(dsha, s, sha).value|) == Start(s, |s|) + 1
  {
    hide Adjacent, Size;
    AddNextAdjacent(dsha, s, sha);
    var t := |s| - 1;
    if t > 0 && s[t - 1].h == s[t].h {
      PushFalling(s[..t - 1], Node(s[t].h + 1, s[t].i + 1, sha));
    } else {
      PushFalling(s, Node(0, Start(s, |s|), sha));
    }
  }

  lemma SizeStep(h: nat)
    ensures Size(h + 1) == 2 * Size(h) + 1 && Size(0) == 1
  {
  }

  lemma AddNextAdjacent(dsha: Hasher, s: seq<Node>, sha: Hash)
    requires Adjacent(s)
    requires AddNext(dsha, s, sha).Some?
    ensures Adjacent(AddNext(dsha, s, sha).value)
  {
    hide LeftSha, RightSha, Size;
    var t := |s| - 1;
    SizeStep(0);
    if t > 0 && s[t - 1].h == s[t].h {
      SizeStep(s[t].h);
      assert s[t].i == s[t - 1].i + Size(s[t].h);
      if t > 1 {
        assert s[t - 1].i == s[t - 2].i + Size(s[t - 1].h);
      }
    }
  }

  lemma AddNextHolds(dsha: Hasher, s: seq<Node>, list: seq<Hash>, sha: Hash, k: nat)
    requires Represents(dsha, s, list)
    requires AddNext(dsha, s, sha).Some? && k < |AddNext(dsha, s, sha).value|
    ensures NodeHolds(dsha, AddNext(dsha, s, sha).value[k], list + [sha])
  {
    var s' := AddNext(dsha, s, sha).value;
    var t := |s| - 1;
    if k < |s'| - 1 {
      NodeHoldsExtends(dsha, s[k], list, sha);
    } else if t > 0 && s[t - 1].h == s[t].h {
      MergeHolds(dsha, s[t - 1], s[t], list, sha);
    }
  }

  /** Whatever the peer sends, honest or not: the stack is the list it accepted. */
  lemma {:induction false} FeedRepresents(dsha: Hasher, list: seq<Hash>)
    requires Feed(dsha, list).Some?
    ensures Represents(dsha, Feed(dsha, list).value, list)
  {
    if list != [] {
      var n := |list| - 1;
      FeedRepresents(dsha, list[..n]);
      AddNextRefinesAppend(dsha, Feed(dsha, list[..n]).value, list[..n], list[n]);
      assert list[..n] + [list[n]] == list;
    }
  }

  /** The w'th hash according to the stack: the first node at or above `w`, descended. */
  function AtIndex(dsha: Hasher, s: seq<Node>, w: nat): Option<Hash> {
    if s == [] then None
    else if w <= s[0].i then
      if s[0].i < w + Size(s[0].h) then Some(SubtreeAt(dsha, w, s[0].i, s[0].h, s[0].sha)) else None
    else AtIndex(dsha, s[1..], w)
  }

  lemma {:induction false} AtIndexFrom(dsha: Hasher, s: seq<Node>, list: seq<Hash>, w: nat, k: nat)
    requires Geometry(s) && |list| == Start(s, |s|)
    requires forall j | k <= j < |s| :: NodeHolds(dsha, s[j], list)
    requires k <= |s| && Start(s, k) <= w
    ensures AtIndex(dsha, s[k..], w) == if w < |list| then Some(list[w]) else None
    decreases |s| - k
  {
    if k < |s| {
      if w > s[k].i {
        AtIndexFrom(dsha, s, list, w, k + 1);
        assert s[k..][1..] == s[k + 1..];
      } else {
        assert NodeHolds(dsha, s[k], list);
      }
    }
  }

  /** Reading back: exactly the received hashes, at exactly their positions. */
  lemma AtIndexIsListLookup(dsha: Hasher, s: seq<Node>, list: seq<Hash>, w: nat)
    requires Represents(dsha, s, list)
    ensures AtIndex(dsha, s, w) == if w < |list| then Some(list[w]) else None
  {
    AtIndexFrom(dsha, s, list, w, 0);
    assert s[0..] == s;
  }

  /** The stack of a receiver that was fed the first `c` values of the tree whose
  root is `sha`, of height `h`, with first index `base`. */
  function HonestStack(dsha: Hasher, c: nat, base: nat, h: nat, sha: Hash): seq<Node>
    requires c <= Size(h)
    decreases h, sha
  {
    if c == 0 then []
    else if c == Size(h) then [Node(h, base + c - 1, sha)]
    else if c <= Size(h - 1) then HonestStack(dsha, c, base, h - 1, LeftSha(dsha, sha))
    else
      [Node(h - 1, base + Size(h - 1) - 1, LeftSha(dsha, sha))]
      + HonestStack(dsha, c - Size(h - 1), base + Size(h - 1), h - 1, RightSha(dsha, sha))
  }

  lemma {:induction false} HonestStackShape(dsha: Hasher, c: nat, base: nat, h: nat, sha: Hash)
    requires 0 < c <= Size(h)
    ensures HonestStack(dsha, c, base, h, sha) != []
    ensures var s := HonestStack(dsha, c, base, h, sha); s[|s| - 1].i == base + c - 1
    ensures c < Size(h) ==> HonestStack(dsha, c, base, h, sha)[0].h < h
    decreases h
  {
    if c < Size(h) {
      if c <= Size(h - 1) {
        HonestStackShape(dsha, c, base, h - 1, LeftSha(dsha, sha));
      } else {
        HonestStackShape(dsha, c - Size(h - 1), base + Size(h - 1), h - 1, RightSha(dsha, sha));
      }
    }
  }

  /** The first value of a subtree is its leftmost leaf. */
  lemma {:induction false} HonestFirst(dsha: Hasher, base: nat, h: nat, sha: Hash)
    ensures HonestStack(dsha, 1, base, h, sha)
         == [Node(0, base, SubtreeAt(dsha, base, base + Size(h) - 1, h, sha))]
  {
    if h != 0 {
      HonestFirst(dsha, base, h - 1, LeftSha(dsha, sha));
    }
  }

  /** A stack below an untouched taller node behaves as if it were alone. */
  lemma AddNextBelow(dsha: Hasher, top: Node, s: seq<Node>, sha: Hash)
    requires s != [] && (|s| == 1 ==> s[0].h != top.h)
    requires AddNext(dsha, s, sha).Some?
    ensures AddNext(dsha, [top] + s, sha) == Some([top] + AddNext(dsha, s, sha).value)
  {
    var t := |s| - 1;
    assert forall k | 0 <= k < |s| :: ([top] + s)[k + 1] == s[k];
    if t > 0 && s[t - 1].h == s[t].h {
      var n := [Node(s[t].h + 1, s[t].i + 1, sha)];
      assert ([top] + s)[..t] + n == [top] + (s[..t - 1] + n);
    } else {
      var n := [Node(0, s[t].i + 1, sha)];
      assert ([top] + s) + n == [top] + (s + n);
    }
  }

  /** Feeding value number `c` of the subtree moves its stack on by one. */
  ghost predicate Accepts(dsha: Hasher, c: nat, base: nat, h: nat, sha: Hash)
    requires c < Size(h)
  {
    AddNext(dsha, HonestStack(dsha, c, base, h, sha), SubtreeAt(dsha, base + c, base + Size(h) - 1, h, sha))
    == Some(HonestStack(dsha, c + 1, base, h, sha))
  }

  /** An honest receiver accepts the next value. */
  lemma {:induction false} HonestStep(dsha: Hasher, c: nat, base: nat, h: nat, sha: Hash)
    requires c < Size(h) && (c == 0 ==> base == 0)
    ensures Accepts(dsha, c, base, h, sha)
    decreases h
  {
    hide Accepts;
    assert h > 0 ==> Size(h) == 2 * Size(h - 1) + 1;
    if h == 0 {
      HonestLeaf(dsha, sha);
    } else {
      var m := Size(h - 1);
      if c < m {
        HonestStep(dsha, c, base, h - 1, LeftSha(dsha, sha));
        HonestLeft(dsha, c, base, h, sha);
      } else if c == m {
        HonestCross(dsha, base, h, sha);
      } else if c < 2 * m {
        HonestStep(dsha, c - m, base + m, h - 1, RightSha(dsha, sha));
        HonestRight(dsha, c, base, h, sha);
      } else {
        HonestTop(dsha, base, h, sha);
      }
    }
  }

  lemma SubtreeSplit(dsha: Hasher, c: nat, base: nat, h: nat, sha: Hash)
    requires h > 0 && c <= 2 * Size(h - 1)
    ensures Size(h) == 2 * Size(h - 1) + 1
    ensures var m := Size(h - 1);
            SubtreeAt(dsha, base + c, base + Size(h) - 1, h, sha) ==
            if c < m then SubtreeAt(dsha, base + c, base + m - 1, h - 1, LeftSha(dsha, sha))
            else if c < 2 * m then SubtreeAt(dsha, base + c, base + m + m - 1, h - 1, RightSha(dsha, sha))
            else sha
  {
    var m := Size(h - 1);
    assert base + Size(h) - 1 - Pow2(h) == base + m - 1;
  }

  lemma HonestLeaf(dsha: Hasher, sha: Hash)
    ensures Size(0) == 1 && Accepts(dsha, 0, 0, 0, sha)
  {
    assert Size(0) == 1;
    var none: seq<Node> := [];
    assert HonestStack(dsha, 1, 0, 0, sha) == none + [Node(0, 0, sha)];
  }

  lemma HonestLeft(dsha: Hasher, c: nat, base: nat, h: nat, sha: Hash)
    requires h > 0 && c < Size(h - 1) && Accepts(dsha, c, base, h - 1, LeftSha(dsha, sha))
    ensures Accepts(dsha, c, base, h, sha)
  {
    SubtreeSplit(dsha, c, base, h, sha);
  }

  lemma HonestCross(dsha: Hasher, base: nat, h: nat, sha: Hash)
    requires h > 0
    ensures Accepts(dsha, Size(h - 1), base, h, sha)
  {
    SubtreeSplit(dsha, Size(h - 1), base, h, sha);
    HonestFirst(dsha, base + Size(h - 1), h - 1, RightSha(dsha, sha));
  }

  lemma HonestRight(dsha: Hasher, c: nat, base: nat, h: nat, sha: Hash)
    requires h > 0 && Size(h - 1) < c < 2 * Size(h - 1)
    requires Accepts(dsha, c - Size(h - 1), base + Size(h - 1), h - 1, RightSha(dsha, sha))
    ensures Accepts(dsha, c, base, h, sha)
  {
    hide AddNext, SubtreeAt, RightSha, LeftSha;
    var m := Size(h - 1);
    var r := RightSha(dsha, sha);
    SubtreeSplit(dsha, c, base, h, sha);
    HonestStackShape(dsha, c - m, base + m, h - 1, r);
    AddNextBelow(dsha, Node(h - 1, base + m - 1, LeftSha(dsha, sha)),
                 HonestStack(dsha, c - m, base + m, h - 1, r),
                 SubtreeAt(dsha, base + c, base + m + m - 1, h - 1, r));
  }

  lemma HonestTop(dsha: Hasher, base: nat, h: nat, sha: Hash)
    requires h > 0
    ensures Accepts(dsha, 2 * Size(h - 1), base, h, sha)
  {
    var m := Size(h - 1);
    SubtreeSplit(dsha, 2 * m, base, h, sha);
    var l, r := LeftSha(dsha, sha), RightSha(dsha, sha);
    assert HonestStack(dsha, m, base, h - 1, l) == [Node(h - 1, base + m - 1, l)];
    assert HonestStack(dsha, m, base + m, h - 1, r) == [Node(h - 1, base + m + m - 1, r)];
    var s := HonestStack(dsha, 2 * m, base, h, sha);
    assert s == [Node(h - 1, base + m - 1, l), Node(h - 1, base + m + m - 1, r)];
    assert s[..0] + [Node(h, base + m + m, sha)] == HonestStack(dsha, Size(h), base, h, sha);
  }

  /** The secret the sender derives for index `w`. */
  function SecretAt(dsha: Hasher, root: Hash, w: nat): Hash
    requires w <= MAX_INDEX
  {
    assert Size(MAX_HEIGHT) == MAX_INDEX + 1 by { Pow2Values(); }
    SubtreeAt(dsha, w, MAX_INDEX, MAX_HEIGHT, root)
  }

  function Secrets(dsha: Hasher, root: Hash, c: nat): (list: seq<Hash>)
    requires c <= MAX_INDEX + 1
  {
    seq(c, w requires 0 <= w < c => SecretAt(dsha, root, w))
  }

  /** A receiver fed the sender's outputs in order accepts every one of them. */
  lemma {:induction false} SenderFeedsReceiver(dsha: Hasher, root: Hash, c: nat)
    requires c <= MAX_INDEX + 1
    ensures Size(MAX_HEIGHT) == MAX_INDEX + 1
    ensures Feed(dsha, Secrets(dsha, root, c)) == Some(HonestStack(dsha, c, 0, MAX_HEIGHT, root))
  {
    Pow2Values();
    if c > 0 {
      SenderFeedsReceiver(dsha, root, c - 1);
      HonestStep(dsha, c - 1, 0, MAX_HEIGHT, root);
      assert Secrets(dsha, root, c)[..c - 1] == Secrets(dsha, root, c - 1);
    }
  }

  lemma ShortestFits(n: nat, h: nat)
    requires 1 <= n <= h + 1
    ensures 0 < Pow2(n) - n <= Size(h)
    ensures n > 1 ==> Pow2(n) - n < Size(h)
    ensures h > 0 && n < h + 1 ==> Pow2(n) - n <= Size(h - 1)
    ensures h > 0 && n == h + 1 ==> Pow2(n) - n == Size(h - 1) + Pow2(n - 1) - (n - 1) > Size(h - 1)
  {
    Pow2Monotonic(n, h + 1);
    if h > 0 && n < h + 1 {
      Pow2Monotonic(n, h);
    }
  }

  /** The first 2^n - n values of a tree make a stack of n nodes. */
  lemma {:induction false} ShortestFor(dsha: Hasher, n: nat, base: nat, h: nat, sha: Hash)
    requires 1 <= n <= h + 1
    ensures Pow2(n) - n <= Size(h)
    ensures |HonestStack(dsha, Pow2(n) - n, base, h, sha)| == n
    decreases h
  {
    hide Size;
    ShortestFits(n, h);
    if n == 1 {
      HonestFirst(dsha, base, h, sha);
    } else if n == h + 1 {
      ShortestFits(n - 1, h - 1);
      ShortestFor(dsha, n - 1, base + Size(h - 1), h - 1, RightSha(dsha, sha));
    } else {
      ShortestFor(dsha, n, base, h - 1, LeftSha(dsha, sha));
    }
  }

  /** A stack of n nodes stands for at least 2^n - n hashes. */
  lemma StackIsLogarithmic(dsha: Hasher, s: seq<Node>, list: seq<Hash>)
    requires Represents(dsha, s, list)
    ensures Pow2(|s|) <= |list| + |s| || s == []
  {
    if s != [] {
      CoverageFrom(s, 0);
    }
  }

  lemma {:induction false} CoverageFrom(s: seq<Node>, k: nat)
    requires Geometry(s) && k < |s|
    ensures k + 2 <= |s| ==> s[k].h + k + 2 >= |s|
    ensures Pow2(|s| - k) <= s[|s| - 1].i + 1 - (s[k].i + 1 - Size(s[k].h)) + (|s| - k)
    decreases |s| - k
  {
    var m := |s| - k;
    if m >= 2 {
      CoverageFrom(s, k + 1);
      assert s[k + 1].i == s[k].i + Size(s[k + 1].h);
      assert m >= 3 ==> s[k].h > s[k + 1].h;
      Pow2Monotonic(m - 2, s[k].h);
      assert Pow2(m) == 2 * Pow2(m - 1) && Pow2(m - 1) == 2 * Pow2(m - 2);
    }
  }

  /** Inside the tree the receiver holds at most 48 nodes of height at most 47, and
  below 2^25 - 25 hashes at most 24. */
  lemma StorageBound(dsha: Hasher, s: seq<Node>, list: seq<Hash>)
    requires Represents(dsha, s, list)
    requires |list| <= MAX_INDEX + 1
    ensures |s| <= MAX_HEIGHT + 1
    ensures |list| < 0x200_0000 - 25 ==> |s| <= 24
    ensures forall k | 0 <= k < |s| :: s[k].h <= MAX_HEIGHT && s[k].i <= MAX_INDEX
  {
    Pow2Values();
    StackIsLogarithmic(dsha, s, list);
    if |s| >= 49 {
      Pow2Gap(49, |s|);
    }
    if |s| >= 25 {
      Pow2Gap(25, |s|);
    }
    forall k | 0 <= k < |s| ensures s[k].h <= MAX_HEIGHT && s[k].i <= MAX_INDEX {
      assert k < |s| - 1 ==> s[k].i < s[|s| - 1].i;
      assert Size(s[k].h) <= s[k].i + 1 by { SizeBelowIndex(s, k); }
      if s[k].h > MAX_HEIGHT {
        Pow2Monotonic(48, s[k].h);
      }
    }
  }

  lemma {:induction false} SizeBelowIndex(s: seq<Node>, k: nat)
    requires Adjacent(s) && k < |s|
    ensures Size(s[k].h) <= s[k].i + 1
  {
    if k > 0 {
      assert s[k].i == s[k - 1].i + Size(s[k].h);
    }
  }

  lemma {:induction false} Pow2Gap(a: nat, b: nat)
    requires a <= b
    ensures Pow2(a) - a <= Pow2(b) - b
    decreases b
  {
    if a < b {
      Pow2Gap(a, b - 1);
    }
  }
}
