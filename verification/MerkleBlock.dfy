/** The check of a merkle block: a loop with a stack of half-filled nodes and a position,
proved to compute what the recursive parser of module Merkle defines.
 */
module MerkleBlock {
  import opened Primitives
  import opened Merkle
  import opened MerklePositions

  datatype MerkleNode = MerkleNode(p: nat, h: Option<Hash>)

  datatype Outcome = Txids(ids: seq<Hash>) | Rejected | Panicked

  /* --- the walk the loop performs, as a recursion with its pending callers -------------------- */

  /** The callers of the recursive parse that are waiting: for the left child of (t, k), or
  for its right child with the left one parsed. */
  datatype Callers =
    | Root
    | AtLeft(t: nat, k: nat, outer: Callers)
    | AtRight(t: nat, k: nat, left: Parsed, outer: Callers)

  ghost predicate Live(n: nat, t: nat, k: nat) {
    t <= Depth(n) && k < Width(n, t)
  }

  /** The innermost caller waits for node (t, k), and so on up to the root. */
  ghost predicate CallersOk(n: nat, fs: Callers, t: nat, k: nat) {
    && Live(n, t, k)
    && match fs
       case Root => t == Depth(n) && k == 0
       case AtLeft(t', k', o) => t' == t + 1 && k == 2 * k' && CallersOk(n, o, t', k')
       case AtRight(t', k', l, o) => t' == t + 1 && k == 2 * k' + 1 && l.Good? && CallersOk(n, o, t', k')
  }

  /** The parse of the whole tree, given that of node (t, k). */
  ghost function Finish(dsha: Hasher, n: nat, flags: seq<byte>, fs: Callers, t: nat, k: nat, p: Parsed): Parsed
    requires CallersOk(n, fs, t, k)
    decreases fs
  {
    match fs
    case Root => p
    case AtLeft(t', k', o) => Finish(dsha, n, flags, o, t', k', Descended(dsha, n, flags, t', k', p))
    case AtRight(t', k', l, o) => Finish(dsha, n, flags, o, t', k', Paired(dsha, l, p))
  }

  lemma {:induction false} FinishFails(dsha: Hasher, n: nat, flags: seq<byte>, fs: Callers, t: nat, k: nat, p: Parsed)
    requires CallersOk(n, fs, t, k) && !p.Good?
    ensures Finish(dsha, n, flags, fs, t, k, p) == p
    decreases fs
  {
    match fs
    case Root =>
    case AtLeft(t', k', o) => FinishFails(dsha, n, flags, o, t', k', p);
    case AtRight(t', k', l, o) => FinishFails(dsha, n, flags, o, t', k', p);
  }

  /** The stack that stands for the waiting callers. */
  ghost function StackOf(n: nat, fs: Callers): seq<MerkleNode> {
    match fs
    case Root => []
    case AtLeft(t, k, o) => StackOf(n, o) + [MerkleNode(Pos(n, t, k), None)]
    case AtRight(t, k, l, o) =>
      StackOf(n, o) + [MerkleNode(Pos(n, t, k), None)]
      + if l.Good? && t > 0 then [MerkleNode(Pos(n, t - 1, 2 * k), Some(l.hash))] else []
  }

  /** The txids matched by the left children already parsed. */
  ghost function Gathered(fs: Callers): seq<Hash> {
    match fs
    case Root => []
    case AtLeft(t, k, o) => Gathered(o)
    case AtRight(t, k, l, o) => Gathered(o) + if l.Good? then l.matched else []
  }

  datatype Walk = Walk(fs: Callers, t: nat, k: nat, done: Option<Parsed>)

  datatype Machine = Machine(s: seq<MerkleNode>, r: seq<Hash>, pos: nat, bit: nat, hashes: seq<Hash>)

  ghost predicate Visiting(dsha: Hasher, n: nat, flags: seq<byte>, whole: Parsed, fs: Callers, t: nat, k: nat, x: Machine) {
    && CallersOk(n, fs, t, k)
    && x.pos == Pos(n, t, k) && x.s == StackOf(n, fs) && x.r == Gathered(fs)
    && whole == Finish(dsha, n, flags, fs, t, k, Parse(dsha, n, flags, t, k, x.bit, x.hashes))
  }

  ghost predicate Finished(dsha: Hasher, n: nat, flags: seq<byte>, whole: Parsed, fs: Callers, t: nat, k: nat, p: Parsed,
                           x: Machine) {
    && CallersOk(n, fs, t, k) && p.Good? && p.bit == x.bit && p.hashes == x.hashes
    && x.s == StackOf(n, fs) + [MerkleNode(Pos(n, t, k), Some(p.hash))]
    && x.r == Gathered(fs) + p.matched
    && (if k % 2 == 0 then x.pos == Pos(n, t, k) + 1 else !Dead(n, x.pos))
    && whole == Finish(dsha, n, flags, fs, t, k, p)
  }

  ghost predicate Walking(dsha: Hasher, n: nat, flags: seq<byte>, whole: Parsed, w: Walk, x: Machine) {
    match w.done
    case None => Visiting(dsha, n, flags, whole, w.fs, w.t, w.k, x)
    case Some(p) =>
      && Finished(dsha, n, flags, whole, w.fs, w.t, w.k, p, x)
      && (w.fs.AtLeft? ==> Width(n, w.t) <= w.k + 1)
  }

  lemma LivePos(n: nat, t: nat, k: nat)
    requires 0 < n && Live(n, t, k)
    ensures k < Pow2(Depth(n) - t)
    ensures !Dead(n, Pos(n, t, k))
    ensures SetBit(Pos(n, t, k), 1) == Pos(n, t, k) + 1 - k % 2
    ensures HasBit(Pos(n, t, k), Pow2(Depth(n))) <==> t > 0
    ensures HasBit(Pos(n, t, k), 1) <==> k % 2 == 1
  {
    hide Dead, Depth, SetBit, HasBit;
    WidthBound(n, Depth(n), t);
    PosInRow(n, t, k);
    DeadCoversNoLeaf(n, t, k);
    LowBit(Pos(n, t, k));
  }

  /** A left child has just been parsed: the right one is next, if it exists. */
  lemma Settle(dsha: Hasher, n: nat, flags: seq<byte>, whole: Parsed, fs: Callers, t: nat, k: nat, p: Parsed, x: Machine)
    returns (w: Walk)
    requires Finished(dsha, n, flags, whole, fs, t, k, p, x)
    ensures Walking(dsha, n, flags, whole, w, x)
  {
    hide Parse, Depth, Dead, Base;
    if fs.AtLeft? && k + 1 < Width(n, t) {
      w := Walk(AtRight(fs.t, fs.k, p, fs.outer), t, k + 1, None);
      assert Finish(dsha, n, flags, fs, t, k, p)
          == Finish(dsha, n, flags, fs.outer, fs.t, fs.k, Descended(dsha, n, flags, fs.t, fs.k, p));
    } else {
      w := Walk(fs, t, k, Some(p));
    }
  }

  lemma OnRoot(dsha: Hasher, n: nat, flags: seq<byte>, whole: Parsed, w: Walk, x: Machine)
    requires Walking(dsha, n, flags, whole, w, x) && |x.s| == 1 && x.s[0].h.Some?
    ensures whole.Good? && whole.hash == x.s[0].h.value && whole.matched == x.r
  {
    hide Parse, Depth, Dead, Base, Descended;
    assert w.done.Some?;
    assert w.fs.Root?;
  }

  /** The parent of (t, k) is parsed: its node takes the hash and the position moves on. */
  lemma ParentDone(dsha: Hasher, n: nat, flags: seq<byte>, whole: Parsed, o: Callers, t: nat, k: nat, p: Parsed, x: Machine)
    returns (w: Walk)
    requires 0 < n && CallersOk(n, o, t, k) && p.Good? && p.bit == x.bit && p.hashes == x.hashes
    requires x.s == StackOf(n, o) + [MerkleNode(Pos(n, t, k), Some(p.hash))]
    requires x.r == Gathered(o) + p.matched && x.pos == SetBit(Pos(n, t, k), 1)
    requires whole == Finish(dsha, n, flags, o, t, k, p)
    ensures Walking(dsha, n, flags, whole, w, x)
  {
    hide Parse, Depth, Dead, Base, SetBit, Pow2, Finish, StackOf, Gathered;
    LivePos(n, t, k);
    w := Settle(dsha, n, flags, whole, o, t, k, p, x);
  }

  /** The position is past the last node of its row: the top of the stack is an only child. */
  lemma OnDead(dsha: Hasher, n: nat, flags: seq<byte>, whole: Parsed, w: Walk, x: Machine) returns (w': Walk)
    requires 0 < n && Walking(dsha, n, flags, whole, w, x) && Dead(n, x.pos) && !(|x.s| == 1 && x.s[0].h.Some?)
    ensures |x.s| >= 2
    ensures var tip := |x.s| - 1;
            var up := x.s[tip - 1].(h := MakeMerkleParent(dsha, x.s[tip].h, None));
            Walking(dsha, n, flags, whole, w', x.(s := x.s[..tip - 1] + [up], pos := SetBit(up.p, 1)))
  {
    hide Parse, Depth, Dead, Base, Pow2, SetBit;
    LivePos(n, w.t, w.k);
    assert w.done.Some? && w.fs.AtLeft?;
    var p, o := w.done.value, w.fs.outer;
    var up := p.(hash := Join(dsha, p.hash, p.hash));
    assert Descended(dsha, n, flags, w.fs.t, w.fs.k, p) == up;
    var tip := |x.s| - 1;
    assert x.s[..tip - 1] == StackOf(n, o);
    w' := ParentDone(dsha, n, flags, whole, o, w.fs.t, w.fs.k, up,
                     x.(s := StackOf(n, o) + [MerkleNode(Pos(n, w.fs.t, w.fs.k), Some(up.hash))],
                        pos := SetBit(Pos(n, w.fs.t, w.fs.k), 1)));
  }

  /** The two topmost nodes are filled: they are siblings. */
  lemma OnPair(dsha: Hasher, n: nat, flags: seq<byte>, whole: Parsed, w: Walk, x: Machine) returns (w': Walk)
    requires 0 < n && Walking(dsha, n, flags, whole, w, x) && !Dead(n, x.pos)
    requires |x.s| > 2 && x.s[|x.s| - 2].h.Some? && x.s[|x.s| - 1].h.Some?
    ensures var tip := |x.s| - 1;
            var up := x.s[tip - 2].(h := MakeMerkleParent(dsha, x.s[tip - 1].h, x.s[tip].h));
            if up.h.None? then whole.Twins?
            else Walking(dsha, n, flags, whole, w', x.(s := x.s[..tip - 2] + [up], pos := SetBit(up.p, 1)))
  {
    hide Parse, Depth, Dead, Base, Pow2, SetBit;
    PairIsRight(dsha, n, flags, whole, w, x);
    var p, o, l := w.done.value, w.fs.outer, w.fs.left;
    var up := Paired(dsha, l, p);
    assert whole == Finish(dsha, n, flags, o, w.fs.t, w.fs.k, up);
    if up.Good? {
      var tip := |x.s| - 1;
      assert x.s[..tip - 2] == StackOf(n, o);
      assert x.r == Gathered(o) + up.matched;
      w' := ParentDone(dsha, n, flags, whole, o, w.fs.t, w.fs.k, up,
                       x.(s := StackOf(n, o) + [MerkleNode(Pos(n, w.fs.t, w.fs.k), Some(up.hash))],
                          pos := SetBit(Pos(n, w.fs.t, w.fs.k), 1)));
    } else {
      w' := w;
      FinishFails(dsha, n, flags, o, w.fs.t, w.fs.k, up);
    }
  }

  lemma PairIsRight(dsha: Hasher, n: nat, flags: seq<byte>, whole: Parsed, w: Walk, x: Machine)
    requires 0 < n && Walking(dsha, n, flags, whole, w, x) && !Dead(n, x.pos)
    requires |x.s| > 2 && x.s[|x.s| - 2].h.Some? && x.s[|x.s| - 1].h.Some?
    ensures w.done.Some? && w.fs.AtRight? && w.fs.t > 0
    ensures var node := MerkleNode(Pos(n, w.fs.t, w.fs.k), None);
            x.s == StackOf(n, w.fs.outer) + [node, x.s[|x.s| - 2], x.s[|x.s| - 1]]
    ensures w.fs.left.Good? && x.s[|x.s| - 2].h.value == w.fs.left.hash && x.s[|x.s| - 1].h.value == w.done.value.hash
  {
    hide Parse, Depth, Dead, Base, Pow2, Finish, Gathered;
  }

  /** No stack operation applies: a node is being visited. */
  lemma OnVisit(dsha: Hasher, n: nat, flags: seq<byte>, whole: Parsed, w: Walk, x: Machine)
    requires 0 < n && Walking(dsha, n, flags, whole, w, x) && !Dead(n, x.pos) && !(|x.s| == 1 && x.s[0].h.Some?)
    requires !(|x.s| > 2 && x.s[|x.s| - 2].h.Some? && x.s[|x.s| - 1].h.Some?)
    ensures w.done.None?
    ensures HasBit(x.pos, Pow2(Depth(n))) <==> w.t > 0
    ensures HasBit(x.pos, 1) <==> w.k % 2 == 1
    ensures w.t == 0 ==> x.pos < n
  {
    hide Parse, Depth, Base, Pow2, Finish, Gathered, HasBit, SetBit;
    LivePos(n, w.t, w.k);
    if w.done.Some? && w.fs.AtLeft? {
      assert CallersOk(n, w.fs.outer, w.t + 1, w.fs.k);
      PastLast(n, w.t, w.k);
    }
    if w.t == 0 {
      FirstRow(n);
    }
  }

  /** After the last node of a row, an even one, comes a dead position. */
  lemma PastLast(n: nat, t: nat, k: nat)
    requires 0 < n && Live(n, t, k) && t < Depth(n) && k % 2 == 0 && Width(n, t) <= k + 1
    ensures Dead(n, Pos(n, t, k) + 1)
  {
    hide Dead, Depth, Base, Width;
    WidthBound(n, Depth(n), t);
    assert Pow2(Depth(n) - t) == 2 * Pow2(Depth(n) - t - 1);
    hide Pow2;
    DeadCoversNoLeaf(n, t, k + 1);
    assert Pos(n, t, k + 1) == Pos(n, t, k) + 1;
  }

  lemma VisitFails(dsha: Hasher, n: nat, flags: seq<byte>, whole: Parsed, w: Walk, x: Machine)
    requires Walking(dsha, n, flags, whole, w, x) && w.done.None?
    requires x.hashes == [] || x.bit >= 8 * |flags|
    ensures whole == Broken
  {
    hide Depth, Base, StackOf, Gathered;
    ParseStays(dsha, n, flags, w.t, w.k, x.bit, x.hashes);
    FinishFails(dsha, n, flags, w.fs, w.t, w.k, Broken);
  }

  lemma VisitDescends(dsha: Hasher, n: nat, flags: seq<byte>, whole: Parsed, w: Walk, x: Machine) returns (w': Walk)
    requires 0 < n <= MAX_LEAVES && Walking(dsha, n, flags, whole, w, x) && w.done.None? && w.t > 0
    requires x.hashes != [] && x.bit < 8 * |flags| && FlagBit(flags, x.bit)
    ensures Walking(dsha, n, flags, whole, w',
                    x.(s := x.s + [MerkleNode(x.pos, None)], pos := Double(FlipBit(x.pos, Pow2(Depth(n)))), bit := x.bit + 1))
  {
    hide FlagBit, Parse, Depth, Base, Pow2, HasBit, SetBit, FlipBit, Double;
    LivePos(n, w.t, w.k);
    PosChild(n, w.t, w.k);
    ParseDescends(dsha, n, flags, w.t, w.k, x.bit, x.hashes);
    w' := Walk(AtLeft(w.t, w.k, w.fs), w.t - 1, 2 * w.k, None);
  }

  lemma VisitStays(dsha: Hasher, n: nat, flags: seq<byte>, whole: Parsed, w: Walk, x: Machine, pos: nat) returns (w': Walk)
    requires 0 < n && Walking(dsha, n, flags, whole, w, x) && w.done.None?
    requires x.hashes != [] && x.bit < 8 * |flags| && (w.t == 0 || !FlagBit(flags, x.bit))
    requires if w.k % 2 == 0 then pos == SetBit(x.pos, 1)
             else pos == x.pos || pos == SetBit(x.pos / 2, Pow2(Depth(n)))
    ensures Walking(dsha, n, flags, whole, w',
                    Machine(x.s + [MerkleNode(x.pos, Some(x.hashes[0]))],
                            x.r + if FlagBit(flags, x.bit) then [x.hashes[0]] else [],
                            pos, x.bit + 1, x.hashes[1..]))
  {
    hide FlagBit, Parse, Depth, Base, Pow2, HasBit, SetBit, Dead, StackOf, Gathered, Finish;
    LivePos(n, w.t, w.k);
    if w.k % 2 == 1 {
      assert w.fs.AtRight?;
      assert CallersOk(n, w.fs.outer, w.t + 1, w.k / 2);
      LivePos(n, w.t + 1, w.k / 2);
      PosParent(n, w.t, w.k);
    }
    ParseStays(dsha, n, flags, w.t, w.k, x.bit, x.hashes);
    var p := Parse(dsha, n, flags, w.t, w.k, x.bit, x.hashes);
    w' := Settle(dsha, n, flags, whole, w.fs, w.t, w.k, p,
                 Machine(x.s + [MerkleNode(x.pos, Some(x.hashes[0]))],
                         x.r + if FlagBit(flags, x.bit) then [x.hashes[0]] else [],
                         pos, x.bit + 1, x.hashes[1..]));
  }

  /* --- one round of the loop ------------------------------------------------------------------ */

  /** An only child gives its parent. */
  function Single(dsha: Hasher, x: Machine): Machine
    requires |x.s| >= 2
  {
    var tip := |x.s| - 1;
    var up := x.s[tip - 1].(h := MakeMerkleParent(dsha, x.s[tip].h, None));
    x.(s := x.s[..tip - 1] + [up], pos := SetBit(up.p, 1))
  }

  /** Two siblings give their parent. */
  function Pair(dsha: Hasher, x: Machine): Machine
    requires |x.s| > 2
  {
    var tip := |x.s| - 1;
    var up := x.s[tip - 2].(h := MakeMerkleParent(dsha, x.s[tip - 1].h, x.s[tip].h));
    x.(s := x.s[..tip - 2] + [up], pos := SetBit(up.p, 1))
  }

  /** A node filled from the message, or an empty one to be descended into. */
  function Push(msb: nat, flag: bool, x: Machine): Machine
    requires x.hashes != [] && msb > 0
  {
    if HasBit(x.pos, msb) && flag then
      Machine(x.s + [MerkleNode(x.pos, None)], x.r, Double(FlipBit(x.pos, msb)), x.bit + 1, x.hashes)
    else
      var h := x.hashes[0];
      var pos := if !HasBit(x.pos, 1) then SetBit(x.pos, 1)
                 else if HasBit(x.pos, msb) then SetBit(x.pos / 2, msb)
                 else x.pos;
      Machine(x.s + [MerkleNode(x.pos, Some(h))], x.r + if flag then [h] else [], pos, x.bit + 1, x.hashes[1..])
  }

  /** Positions are 32-bit words, and the machine is on its walk unless the tree has twins. */
  ghost predicate Round(dsha: Hasher, n: nat, flags: seq<byte>, whole: Parsed, w: Walk, x: Machine) {
    && x.pos < TWO32 && (forall j | 0 <= j < |x.s| :: x.s[j].p < TWO32)
    && (whole.Twins? || Walking(dsha, n, flags, whole, w, x))
  }

  lemma RoundStarts(dsha: Hasher, n: nat, flags: seq<byte>, hashes: seq<Hash>, pos: nat)
    requires 0 < n <= MAX_LEAVES && pos == (Double(Pow2(Depth(n))) - 2) % TWO32
    ensures var e := Depth(n);
            Round(dsha, n, flags, Parse(dsha, n, flags, e, 0, 0, hashes), Walk(Root, e, 0, None),
                  Machine([], [], pos, 0, hashes))
  {
    hide Parse, Pow2, Base, Width, Double, Depth;
    DepthBound(n);
    DoubleRoot(Pow2(Depth(n)));
    RootPos(n);
    RootWidth(n);
  }

  lemma RoundEnds(dsha: Hasher, m: Block, whole: Parsed, w: Walk, x: Machine)
    requires 0 < m.transactions && m.flags != []
    requires whole == Parse(dsha, m.transactions, m.flags, Depth(m.transactions), 0, 0, m.hashes)
    requires Round(dsha, m.transactions, m.flags, whole, w, x) && |x.s| == 1 && x.s[0].h.Some?
    ensures Decides(dsha, m, if x.s[0].h.value == m.root then Txids(x.r) else Rejected)
  {
    hide Parse, Depth, Walking;
    if !whole.Twins? {
      OnRoot(dsha, m.transactions, m.flags, whole, w, x);
    }
  }

  /** Unless the parse of the block meets equal siblings, the outcome is the right one. */
  ghost predicate Decides(dsha: Hasher, m: Block, out: Outcome) {
    HasTwins(dsha, m) || out == match Extract(dsha, m) case Some(ids) => Txids(ids) case None => Rejected
  }

  lemma RoundSingle(dsha: Hasher, m: Block, whole: Parsed, w: Walk, x: Machine) returns (w': Walk)
    requires 0 < m.transactions && m.flags != []
    requires whole == Parse(dsha, m.transactions, m.flags, Depth(m.transactions), 0, 0, m.hashes)
    requires Round(dsha, m.transactions, m.flags, whole, w, x) && !(|x.s| == 1 && x.s[0].h.Some?)
    requires Dead(m.transactions, x.pos)
    ensures |x.s| < 2 ==> Decides(dsha, m, Panicked)
    ensures |x.s| >= 2 ==> Round(dsha, m.transactions, m.flags, whole, w', Single(dsha, x))
  {
    hide Parse, Depth, Walking, Dead, Extract, SetBit, MakeMerkleParent;
    w' := w;
    if !whole.Twins? {
      w' := OnDead(dsha, m.transactions, m.flags, whole, w, x);
    }
    if |x.s| >= 2 {
      LowBitFits(x.s[|x.s| - 2].p);
    }
  }

  lemma RoundPair(dsha: Hasher, n: nat, flags: seq<byte>, whole: Parsed, w: Walk, x: Machine) returns (w': Walk)
    requires 0 < n && Round(dsha, n, flags, whole, w, x) && !Dead(n, x.pos)
    requires |x.s| > 2 && x.s[|x.s| - 2].h.Some? && x.s[|x.s| - 1].h.Some?
    ensures Round(dsha, n, flags, whole, w', Pair(dsha, x))
  {
    hide Parse, Depth, Walking, Dead, SetBit, MakeMerkleParent;
    w' := w;
    if !whole.Twins? {
      w' := OnPair(dsha, n, flags, whole, w, x);
    }
    LowBitFits(x.s[|x.s| - 3].p);
  }

  /** No stack operation applies. */
  ghost predicate Quiet(n: nat, x: Machine) {
    && !Dead(n, x.pos) && !(|x.s| == 1 && x.s[0].h.Some?)
    && !(|x.s| > 2 && x.s[|x.s| - 2].h.Some? && x.s[|x.s| - 1].h.Some?)
  }

  lemma RoundFails(dsha: Hasher, m: Block, whole: Parsed, w: Walk, x: Machine)
    requires 0 < m.transactions && m.flags != []
    requires whole == Parse(dsha, m.transactions, m.flags, Depth(m.transactions), 0, 0, m.hashes)
    requires Round(dsha, m.transactions, m.flags, whole, w, x) && Quiet(m.transactions, x)
    requires || x.hashes == [] || x.bit >= 8 * |m.flags|
             || (x.pos >= m.transactions && !HasBit(x.pos, Pow2(Depth(m.transactions))))
    ensures Decides(dsha, m, Rejected)
  {
    hide Parse, Depth, Walking, Dead, HasBit, Pow2;
    if !whole.Twins? {
      OnVisit(dsha, m.transactions, m.flags, whole, w, x);
      VisitFails(dsha, m.transactions, m.flags, whole, w, x);
    }
  }

  lemma RoundPush(dsha: Hasher, n: nat, flags: seq<byte>, whole: Parsed, w: Walk, x: Machine) returns (w': Walk)
    requires 0 < n <= MAX_LEAVES && Round(dsha, n, flags, whole, w, x) && Quiet(n, x)
    requires x.hashes != [] && x.bit < 8 * |flags|
    ensures Round(dsha, n, flags, whole, w', Push(Pow2(Depth(n)), FlagBit(flags, x.bit), x))
  {
    hide Parse, Depth, Walking, Dead, HasBit, SetBit, FlipBit, Double, Pow2, FlagBit;
    w' := w;
    var msb, flag := Pow2(Depth(n)), FlagBit(flags, x.bit);
    DepthBound(n);
    LowBitFits(x.pos);
    TopBitFits(x.pos / 2, msb);
    DoubleFits(FlipBit(x.pos, msb));
    if !whole.Twins? {
      OnVisit(dsha, n, flags, whole, w, x);
      if w.t > 0 && flag {
        w' := VisitDescends(dsha, n, flags, whole, w, x);
      } else {
        w' := VisitStays(dsha, n, flags, whole, w, x, Push(msb, flag, x).pos);
      }
    }
  }

  lemma LowBitFits(pos: nat)
    requires pos < TWO32
    ensures SetBit(pos, 1) < TWO32
  {
    LowBit(pos);
  }

  lemma TopBitFits(pos: nat, msb: nat)
    requires pos < MAX_LEAVES && 0 < msb <= MAX_LEAVES
    ensures SetBit(pos, msb) < TWO32
  {
  }

  lemma DoubleFits(pos: nat)
    ensures Double(pos) < TWO32
  {
  }

  /* --- the whole run --------------------------------------------------------------------------- */

  /** Bounds the rounds to come: twice the unread flag bits plus the length of the stack. */
  function Effort(m: Block, x: Machine): nat {
    (if x.bit < 8 * |m.flags| then 2 * (8 * |m.flags| - x.bit) else 0) + |x.s|
  }

  /** The outcome of the rounds from state `x` on, for every block, malformed ones included. */
  function Run(dsha: Hasher, m: Block, x: Machine): Outcome
    decreases Effort(m, x)
  {
    var tip := |x.s| - 1;
    if tip == 0 && x.s[0].h.Some? then
      if x.s[0].h.value == m.root then Txids(x.r) else Rejected
    else if Dead(m.transactions, x.pos) then
      if tip < 1 then Panicked else Run(dsha, m, Single(dsha, x))
    else if tip > 1 && x.s[tip - 1].h.Some? && x.s[tip].h.Some? then
      Run(dsha, m, Pair(dsha, x))
    else
      var msb := Pow2(Depth(m.transactions));
      if x.hashes == [] || x.bit >= 8 * |m.flags| || (x.pos >= m.transactions && !HasBit(x.pos, msb)) then Rejected
      else Run(dsha, m, Push(msb, FlagBit(m.flags, x.bit), x))
  }

  function Start(m: Block): Machine {
    Machine([], [], (Double(Pow2(Depth(m.transactions))) - 2) % TWO32, 0, m.hashes)
  }

  /** The outcome of checking a block. */
  function Checked(dsha: Hasher, m: Block): Outcome {
    if m.transactions == 0 || m.flags == [] then Rejected else Run(dsha, m, Start(m))
  }

  /** The kinds of rounds: past the last node of a row, two siblings, and reading a flag. */
  lemma RunDead(dsha: Hasher, m: Block, x: Machine)
    requires !(|x.s| == 1 && x.s[0].h.Some?) && Dead(m.transactions, x.pos)
    ensures Run(dsha, m, x) == if |x.s| >= 2 then Run(dsha, m, Single(dsha, x)) else Panicked
  {
    hide Dead, Depth, Pow2, HasBit, FlagBit, Push, Pair, Single;
  }

  lemma RunPair(dsha: Hasher, m: Block, x: Machine)
    requires !Dead(m.transactions, x.pos) && |x.s| > 2 && x.s[|x.s| - 2].h.Some? && x.s[|x.s| - 1].h.Some?
    ensures Run(dsha, m, x) == Run(dsha, m, Pair(dsha, x))
  {
    hide Dead, Depth, Pow2, HasBit, FlagBit, Push, Pair, Single;
  }

  lemma RunQuiet(dsha: Hasher, m: Block, x: Machine)
    requires Quiet(m.transactions, x)
    ensures var msb := Pow2(Depth(m.transactions));
            Run(dsha, m, x) ==
            if x.hashes == [] || x.bit >= 8 * |m.flags| || (x.pos >= m.transactions && !HasBit(x.pos, msb)) then Rejected
            else Run(dsha, m, Push(msb, FlagBit(m.flags, x.bit), x))
  {
    hide Dead, Depth, Pow2, HasBit, FlagBit, Push, Pair, Single;
  }

  /** Every run that is on its walk decides the block. */
  lemma {:induction false} RunDecides(dsha: Hasher, m: Block, whole: Parsed, w: Walk, x: Machine)
    requires 0 < m.transactions <= MAX_LEAVES && m.flags != []
    requires whole == Parse(dsha, m.transactions, m.flags, Depth(m.transactions), 0, 0, m.hashes)
    requires Round(dsha, m.transactions, m.flags, whole, w, x)
    ensures Decides(dsha, m, Run(dsha, m, x))
    decreases Effort(m, x)
  {
    hide Parse, Depth, Dead, Round, Decides, HasBit, Pow2, FlagBit, Push, Run, Single, Pair;
    var n := m.transactions;
    if |x.s| == 1 && x.s[0].h.Some? {
      RoundEnds(dsha, m, whole, w, x);
      RunEnds(dsha, m, x);
      return;
    }
    if Dead(n, x.pos) {
      RunDead(dsha, m, x);
      var w' := RoundSingle(dsha, m, whole, w, x);
      if |x.s| >= 2 {
        RoundsShrink(dsha, m, x);
        RunDecides(dsha, m, whole, w', Single(dsha, x));
      }
    } else if |x.s| > 2 && x.s[|x.s| - 2].h.Some? && x.s[|x.s| - 1].h.Some? {
      RunPair(dsha, m, x);
      var w' := RoundPair(dsha, n, m.flags, whole, w, x);
      RoundsShrink(dsha, m, x);
      RunDecides(dsha, m, whole, w', Pair(dsha, x));
    } else if x.hashes == [] || x.bit >= 8 * |m.flags| || (x.pos >= n && !HasBit(x.pos, Pow2(Depth(n)))) {
      RunQuiet(dsha, m, x);
      RoundFails(dsha, m, whole, w, x);
    } else {
      RunQuiet(dsha, m, x);
      var w' := RoundPush(dsha, n, m.flags, whole, w, x);
      RoundsShrink(dsha, m, x);
      RunDecides(dsha, m, whole, w', Push(Pow2(Depth(n)), FlagBit(m.flags, x.bit), x));
    }
  }

  lemma RunEnds(dsha: Hasher, m: Block, x: Machine)
    requires |x.s| == 1 && x.s[0].h.Some?
    ensures Run(dsha, m, x) == if x.s[0].h.value == m.root then Txids(x.r) else Rejected
  {
  }

  /** Every round takes effort. */
  lemma RoundsShrink(dsha: Hasher, m: Block, x: Machine)
    ensures |x.s| >= 2 ==> Effort(m, Single(dsha, x)) < Effort(m, x)
    ensures |x.s| > 2 ==> Effort(m, Pair(dsha, x)) < Effort(m, x)
    ensures x.hashes != [] && x.bit < 8 * |m.flags| ==>
              forall msb: nat, flag | msb > 0 :: Effort(m, Push(msb, flag, x)) < Effort(m, x)
  {
    hide HasBit, SetBit, FlipBit, Double, MakeMerkleParent;
  }

  /** A block whose parse meets no equal siblings is accepted, with exactly the txids the
  recursive parser matches, if it parses and has the header's root; otherwise rejected. */
  lemma CheckedExtracts(dsha: Hasher, m: Block)
    requires m.transactions <= MAX_LEAVES && !HasTwins(dsha, m)
    ensures Checked(dsha, m) == match Extract(dsha, m) case Some(ids) => Txids(ids) case None => Rejected
  {
    hide Parse, Depth, Run, Round;
    if m.transactions > 0 && m.flags != [] {
      var e := Depth(m.transactions);
      RoundStarts(dsha, m.transactions, m.flags, m.hashes, Start(m).pos);
      RunDecides(dsha, m, Parse(dsha, m.transactions, m.flags, e, 0, 0, m.hashes), Walk(Root, e, 0, None), Start(m));
    }
  }
}
