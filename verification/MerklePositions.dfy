/** The numbering of tree nodes used by the check of merkle blocks: with `msb` the smallest
power of two holding all leaves, leaves are 0, 1, .., the parent of a node is its number
halved with bit `msb` set, and the root is 2 * msb - 2. Numbers are 32-bit words; bit
operations on them are written as arithmetic.
 */
module MerklePositions {
  import opened Primitives
  import opened Merkle

  const MAX_LEAVES: nat := 0x8000_0000

  /** `pos & bit != 0`, for a power of two `bit`. */
  predicate HasBit(pos: nat, bit: nat)
    requires bit > 0
  {
    pos / bit % 2 == 1
  }

  /** `pos | bit`, for a power of two `bit`. */
  function SetBit(pos: nat, bit: nat): nat
    requires bit > 0
  {
    if HasBit(pos, bit) then pos else pos + bit
  }

  /** `pos ^ bit`, for a power of two `bit`. */
  function FlipBit(pos: nat, bit: nat): nat
    requires bit > 0
  {
    if HasBit(pos, bit) then (assert bit <= pos by { SetAtLeast(pos, bit); } pos - bit) else pos + bit
  }

  lemma SetAtLeast(pos: nat, bit: nat)
    requires bit > 0 && HasBit(pos, bit)
    ensures bit <= pos
  {
    var q := pos / bit;
    assert pos < bit ==> q == 0;
  }

  /** `pos << 1` on a 32-bit word. */
  function Double(pos: nat): nat {
    2 * pos % TWO32
  }

  lemma TopBit(pos: nat, bit: nat)
    requires 0 < bit && pos < 2 * bit
    ensures HasBit(pos, bit) <==> bit <= pos
    ensures SetBit(pos, bit) == (if bit <= pos then pos else pos + bit)
    ensures FlipBit(pos, bit) == (if bit <= pos then pos - bit else pos + bit)
  {
    assert bit <= pos ==> pos / bit == 1;
    assert pos < bit ==> pos / bit == 0;
  }

  lemma LowBit(pos: nat)
    ensures SetBit(pos, 1) == pos + 1 - pos % 2
    ensures HasBit(pos, 1) <==> pos % 2 == 1
  {
    assert pos / 1 == pos;
  }

  /** The number of the first node of height `t` in a tree of depth `d`. */
  function Base(d: nat, t: nat): nat {
    if t == 0 then 0 else Base(d, t - 1) / 2 + Pow2(d)
  }

  lemma {:induction false} BaseValue(d: nat, t: nat)
    requires t <= d
    ensures Base(d, t) == 2 * Pow2(d) - 2 * Pow2(d - t)
    ensures Base(d, t + 1) == 2 * Pow2(d) - Pow2(d - t) == Base(d, t) + Pow2(d - t)
    decreases t
  {
    if t > 0 {
      BaseValue(d, t - 1);
      assert Pow2(d - (t - 1)) == 2 * Pow2(d - t);
    }
  }

  /** The height of the node numbered `pos`, at least `t`. */
  function RowFrom(d: nat, pos: nat, t: nat): nat
    requires t <= d
    decreases d - t
  {
    if t == d || pos < Base(d, t + 1) then t else RowFrom(d, pos, t + 1)
  }

  /** `pos` names no node of a tree with `n` leaves. */
  predicate Dead(n: nat, pos: nat) {
    var d := Depth(n);
    var t := RowFrom(d, pos, 0);
    pos > 2 * Pow2(d) - 2 || pos >= Base(d, t) + Width(n, t)
  }

  function Pos(n: nat, t: nat, k: nat): nat {
    Base(Depth(n), t) + k
  }

  lemma {:induction false} BaseGrows(d: nat, t: nat, u: nat)
    requires t <= u <= d + 1
    ensures Base(d, t) <= Base(d, u)
    decreases u
  {
    if t < u {
      BaseGrows(d, t, u - 1);
      BaseValue(d, u - 1);
    }
  }

  lemma {:induction false} RowOfPos(d: nat, t: nat, k: nat, from: nat)
    requires from <= t <= d && k < Pow2(d - t)
    ensures RowFrom(d, Base(d, t) + k, from) == t
    decreases t - from
  {
    BaseValue(d, t);
    if from < t {
      BaseGrows(d, from + 1, t);
      RowOfPos(d, t, k, from + 1);
    }
  }

  /** The dead positions are exactly those whose subtree covers no real leaf. */
  lemma DeadCoversNoLeaf(n: nat, t: nat, k: nat)
    requires 0 < n && t <= Depth(n) && k < Pow2(Depth(n) - t)
    ensures Dead(n, Pos(n, t, k)) <==> n <= k * Pow2(t)
    ensures Dead(n, Pos(n, t, k)) <==> Width(n, t) <= k
  {
    var d := Depth(n);
    RowOfPos(d, t, k, 0);
    BaseValue(d, t);
    assert Pow2(d - t) >= 1;
    WidthCoversLeaf(n, t, k);
  }

  lemma RootPos(n: nat)
    requires 0 < n
    ensures Pos(n, Depth(n), 0) == 2 * Pow2(Depth(n)) - 2
  {
    BaseValue(Depth(n), Depth(n));
  }

  /** How the number of a node relates to its row, its sibling, its parent and its child. */
  lemma PosInRow(n: nat, t: nat, k: nat)
    requires t <= Depth(n) && k < Pow2(Depth(n) - t)
    ensures Pos(n, t, k) % 2 == k % 2
    ensures SetBit(Pos(n, t, k), 1) == Pos(n, t, k) + 1 - k % 2
    ensures Pos(n, t, k) < 2 * Pow2(Depth(n))
    ensures Pow2(Depth(n)) <= Pos(n, t, k) <==> t > 0
    ensures HasBit(Pos(n, t, k), Pow2(Depth(n))) <==> t > 0
  {
    hide HasBit, SetBit, Depth;
    var d := Depth(n);
    BaseValue(d, t);
    if t > 0 {
      Pow2Monotonic(d - t, d - 1);
      assert Pow2(d) == 2 * Pow2(d - 1);
    }
    hide Base, Pow2;
    EvenBase(Pow2(d), Pow2(d - t), k);
    LowBit(Pos(n, t, k));
    TopBit(Pos(n, t, k), Pow2(d));
  }

  lemma EvenBase(m: nat, q: nat, k: nat)
    requires q <= m
    ensures (2 * m - 2 * q + k) % 2 == k % 2
  {
    assert 2 * m - 2 * q + k == 2 * (m - q) + k;
  }

  lemma PosParent(n: nat, t: nat, k: nat)
    requires t < Depth(n) && k < Pow2(Depth(n) - t)
    ensures SetBit(Pos(n, t, k) / 2, Pow2(Depth(n))) == Pos(n, t + 1, k / 2)
  {
    hide HasBit, SetBit, Depth;
    var d := Depth(n);
    BaseValue(d, t);
    TopBit(Pos(n, t, k) / 2, Pow2(d));
  }

  lemma PosChild(n: nat, t: nat, k: nat)
    requires 0 < t <= Depth(n) && k < Pow2(Depth(n) - t) && n <= MAX_LEAVES
    ensures Double(FlipBit(Pos(n, t, k), Pow2(Depth(n)))) == Pos(n, t - 1, 2 * k)
  {
    hide HasBit, SetBit, FlipBit, Depth;
    var d := Depth(n);
    BaseValue(d, t);
    BaseValue(d, t - 1);
    assert Pow2(d - (t - 1)) == 2 * Pow2(d - t);
    hide Base, Pow2;
    PosInRow(n, t, k);
    TopBit(Pos(n, t, k), Pow2(d));
    DepthBound(n);
  }

  lemma DepthBound(n: nat)
    requires n <= MAX_LEAVES
    ensures Pow2(Depth(n)) <= MAX_LEAVES && Depth(n) <= 31
  {
    Pow2Values();
    if Depth(n) > 31 {
      Pow2Monotonic(31, Depth(n) - 1);
    } else {
      Pow2Monotonic(Depth(n), 31);
    }
  }

  /** Loop form of Depth; beyond `MAX_LEAVES` no 32-bit power of two is large enough. */
  method TreeDepth(n: nat) returns (e: nat)
    requires n <= MAX_LEAVES
    ensures e == Depth(n) && n <= Pow2(e) && (forall i: nat | n <= Pow2(i) :: e <= i)
  {
    e := 0;
    while Pow2(e) < n
      invariant (e > 0 ==> Pow2(e - 1) < n) && DepthFrom(n, 0) == DepthFrom(n, e)
      decreases n - Pow2(e)
    {
      e := e + 1;
    }
    forall i: nat | n <= Pow2(i) ensures e <= i {
      if i < e {
        Pow2Monotonic(i, e - 1);
      }
    }
  }

  method InDeadZone(pos: nat, size: nat) returns (dead: bool)
    requires pos < TWO32 && 0 < size <= MAX_LEAVES
    ensures dead <==> Dead(size, pos)
  {
    hide HasBit, SetBit, Double, Depth, Pow2, Base, Width, RowFrom;
    var e := TreeDepth(size);
    var msb := Pow2(e);
    DepthBound(size);
    DoubleRoot(msb);
    if pos > (Double(msb) - 2) % TWO32 {
      return true;
    }
    FirstRow(size);
    var h, last := msb, size - 1;
    ghost var t := 0;
    while pos >= h
      invariant t <= e && h == Base(e, t + 1) && last == Base(e, t) + Width(size, t) - 1
      invariant RowFrom(e, pos, 0) == RowFrom(e, pos, t)
      decreases e - t
    {
      NextRow(size, pos, t);
      h, last := SetBit(h / 2, msb), SetBit(last / 2, msb);
      t := t + 1;
    }
    dead := pos > last;
    assert RowFrom(e, pos, t) == t by {
      RowFound(e, pos, t);
    }
  }

  lemma DoubleRoot(msb: nat)
    requires 0 < msb <= MAX_LEAVES
    ensures (Double(msb) - 2) % TWO32 == 2 * msb - 2
  {
  }

  lemma RowFound(d: nat, pos: nat, t: nat)
    requires t <= d && pos < Base(d, t + 1)
    ensures RowFrom(d, pos, t) == t
  {
  }

  lemma FirstRow(n: nat)
    ensures Base(Depth(n), 0) == 0 && Base(Depth(n), 1) == Pow2(Depth(n)) && Width(n, 0) == n
  {
    hide Depth;
  }

  lemma NextRow(n: nat, pos: nat, t: nat)
    requires 0 < n && t <= Depth(n) && Base(Depth(n), t + 1) <= pos <= 2 * Pow2(Depth(n)) - 2
    ensures t < Depth(n) && RowFrom(Depth(n), pos, t) == RowFrom(Depth(n), pos, t + 1)
    ensures SetBit(Base(Depth(n), t + 1) / 2, Pow2(Depth(n))) == Base(Depth(n), t + 2)
    ensures Width(n, t) > 0
    ensures SetBit((Base(Depth(n), t) + Width(n, t) - 1) / 2, Pow2(Depth(n)))
         == Base(Depth(n), t + 1) + Width(n, t + 1) - 1
  {
    hide HasBit, SetBit, Depth;
    var d := Depth(n);
    BaseValue(d, t);
    WidthBound(n, d, t);
    BaseValue(d, t + 1);
    assert Pow2(d - t) == 2 * Pow2(d - (t + 1));
    assert RowFrom(d, pos, t) == RowFrom(d, pos, t + 1);
    hide Base, RowFrom, Pow2;
    TopBit(Base(d, t + 1) / 2, Pow2(d));
    TopBit((Base(d, t) + Width(n, t) - 1) / 2, Pow2(d));
  }
}
