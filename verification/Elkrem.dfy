/** The elkrem sender and receiver objects, proved against ElkremSpec. */
module Elkrem {
  import opened Primitives
  import opened Spec = ElkremSpec

  /** The iterative descent. Inside the subtree it returns the node's value after
  at most `h0` hashes. It reports an error for every index outside, except for the
  one just below the subtree, where the last step off the leaf goes unnoticed.
   */
  method Descend(dsha: Hasher, w: nat, i0: nat, h0: nat, sha0: Hash)
    returns (ok: bool, sha: Hash, hashes: nat)
    requires w < TWO64 && i0 < TWO64
    ensures Size(h0) <= i0 + 1 && w <= i0 < w + Size(h0) ==>
              ok && sha == SubtreeAt(dsha, w, i0, h0, sha0) && hashes <= h0
    ensures Size(h0) <= i0 + 1 ==> (ok <==> w <= i0 <= w + Size(h0))
  {
    ghost var genuine := Size(h0) <= i0 + 1;
    ghost var inside := genuine && w <= i0 < w + Size(h0);
    var i, h := i0, h0;
    sha := sha0;
    hashes := 0;
    while w < i
      invariant 0 <= i < TWO64 && 0 <= h <= h0
      invariant hashes + h == h0
      invariant genuine ==> Size(h) <= i + 1
      invariant genuine ==> (w <= i <= w + Size(h) <==> w <= i0 <= w + Size(h0))
      invariant inside ==> w <= i < w + Size(h)
      invariant inside ==> SubtreeAt(dsha, w, i, h, sha) == SubtreeAt(dsha, w, i0, h0, sha0)
      decreases h
    {
      if genuine { ShiftFits(i, h); }
      if w <= SubShift64(i, h) {
        sha := LeftSha(dsha, sha);
        i := SubShift64(i, h);
      } else {
        sha := RightSha(dsha, sha);
        i := i - 1;
      }
      hashes := hashes + 1;
      if h == 0 { break; }
      h := h - 1;
    }
    ok := w == i;
  }

  class ElkremSender {
    const dsha: Hasher
    const root: Hash

    constructor (dsha: Hasher, root: Hash)
      ensures this.dsha == dsha && this.root == root
    {
      this.dsha, this.root := dsha, root;
    }

    method AtIndex(w: nat) returns (r: Option<Hash>)
      requires w < TWO64
      ensures r == if w <= MAX_INDEX then Some(SecretAt(dsha, root, w)) else None
    {
      assert Size(MAX_HEIGHT) == MAX_INDEX + 1 by { Pow2Values(); }
      var ok, sha, hashes := Descend(dsha, w, MAX_INDEX, MAX_HEIGHT, root);
      assert w <= MAX_INDEX ==> hashes <= 47;
      r := if ok then Some(sha) else None;
    }
  }

  class ElkremReceiver {
    const dsha: Hasher
    var s: seq<Node>
    /** Every hash accepted so far, in order. */
    ghost var given: seq<Hash>

    ghost predicate Valid()
      reads this
    {
      Represents(dsha, s, given) && |given| <= TWO64
    }

    constructor (dsha: Hasher)
      ensures Valid() && s == [] && given == [] && this.dsha == dsha
    {
      this.dsha, s, given := dsha, [], [];
    }

    /** The list grows by an accepted hash, also past the sender's last index. The 64-bit index
    ends at 2^64 hashes. */
    method AddNext(sha: Hash) returns (ok: bool)
      requires Valid() && |given| < TWO64
      modifies this
      ensures Valid()
      ensures ok <==> Spec.AddNext(dsha, old(s), sha).Some?
      ensures ok ==> given == old(given) + [sha] && s == Spec.AddNext(dsha, old(s), sha).value
      ensures !ok ==> given == old(given) && s == old(s)
    {
      var n := Node(0, 0, sha);
      var stack := s;
      var t := |stack| - 1;
      if t >= 0 {
        n := n.(i := stack[t].i + 1);
      }
      if t > 0 && stack[t - 1].h == stack[t].h {
        n := n.(h := stack[t].h + 1);
        if stack[t - 1].sha != LeftSha(dsha, sha) { return false; }
        if stack[t].sha != RightSha(dsha, sha) { return false; }
        stack := stack[..|stack| - 2];
      }
      stack := stack + [n];
      assert Spec.AddNext(dsha, s, sha) == Some(stack);
      AddNextRefinesAppend(dsha, s, given, sha);
      s, given, ok := stack, given + [sha], true;
    }

    /** The w'th accepted hash, for every w up to the last one, and nothing beyond. */
    method AtIndex(w: nat) returns (r: Option<Hash>)
      requires Valid() && w < TWO64
      ensures r == if w < |given| then Some(given[w]) else None
    {
      if s == [] { return None; }
      var k := 0;
      while k < |s| && w > s[k].i
        invariant 0 <= k <= |s|
        invariant Start(s, k) <= w
      {
        k := k + 1;
      }
      if k == |s| { return None; }
      SizeBelowIndex(s, k);
      assert k < |s| - 1 ==> s[k].i < s[|s| - 1].i;
      assert k > 0 ==> s[k].i == s[k - 1].i + Size(s[k].h);
      assert NodeHolds(dsha, s[k], given);
      var ok, sha, _ := Descend(dsha, w, s[k].i, s[k].h, s[k].sha);
      r := if ok then Some(sha) else None;
    }

    method UpTo() returns (r: nat)
      requires Valid()
      ensures given != [] ==> r == |given| - 1
      ensures given == [] ==> r == 0
    {
      r := if |s| < 1 then 0 else s[|s| - 1].i;
    }
  }
}
