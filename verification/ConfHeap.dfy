/** The min-heap of confirmation entries, ordered by trigger height: the item list and the
sifting of container/heap over it.
 */
module ConfHeap {
  import opened Primitives

  datatype Client = Client(id: nat, txid: Hash, numConfirmations: nat)

  datatype Entry = Entry(client: Client, triggerHeight: nat)

  predicate Less(a: Entry, b: Entry) {
    a.triggerHeight < b.triggerHeight
  }

  function Swap(s: seq<Entry>, i: nat, j: nat): (r: seq<Entry>)
    requires i < |s| && j < |s|
    ensures |r| == |s| && multiset(r) == multiset(s)
    ensures forall k | 0 <= k < |s| :: r[k] == if k == i then s[j] else if k == j then s[i] else s[k]
  {
    s[i := s[j]][j := s[i]]
  }

  function Parent(i: nat): nat
    requires i > 0
  {
    (i - 1) / 2
  }

  /** Item `i` does not sort before item `p`. */
  predicate Under(s: seq<Entry>, i: nat, p: nat)
    requires i < |s| && p < |s|
  {
    !Less(s[i], s[p])
  }

  /** No item sorts before its parent. */
  ghost predicate Heap(s: seq<Entry>) {
    forall i | 0 < i < |s| :: Under(s, i, Parent(i))
  }

  /** A heap but for item `j`, which may sort before its parent. */
  ghost predicate HeapAbove(s: seq<Entry>, j: nat) {
    && j < |s|
    && (forall i | 0 < i < |s| && i != j :: Under(s, i, Parent(i)))
    && (forall i | 0 < i < |s| && Parent(i) == j && j > 0 :: Under(s, i, Parent(j)))
  }

  /** A heap but for item `j`, which its children may sort before. */
  ghost predicate HeapBelow(s: seq<Entry>, j: nat) {
    && (forall i | 0 < i < |s| && Parent(i) != j :: Under(s, i, Parent(i)))
    && (forall i | 0 < i < |s| && Parent(i) == j && j > 0 :: Under(s, i, Parent(j)))
  }

  lemma {:induction false} RootIsLeast(s: seq<Entry>, i: nat)
    requires Heap(s) && i < |s|
    ensures Under(s, i, 0)
    decreases i
  {
    if i > 0 {
      RootIsLeast(s, Parent(i));
      assert Under(s, i, Parent(i));
    }
  }

  lemma SwapUp(s: seq<Entry>, j: nat)
    requires HeapAbove(s, j) && j > 0 && Less(s[j], s[Parent(j)])
    ensures HeapAbove(Swap(s, Parent(j), j), Parent(j))
  {
    var p := Parent(j);
    var r := Swap(s, p, j);
    forall i | 0 < i < |r| && i != p ensures Under(r, i, Parent(i)) {
      if i != j {
        assert Under(s, i, Parent(i));
        if Parent(i) == j {
          assert Under(s, i, p);
        }
      }
    }
    if p > 0 {
      assert Under(s, p, Parent(p));
      forall i | 0 < i < |r| && Parent(i) == p ensures Under(r, i, Parent(p)) {
        if i != j {
          assert Under(s, i, p);
        }
      }
    }
  }

  /** One step down, to a child `c` that sorts before item `j` and not after the other child. */
  lemma SwapDown(s: seq<Entry>, j: nat, c: nat)
    requires HeapBelow(s, j) && 0 < c < |s| && Parent(c) == j && Less(s[c], s[j])
    requires forall i | 0 < i < |s| && Parent(i) == j :: Under(s, i, c)
    ensures HeapBelow(Swap(s, j, c), c)
  {
    var r := Swap(s, j, c);
    forall i | 0 < i < |r| && Parent(i) != c ensures Under(r, i, Parent(i)) {
      if Parent(i) == j {
        assert Under(s, i, c);
      } else if i == j {
        assert Under(s, c, Parent(j));
      } else {
        assert Under(s, i, Parent(i));
      }
    }
    forall i | 0 < i < |r| && Parent(i) == c ensures Under(r, i, Parent(c)) {
      assert Under(s, i, Parent(i));
    }
  }

  /** Moves item `at` towards the root. */
  method SiftUp(s: seq<Entry>, at: nat) returns (r: seq<Entry>)
    requires HeapAbove(s, at)
    ensures |r| == |s| && multiset(r) == multiset(s) && Heap(r)
  {
    var j := at;
    r := s;
    while j > 0 && Less(r[j], r[Parent(j)])
      invariant |r| == |s| && multiset(r) == multiset(s) && HeapAbove(r, j)
    {
      SwapUp(r, j);
      r, j := Swap(r, Parent(j), j), Parent(j);
    }
  }

  /** Moves item 0 away from the root. */
  method SiftDown(s: seq<Entry>) returns (r: seq<Entry>)
    requires HeapBelow(s, 0)
    ensures |r| == |s| && multiset(r) == multiset(s) && Heap(r)
  {
    var i := 0;
    r := s;
    while 2 * i + 1 < |r|
      invariant |r| == |s| && multiset(r) == multiset(s) && HeapBelow(r, i)
      decreases |r| - i
    {
      var j := 2 * i + 1;
      if j + 1 < |r| && Less(r[j + 1], r[j]) {
        j := j + 1;
      }
      assert forall k | 0 < k < |r| && Parent(k) == i :: k == 2 * i + 1 || k == 2 * i + 2;
      if !Less(r[j], r[i]) {
        return;
      }
      SwapDown(r, i, j);
      r, i := Swap(r, i, j), j;
    }
  }

  /** heap.Push. */
  method Push(s: seq<Entry>, x: Entry) returns (r: seq<Entry>)
    requires Heap(s)
    ensures Heap(r) && multiset(r) == multiset(s) + multiset{x}
  {
    var longer := s + [x];
    forall i | 0 < i < |s| ensures Under(longer, i, Parent(i)) {
      assert Under(s, i, Parent(i));
    }
    r := SiftUp(longer, |s|);
  }

  /** heap.Pop: an entry no other sorts before, and the rest. */
  method Pop(s: seq<Entry>) returns (r: seq<Entry>, x: Entry)
    requires Heap(s) && s != []
    ensures Heap(r) && multiset(s) == multiset(r) + multiset{x} && |r| == |s| - 1
    ensures forall e | e in r :: !Less(e, x)
  {
    var n := |s| - 1;
    forall e | e in s ensures !Less(e, s[0]) {
      var i :| 0 <= i < |s| && s[i] == e;
      RootIsLeast(s, i);
    }
    var swapped := Swap(s, 0, n);
    x := swapped[n];
    assert swapped == swapped[..n] + [x];
    forall i | 0 < i < n && Parent(i) != 0 ensures Under(swapped[..n], i, Parent(i)) {
      assert Under(s, i, Parent(i));
    }
    r := SiftDown(swapped[..n]);
    forall e | e in r ensures e in s {
      assert e in multiset(r);
    }
  }
}
