/** The channel object: its fields change in place, and every method is proved to do
what the function of the same name in ChannelSpec says.
 */
module LightningChannel {
  import opened Primitives
  import opened Ledger
  import opened ChannelLists
  import opened Spec = ChannelSpec
  import Elk = ElkremSpec

  function AddsIn(s: EntryList): set<nat> {
    set k | 0 <= k < |s| && s[k].kind.AddEntry? :: s[k].index
  }

  /** A removal's Add carries the settled mark. */
  ghost predicate Marked(a: EntryList, b: EntryList) {
    forall j, k | 0 <= j < |a| && 0 <= k < |b| && !a[j].kind.AddEntry? && b[k].index == a[j].parent :: b[k].settled
  }

  /** What the two lists, their index maps and counters always satisfy. */
  ghost predicate ListsOk(a: EntryList, b: EntryList, indexA: set<nat>, indexB: set<nat>, nextA: nat, nextB: nat) {
    && Sorted(a) && Sorted(b)
    && (forall k | 0 <= k < |a| :: a[k].index < nextA) && (forall k | 0 <= k < |b| :: b[k].index < nextB)
    && indexA == AddsIn(a) && indexB == AddsIn(b)
    && Linked(a, indexB) && Linked(b, indexA) && Marked(a, b)
  }

  /** Only heights and the forwarding mark differ. */
  ghost predicate Alike(s: EntryList, t: EntryList) {
    |t| == |s| && forall k | 0 <= k < |s| ::
      t[k].kind == s[k].kind && t[k].index == s[k].index && t[k].parent == s[k].parent && t[k].settled == s[k].settled
  }

  lemma AlikeSide(s: EntryList, t: EntryList, index: set<nat>)
    requires Alike(s, t) && Sorted(s) && Linked(s, index)
    ensures Sorted(t) && Linked(t, index) && AddsIn(t) == AddsIn(s)
  {
    assert Sorted(t) by {
      forall j, k | 0 <= j < k < |t| ensures t[j].index < t[k].index {
        assert s[j].index < s[k].index;
      }
    }
    assert Linked(t, index) by {
      forall j, k | 0 <= j < k < |t| && !t[j].kind.AddEntry? && !t[k].kind.AddEntry? ensures t[j].parent != t[k].parent {
        assert s[j].parent != s[k].parent;
      }
    }
  }

  lemma AlikeLists(a: EntryList, a': EntryList, b: EntryList, b': EntryList,
                   indexA: set<nat>, indexB: set<nat>, nextA: nat, nextB: nat)
    requires ListsOk(a, b, indexA, indexB, nextA, nextB) && Alike(a, a') && Alike(b, b')
    ensures ListsOk(a', b', indexA, indexB, nextA, nextB)
  {
    AlikeSide(a, a', indexB);
    AlikeSide(b, b', indexA);
    hide Linked, Sorted, AddsIn;
  }

  lemma PushSide(s: EntryList, e: Entry, next: nat)
    requires Sorted(s) && (forall k | 0 <= k < |s| :: s[k].index < next) && e.index == next
    ensures Sorted(s + [e]) && AsMap(s + [e]) == AsMap(s)[next := e]
    ensures AddsIn(s + [e]) == AddsIn(s) + (if e.kind.AddEntry? then {next} else {})
  {
    AsMapPush(s, e);
    hide AsMap;
    var t := s + [e];
    assert t[|s|] == e;
    forall i | i in AddsIn(s) ensures i in AddsIn(t) {
      var k :| 0 <= k < |s| && s[k].kind.AddEntry? && s[k].index == i;
      assert t[k] == s[k];
    }
  }

  /** A new Add at the end of our log. */
  lemma PushAddA(a: EntryList, b: EntryList, indexA: set<nat>, indexB: set<nat>, nextA: nat, nextB: nat, e: Entry)
    requires ListsOk(a, b, indexA, indexB, nextA, nextB) && e.index == nextA && e.kind.AddEntry?
    ensures ListsOk(a + [e], b, indexA + {nextA}, indexB, nextA + 1, nextB)
  {
    PushSide(a, e, nextA);
    hide AddsIn;
  }

  lemma PushAddB(a: EntryList, b: EntryList, indexA: set<nat>, indexB: set<nat>, nextA: nat, nextB: nat, e: Entry)
    requires ListsOk(a, b, indexA, indexB, nextA, nextB) && e.index == nextB && e.kind.AddEntry?
    ensures ListsOk(a, b + [e], indexA, indexB + {nextB}, nextA, nextB + 1)
  {
    PushSide(b, e, nextB);
    assert forall k | 0 <= k < |a| && !a[k].kind.AddEntry? :: a[k].parent < nextB;
    hide AddsIn;
  }

  /** A settle at the end of the peer's log, for an Add of ours not settled before. */
  lemma PushSettleB(a: EntryList, b: EntryList, indexA: set<nat>, indexB: set<nat>, nextA: nat, nextB: nat, e: Entry)
    requires ListsOk(a, b, indexA, indexB, nextA, nextB) && e.index == nextB && !e.kind.AddEntry?
    requires e.parent in indexA && forall k | 0 <= k < |b| && !b[k].kind.AddEntry? :: b[k].parent != e.parent
    ensures ListsOk(a, b + [e], indexA, indexB, nextA, nextB + 1)
  {
    PushSide(b, e, nextB);
    assert AddsIn(b + [e]) == indexB;
    assert forall k | 0 <= k < |a| && !a[k].kind.AddEntry? :: a[k].parent < nextB;
    hide AddsIn;
  }

  /** A settle at the end of our log, for the peer's Add number `k`, which gets the mark. */
  lemma PushSettleA(a: EntryList, b: EntryList, indexA: set<nat>, indexB: set<nat>, nextA: nat, nextB: nat, k: nat, e: Entry)
    requires ListsOk(a, b, indexA, indexB, nextA, nextB) && e.index == nextA && !e.kind.AddEntry?
    requires k < |b| && b[k].kind.AddEntry? && !b[k].settled && e.parent == b[k].index
    ensures var b' := b[k := b[k].(settled := true)];
            && ListsOk(a + [e], b', indexA, indexB, nextA + 1, nextB)
            && AsMap(b') == AsMap(b)[b[k].index := b[k].(settled := true)]
  {
    var b' := b[k := b[k].(settled := true)];
    PushSide(a, e, nextA);
    MarkSettled(b, k);
    SettleSides(a, b, b', indexA, indexB, k, e);
    hide AddsIn, AsMap, Linked, Marked;
  }

  lemma IndexUnique(b: EntryList, k: nat)
    requires Sorted(b) && k < |b|
    ensures forall j | 0 <= j < |b| && j != k :: b[j].index != b[k].index
  {
  }

  lemma MarkSettled(b: EntryList, k: nat)
    requires Sorted(b) && k < |b|
    ensures var b' := b[k := b[k].(settled := true)];
            Sorted(b') && AsMap(b') == AsMap(b)[b[k].index := b[k].(settled := true)]
  {
    var b' := b[k := b[k].(settled := true)];
    IndexUnique(b, k);
    AsMapAt(b, k);
    var m := AsMap(b)[b[k].index := b[k].(settled := true)];
    forall j | 0 <= j < |b| ensures b[j].index in m && m[b[j].index] == b'[j] {
      AsMapAt(b, j);
    }
    AsMapPointwise(b, b', m);
  }

  lemma SettleSides(a: EntryList, b: EntryList, b': EntryList, indexA: set<nat>, indexB: set<nat>, k: nat, e: Entry)
    requires Sorted(b) && indexB == AddsIn(b) && Linked(a, indexB) && Linked(b, indexA) && Marked(a, b)
    requires k < |b| && b[k].kind.AddEntry? && !b[k].settled && e.parent == b[k].index && !e.kind.AddEntry?
    requires b' == b[k := b[k].(settled := true)]
    ensures AddsIn(b') == indexB && Linked(a + [e], indexB) && Linked(b', indexA) && Marked(a + [e], b')
  {
    IndexUnique(b, k);
    assert forall j | 0 <= j < |b| :: b'[j].index == b[j].index && b'[j].kind == b[j].kind && b'[j].parent == b[j].parent;
    assert AddsIn(b') == AddsIn(b);
    assert e.parent in indexB;
    assert forall j | 0 <= j < |a| && !a[j].kind.AddEntry? :: a[j].parent != e.parent;
  }

  /* --- compaction keeps the lists consistent ------------------------------------------- */

  lemma WithoutAt(s: EntryList, gone: set<nat>, j: nat) returns (k: nat)
    requires j < |Without(s, gone)|
    ensures k < |s| && s[k] == Without(s, gone)[j] && s[k].index !in gone
  {
    WithoutMember(s, gone, Without(s, gone)[j]);
    k :| k < |s| && s[k] == Without(s, gone)[j];
  }

  lemma WithoutAdds(s: EntryList, gone: set<nat>)
    ensures AddsIn(Without(s, gone)) == AddsIn(s) - gone
  {
    var t := Without(s, gone);
    forall i | i in AddsIn(t) ensures i in AddsIn(s) && i !in gone {
      var j: nat :| j < |t| && t[j].kind.AddEntry? && t[j].index == i;
      var k := WithoutAt(s, gone, j);
    }
    forall i | i in AddsIn(s) && i !in gone ensures i in AddsIn(t) {
      var k: nat :| k < |s| && s[k].kind.AddEntry? && s[k].index == i;
      WithoutMember(s, gone, s[k]);
      var j :| 0 <= j < |t| && t[j] == s[k];
    }
  }

  lemma WithoutLinked(a: EntryList, gone: set<nat>, indexB: set<nat>)
    requires Linked(a, indexB) && Sorted(a)
    ensures Linked(Without(a, gone), indexB)
  {
    var t := Without(a, gone);
    WithoutSorted(a, gone);
    forall j | 0 <= j < |t| && !t[j].kind.AddEntry? ensures t[j].parent in indexB {
      var k := WithoutAt(a, gone, j);
    }
    forall i, j | 0 <= i < j < |t| && !t[i].kind.AddEntry? && !t[j].kind.AddEntry? ensures t[i].parent != t[j].parent {
      var p := WithoutAt(a, gone, i);
      var q := WithoutAt(a, gone, j);
      assert t[i].index < t[j].index;
      assert p != q;
    }
  }

  lemma WithoutMarked(a: EntryList, goneA: set<nat>, b: EntryList, goneB: set<nat>)
    requires Marked(a, b)
    ensures Marked(Without(a, goneA), Without(b, goneB))
  {
    var a', b' := Without(a, goneA), Without(b, goneB);
    forall j, k | 0 <= j < |a'| && 0 <= k < |b'| && !a'[j].kind.AddEntry? && b'[k].index == a'[j].parent
      ensures b'[k].settled
    {
      var p := WithoutAt(a, goneA, j);
      var q := WithoutAt(b, goneB, k);
    }
  }

  /** The removals of the list that stay do not point at an Add that goes. */
  lemma LinkedShrinks(a: EntryList, indexB: set<nat>, lt: nat, rt: nat)
    requires Linked(a, indexB) && Sorted(a)
    ensures Linked(Without(a, EvictTo(a, |a|, lt, rt)), indexB - ParentsTo(a, |a|, lt, rt))
  {
    var gone, parents := EvictTo(a, |a|, lt, rt), ParentsTo(a, |a|, lt, rt);
    var t := Without(a, gone);
    WithoutLinked(a, gone, indexB);
    forall j | 0 <= j < |t| && !t[j].kind.AddEntry? ensures t[j].parent !in parents {
      var k := WithoutAt(a, gone, j);
      EvictMember(a, |a|, lt, rt, a[k].parent);
      EvictMember(a, |a|, lt, rt, a[k].index);
    }
  }

  lemma EvictedAreNoAdds(a: EntryList, lt: nat, rt: nat)
    requires Sorted(a)
    ensures EvictTo(a, |a|, lt, rt) !! AddsIn(a)
  {
    forall i | i in AddsIn(a) ensures i !in EvictTo(a, |a|, lt, rt) {
      var k: nat :| k < |a| && a[k].kind.AddEntry? && a[k].index == i;
      IndexUnique(a, k);
      EvictMember(a, |a|, lt, rt, i);
    }
  }

  /** What compaction relies on and keeps, whichever log goes first. */
  ghost predicate Consistent(a: EntryList, b: EntryList, indexA: set<nat>, indexB: set<nat>) {
    && Sorted(a) && Sorted(b) && indexA == AddsIn(a) && indexB == AddsIn(b)
    && Linked(a, indexB) && Linked(b, indexA)
  }

  lemma PassKeeps(a: EntryList, b: EntryList, indexA: set<nat>, indexB: set<nat>, lt: nat, rt: nat)
    requires Consistent(a, b, indexA, indexB)
    ensures var (gone, parents) := (EvictTo(a, |a|, lt, rt), ParentsTo(a, |a|, lt, rt));
            Consistent(Without(a, gone), Without(b, parents), indexA - gone, indexB - parents)
  {
    hide Linked, AddsIn, Without, EvictTo, ParentsTo;
    var gone, parents := EvictTo(a, |a|, lt, rt), ParentsTo(a, |a|, lt, rt);
    WithoutSorted(a, gone);
    WithoutSorted(b, parents);
    WithoutAdds(a, gone);
    WithoutAdds(b, parents);
    LinkedShrinks(a, indexB, lt, rt);
    EvictedAreNoAdds(a, lt, rt);
    assert indexA - gone == indexA;
    WithoutLinked(b, parents, indexA);
  }

  /** Compacting both ways keeps the counters' bounds and the settled marks too. */
  lemma CompactKeeps(a: EntryList, b: EntryList, indexA: set<nat>, indexB: set<nat>, nextA: nat, nextB: nat, lt: nat, rt: nat)
    requires ListsOk(a, b, indexA, indexB, nextA, nextB)
    ensures var (gone, parents) := (EvictTo(a, |a|, lt, rt), ParentsTo(a, |a|, lt, rt));
            var (a1, b1) := (Without(a, gone), Without(b, parents));
            var (gone', parents') := (EvictTo(b1, |b1|, lt, rt), ParentsTo(b1, |b1|, lt, rt));
            && Sorted(a1) && Sorted(b1) && Linked(b1, indexA - gone)
            && ListsOk(Without(a1, parents'), Without(b1, gone'), indexA - gone - parents', indexB - parents - gone', nextA, nextB)
  {
    hide Linked, AddsIn, Without, EvictTo, ParentsTo, Marked, Sorted;
    var gone, parents := EvictTo(a, |a|, lt, rt), ParentsTo(a, |a|, lt, rt);
    var a1, b1 := Without(a, gone), Without(b, parents);
    PassKeeps(a, b, indexA, indexB, lt, rt);
    var gone', parents' := EvictTo(b1, |b1|, lt, rt), ParentsTo(b1, |b1|, lt, rt);
    PassKeeps(b1, a1, indexB - parents, indexA - gone, lt, rt);
    WithoutMarked(a, gone, b, parents);
    WithoutMarked(a1, parents', b1, gone');
    BoundKept(a, gone, nextA);
    BoundKept(b, parents, nextB);
    BoundKept(a1, parents', nextA);
    BoundKept(b1, gone', nextB);
  }

  lemma BoundKept(s: EntryList, gone: set<nat>, next: nat)
    requires forall k | 0 <= k < |s| :: s[k].index < next
    ensures forall k | 0 <= k < |Without(s, gone)| :: Without(s, gone)[k].index < next
  {
    forall j | 0 <= j < |Without(s, gone)| ensures Without(s, gone)[j].index < next {
      var k := WithoutAt(s, gone, j);
    }
  }

  /** And the maps become what the spec's compaction says. */
  lemma CompactAsMap(a: EntryList, b: EntryList, lt: nat, rt: nat)
    requires Sorted(a) && Sorted(b)
    ensures var (gone, parents) := (EvictTo(a, |a|, lt, rt), ParentsTo(a, |a|, lt, rt));
            var (a1, b1) := (Without(a, gone), Without(b, parents));
            && gone == Evicted(AsMap(a), lt, rt) && parents == EvictedParents(AsMap(a), lt, rt)
            && Sorted(a1) && AsMap(a1) == AsMap(a) - gone && Sorted(b1) && AsMap(b1) == AsMap(b) - parents
  {
    hide AsMap, Without, EvictTo, ParentsTo, Evicted, EvictedParents, Sorted;
    EvictAgrees(a, lt, rt);
    WithoutAsMap(a, EvictTo(a, |a|, lt, rt));
    WithoutAsMap(b, ParentsTo(a, |a|, lt, rt));
  }

  /** No removal in the list names this Add. */
  ghost predicate Unsettled(log: EntryList, logIndex: nat) {
    forall k | 0 <= k < |log| && !log[k].kind.AddEntry? :: log[k].parent != logIndex
  }

  lemma SettleSent(a: EntryList, b: EntryList, indexA: set<nat>, indexB: set<nat>, nextA: nat, nextB: nat, k: nat, e: Entry)
    requires ListsOk(a, b, indexA, indexB, nextA, nextB) && e.index == nextA && !e.kind.AddEntry?
    requires k < |b| && b[k].kind.AddEntry? && !b[k].settled && e.parent == b[k].index
    ensures Sorted(a) && Sorted(b) && Sorted(a + [e]) && Sorted(b[k := b[k].(settled := true)])
    ensures b[k].index in AsMap(b) && AsMap(b)[b[k].index] == b[k]
    ensures AsMap(a + [e]) == AsMap(a)[nextA := e]
    ensures AsMap(b[k := b[k].(settled := true)]) == AsMap(b)[b[k].index := b[k].(settled := true)]
    ensures ListsOk(a + [e], b[k := b[k].(settled := true)], indexA, indexB, nextA + 1, nextB)
  {
    PushSettleA(a, b, indexA, indexB, nextA, nextB, k, e);
    ListsPush(a, b, indexA, indexB, nextA, nextB);
    ListsPush(a + [e], b[k := b[k].(settled := true)], indexA, indexB, nextA + 1, nextB);
    AsMapAt(b, k);
    hide ListsOk, AsMap;
    PushSide(a, e, nextA);
  }

  lemma SettleReceived(a: EntryList, b: EntryList, indexA: set<nat>, indexB: set<nat>, nextA: nat, nextB: nat, e: Entry)
    requires ListsOk(a, b, indexA, indexB, nextA, nextB) && e.index == nextB && !e.kind.AddEntry? && e.parent in indexA
    ensures Sorted(b + [e]) && Sorted(b) && AsMap(b + [e]) == AsMap(b)[nextB := e]
    ensures Unsettled(b, e.parent) ==> ListsOk(a, b + [e], indexA, indexB, nextA, nextB + 1)
  {
    ListsPush(a, b, indexA, indexB, nextA, nextB);
    hide ListsOk, AsMap;
    PushSide(b, e, nextB);
    if Unsettled(b, e.parent) {
      PushSettleB(a, b, indexA, indexB, nextA, nextB, e);
    }
  }

  class LightningChannel {
    const cr: Crypto
    const cfg: Config

    var ourUpdateLog: EntryList
    var theirUpdateLog: EntryList
    var ourLogIndex: set<nat>
    var theirLogIndex: set<nat>
    var ourLogCounter: nat
    var theirLogCounter: nat
    var currentHeight: nat
    var revocationWindowEdge: nat
    var usedRevocations: seq<Revocation>
    var revocationWindow: seq<Revocation>
    var remoteCommitChain: seq<Commitment>
    var localCommitChain: seq<Commitment>
    var theirCurrentRevocation: Revocation
    var remoteElkrem: seq<Elk.Node>
    var saved: Delta
    var revocationLog: map<nat, Delta>

    ghost predicate Shaped()
      reads this
    {
      Sorted(ourUpdateLog) && Sorted(theirUpdateLog)
    }

    ghost predicate Valid()
      reads this
    {
      && Shaped()
      && ListsOk(ourUpdateLog, theirUpdateLog, ourLogIndex, theirLogIndex, ourLogCounter, theirLogCounter)
      && remoteCommitChain != [] && localCommitChain != []
    }

    /** The channel as a value of the specification. */
    ghost function State(): Party
      reads this
      requires Shaped()
    {
      Party(cfg, AsMap(ourUpdateLog), AsMap(theirUpdateLog), ourLogIndex, theirLogIndex,
            ourLogCounter, theirLogCounter, currentHeight, revocationWindowEdge, usedRevocations, revocationWindow,
            remoteCommitChain, localCommitChain, theirCurrentRevocation, remoteElkrem, saved, revocationLog)
    }

    /** NewLightningChannel for a channel without history. */
    constructor (cr: Crypto, cfg: Config, ourBalance: int, theirBalance: int, firstKey: PubKey)
      ensures Valid() && this.cr == cr && this.cfg == cfg
      ensures State() == Opened(cr, cfg, ourBalance, theirBalance, firstKey)
    {
      this.cr, this.cfg := cr, cfg;
      ourUpdateLog, theirUpdateLog, ourLogIndex, theirLogIndex := [], [], {}, {};
      ourLogCounter, theirLogCounter, currentHeight, revocationWindowEdge := 0, 0, 0, 0;
      usedRevocations, revocationWindow := [], [];
      var base := Commitment(0, 0, 0, ourBalance, theirBalance, [], [], Revocation(firstKey, ZeroHash()));
      remoteCommitChain := [base];
      localCommitChain := [base.(revocation := OwnRevocation(cr, cfg, 0))];
      theirCurrentRevocation := Revocation(firstKey, ZeroHash());
      remoteElkrem, saved, revocationLog := [], Delta(ourBalance, theirBalance, 0, []), map[];
    }

    method AddHTLC(amount: int, rhash: Hash, timeout: nat) returns (index: nat)
      requires Valid()
      modifies this
      ensures Valid() && State() == Spec.AddHTLC(old(State()), amount, rhash, timeout)
      ensures index == old(ourLogCounter)
    {
      hide ListsOk, AsMap;
      index := ourLogCounter;
      var pd := NewEntry(AddEntry, rhash, timeout, amount, index, 0);
      PushAddA(ourUpdateLog, theirUpdateLog, ourLogIndex, theirLogIndex, ourLogCounter, theirLogCounter, pd);
      ListsPush(ourUpdateLog, theirUpdateLog, ourLogIndex, theirLogIndex, ourLogCounter, theirLogCounter);
      PushSide(ourUpdateLog, pd, index);
      ourUpdateLog := ourUpdateLog + [pd];
      ourLogIndex := ourLogIndex + {index};
      ourLogCounter := ourLogCounter + 1;
    }

    method ReceiveHTLC(amount: int, rhash: Hash, timeout: nat) returns (index: nat)
      requires Valid()
      modifies this
      ensures Valid() && State() == Spec.ReceiveHTLC(old(State()), amount, rhash, timeout)
      ensures index == old(theirLogCounter)
    {
      hide ListsOk, AsMap;
      index := theirLogCounter;
      var pd := NewEntry(AddEntry, rhash, timeout, amount, index, 0);
      PushAddB(ourUpdateLog, theirUpdateLog, ourLogIndex, theirLogIndex, ourLogCounter, theirLogCounter, pd);
      ListsPush(ourUpdateLog, theirUpdateLog, ourLogIndex, theirLogIndex, ourLogCounter, theirLogCounter);
      PushSide(theirUpdateLog, pd, index);
      theirUpdateLog := theirUpdateLog + [pd];
      theirLogIndex := theirLogIndex + {index};
      theirLogCounter := theirLogCounter + 1;
    }

    /** The first unsettled Add with the payment hash, by walking the list. */
    method FindUnsettled(paymentHash: Hash) returns (k: nat)
      requires Valid()
      ensures k <= |theirUpdateLog|
      ensures Valid() && FirstCandidate(State().theirLog, 0, theirLogCounter, paymentHash)
           == if k < |theirUpdateLog| then Some(theirUpdateLog[k].index) else None
      ensures k < |theirUpdateLog| ==> theirUpdateLog[k].kind.AddEntry? && !theirUpdateLog[k].settled
    {
      k := 0;
      while k < |theirUpdateLog|
        invariant 0 <= k <= |theirUpdateLog|
        invariant forall j | 0 <= j < k :: !CandidateEntry(theirUpdateLog[j], paymentHash)
      {
        var htlc := theirUpdateLog[k];
        if htlc.kind.AddEntry? {
          if !htlc.settled && htlc.rhash == paymentHash { break; }
        }
        k := k + 1;
      }
      FirstInList(theirUpdateLog, theirLogCounter, paymentHash, k);
    }

    method SettleHTLC(preimage: Hash) returns (r: Option<nat>)
      requires Valid()
      modifies this
      ensures Valid()
      ensures var step := Spec.SettleHTLC(cr, old(State()), preimage);
              State() == step.party && r == if step.Ok? then Some(step.value) else None
    {
      var k := FindUnsettled(cr.sha256(preimage));
      if k == |theirUpdateLog| { return None; }
      hide ListsOk, AsMap, FirstCandidate;
      var parent := theirUpdateLog[k];
      var pd := NewEntry(SettleEntry, ZeroHash(), 0, parent.amount, ourLogCounter, parent.index);
      SettleSent(ourUpdateLog, theirUpdateLog, ourLogIndex, theirLogIndex, ourLogCounter, theirLogCounter, k, pd);
      theirUpdateLog := theirUpdateLog[k := parent.(settled := true)];
      ourUpdateLog := ourUpdateLog + [pd];
      ourLogCounter := ourLogCounter + 1;
      r := Some(parent.index);
    }

    /** The entry a log index leads to. */
    method Lookup(log: EntryList, index: nat) returns (k: nat)
      requires Sorted(log) && index in AddsIn(log)
      ensures k < |log| && log[k].index == index && log[k].kind.AddEntry?
    {
      k := 0;
      ghost var at: nat :| at < |log| && log[at].kind.AddEntry? && log[at].index == index;
      IndexUnique(log, at);
      while log[k].index != index
        invariant 0 <= k <= at
        decreases at - k
      {
        k := k + 1;
      }
    }

    /** The peer settles one of our Adds. A second settle of the same Add is taken as well; the
    logs are then no longer fit for compaction. */
    method ReceiveHTLCSettle(preimage: Hash, logIndex: nat) returns (ok: bool)
      requires Valid()
      modifies this
      ensures Shaped() && (!ok || Unsettled(old(theirUpdateLog), logIndex) ==> Valid())
      ensures var step := Spec.ReceiveHTLCSettle(cr, old(State()), preimage, logIndex);
              State() == step.party && ok == step.Ok?
    {
      if logIndex !in ourLogIndex { return false; }
      var k := Lookup(ourUpdateLog, logIndex);
      AsMapAt(ourUpdateLog, k);
      hide ListsOk, AsMap;
      var htlc := ourUpdateLog[k];
      if htlc.rhash != cr.sha256(preimage) { return false; }
      var pd := NewEntry(SettleEntry, ZeroHash(), 0, htlc.amount, theirLogCounter, htlc.index);
      hide Unsettled;
      SettleReceived(ourUpdateLog, theirUpdateLog, ourLogIndex, theirLogIndex, ourLogCounter, theirLogCounter, pd);
      theirUpdateLog := theirUpdateLog + [pd];
      theirLogCounter := theirLogCounter + 1;
      ok := true;
    }

    /** Evaluate both logs on top of a chain: the new commitment, and the stamped logs. */
    method FetchCommitmentView(c: Chain, ourIndex: nat, theirIndex: nat, rev: Revocation) returns (view: Commitment)
      requires Valid()
      modifies this`ourUpdateLog, this`theirUpdateLog
      ensures Valid()
      ensures view == ViewAt(old(State()), c, ourIndex, theirIndex, rev)
      ensures State() == Evaluated(old(State()), c, ourIndex, theirIndex)
    {
      hide ListsOk, AsMap, MarkLog, SkipSet, Credit, Debit, Live;
      var tip := Tip(if c.Remote? then remoteCommitChain else localCommitChain);
      ListsPush(ourUpdateLog, theirUpdateLog, ourLogIndex, theirLogIndex, ourLogCounter, theirLogCounter);
      var ours, theirs;
      ours, theirs, view := EvaluateHTLCView(ourUpdateLog, theirUpdateLog, tip, c, ourIndex, theirIndex, rev);
      AlikeLists(ourUpdateLog, ours, theirUpdateLog, theirs, ourLogIndex, theirLogIndex, ourLogCounter, theirLogCounter);
      hide Alike;
      ourUpdateLog, theirUpdateLog := ours, theirs;
    }

    /** Sign the next commitment of the peer's chain; refused when the window is exhausted. */
    method SignNextCommitment() returns (r: Option<(Signature, nat)>)
      requires Valid()
      modifies this
      ensures Valid()
      ensures var step := Spec.SignNextCommitment(old(State()));
              State() == step.party && r == if step.Ok? then Some(step.value) else None
    {
      hide ListsOk, AsMap, SignatureOf;
      if |revocationWindow| == 0 || |usedRevocations| == INITIAL_REVOCATION_WINDOW { return None; }
      var next := revocationWindow[0];
      var view := FetchCommitmentView(Remote, ourLogCounter, theirLogCounter, next);
      hide ViewAt;
      remoteCommitChain := remoteCommitChain + [view];
      usedRevocations := usedRevocations + [next];
      revocationWindow := revocationWindow[1..];
      r := Some((SignatureOf(cfg, Remote, view), theirLogCounter));
    }

    /** Rebuild the commitment a signature claims to cover, and accept it if they match. */
    method ReceiveNewCommitment(sig: Signature, ourIndex: nat) returns (ok: bool)
      requires Valid()
      modifies this
      ensures Valid()
      ensures var step := Spec.ReceiveNewCommitment(cr, old(State()), sig, ourIndex);
              State() == step.party && ok == step.Ok?
    {
      hide ListsOk, AsMap, SignatureOf, OwnRevocation;
      var nextHeight := currentHeight + 1;
      if nextHeight > Elk.MAX_INDEX { return false; }
      var view := FetchCommitmentView(Local, ourIndex, theirLogCounter, OwnRevocation(cr, cfg, nextHeight));
      hide ViewAt;
      if sig != SignatureOf(cfg, Local, view) { return false; }
      localCommitChain := localCommitChain + [view];
      ok := true;
    }

    /** Revoke the tail of our own chain. */
    method RevokeCurrentCommitment() returns (r: Option<RevMsg>)
      requires Valid() && |localCommitChain| >= 2
      modifies this
      ensures Valid()
      ensures var step := Spec.RevokeCurrentCommitment(cr, old(State()));
              State() == step.party && r == if step.Ok? then Some(step.value) else None
    {
      hide ListsOk, AsMap, OwnRevocation, ToChannelDelta, Elk.SecretAt;
      if currentHeight > Elk.MAX_INDEX { return None; }
      var secret := Elk.SecretAt(cr.dsha, cfg.root, currentHeight);
      revocationWindowEdge := revocationWindowEdge + 1;
      if revocationWindowEdge > Elk.MAX_INDEX { return None; }
      localCommitChain := localCommitChain[1..];
      currentHeight := currentHeight + 1;
      saved := ToChannelDelta(localCommitChain[0]);
      r := Some(RevMsg(secret, OwnRevocation(cr, cfg, revocationWindowEdge)));
    }

    method ExtendRevocationWindow() returns (r: Option<RevMsg>)
      requires Valid()
      modifies this
      ensures Valid()
      ensures var step := Spec.ExtendRevocationWindow(cr, old(State()));
              State() == step.party && r == if step.Ok? then Some(step.value) else None
    {
      hide ListsOk, AsMap, OwnRevocation;
      var nextHeight := revocationWindowEdge + 1;
      if nextHeight > Elk.MAX_INDEX { return None; }
      r := Some(RevMsg(ZeroHash(), OwnRevocation(cr, cfg, nextHeight)));
      revocationWindowEdge := revocationWindowEdge + 1;
    }

    /** Drop every removal both tails have applied, with its Add. */
    method CompactLogs(localTail: nat, remoteTail: nat)
      requires Valid()
      modifies this`ourUpdateLog, this`theirUpdateLog, this`ourLogIndex, this`theirLogIndex
      ensures Valid() && State() == Spec.CompactLogs(old(State()), localTail, remoteTail)
    {
      hide ListsOk, AsMap, Evicted, EvictedParents;
      ourUpdateLog, theirUpdateLog, ourLogIndex, theirLogIndex :=
        CompactLists(ourUpdateLog, theirUpdateLog, ourLogIndex, theirLogIndex, ourLogCounter, theirLogCounter,
                     localTail, remoteTail);
      ListsPush(ourUpdateLog, theirUpdateLog, ourLogIndex, theirLogIndex, ourLogCounter, theirLogCounter);
    }

    /** Release what the new tails allow, then compact. */
    method ReleaseAndCompact() returns (out: EntryList)
      requires Valid()
      modifies this`ourUpdateLog, this`theirUpdateLog, this`ourLogIndex, this`theirLogIndex
      ensures Valid()
      ensures var (p, lt, rt) := (old(State()), localCommitChain[0].height, remoteCommitChain[0].height);
              && State() == Spec.CompactLogs(p.(theirLog := MarkForwards(p.theirLog, lt, rt)), lt, rt)
              && out == Forwards(p.theirLog, p.theirCounter, lt, rt)
    {
      var remoteTail, localTail := remoteCommitChain[0].height, localCommitChain[0].height;
      var log;
      log, out := ForwardPass(theirUpdateLog, localTail, remoteTail);
      ForwardsAgree(theirUpdateLog, theirLogCounter, localTail, remoteTail);
      ForwardMarks(theirUpdateLog, log, localTail, remoteTail);
      AlikeLists(ourUpdateLog, ourUpdateLog, theirUpdateLog, log, ourLogIndex, theirLogIndex, ourLogCounter, theirLogCounter);
      hide ListsOk, AsMap, ForwardsTo, ForwardNow, Forwards, MarkForwards, Spec.CompactLogs, Alike;
      theirUpdateLog := log;
      CompactLogs(localTail, remoteTail);
    }

    /** The preimage fits the peer's tree and the revocation key we hold. */
    predicate Fits(msg: RevMsg)
      reads this
    {
      && Elk.AddNext(cr.dsha, remoteElkrem, msg.preimage).Some?
      && cr.derive(cfg.ourCommitKey, msg.preimage) == theirCurrentRevocation.key
      && (theirCurrentRevocation.hash == ZeroHash() || theirCurrentRevocation.hash == cr.sha256(msg.preimage))
    }

    /** Move on to the next used revocation, record the revoked state and drop it. */
    method RotateRevocation(msg: RevMsg)
      requires Valid() && |usedRevocations| > 0 && |remoteCommitChain| >= 2
      modifies this`theirCurrentRevocation, this`usedRevocations, this`revocationWindow, this`revocationLog, this`remoteCommitChain
      ensures Valid()
      ensures var p := old(State());
              var delta := ToChannelDelta(p.remoteChain[0]);
              State() == p.(theirRevocation := p.used[0], used := p.used[1..], window := p.window + [msg.next],
                            revocationLog := p.revocationLog[delta.updateNum := delta], remoteChain := p.remoteChain[1..])
    {
      hide ListsOk, AsMap, ToChannelDelta;
      theirCurrentRevocation := usedRevocations[0];
      usedRevocations := usedRevocations[1..];
      revocationWindow := revocationWindow + [msg.next];
      var delta := ToChannelDelta(remoteCommitChain[0]);
      revocationLog := revocationLog[delta.updateNum := delta];
      remoteCommitChain := remoteCommitChain[1..];
    }

    /** Process a revocation; a fitting one needs a used revocation and a commitment above
    the tail, which every run of honest parties provides. */
    method ReceiveRevocation(msg: RevMsg) returns (r: Option<EntryList>)
      requires Valid()
      requires msg.preimage != ZeroHash() && Fits(msg) ==> |usedRevocations| > 0 && |remoteCommitChain| >= 2
      modifies this
      ensures Valid()
      ensures var step := Spec.ReceiveRevocation(cr, old(State()), msg);
              State() == step.party && r == if step.Ok? then Some(step.value) else None
    {
      hide ListsOk, AsMap, ToChannelDelta, Spec.CompactLogs, Forwards, MarkForwards, ZeroHash, Elk.AddNext;
      if msg.preimage == ZeroHash() {
        revocationWindow := revocationWindow + [msg.next];
        return Some([]);
      }
      var stack := Elk.AddNext(cr.dsha, remoteElkrem, msg.preimage);
      if stack.None? { return None; }
      var fits := Fits(msg);
      remoteElkrem := stack.value;
      if !fits { return None; }
      RotateRevocation(msg);
      var out := ReleaseAndCompact();
      r := Some(out);
    }
  }

  /** Two passes over each log: first the removals of both, then the Adds that stay. */
  method EvaluateHTLCView(ours: EntryList, theirs: EntryList, tip: Commitment, c: Chain,
                          ourIndex: nat, theirIndex: nat, rev: Revocation)
    returns (ours': EntryList, theirs': EntryList, view: Commitment)
    requires Sorted(ours) && Sorted(theirs)
    ensures Alike(ours, ours') && Alike(theirs, theirs') && Sorted(ours') && Sorted(theirs')
    ensures var (log, log', h) := (AsMap(ours), AsMap(theirs), tip.height + 1);
            var (skipUs, skipThem) := (SkipSet(log', theirIndex), SkipSet(log, ourIndex));
            && AsMap(ours') == MarkLog(log, ourIndex, c, skipUs, h)
            && AsMap(theirs') == MarkLog(log', theirIndex, c, skipThem, h)
            && view == Commitment(
                 h, ourIndex, theirIndex,
                 tip.ourBalance + Credit(log, ourIndex, c, SettleEntry) + Credit(log', theirIndex, c, TimeoutEntry)
                 - Debit(log, ourIndex, c, skipUs),
                 tip.theirBalance + Credit(log', theirIndex, c, SettleEntry) + Credit(log, ourIndex, c, TimeoutEntry)
                 - Debit(log', theirIndex, c, skipThem),
                 Live(log, ourIndex, skipUs), Live(log', theirIndex, skipThem), rev)
  {
    hide AsMap, MarkLog, SkipSet, SkipTo, Credit, Debit, Live, CreditTo, DebitTo, LiveTo, AfterAdds, AfterRemoves, Alike;
    var h := tip.height + 1;
    var our1, ourBalance, theirBalance, skipThem := RemovePass(ours, ourIndex, c, h, true, tip.ourBalance, tip.theirBalance);
    var their1, skipUs;
    their1, ourBalance, theirBalance, skipUs := RemovePass(theirs, theirIndex, c, h, false, ourBalance, theirBalance);
    var outgoing, incoming;
    ours', ourBalance, outgoing := AddPass(our1, ourIndex, c, h, skipUs, ourBalance);
    theirs', theirBalance, incoming := AddPass(their1, theirIndex, c, h, skipThem, theirBalance);
    view := Commitment(h, ourIndex, theirIndex, ourBalance, theirBalance, outgoing, incoming, rev);
    EvaluationAgrees(ours, our1, ours', ourIndex, c, h, skipUs);
    EvaluationAgrees(theirs, their1, theirs', theirIndex, c, h, skipThem);
    SkipAgrees(ours, ourIndex);
    SkipAgrees(theirs, theirIndex);
  }

  /** Compaction of both logs, our removals first. */
  method CompactLists(a: EntryList, b: EntryList, indexA: set<nat>, indexB: set<nat>, ghost nextA: nat, ghost nextB: nat,
                      lt: nat, rt: nat)
    returns (a': EntryList, b': EntryList, indexA': set<nat>, indexB': set<nat>)
    requires ListsOk(a, b, indexA, indexB, nextA, nextB)
    ensures ListsOk(a', b', indexA', indexB', nextA, nextB)
    ensures var (log, log') := (AsMap(a), AsMap(b));
            var rest := log' - EvictedParents(log, lt, rt);
            && AsMap(a') == log - Evicted(log, lt, rt) - EvictedParents(rest, lt, rt)
            && AsMap(b') == rest - Evicted(rest, lt, rt)
            && indexA' == indexA - Evicted(log, lt, rt) - EvictedParents(rest, lt, rt)
            && indexB' == indexB - EvictedParents(log, lt, rt) - Evicted(rest, lt, rt)
  {
    ListsPush(a, b, indexA, indexB, nextA, nextB);
    assert Linked(a, indexB);
    hide ListsOk, AsMap, Without, EvictTo, ParentsTo, Evicted, EvictedParents, Linked, Sorted;
    CompactKeeps(a, b, indexA, indexB, nextA, nextB, lt, rt);
    CompactAsMap(a, b, lt, rt);
    var a1, b1, indexB1, indexA1 := CompactLog(a, b, indexB, indexA, lt, rt);
    CompactAsMap(b1, a1, lt, rt);
    b', a', indexA', indexB' := CompactLog(b1, a1, indexA1, indexB1, lt, rt);
    ListsPush(a', b', indexA', indexB', nextA, nextB);
  }

  ghost predicate CandidateEntry(e: Entry, paymentHash: Hash) {
    e.kind.AddEntry? && !e.settled && e.rhash == paymentHash
  }

  lemma FirstInList(log: EntryList, next: nat, paymentHash: Hash, k: nat)
    requires Sorted(log) && k <= |log| && (forall j | 0 <= j < |log| :: log[j].index < next)
    requires forall j | 0 <= j < k :: !CandidateEntry(log[j], paymentHash)
    requires k < |log| ==> CandidateEntry(log[k], paymentHash)
    ensures FirstCandidate(AsMap(log), 0, next, paymentHash) == if k < |log| then Some(log[k].index) else None
  {
    var m := AsMap(log);
    var r := FirstCandidate(m, 0, next, paymentHash);
    if k < |log| {
      AsMapAt(log, k);
      assert SettleCandidate(m, log[k].index, paymentHash);
    }
    if r.Some? {
      var j := AsMapFrom(log, r.value);
      assert CandidateEntry(log[j], paymentHash);
    }
  }

  lemma ListsPush(a: EntryList, b: EntryList, indexA: set<nat>, indexB: set<nat>, nextA: nat, nextB: nat)
    requires ListsOk(a, b, indexA, indexB, nextA, nextB)
    ensures Sorted(a) && Sorted(b) && indexA == AddsIn(a) && indexB == AddsIn(b)
    ensures (forall k | 0 <= k < |a| :: a[k].index < nextA) && (forall k | 0 <= k < |b| :: b[k].index < nextB)
  {
  }

  lemma ForwardMarks(log: EntryList, log': EntryList, lt: nat, rt: nat)
    requires Sorted(log) && |log'| == |log|
    requires forall j | 0 <= j < |log| ::
               log'[j] == if ForwardNow(log[j], lt, rt) then log[j].(isForwarded := true) else log[j]
    ensures Sorted(log') && AsMap(log') == MarkForwards(AsMap(log), lt, rt) && Alike(log, log')
  {
    hide ForwardNow, AsMap, MarkForwards;
    var m := MarkForwards(AsMap(log), lt, rt);
    assert m.Keys == AsMap(log).Keys by {
      MarkForwardsKeys(AsMap(log), lt, rt);
    }
    forall j | 0 <= j < |log| ensures log[j].index in m && m[log[j].index] == log'[j] {
      AsMapAt(log, j);
      MarkForwardsAt(AsMap(log), lt, rt, log[j].index);
    }
    AsMapPointwise(log, log', m);
  }

  lemma MarkForwardsKeys(log: Log, lt: nat, rt: nat)
    ensures MarkForwards(log, lt, rt).Keys == log.Keys
  {
    hide ForwardNow;
  }

  lemma MarkForwardsAt(log: Log, lt: nat, rt: nat, i: nat)
    requires i in log
    ensures i in MarkForwards(log, lt, rt)
    ensures MarkForwards(log, lt, rt)[i] == if ForwardNow(log[i], lt, rt) then log[i].(isForwarded := true) else log[i]
  {
    hide ForwardNow;
  }

  lemma PassesAlike(log: EntryList, log1: EntryList, log2: EntryList, n: nat, c: Chain, h: nat, skip: set<nat>)
    requires |log1| == |log| && |log2| == |log|
    requires forall j | 0 <= j < |log| :: log1[j] == AfterRemoves(log[j], n, c, h)
    requires forall j | 0 <= j < |log| :: log2[j] == AfterAdds(log1[j], n, c, h, skip)
    ensures Alike(log, log2)
  {
  }

  /** The passes over one log do what the spec's evaluation does with it. */
  lemma EvaluationAgrees(log: EntryList, log1: EntryList, log2: EntryList, n: nat, c: Chain, h: nat, skip: set<nat>)
    requires Sorted(log) && |log1| == |log| && |log2| == |log|
    requires forall j | 0 <= j < |log| :: log1[j] == AfterRemoves(log[j], n, c, h)
    requires forall j | 0 <= j < |log| :: log2[j] == AfterAdds(log1[j], n, c, h, skip)
    ensures Sorted(log2) && AsMap(log2) == MarkLog(AsMap(log), n, c, skip, h) && Alike(log, log2)
    ensures CreditTo(log, |log|, n, c, SettleEntry) == Credit(AsMap(log), n, c, SettleEntry)
    ensures CreditTo(log, |log|, n, c, TimeoutEntry) == Credit(AsMap(log), n, c, TimeoutEntry)
    ensures DebitTo(log1, |log1|, n, c, skip) == Debit(AsMap(log), n, c, skip)
    ensures LiveTo(log1, |log1|, n, skip) == Live(AsMap(log), n, skip)
  {
    hide AsMap, MarkLog, CreditTo, DebitTo, LiveTo, Credit, Debit, Live, AfterRemoves, AfterAdds, Sorted, Alike;
    PassesAlike(log, log1, log2, n, c, h, skip);
    PassesMark(log, log1, log2, n, c, h, skip);
    AddsUntouched(log, log1, |log|, n, c, h, skip);
    FoldsAgree(log, n, c, SettleEntry, skip);
    FoldsAgree(log, n, c, TimeoutEntry, skip);
  }
}
