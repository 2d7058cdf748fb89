/** The update logs as lists, the way the channel keeps them, and the loops over them.
Each loop is proved against the map-based functions of ChannelSpec.

An entry is found through its log index, which plays the part of the list element
pointer kept in the index map.
 */
module ChannelLists {
  import opened Primitives
  import opened Ledger
  import opened ChannelSpec

  type EntryList = seq<Entry>

  ghost predicate Sorted(s: EntryList) {
    forall j, k | 0 <= j < k < |s| :: s[j].index < s[k].index
  }

  ghost function AsMap(s: EntryList): Log
    requires Sorted(s)
  {
    map k | 0 <= k < |s| :: s[k].index := s[k]
  }

  lemma AsMapAt(s: EntryList, k: nat)
    requires Sorted(s) && k < |s|
    ensures s[k].index in AsMap(s) && AsMap(s)[s[k].index] == s[k]
  {
  }

  lemma AsMapFrom(s: EntryList, i: nat) returns (k: nat)
    requires Sorted(s) && i in AsMap(s)
    ensures k < |s| && s[k].index == i && s[k] == AsMap(s)[i]
  {
    k :| k < |s| && s[k].index == i;
  }

  /** Two lists with the same entries at the same indexes are the same map. */
  lemma AsMapPush(s: EntryList, e: Entry)
    requires Sorted(s) && (forall k | 0 <= k < |s| :: s[k].index < e.index)
    ensures Sorted(s + [e]) && AsMap(s + [e]) == AsMap(s)[e.index := e]
  {
    var t := s + [e];
    var m, m' := AsMap(s)[e.index := e], AsMap(t);
    forall i | i in m' ensures i in m && m'[i] == m[i] {
      var k := AsMapFrom(t, i);
      if k < |s| {
        AsMapAt(s, k);
      }
    }
    forall i | i in m ensures i in m' {
      if i == e.index {
        AsMapAt(t, |s|);
      } else {
        var k := AsMapFrom(s, i);
        AsMapAt(t, k);
        assert t[k] == s[k];
      }
    }
  }

  /** Changing entries in place changes the map entry by entry. */
  lemma AsMapPointwise(s: EntryList, t: EntryList, m: Log)
    requires Sorted(s) && |t| == |s| && (forall k | 0 <= k < |s| :: t[k].index == s[k].index)
    requires m.Keys == AsMap(s).Keys
    requires forall k | 0 <= k < |s| :: s[k].index in m && m[s[k].index] == t[k]
    ensures Sorted(t) && AsMap(t) == m
  {
    assert Sorted(t) by {
      forall j, k | 0 <= j < k < |t| ensures t[j].index < t[k].index {
        assert s[j].index < s[k].index;
      }
    }
    forall i | i in m ensures i in AsMap(t) && AsMap(t)[i] == m[i] {
      var k := AsMapFrom(s, i);
      AsMapAt(t, k);
    }
    forall i | i in AsMap(t) ensures i in m {
      var k := AsMapFrom(t, i);
    }
  }

  /* --- folds over the first k entries ---------------------------------------------- */

  function CreditTo(s: EntryList, k: nat, n: nat, c: Chain, kind: EntryType): int
    requires k <= |s|
  {
    if k == 0 then 0
    else
      var e := s[k - 1];
      CreditTo(s, k - 1, n, c, kind)
      + if e.index < n && e.kind == kind && RemoveHeight(e, c) == 0 then e.amount else 0
  }

  function DebitTo(s: EntryList, k: nat, n: nat, c: Chain, skip: set<nat>): int
    requires k <= |s|
  {
    if k == 0 then 0
    else
      var e := s[k - 1];
      DebitTo(s, k - 1, n, c, skip)
      + if e.index < n && e.kind.AddEntry? && e.index !in skip && AddHeight(e, c) == 0 then e.amount else 0
  }

  function LiveTo(s: EntryList, k: nat, n: nat, skip: set<nat>): seq<Htlc>
    requires k <= |s|
  {
    if k == 0 then []
    else
      var e := s[k - 1];
      if e.index < n && e.kind.AddEntry? && e.index !in skip then LiveTo(s, k - 1, n, skip) + [HtlcOf(e)]
      else LiveTo(s, k - 1, n, skip)
  }

  function ForwardsTo(s: EntryList, k: nat, lt: nat, rt: nat): EntryList
    requires k <= |s|
  {
    if k == 0 then []
    else
      var e := s[k - 1];
      if ForwardNow(e, lt, rt) then ForwardsTo(s, k - 1, lt, rt) + [e.(isForwarded := true)]
      else ForwardsTo(s, k - 1, lt, rt)
  }

  function SkipTo(s: EntryList, k: nat, n: nat): set<nat>
    requires k <= |s|
  {
    if k == 0 then {}
    else
      var e := s[k - 1];
      SkipTo(s, k - 1, n) + if e.index < n && !e.kind.AddEntry? then {e.parent} else {}
  }

  /** The first `k` entries are exactly those with an index below `m`. */
  ghost predicate Splits(s: EntryList, k: nat, m: nat) {
    k <= |s| && (forall j | 0 <= j < k :: s[j].index < m) && (forall j | k <= j < |s| :: s[j].index >= m)
  }

  lemma Edge(s: EntryList, k: nat, m: nat)
    requires Sorted(s) && Splits(s, k, m) && m > 0
    ensures m - 1 in AsMap(s) <==> k > 0 && s[k - 1].index == m - 1
    ensures if m - 1 in AsMap(s) then Splits(s, k - 1, m - 1) && AsMap(s)[m - 1] == s[k - 1] else Splits(s, k, m - 1)
  {
    if m - 1 in AsMap(s) {
      var j := AsMapFrom(s, m - 1);
      var last := s[k - 1].index;
      assert last < m;
    } else {
      forall j | 0 <= j < k ensures s[j].index < m - 1 {
        AsMapAt(s, j);
      }
    }
    if k > 0 {
      AsMapAt(s, k - 1);
    }
  }

  function Min(a: nat, b: nat): nat {
    if a < b then a else b
  }

  lemma {:induction false} CreditSplit(s: EntryList, k: nat, m: nat, n: nat, c: Chain, kind: EntryType)
    requires Sorted(s) && Splits(s, k, m)
    ensures CreditTo(s, k, n, c, kind) == Credit(AsMap(s), Min(m, n), c, kind)
    decreases m
  {
    hide AsMap, Splits;
    if m > 0 {
      Edge(s, k, m);
      CreditSplit(s, if m - 1 in AsMap(s) then k - 1 else k, m - 1, n, c, kind);
    } else {
      SplitsAtZero(s, k);
    }
  }

  lemma SplitsAtZero(s: EntryList, k: nat)
    requires Splits(s, k, 0)
    ensures k == 0
  {
    assert k > 0 ==> s[0].index < 0;
  }

  lemma {:induction false} DebitSplit(s: EntryList, k: nat, m: nat, n: nat, c: Chain, skip: set<nat>)
    requires Sorted(s) && Splits(s, k, m)
    ensures DebitTo(s, k, n, c, skip) == Debit(AsMap(s), Min(m, n), c, skip)
    decreases m
  {
    hide AsMap, Splits;
    if m > 0 {
      Edge(s, k, m);
      DebitSplit(s, if m - 1 in AsMap(s) then k - 1 else k, m - 1, n, c, skip);
    } else {
      SplitsAtZero(s, k);
    }
  }

  lemma {:induction false} LiveSplit(s: EntryList, k: nat, m: nat, n: nat, skip: set<nat>)
    requires Sorted(s) && Splits(s, k, m)
    ensures LiveTo(s, k, n, skip) == Live(AsMap(s), Min(m, n), skip)
    decreases m
  {
    hide AsMap, Splits;
    if m > 0 {
      Edge(s, k, m);
      LiveSplit(s, if m - 1 in AsMap(s) then k - 1 else k, m - 1, n, skip);
    } else {
      SplitsAtZero(s, k);
    }
  }

  lemma {:induction false} ForwardsSplit(s: EntryList, k: nat, m: nat, lt: nat, rt: nat)
    requires Sorted(s) && Splits(s, k, m)
    ensures ForwardsTo(s, k, lt, rt) == Forwards(AsMap(s), m, lt, rt)
    decreases m
  {
    hide AsMap, Splits;
    if m > 0 {
      Edge(s, k, m);
      ForwardsSplit(s, if m - 1 in AsMap(s) then k - 1 else k, m - 1, lt, rt);
      var before := Forwards(AsMap(s), m - 1, lt, rt);
      assert before + [] == before;
    } else {
      SplitsAtZero(s, k);
    }
  }

  lemma {:induction false} SkipToMember(s: EntryList, k: nat, n: nat, q: nat)
    requires k <= |s|
    ensures q in SkipTo(s, k, n) <==> exists j :: 0 <= j < k && s[j].index < n && !s[j].kind.AddEntry? && s[j].parent == q
    decreases k
  {
    if k > 0 {
      SkipToMember(s, k - 1, n, q);
    }
  }

  /** The folds over the whole list are the spec's folds over the map. */
  lemma FoldsAgree(s: EntryList, n: nat, c: Chain, kind: EntryType, skip: set<nat>)
    requires Sorted(s)
    ensures CreditTo(s, |s|, n, c, kind) == Credit(AsMap(s), n, c, kind)
    ensures DebitTo(s, |s|, n, c, skip) == Debit(AsMap(s), n, c, skip)
    ensures LiveTo(s, |s|, n, skip) == Live(AsMap(s), n, skip)
  {
    var m := if s == [] || s[|s| - 1].index < n then n else s[|s| - 1].index + 1;
    assert Splits(s, |s|, m);
    hide AsMap, Splits, CreditTo, DebitTo, LiveTo, Credit, Debit, Live;
    CreditSplit(s, |s|, m, n, c, kind);
    DebitSplit(s, |s|, m, n, c, skip);
    LiveSplit(s, |s|, m, n, skip);
  }

  lemma ForwardsAgree(s: EntryList, n: nat, lt: nat, rt: nat)
    requires Sorted(s) && (forall k | 0 <= k < |s| :: s[k].index < n)
    ensures ForwardsTo(s, |s|, lt, rt) == Forwards(AsMap(s), n, lt, rt)
  {
    ForwardsSplit(s, |s|, n, lt, rt);
  }

  lemma SkipAgrees(s: EntryList, n: nat)
    requires Sorted(s)
    ensures SkipTo(s, |s|, n) == SkipSet(AsMap(s), n)
  {
    hide SkipTo;
    var log := AsMap(s);
    forall q: nat ensures q in SkipTo(s, |s|, n) <==> q in SkipSet(log, n) {
      SkipToMember(s, |s|, n, q);
      if q in SkipTo(s, |s|, n) {
        var j: nat :| j < |s| && s[j].index < n && !s[j].kind.AddEntry? && s[j].parent == q;
        AsMapAt(s, j);
      }
      if q in SkipSet(log, n) {
        var i: nat :| i in log && i < n && !log[i].kind.AddEntry? && log[i].parent == q;
        var k := AsMapFrom(s, i);
      }
    }
  }

  /* --- the passes of an evaluation ------------------------------------------------------ */

  /** One removal: credited to whom it is due and stamped, unless the chain has applied it. */
  method ProcessRemoveEntry(e: Entry, our0: int, their0: int, h: nat, c: Chain, isIncoming: bool)
    returns (e': Entry, our: int, their: int)
    requires !e.kind.AddEntry?
    ensures e' == MarkEntry(e, c, false, h)
    ensures our + their == our0 + their0 + if RemoveHeight(e, c) == 0 then e.amount else 0
    ensures our == if RemoveHeight(e, c) == 0 && isIncoming == e.kind.SettleEntry? then our0 + e.amount else our0
  {
    e', our, their := e, our0, their0;
    if RemoveHeight(e, c) != 0 { return; }
    if isIncoming && e.kind.SettleEntry? {
      our := our + e.amount;
    } else if isIncoming && e.kind.TimeoutEntry? {
      their := their + e.amount;
    } else if !isIncoming && e.kind.SettleEntry? {
      their := their + e.amount;
    } else {
      our := our + e.amount;
    }
    e' := SetRemoveHeight(e, c, h);
  }

  /** One Add: debited from its sender and stamped, unless the chain has applied it. */
  method ProcessAddEntry(e: Entry, balance0: int, h: nat, c: Chain) returns (e': Entry, balance: int)
    requires e.kind.AddEntry?
    ensures e' == MarkEntry(e, c, false, h)
    ensures balance == balance0 - if AddHeight(e, c) == 0 then e.amount else 0
  {
    e', balance := e, balance0;
    if AddHeight(e, c) != 0 { return; }
    balance := balance - e.amount;
    e' := SetAddHeight(e, c, h);
  }

  /** An entry after the first pass. */
  function AfterRemoves(e: Entry, n: nat, c: Chain, h: nat): Entry {
    if e.index < n && !e.kind.AddEntry? then MarkEntry(e, c, false, h) else e
  }

  /** An entry after the second pass. */
  function AfterAdds(e: Entry, n: nat, c: Chain, h: nat, skip: set<nat>): Entry {
    if e.index < n && e.kind.AddEntry? && e.index !in skip then MarkEntry(e, c, false, h) else e
  }

  /** The first pass: credit every removal below `n` the chain has not applied, stamp it,
  and collect the Adds it clears. `isIncoming` says the removed HTLCs were offered to us. */
  method RemovePass(log: EntryList, n: nat, c: Chain, h: nat, isIncoming: bool, our0: int, their0: int)
    returns (log': EntryList, our: int, their: int, skip: set<nat>)
    ensures |log'| == |log| && (forall j | 0 <= j < |log| :: log'[j] == AfterRemoves(log[j], n, c, h))
    ensures our == our0 + CreditTo(log, |log|, n, c, if isIncoming then SettleEntry else TimeoutEntry)
    ensures their == their0 + CreditTo(log, |log|, n, c, if isIncoming then TimeoutEntry else SettleEntry)
    ensures skip == SkipTo(log, |log|, n)
  {
    log', our, their, skip := log, our0, their0, {};
    hide MarkEntry, RemoveHeight;
    var k := 0;
    while k < |log|
      invariant 0 <= k <= |log| == |log'|
      invariant forall j | 0 <= j < |log| :: log'[j] == if j < k then AfterRemoves(log[j], n, c, h) else log[j]
      invariant our == our0 + CreditTo(log, k, n, c, if isIncoming then SettleEntry else TimeoutEntry)
      invariant their == their0 + CreditTo(log, k, n, c, if isIncoming then TimeoutEntry else SettleEntry)
      invariant skip == SkipTo(log, k, n)
    {
      var e := log'[k];
      if e.index < n && !e.kind.AddEntry? {
        skip := skip + {e.parent};
        e, our, their := ProcessRemoveEntry(e, our, their, h, c, isIncoming);
        log' := log'[k := e];
      }
      k := k + 1;
    }
  }

  /** The second pass: debit every unskipped Add below `n` the chain has not applied,
  stamp it, and list the HTLCs that stay. */
  method AddPass(log: EntryList, n: nat, c: Chain, h: nat, skip: set<nat>, balance0: int)
    returns (log': EntryList, balance: int, live: seq<Htlc>)
    ensures |log'| == |log| && (forall j | 0 <= j < |log| :: log'[j] == AfterAdds(log[j], n, c, h, skip))
    ensures balance == balance0 - DebitTo(log, |log|, n, c, skip)
    ensures live == LiveTo(log, |log|, n, skip)
  {
    log', balance, live := log, balance0, [];
    hide MarkEntry, AddHeight, HtlcOf;
    var k := 0;
    while k < |log|
      invariant 0 <= k <= |log| == |log'|
      invariant forall j | 0 <= j < |log| :: log'[j] == if j < k then AfterAdds(log[j], n, c, h, skip) else log[j]
      invariant balance == balance0 - DebitTo(log, k, n, c, skip)
      invariant live == LiveTo(log, k, n, skip)
    {
      var e := log'[k];
      if e.index < n && e.kind.AddEntry? && e.index !in skip {
        live := live + [HtlcOf(e)];
        e, balance := ProcessAddEntry(e, balance, h, c);
        log' := log'[k := e];
      }
      k := k + 1;
    }
  }

  /** The loop of ReceiveRevocation: what is released to the switch, marked as it goes. */
  method ForwardPass(log: EntryList, lt: nat, rt: nat) returns (log': EntryList, out: EntryList)
    ensures |log'| == |log|
    ensures forall j | 0 <= j < |log| ::
              log'[j] == if ForwardNow(log[j], lt, rt) then log[j].(isForwarded := true) else log[j]
    ensures out == ForwardsTo(log, |log|, lt, rt)
  {
    log', out := log, [];
    var k := 0;
    while k < |log|
      invariant 0 <= k <= |log| == |log'|
      invariant forall j | 0 <= j < |log| ::
                  log'[j] == if j < k && ForwardNow(log[j], lt, rt) then log[j].(isForwarded := true) else log[j]
      invariant out == ForwardsTo(log, k, lt, rt)
    {
      var e := log'[k];
      var uncommitted := e.addRemote == 0 || e.addLocal == 0;
      if !e.isForwarded && !(e.kind.AddEntry? && uncommitted) {
        if (e.kind.AddEntry? && rt >= e.addRemote && lt >= e.addLocal)
           || (!e.kind.AddEntry? && rt >= e.removeRemote && lt >= e.removeLocal) {
          e := e.(isForwarded := true);
          log' := log'[k := e];
          out := out + [e];
        }
      }
      k := k + 1;
    }
  }

  /* --- compaction ------------------------------------------------------------------------- */

  /** The list without the entries whose index is in `gone`. */
  function Without(s: EntryList, gone: set<nat>): EntryList {
    if s == [] then []
    else if s[0].index in gone then Without(s[1..], gone)
    else [s[0]] + Without(s[1..], gone)
  }

  lemma {:induction false} WithoutMember(s: EntryList, gone: set<nat>, e: Entry)
    ensures e in Without(s, gone) <==> e in s && e.index !in gone
  {
    if s != [] {
      WithoutMember(s[1..], gone, e);
    }
  }

  lemma {:induction false} WithoutSorted(s: EntryList, gone: set<nat>)
    requires Sorted(s)
    ensures Sorted(Without(s, gone))
  {
    if s != [] {
      var rest := Without(s[1..], gone);
      WithoutSorted(s[1..], gone);
      forall k | 0 <= k < |rest| ensures s[0].index < rest[k].index {
        WithoutMember(s[1..], gone, rest[k]);
      }
    }
  }

  /** Dropping entries of the list drops their keys from the map. */
  lemma WithoutAsMap(s: EntryList, gone: set<nat>)
    requires Sorted(s)
    ensures Sorted(Without(s, gone)) && AsMap(Without(s, gone)) == AsMap(s) - gone
  {
    WithoutSorted(s, gone);
    var t := Without(s, gone);
    hide Without;
    forall i | i in AsMap(t) ensures i in AsMap(s) && i !in gone && AsMap(t)[i] == AsMap(s)[i] {
      var k := AsMapFrom(t, i);
      WithoutMember(s, gone, t[k]);
      var j :| 0 <= j < |s| && s[j] == t[k];
      AsMapAt(s, j);
    }
    forall i | i in AsMap(s) && i !in gone ensures i in AsMap(t) {
      var j := AsMapFrom(s, i);
      WithoutMember(s, gone, s[j]);
      var k :| 0 <= k < |t| && t[k] == s[j];
      AsMapAt(t, k);
    }
  }

  lemma {:induction false} WithoutTwice(s: EntryList, a: set<nat>, b: set<nat>)
    ensures Without(Without(s, a), b) == Without(s, a + b)
  {
    if s != [] {
      WithoutTwice(s[1..], a, b);
      if s[0].index !in a {
        assert Without(s, a)[1..] == Without(s[1..], a);
      }
    }
  }

  lemma {:induction false} WithoutNone(s: EntryList)
    ensures Without(s, {}) == s
  {
    if s != [] {
      WithoutNone(s[1..]);
    }
  }

  /** Indexes of the evictable removals among the first `k` entries. */
  function EvictTo(a: EntryList, k: nat, lt: nat, rt: nat): set<nat>
    requires k <= |a|
  {
    if k == 0 then {}
    else EvictTo(a, k - 1, lt, rt) + if Evictable(a[k - 1], lt, rt) then {a[k - 1].index} else {}
  }

  function ParentsTo(a: EntryList, k: nat, lt: nat, rt: nat): set<nat>
    requires k <= |a|
  {
    if k == 0 then {}
    else ParentsTo(a, k - 1, lt, rt) + if Evictable(a[k - 1], lt, rt) then {a[k - 1].parent} else {}
  }

  lemma {:induction false} EvictMember(a: EntryList, k: nat, lt: nat, rt: nat, q: nat)
    requires k <= |a|
    ensures q in EvictTo(a, k, lt, rt) <==> exists j :: 0 <= j < k && Evictable(a[j], lt, rt) && a[j].index == q
    ensures q in ParentsTo(a, k, lt, rt) <==> exists j :: 0 <= j < k && Evictable(a[j], lt, rt) && a[j].parent == q
    decreases k
  {
    hide Evictable;
    if k > 0 {
      EvictMember(a, k - 1, lt, rt, q);
    }
  }

  /** list.Remove of the element with this log index. */
  method RemoveIndex(s: EntryList, i: nat) returns (t: EntryList)
    requires Sorted(s)
    ensures t == Without(s, {i})
  {
    t := [];
    var k := 0;
    while k < |s|
      invariant 0 <= k <= |s|
      invariant t + Without(s[k..], {i}) == Without(s, {i})
    {
      assert s[k..][1..] == s[k + 1..];
      ghost var t0 := t;
      if s[k].index != i {
        t := t + [s[k]];
        assert t0 + ([s[k]] + Without(s[k + 1..], {i})) == t + Without(s[k + 1..], {i});
      }
      k := k + 1;
    }
    assert s[|s|..] == [];
    assert t + [] == t;
  }

  /** Every removal finds its Add through the other log's index map, and no two the same. */
  ghost predicate Linked(a: EntryList, indexB: set<nat>) {
    && (forall k | 0 <= k < |a| && !a[k].kind.AddEntry? :: a[k].parent in indexB)
    && (forall j, k | 0 <= j < k < |a| && !a[j].kind.AddEntry? && !a[k].kind.AddEntry? :: a[j].parent != a[k].parent)
  }

  lemma ParentStillThere(a: EntryList, indexB: set<nat>, k: nat, lt: nat, rt: nat)
    requires Linked(a, indexB) && k < |a| && !a[k].kind.AddEntry?
    ensures a[k].parent in indexB - ParentsTo(a, k, lt, rt)
  {
    EvictMember(a, k, lt, rt, a[k].parent);
  }

  /** One pass of compaction: every evictable removal of log A goes, with its Add in log B,
  and both leave the index maps. */
  method CompactLog(a: EntryList, b: EntryList, indexB: set<nat>, indexA: set<nat>, lt: nat, rt: nat)
    returns (a': EntryList, b': EntryList, indexB': set<nat>, indexA': set<nat>)
    requires Sorted(a) && Sorted(b) && Linked(a, indexB)
    ensures a' == Without(a, EvictTo(a, |a|, lt, rt)) && indexA' == indexA - EvictTo(a, |a|, lt, rt)
    ensures b' == Without(b, ParentsTo(a, |a|, lt, rt)) && indexB' == indexB - ParentsTo(a, |a|, lt, rt)
  {
    a', b', indexB', indexA' := a, b, indexB, indexA;
    WithoutNone(a);
    WithoutNone(b);
    hide Without;
    var k := 0;
    while k < |a|
      invariant 0 <= k <= |a|
      invariant a' == Without(a, EvictTo(a, k, lt, rt)) && indexA' == indexA - EvictTo(a, k, lt, rt)
      invariant b' == Without(b, ParentsTo(a, k, lt, rt)) && indexB' == indexB - ParentsTo(a, k, lt, rt)
    {
      var e := a[k];
      if !e.kind.AddEntry? && !(e.removeRemote == 0 || e.removeLocal == 0) && rt >= e.removeRemote && lt >= e.removeLocal {
        ParentStillThere(a, indexB, k, lt, rt);
        assert e.parent in indexB';
        WithoutSorted(b, ParentsTo(a, k, lt, rt));
        WithoutSorted(a, EvictTo(a, k, lt, rt));
        WithoutTwice(b, ParentsTo(a, k, lt, rt), {e.parent});
        WithoutTwice(a, EvictTo(a, k, lt, rt), {e.index});
        b' := RemoveIndex(b', e.parent);
        a' := RemoveIndex(a', e.index);
        indexB', indexA' := indexB' - {e.parent}, indexA' - {e.index};
      } else {
        assert EvictTo(a, k + 1, lt, rt) == EvictTo(a, k, lt, rt);
        assert ParentsTo(a, k + 1, lt, rt) == ParentsTo(a, k, lt, rt);
      }
      k := k + 1;
    }
  }

  /** What the pass evicts is what the spec evicts. */
  lemma EvictAgrees(a: EntryList, lt: nat, rt: nat)
    requires Sorted(a)
    ensures EvictTo(a, |a|, lt, rt) == Evicted(AsMap(a), lt, rt)
    ensures ParentsTo(a, |a|, lt, rt) == EvictedParents(AsMap(a), lt, rt)
  {
    hide Evictable;
    forall q: nat
      ensures q in EvictTo(a, |a|, lt, rt) <==> q in Evicted(AsMap(a), lt, rt)
      ensures q in ParentsTo(a, |a|, lt, rt) <==> q in EvictedParents(AsMap(a), lt, rt)
    {
      EvictMember(a, |a|, lt, rt, q);
      EvictOne(a, lt, rt, q);
    }
  }

  lemma EvictOne(a: EntryList, lt: nat, rt: nat, q: nat)
    requires Sorted(a)
    ensures q in Evicted(AsMap(a), lt, rt) <==> exists j :: 0 <= j < |a| && Evictable(a[j], lt, rt) && a[j].index == q
    ensures q in EvictedParents(AsMap(a), lt, rt) <==> exists j :: 0 <= j < |a| && Evictable(a[j], lt, rt) && a[j].parent == q
  {
    hide Evictable;
    var log := AsMap(a);
    if j: nat :| j < |a| && Evictable(a[j], lt, rt) && a[j].parent == q {
      AsMapAt(a, j);
    }
    if j: nat :| j < |a| && Evictable(a[j], lt, rt) && a[j].index == q {
      AsMapAt(a, j);
    }
    if q in EvictedParents(log, lt, rt) {
      var i: nat :| i in log && Evictable(log[i], lt, rt) && log[i].parent == q;
      var j := AsMapFrom(a, i);
    }
    if q in Evicted(log, lt, rt) {
      var j := AsMapFrom(a, q);
    }
  }

  /* --- a whole evaluation ------------------------------------------------------------------ */

  /** Stamping removals leaves what the second pass counts alone. */
  lemma {:induction false} AddsUntouched(log: EntryList, log': EntryList, k: nat, n: nat, c: Chain, h: nat, skip: set<nat>)
    requires |log'| == |log| && k <= |log|
    requires forall j | 0 <= j < |log| :: log'[j] == AfterRemoves(log[j], n, c, h)
    ensures DebitTo(log', k, n, c, skip) == DebitTo(log, k, n, c, skip)
    ensures LiveTo(log', k, n, skip) == LiveTo(log, k, n, skip)
    decreases k
  {
    if k > 0 {
      AddsUntouched(log, log', k - 1, n, c, h, skip);
      assert log'[k - 1] == AfterRemoves(log[k - 1], n, c, h);
    }
  }

  /** Both passes together stamp the log as the spec does. */
  lemma PassesMark(log: EntryList, log1: EntryList, log2: EntryList, n: nat, c: Chain, h: nat, skip: set<nat>)
    requires Sorted(log) && |log1| == |log| && |log2| == |log|
    requires forall j | 0 <= j < |log| :: log1[j] == AfterRemoves(log[j], n, c, h)
    requires forall j | 0 <= j < |log| :: log2[j] == AfterAdds(log1[j], n, c, h, skip)
    ensures Sorted(log2) && AsMap(log2) == MarkLog(AsMap(log), n, c, skip, h)
    ensures forall j | 0 <= j < |log| :: SameButHeights(log[j], log2[j])
  {
    var m := MarkLog(AsMap(log), n, c, skip, h);
    forall j | 0 <= j < |log|
      ensures log[j].index in m && m[log[j].index] == log2[j] && SameButHeights(log[j], log2[j])
    {
      AsMapAt(log, j);
      MarkTwice(log[j], n, c, h, skip);
    }
    hide MarkLog, AfterRemoves, AfterAdds;
    AsMapPointwise(log, log2, m);
  }

  ghost predicate SameButHeights(e: Entry, e': Entry) {
    e' == e.(addRemote := e'.addRemote, addLocal := e'.addLocal, removeRemote := e'.removeRemote, removeLocal := e'.removeLocal)
  }

  lemma MarkTwice(e: Entry, n: nat, c: Chain, h: nat, skip: set<nat>)
    ensures var e' := AfterAdds(AfterRemoves(e, n, c, h), n, c, h, skip);
            && e' == (if e.index < n then MarkEntry(e, c, e.index in skip, h) else e)
            && SameButHeights(e, e')
  {
  }
}
