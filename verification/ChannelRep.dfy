/** When a party's compacted, height-stamped state stands for the two complete
update logs, and why every operation keeps it that way.
 */
module ChannelRep {
  import opened Primitives
  import opened Ledger
  import opened ChannelSpec

  datatype Side = Ours | Theirs

  function IndexOf(k: Commitment, side: Side): nat {
    if side.Ours? then k.ourIndex else k.theirIndex
  }

  predicate Matches(e: Entry, i: nat, u: Update) {
    e.index == i && e.amount == u.amount &&
    match u
    case Add(_, rhash, timeout) => e.kind.AddEntry? && e.rhash == rhash && e.timeout == timeout
    case Settle(parent, _) => e.kind.SettleEntry? && e.parent == parent
  }

  /** Every retained entry is the log's update at its index. */
  ghost predicate LogMatches(log: Log, full: seq<Update>) {
    forall i | i in log :: i < |full| && Matches(log[i], i, full[i])
  }

  /** The height at which chain `c` applied the entry, zero if it has not. */
  function HeightIn(e: Entry, c: Chain): nat {
    if e.kind.AddEntry? then AddHeight(e, c) else RemoveHeight(e, c)
  }

  /* --- evaluation equals denotation ---------------------------------------- */

  lemma {:induction false} NoTimeouts(log: Log, full: seq<Update>, n: nat, c: Chain)
    requires LogMatches(log, full)
    ensures Credit(log, n, c, TimeoutEntry) == 0
  {
    if n != 0 {
      NoTimeouts(log, full, n - 1, c);
    }
  }

  /** Entries the chain has applied before contribute nothing again. */
  lemma {:induction false} AppliedContributeNothing(log: Log, n: nat, c: Chain, skip: set<nat>)
    requires forall i | i in log && i < n :: HeightIn(log[i], c) != 0
    ensures Credit(log, n, c, SettleEntry) == 0 && Debit(log, n, c, skip) == 0
  {
    if n != 0 {
      AppliedContributeNothing(log, n - 1, c, skip);
    }
  }

  /** The incremental sums are the net effect of the updates since the tip. */
  lemma {:induction false} SumsAreNet(log: Log, full: seq<Update>, tip: nat, n: nat, c: Chain, skip: set<nat>)
    requires LogMatches(log, full) && tip <= n <= |full|
    requires forall i | i in log && i < tip :: HeightIn(log[i], c) != 0
    requires forall i | tip <= i < n :: i in log && HeightIn(log[i], c) == 0 && (full[i].Add? ==> i !in skip)
    ensures Credit(log, n, c, SettleEntry) - Debit(log, n, c, skip) == Net(full[..n]) - Net(full[..tip])
    decreases n
  {
    if n == tip {
      AppliedContributeNothing(log, n, c, skip);
    } else {
      SumsAreNet(log, full, tip, n - 1, c, skip);
      assert full[..n][..n - 1] == full[..n - 1];
    }
  }

  /** The filtered list is the list of active HTLCs. */
  lemma {:induction false} LiveIsActive(log: Log, full: seq<Update>, other: seq<Update>, n: nat, skip: set<nat>)
    requires LogMatches(log, full) && n <= |full|
    requires forall i | 0 <= i < n ::
               (i in log && log[i].kind.AddEntry? && i !in skip) <==> (full[i].Add? && !SettledIn(other, i))
    ensures Live(log, n, skip) == Active(full[..n], other)
  {
    if n != 0 {
      LiveIsActive(log, full, other, n - 1, skip);
      assert full[..n][..n - 1] == full[..n - 1];
    }
  }

  /** The complete logs a party has sent and received, and the balances it started with. */
  datatype Books = Books(ours: seq<Update>, theirs: seq<Update>, ourStart: int, theirStart: int)

  /** Nothing from index `n` on has been dropped. */
  ghost predicate Retained(log: Log, full: seq<Update>, n: nat) {
    forall i | n <= i < |full| :: i in log
  }

  /** Only settled Adds have been dropped. */
  ghost predicate Cleared(log: Log, full: seq<Update>, other: seq<Update>) {
    forall i | 0 <= i < |full| && i !in log && full[i].Add? :: SettledIn(other, i)
  }

  /** A settle is retained exactly as long as its Add is. */
  ghost predicate Twinned(log: Log, otherLog: Log, full: seq<Update>) {
    forall j | 0 <= j < |full| && full[j].Settle? :: j in log <==> full[j].parent in otherLog
  }

  /** The settles below `n` clear Adds below `m`. */
  ghost predicate ParentsBelow(full: seq<Update>, n: nat, m: nat) {
    forall j | 0 <= j < n && j < |full| && full[j].Settle? :: full[j].parent < m
  }

  /** The entry's height says whether commitment `k` of chain `c` includes it. */
  predicate StampedAt(e: Entry, i: nat, k: Commitment, c: Chain, side: Side) {
    i < IndexOf(k, side) <==> 0 < HeightIn(e, c) <= k.height
  }

  ghost predicate StampedBy(log: Log, k: Commitment, c: Chain, side: Side) {
    forall i | i in log :: StampedAt(log[i], i, k, c, side)
  }

  ghost predicate HeightsUpTo(log: Log, c: Chain, h: nat) {
    forall i | i in log :: HeightIn(log[i], c) <= h
  }

  /** The commitment is the meaning of the logs up to its two indexes. */
  ghost predicate Denotes(k: Commitment, b: Books) {
    && k.ourIndex <= |b.ours| && k.theirIndex <= |b.theirs|
    && k.ourBalance == b.ourStart + Net(b.ours[..k.ourIndex])
    && k.theirBalance == b.theirStart + Net(b.theirs[..k.theirIndex])
    && k.outgoing == Active(b.ours[..k.ourIndex], b.theirs[..k.theirIndex])
    && k.incoming == Active(b.theirs[..k.theirIndex], b.ours[..k.ourIndex])
  }

  lemma SettledInPrefix(full: seq<Update>, m: nat, i: nat)
    requires m <= |full|
    ensures SettledIn(full[..m], i) <==> exists j :: 0 <= j < m && full[j].Settle? && full[j].parent == i
  {
    if j :| 0 <= j < m && full[j].Settle? && full[j].parent == i {
      assert full[..m][j] == full[j];
    }
    if SettledIn(full[..m], i) {
      var j :| 0 <= j < |full[..m]| && full[..m][j].Settle? && full[..m][j].parent == i;
      assert full[j] == full[..m][j];
    }
  }

  /** Skipping by the compacted log finds exactly the settled HTLCs of the complete one. */
  lemma LiveCondition(log: Log, full: seq<Update>, otherLog: Log, other: seq<Update>, m: nat, i: nat)
    requires LogMatches(log, full) && LogMatches(otherLog, other)
    requires i < |full| && m <= |other|
    requires Cleared(log, full, other) && Twinned(otherLog, log, other) && Retained(otherLog, other, m)
    ensures (i in log && log[i].kind.AddEntry? && i !in SkipSet(otherLog, m))
       <==> (full[i].Add? && !SettledIn(other[..m], i))
  {
    SettledInPrefix(other, m, i);
    if SettledIn(other[..m], i) {
      var j :| 0 <= j < m && other[j].Settle? && other[j].parent == i;
      assert j in otherLog <==> i in log;
      if i in log {
        assert Matches(otherLog[j], j, other[j]);
        assert i in SkipSet(otherLog, m);
      }
    }
  }

  /** What one log contributes to a view: its net effect and its active HTLCs. */
  lemma SideDenotes(log: Log, full: seq<Update>, otherLog: Log, other: seq<Update>,
                    tip: nat, n: nat, m: nat, c: Chain)
    requires LogMatches(log, full) && LogMatches(otherLog, other)
    requires tip <= n <= |full| && m <= |other|
    requires forall i | i in log :: i < tip <==> HeightIn(log[i], c) != 0
    requires Retained(log, full, tip) && Retained(otherLog, other, m)
    requires Cleared(log, full, other) && Twinned(otherLog, log, other)
    requires ParentsBelow(other, m, tip)
    ensures Credit(log, n, c, SettleEntry) - Debit(log, n, c, SkipSet(otherLog, m)) == Net(full[..n]) - Net(full[..tip])
    ensures Live(log, n, SkipSet(otherLog, m)) == Active(full[..n], other[..m])
  {
    var skip := SkipSet(otherLog, m);
    assert forall i | tip <= i < n :: i !in skip;
    SumsAreNet(log, full, tip, n, c, skip);
    forall i | 0 <= i < n
      ensures (i in log && log[i].kind.AddEntry? && i !in skip) <==> (full[i].Add? && !SettledIn(other[..m], i))
    {
      LiveCondition(log, full, otherLog, other, m, i);
    }
    LiveIsActive(log, full, other[..m], n, skip);
  }

  function Opposite(side: Side): Side {
    if side.Ours? then Theirs else Ours
  }

  /** Heights count up by one and neither index ever moves back. */
  ghost predicate Ascending(chain: seq<Commitment>) {
    && chain != []
    && (forall j, k | 0 <= j < k < |chain| ::
          && chain[k].height == chain[j].height + (k - j)
          && chain[j].ourIndex <= chain[k].ourIndex
          && chain[j].theirIndex <= chain[k].theirIndex)
  }

  /** A commitment settles only what it, or one before it, added. */
  ghost predicate Closed(k: Commitment, b: Books) {
    ParentsBelow(b.ours, k.ourIndex, k.theirIndex) && ParentsBelow(b.theirs, k.theirIndex, k.ourIndex)
  }

  ghost predicate ChainOk(chain: seq<Commitment>, b: Books) {
    Ascending(chain) && forall k | 0 <= k < |chain| :: Denotes(chain[k], b) && Closed(chain[k], b)
  }

  /** How one log relates to one chain. */
  ghost predicate LogOnChain(log: Log, full: seq<Update>, chain: seq<Commitment>, c: Chain, side: Side) {
    && chain != []
    && Retained(log, full, IndexOf(chain[0], side))
    && (forall k | 0 <= k < |chain| :: StampedBy(log, chain[k], c, side))
    && HeightsUpTo(log, c, Tip(chain).height)
    && ParentsBelow(full, |full|, IndexOf(Tip(chain), Opposite(side)))
  }

  /** How one log relates to the complete log and to the other log. */
  ghost predicate LogOk(log: Log, full: seq<Update>, otherLog: Log, other: seq<Update>) {
    LogMatches(log, full) && Cleared(log, full, other) && Twinned(log, otherLog, full) && Paired(full, other)
  }

  ghost predicate LogsOk(p: Party, b: Books) {
    && LogOk(p.ourLog, b.ours, p.theirLog, b.theirs)
    && LogOk(p.theirLog, b.theirs, p.ourLog, b.ours)
  }

  ghost predicate OnChain(p: Party, b: Books, c: Chain) {
    && ChainOk(ChainOf(p, c), b)
    && LogOnChain(p.ourLog, b.ours, ChainOf(p, c), c, Ours)
    && LogOnChain(p.theirLog, b.theirs, ChainOf(p, c), c, Theirs)
  }

  function AddsOf(log: Log): set<nat> {
    set i | i in log && log[i].kind.AddEntry?
  }

  /** The peer's Adds are handed up in log order, and settled only afterwards. */
  ghost predicate ForwardOrder(log: Log) {
    && (forall q, i | q in log && i in log && q < i && log[q].kind.AddEntry? && log[i].kind.AddEntry? ::
          log[i].isForwarded ==> log[q].isForwarded)
    && (forall i | i in log && log[i].kind.AddEntry? :: log[i].settled ==> log[i].isForwarded)
  }

  /** Bookkeeping on the peer's Adds: handed-up ones are under both tails, and the
  settled mark says whether this party has settled it. */
  ghost predicate FlagsOk(p: Party, b: Books) {
    && p.localChain != [] && p.remoteChain != []
    && ForwardOrder(p.theirLog)
    && (forall i | i in p.theirLog && p.theirLog[i].kind.AddEntry? && p.theirLog[i].isForwarded ::
          i < p.localChain[0].theirIndex && i < p.remoteChain[0].theirIndex)
    && (forall i | i in p.theirLog && p.theirLog[i].kind.AddEntry? ::
          p.theirLog[i].settled <==> SettledIn(b.ours, i))
  }

  /** The counters are the log lengths and the index maps hold exactly the Adds. */
  ghost predicate IndexesOk(p: Party, b: Books) {
    && p.ourCounter == |b.ours| && p.theirCounter == |b.theirs|
    && p.ourLogIndex == AddsOf(p.ourLog) && p.theirLogIndex == AddsOf(p.theirLog)
  }

  /** The party's state stands for the books. */
  ghost predicate Rep(p: Party, b: Books) {
    IndexesOk(p, b) && LogsOk(p, b) && OnChain(p, b, Local) && OnChain(p, b, Remote) && FlagsOk(p, b)
  }

  /** Evaluating any view that does not move back yields its denotation, whatever
  has been compacted. */
  lemma ViewDenotes(p: Party, b: Books, c: Chain, n: nat, m: nat, rev: Revocation)
    requires LogsOk(p, b) && OnChain(p, b, c)
    requires Tip(ChainOf(p, c)).ourIndex <= n <= |b.ours|
    requires Tip(ChainOf(p, c)).theirIndex <= m <= |b.theirs|
    ensures Denotes(ViewAt(p, c, n, m, rev), b)
    ensures Closed(ViewAt(p, c, n, m, rev), b)
  {
    hide Net, Active, Cleared, Twinned, Paired;
    var tip := Tip(ChainOf(p, c));
    assert StampedBy(p.ourLog, tip, c, Ours) && StampedBy(p.theirLog, tip, c, Theirs);
    assert forall i | i in p.ourLog :: StampedAt(p.ourLog[i], i, tip, c, Ours) && HeightIn(p.ourLog[i], c) <= tip.height;
    assert forall i | i in p.theirLog :: StampedAt(p.theirLog[i], i, tip, c, Theirs) && HeightIn(p.theirLog[i], c) <= tip.height;
    SideDenotes(p.ourLog, b.ours, p.theirLog, b.theirs, tip.ourIndex, n, m, c);
    SideDenotes(p.theirLog, b.theirs, p.ourLog, b.ours, tip.theirIndex, m, n, c);
    NoTimeouts(p.ourLog, b.ours, n, c);
    NoTimeouts(p.theirLog, b.theirs, m, c);
  }

  /* --- extending a chain ---------------------------------------------------- */

  function OtherChain(c: Chain): Chain {
    if c.Remote? then Local else Remote
  }

  /** The party after evaluating a view of chain `c` and adding it to that chain. */
  function Extended(p: Party, c: Chain, n: nat, m: nat, rev: Revocation): Party
    requires ChainOf(p, c) != []
  {
    var chain := ChainOf(p, c) + [ViewAt(p, c, n, m, rev)];
    if c.Remote? then Evaluated(p, c, n, m).(remoteChain := chain) else Evaluated(p, c, n, m).(localChain := chain)
  }

  lemma MarkEntryFrame(e: Entry, c: Chain, skipped: bool, h: nat)
    ensures var e' := MarkEntry(e, c, skipped, h);
            && e'.kind == e.kind && e'.index == e.index && e'.amount == e.amount && e'.rhash == e.rhash
            && e'.timeout == e.timeout && e'.parent == e.parent
            && e'.isForwarded == e.isForwarded && e'.settled == e.settled
            && HeightIn(e', OtherChain(c)) == HeightIn(e, OtherChain(c))
            && HeightIn(e', c) == if HeightIn(e, c) != 0 || (e.kind.AddEntry? && skipped) then HeightIn(e, c) else h
  {
  }

  lemma MarkKeepsLogOk(log: Log, full: seq<Update>, otherLog: Log, other: seq<Update>,
                       n: nat, m: nat, c: Chain, skip: set<nat>, skip': set<nat>, h: nat)
    requires LogOk(log, full, otherLog, other)
    ensures LogOk(MarkLog(log, n, c, skip, h), full, MarkLog(otherLog, m, c, skip', h), other)
  {
    var log' := MarkLog(log, n, c, skip, h);
    forall i | i in log' ensures i < |full| && Matches(log'[i], i, full[i]) {
      MarkEntryFrame(log[i], c, i in skip, h);
    }
  }

  /** The new tip is stamped on exactly the entries it adds. */
  lemma MarkOnChain(log: Log, full: seq<Update>, chain: seq<Commitment>, c: Chain, side: Side,
                    n: nat, skip: set<nat>, view: Commitment)
    requires LogOnChain(log, full, chain, c, side) && Ascending(chain)
    requires view.height == Tip(chain).height + 1 && IndexOf(view, side) == n
    requires IndexOf(Tip(chain), side) <= n
    requires IndexOf(Tip(chain), Opposite(side)) <= IndexOf(view, Opposite(side))
    requires forall i | i in skip :: i < IndexOf(Tip(chain), side)
    ensures LogOnChain(MarkLog(log, n, c, skip, view.height), full, chain + [view], c, side)
  {
    var h := view.height;
    var log' := MarkLog(log, n, c, skip, h);
    var chain' := chain + [view];
    var tip := Tip(chain);
    forall i | i in log
      ensures HeightIn(log'[i], c) == (if IndexOf(tip, side) <= i < n then h else HeightIn(log[i], c))
      ensures HeightIn(log[i], c) <= tip.height
      ensures StampedAt(log'[i], i, view, c, side)
    {
      MarkEntryFrame(log[i], c, i in skip, h);
      assert StampedBy(log, chain[|chain| - 1], c, side);
      assert StampedAt(log[i], i, tip, c, side);
    }
    forall k | 0 <= k < |chain'| ensures StampedBy(log', chain'[k], c, side) {
      if k < |chain| {
        assert StampedBy(log, chain[k], c, side);
        forall i | i in log' ensures StampedAt(log'[i], i, chain[k], c, side) {
          assert StampedAt(log[i], i, chain[k], c, side);
          assert k < |chain| - 1 ==> chain[k].height < tip.height;
          assert k < |chain| - 1 ==> IndexOf(chain[k], side) <= IndexOf(tip, side);
        }
      }
    }
  }

  /** Evaluating one chain leaves the other chain's heights alone. */
  lemma MarkOffChain(log: Log, full: seq<Update>, chain: seq<Commitment>, c: Chain, side: Side,
                     n: nat, skip: set<nat>, h: nat)
    requires LogOnChain(log, full, chain, OtherChain(c), side)
    ensures LogOnChain(MarkLog(log, n, c, skip, h), full, chain, OtherChain(c), side)
  {
    var d := OtherChain(c);
    var log' := MarkLog(log, n, c, skip, h);
    forall i | i in log ensures HeightIn(log'[i], d) == HeightIn(log[i], d) {
      MarkEntryFrame(log[i], c, i in skip, h);
    }
    forall k | 0 <= k < |chain| ensures StampedBy(log', chain[k], d, side) {
      assert StampedBy(log, chain[k], d, side);
      forall i | i in log' ensures StampedAt(log'[i], i, chain[k], d, side) {
        assert StampedAt(log[i], i, chain[k], d, side);
      }
    }
  }

  /** The view's indexes lie between the chain's tip and the ends of the logs. */
  ghost predicate Forward(p: Party, b: Books, c: Chain, n: nat, m: nat) {
    && ChainOf(p, c) != []
    && Tip(ChainOf(p, c)).ourIndex <= n <= |b.ours|
    && Tip(ChainOf(p, c)).theirIndex <= m <= |b.theirs|
  }

  lemma SkipBelowTip(log: Log, full: seq<Update>, n: nat, chain: seq<Commitment>, c: Chain, side: Side)
    requires LogMatches(log, full) && LogOnChain(log, full, chain, c, side)
    ensures forall i | i in SkipSet(log, n) :: i < IndexOf(Tip(chain), Opposite(side))
  {
  }

  lemma ExtendOnChain(p: Party, b: Books, c: Chain, n: nat, m: nat, rev: Revocation)
    requires LogsOk(p, b) && OnChain(p, b, c) && Forward(p, b, c, n, m)
    ensures OnChain(Extended(p, c, n, m, rev), b, c)
  {
    hide LogOnChain, Denotes, Closed, Ascending, LogMatches, Cleared, Twinned, Paired;
    var chain := ChainOf(p, c);
    var view := ViewAt(p, c, n, m, rev);
    ViewDenotes(p, b, c, n, m, rev);
    ChainPush(chain, view, b);
    SkipBelowTip(p.theirLog, b.theirs, m, chain, c, Theirs);
    SkipBelowTip(p.ourLog, b.ours, n, chain, c, Ours);
    MarkOnChain(p.ourLog, b.ours, chain, c, Ours, n, SkipSet(p.theirLog, m), view);
    MarkOnChain(p.theirLog, b.theirs, chain, c, Theirs, m, SkipSet(p.ourLog, n), view);
  }

  lemma ChainPush(chain: seq<Commitment>, view: Commitment, b: Books)
    requires ChainOk(chain, b) && Denotes(view, b) && Closed(view, b)
    requires view.height == Tip(chain).height + 1
    requires Tip(chain).ourIndex <= view.ourIndex && Tip(chain).theirIndex <= view.theirIndex
    ensures ChainOk(chain + [view], b)
  {
    var chain' := chain + [view];
    forall j | 0 <= j < |chain|
      ensures chain[j].height + (|chain| - j) == view.height
      ensures chain[j].ourIndex <= view.ourIndex && chain[j].theirIndex <= view.theirIndex
    {
      assert j < |chain| - 1 ==> Tip(chain).height == chain[j].height + (|chain| - 1 - j);
      assert j < |chain| - 1 ==> chain[j].ourIndex <= Tip(chain).ourIndex && chain[j].theirIndex <= Tip(chain).theirIndex;
    }
  }

  lemma ExtendOffChain(p: Party, b: Books, c: Chain, n: nat, m: nat, rev: Revocation)
    requires ChainOf(p, c) != [] && OnChain(p, b, OtherChain(c))
    ensures OnChain(Extended(p, c, n, m, rev), b, OtherChain(c))
  {
    hide LogOnChain, ChainOk;
    var h := Tip(ChainOf(p, c)).height + 1;
    var skipUs, skipThem := SkipSet(p.theirLog, m), SkipSet(p.ourLog, n);
    MarkOffChain(p.ourLog, b.ours, ChainOf(p, OtherChain(c)), c, Ours, n, skipUs, h);
    MarkOffChain(p.theirLog, b.theirs, ChainOf(p, OtherChain(c)), c, Theirs, m, skipThem, h);
  }

  lemma MarkKeepsFlags(log: Log, n: nat, c: Chain, skip: set<nat>, h: nat)
    ensures var log' := MarkLog(log, n, c, skip, h);
            && AddsOf(log') == AddsOf(log) && log'.Keys == log.Keys
            && (forall i | i in log :: && log'[i].kind == log[i].kind && log'[i].settled == log[i].settled
                                       && log'[i].isForwarded == log[i].isForwarded)
  {
    forall i | i in log {
      MarkEntryFrame(log[i], c, i in skip, h);
    }
  }

  lemma ExtendFlags(p: Party, b: Books, c: Chain, n: nat, m: nat, rev: Revocation)
    requires ChainOf(p, c) != [] && FlagsOk(p, b) && IndexesOk(p, b)
    ensures FlagsOk(Extended(p, c, n, m, rev), b) && IndexesOk(Extended(p, c, n, m, rev), b)
  {
    hide MarkLog, AddsOf, SkipSet, ViewAt, SettledIn;
    var h := Tip(ChainOf(p, c)).height + 1;
    MarkKeepsFlags(p.theirLog, m, c, SkipSet(p.ourLog, n), h);
    MarkKeepsFlags(p.ourLog, n, c, SkipSet(p.theirLog, m), h);
  }

  /** Extending a chain by a view that does not move back keeps the representation. */
  lemma ExtendKeepsRep(p: Party, b: Books, c: Chain, n: nat, m: nat, rev: Revocation)
    requires Rep(p, b) && Forward(p, b, c, n, m)
    ensures Rep(Extended(p, c, n, m, rev), b)
  {
    hide LogOk, OnChain, FlagsOk, IndexesOk;
    var h := Tip(ChainOf(p, c)).height + 1;
    var skipUs, skipThem := SkipSet(p.theirLog, m), SkipSet(p.ourLog, n);
    MarkKeepsLogOk(p.ourLog, b.ours, p.theirLog, b.theirs, n, m, c, skipUs, skipThem, h);
    MarkKeepsLogOk(p.theirLog, b.theirs, p.ourLog, b.ours, m, n, c, skipThem, skipUs, h);
    ExtendOnChain(p, b, c, n, m, rev);
    ExtendOffChain(p, b, c, n, m, rev);
    ExtendFlags(p, b, c, n, m, rev);
  }

  /* --- appending to a log ---------------------------------------------------- */

  ghost predicate Grows(b: Books, b': Books) {
    b.ours <= b'.ours && b.theirs <= b'.theirs && b.ourStart == b'.ourStart && b.theirStart == b'.theirStart
  }

  /** A commitment's meaning does not change when the logs grow. */
  lemma ChainGrows(chain: seq<Commitment>, b: Books, b': Books)
    requires ChainOk(chain, b) && Grows(b, b')
    ensures ChainOk(chain, b')
  {
    hide Ascending;
    forall k | 0 <= k < |chain| ensures Denotes(chain[k], b') && Closed(chain[k], b') {
      assert Denotes(chain[k], b) && Closed(chain[k], b);
      assert b'.ours[..chain[k].ourIndex] == b.ours[..chain[k].ourIndex];
      assert b'.theirs[..chain[k].theirIndex] == b.theirs[..chain[k].theirIndex];
    }
  }

  /** The update may be appended: an Add always, a settle once per live Add. */
  ghost predicate Appendable(u: Update, full: seq<Update>, otherLog: Log, other: seq<Update>) {
    u.Settle? ==>
      && u.parent < |other| && other[u.parent].Add? && other[u.parent].amount == u.amount
      && u.parent in otherLog && !SettledIn(full, u.parent)
  }

  lemma AppendOwn(log: Log, full: seq<Update>, otherLog: Log, other: seq<Update>, u: Update, e: Entry)
    requires LogOk(log, full, otherLog, other)
    requires Matches(e, |full|, u) && Appendable(u, full, otherLog, other)
    ensures LogOk(log[|full| := e], full + [u], otherLog, other)
  {
    assert Unrepeated(full + [u]);
  }

  lemma AppendOther(log: Log, full: seq<Update>, otherLog: Log, other: seq<Update>, u: Update, e: Entry)
    requires LogOk(log, full, otherLog, other)
    ensures LogOk(log, full, otherLog[|other| := e], other + [u])
  {
    forall i | 0 <= i < |full| && i !in log && full[i].Add? ensures SettledIn(other + [u], i) {
      SettledInStep(other, u, i);
    }
  }

  lemma AppendOnChain(log: Log, full: seq<Update>, chain: seq<Commitment>, c: Chain, side: Side, u: Update, e: Entry)
    requires LogOnChain(log, full, chain, c, side)
    requires HeightIn(e, c) == 0
    requires forall k | 0 <= k < |chain| :: IndexOf(chain[k], side) <= |full|
    requires u.Settle? ==> u.parent < IndexOf(Tip(chain), Opposite(side))
    ensures LogOnChain(log[|full| := e], full + [u], chain, c, side)
  {
    var log' := log[|full| := e];
    forall k | 0 <= k < |chain| ensures StampedBy(log', chain[k], c, side) {
      assert StampedBy(log, chain[k], c, side);
    }
  }

  /** The two logs agree except for the forwarding and settling marks. */
  ghost predicate FlagsOnly(log: Log, log': Log) {
    && log'.Keys == log.Keys
    && (forall i | i in log :: log'[i].(isForwarded := log[i].isForwarded, settled := log[i].settled) == log[i])
  }

  lemma FlagsOnlyLogOk(log: Log, log': Log, full: seq<Update>, otherLog: Log, other: seq<Update>)
    requires LogOk(log, full, otherLog, other) && FlagsOnly(log, log')
    ensures LogOk(log', full, otherLog, other)
  {
  }

  lemma FlagsOnlyOther(log: Log, full: seq<Update>, otherLog: Log, otherLog': Log, other: seq<Update>)
    requires LogOk(log, full, otherLog, other) && FlagsOnly(otherLog, otherLog')
    ensures LogOk(log, full, otherLog', other)
  {
  }

  lemma FlagsOnlyOnChain(log: Log, log': Log, full: seq<Update>, chain: seq<Commitment>, c: Chain, side: Side)
    requires LogOnChain(log, full, chain, c, side) && FlagsOnly(log, log')
    ensures LogOnChain(log', full, chain, c, side)
  {
    forall i | i in log ensures HeightIn(log'[i], c) == HeightIn(log[i], c) {
      assert log'[i].(isForwarded := log[i].isForwarded, settled := log[i].settled) == log[i];
    }
    forall k | 0 <= k < |chain| ensures StampedBy(log', chain[k], c, side) {
      assert StampedBy(log, chain[k], c, side);
    }
  }

  function AppendOurs(p: Party, e: Entry): Party {
    var i := p.ourCounter;
    p.(ourLog := p.ourLog[i := e], ourCounter := i + 1,
       ourLogIndex := if e.kind.AddEntry? then p.ourLogIndex + {i} else p.ourLogIndex)
  }

  function AppendTheirs(p: Party, e: Entry): Party {
    var i := p.theirCounter;
    p.(theirLog := p.theirLog[i := e], theirCounter := i + 1,
       theirLogIndex := if e.kind.AddEntry? then p.theirLogIndex + {i} else p.theirLogIndex)
  }

  ghost predicate Unstamped(e: Entry) {
    e.addRemote == 0 && e.addLocal == 0 && e.removeRemote == 0 && e.removeLocal == 0
    && !e.isForwarded && !e.settled
  }

  /** A settle of the update's parent is already behind both of the party's tips. */
  ghost predicate BehindTips(p: Party, u: Update, side: Side) {
    && p.localChain != [] && p.remoteChain != []
    && (u.Settle? ==> u.parent < IndexOf(Tip(p.localChain), side) && u.parent < IndexOf(Tip(p.remoteChain), side))
  }

  lemma AppendOursOnChain(p: Party, b: Books, u: Update, e: Entry, c: Chain)
    requires OnChain(p, b, c) && IndexesOk(p, b) && Unstamped(e) && BehindTips(p, u, Theirs)
    ensures OnChain(AppendOurs(p, e), b.(ours := b.ours + [u]), c)
  {
    hide LogOnChain, Closed, Ascending, AddsOf;
    ChainGrows(ChainOf(p, c), b, b.(ours := b.ours + [u]));
    AppendOnChain(p.ourLog, b.ours, ChainOf(p, c), c, Ours, u, e);
  }

  lemma AppendTheirsOnChain(p: Party, b: Books, u: Update, e: Entry, c: Chain)
    requires OnChain(p, b, c) && IndexesOk(p, b) && Unstamped(e) && BehindTips(p, u, Ours)
    ensures OnChain(AppendTheirs(p, e), b.(theirs := b.theirs + [u]), c)
  {
    hide LogOnChain, Closed, Ascending, AddsOf;
    ChainGrows(ChainOf(p, c), b, b.(theirs := b.theirs + [u]));
    AppendOnChain(p.theirLog, b.theirs, ChainOf(p, c), c, Theirs, u, e);
  }

  lemma IndexAppend(log: Log, full: seq<Update>, otherLog: Log, other: seq<Update>, e: Entry)
    requires LogOk(log, full, otherLog, other)
    ensures AddsOf(log[|full| := e]) == if e.kind.AddEntry? then AddsOf(log) + {|full|} else AddsOf(log)
  {
    hide Cleared, Twinned, Paired;
    assert |full| !in log;
  }

  /** Appending an update of our own keeps everything but the settled marks. */
  lemma AppendOursKeeps(p: Party, b: Books, u: Update, e: Entry)
    requires IndexesOk(p, b) && LogsOk(p, b) && OnChain(p, b, Local) && OnChain(p, b, Remote)
    requires Matches(e, |b.ours|, u) && Unstamped(e)
    requires Appendable(u, b.ours, p.theirLog, b.theirs) && BehindTips(p, u, Theirs)
    ensures var (p', b') := (AppendOurs(p, e), b.(ours := b.ours + [u]));
            IndexesOk(p', b') && LogsOk(p', b') && OnChain(p', b', Local) && OnChain(p', b', Remote)
  {
    hide LogOk, OnChain, AddsOf;
    IndexAppend(p.ourLog, b.ours, p.theirLog, b.theirs, e);
    AppendOwn(p.ourLog, b.ours, p.theirLog, b.theirs, u, e);
    AppendOther(p.theirLog, b.theirs, p.ourLog, b.ours, u, e);
    AppendOursOnChain(p, b, u, e, Local);
    AppendOursOnChain(p, b, u, e, Remote);
  }

  lemma AppendTheirsKeeps(p: Party, b: Books, u: Update, e: Entry)
    requires IndexesOk(p, b) && LogsOk(p, b) && OnChain(p, b, Local) && OnChain(p, b, Remote)
    requires Matches(e, |b.theirs|, u) && Unstamped(e)
    requires Appendable(u, b.theirs, p.ourLog, b.ours) && BehindTips(p, u, Ours)
    ensures var (p', b') := (AppendTheirs(p, e), b.(theirs := b.theirs + [u]));
            IndexesOk(p', b') && LogsOk(p', b') && OnChain(p', b', Local) && OnChain(p', b', Remote)
  {
    hide LogOk, OnChain, AddsOf;
    IndexAppend(p.theirLog, b.theirs, p.ourLog, b.ours, e);
    AppendOwn(p.theirLog, b.theirs, p.ourLog, b.ours, u, e);
    AppendOther(p.ourLog, b.ours, p.theirLog, b.theirs, u, e);
    AppendTheirsOnChain(p, b, u, e, Local);
    AppendTheirsOnChain(p, b, u, e, Remote);
  }

  lemma AddHTLCKeepsRep(p: Party, b: Books, amount: int, rhash: Hash, timeout: nat)
    requires Rep(p, b)
    ensures Rep(AddHTLC(p, amount, rhash, timeout), b.(ours := b.ours + [Add(amount, rhash, timeout)]))
  {
    hide LogOk, OnChain, SettledIn, AddsOf;
    var u := Add(amount, rhash, timeout);
    AppendOursKeeps(p, b, u, NewEntry(AddEntry, rhash, timeout, amount, p.ourCounter, 0));
    forall i: nat ensures SettledIn(b.ours + [u], i) <==> SettledIn(b.ours, i) {
      SettledInStep(b.ours, u, i);
    }
  }

  lemma ReceiveHTLCKeepsRep(p: Party, b: Books, amount: int, rhash: Hash, timeout: nat)
    requires Rep(p, b)
    ensures Rep(ReceiveHTLC(p, amount, rhash, timeout), b.(theirs := b.theirs + [Add(amount, rhash, timeout)]))
  {
    hide LogOk, OnChain, SettledIn, AddsOf;
    var u := Add(amount, rhash, timeout);
    AppendTheirsKeeps(p, b, u, NewEntry(AddEntry, rhash, timeout, amount, p.theirCounter, 0));
    assert !SettledIn(b.ours, |b.theirs|) by { NotYetSettled(p, b); }
    assert forall i | i in p.theirLog :: i < |b.theirs| by { EntriesKnown(p, b); }
  }

  lemma EntriesKnown(p: Party, b: Books)
    requires LogsOk(p, b)
    ensures forall i | i in p.theirLog :: i < |b.theirs|
  {
  }

  lemma NotYetSettled(p: Party, b: Books)
    requires LogsOk(p, b)
    ensures !SettledIn(b.ours, |b.theirs|)
  {
  }

  lemma ReceiveSettleKeepsRep(cr: Crypto, p: Party, b: Books, preimage: Hash, q: nat)
    requires Rep(p, b) && q in p.ourLogIndex && !SettledIn(b.theirs, q)
    requires q < Tip(p.localChain).ourIndex && q < Tip(p.remoteChain).ourIndex
    requires ReceiveHTLCSettle(cr, p, preimage, q).Ok?
    ensures Rep(ReceiveHTLCSettle(cr, p, preimage, q).party, b.(theirs := b.theirs + [Settle(q, b.ours[q].amount)]))
  {
    hide OnChain, SettledIn;
    var u := Settle(q, b.ours[q].amount);
    AppendTheirsKeeps(p, b, u, NewEntry(SettleEntry, ZeroHash(), 0, p.ourLog[q].amount, p.theirCounter, q));
  }

  /* --- marks, tails and compaction ------------------------------------------- */

  lemma FlagsOnlyKeeps(p: Party, b: Books, theirLog: Log)
    requires IndexesOk(p, b) && LogsOk(p, b) && OnChain(p, b, Local) && OnChain(p, b, Remote)
    requires FlagsOnly(p.theirLog, theirLog)
    ensures var p' := p.(theirLog := theirLog);
            IndexesOk(p', b) && LogsOk(p', b) && OnChain(p', b, Local) && OnChain(p', b, Remote)
  {
    hide LogOk, LogOnChain, ChainOk;
    FlagsOnlyLogOk(p.theirLog, theirLog, b.theirs, p.ourLog, b.ours);
    FlagsOnlyOther(p.ourLog, b.ours, p.theirLog, theirLog, b.theirs);
    FlagsOnlyOnChain(p.theirLog, theirLog, b.theirs, p.localChain, Local, Theirs);
    FlagsOnlyOnChain(p.theirLog, theirLog, b.theirs, p.remoteChain, Remote, Theirs);
  }

  /** Some Add with this payment hash has been handed up and is unsettled. */
  ghost predicate SettleEnabled(cr: Crypto, p: Party, preimage: Hash) {
    exists i :: SettleCandidate(p.theirLog, i, cr.sha256(preimage)) && p.theirLog[i].isForwarded
  }

  /** The Add a settle picks, the first with the hash, is behind both tails too. */
  lemma SettleTarget(cr: Crypto, p: Party, b: Books, preimage: Hash)
    requires Rep(p, b) && SettleEnabled(cr, p, preimage)
    ensures SettleHTLC(cr, p, preimage).Ok?
    ensures var q := SettleHTLC(cr, p, preimage).value;
            && q < |b.theirs| && b.theirs[q].Add? && q in p.theirLog && p.theirLog[q].amount == b.theirs[q].amount
            && b.theirs[q].rhash == cr.sha256(preimage)
            && q < p.localChain[0].theirIndex && q < p.remoteChain[0].theirIndex
            && !SettledIn(b.ours, q) && p.theirLog[q].isForwarded
  {
    hide OnChain, AddsOf, Cleared, Twinned, Paired, SettledIn;
    var i: nat :| SettleCandidate(p.theirLog, i, cr.sha256(preimage)) && p.theirLog[i].isForwarded;
    assert i < p.theirCounter;
  }

  lemma TailBelowTip(p: Party, b: Books, c: Chain)
    requires OnChain(p, b, c)
    ensures var chain := ChainOf(p, c);
            chain[0].ourIndex <= Tip(chain).ourIndex && chain[0].theirIndex <= Tip(chain).theirIndex
            && Tip(chain).ourIndex <= |b.ours| && Tip(chain).theirIndex <= |b.theirs|
  {
    hide LogOnChain;
  }

  lemma SettleKeepsFlags(p: Party, b: Books, q: nat, u: Update)
    requires FlagsOk(p, b) && q in p.theirLog && p.theirLog[q].isForwarded && u.Settle? && u.parent == q
    ensures FlagsOk(p.(theirLog := p.theirLog[q := p.theirLog[q].(settled := true)]), b.(ours := b.ours + [u]))
  {
    hide SettledIn;
    forall i: nat ensures SettledIn(b.ours + [u], i) <==> SettledIn(b.ours, i) || i == q {
      SettledInStep(b.ours, u, i);
    }
  }

  lemma SettleKeepsRep(cr: Crypto, p: Party, b: Books, preimage: Hash)
    requires Rep(p, b) && SettleEnabled(cr, p, preimage)
    ensures SettleHTLC(cr, p, preimage).Ok? && SettleHTLC(cr, p, preimage).value < |b.theirs|
    ensures var q := SettleHTLC(cr, p, preimage).value;
            Rep(SettleHTLC(cr, p, preimage).party, b.(ours := b.ours + [Settle(q, b.theirs[q].amount)]))
  {
    hide OnChain, AddsOf, LogOk, SettledIn, SettleCandidate, SettleEnabled;
    SettleTarget(cr, p, b, preimage);
    var q := SettleHTLC(cr, p, preimage).value;
    var u := Settle(q, b.theirs[q].amount);
    var p1 := p.(theirLog := p.theirLog[q := p.theirLog[q].(settled := true)]);
    FlagsOnlyKeeps(p, b, p1.theirLog);
    TailBelowTip(p, b, Local);
    TailBelowTip(p, b, Remote);
    AppendOursKeeps(p1, b, u, NewEntry(SettleEntry, ZeroHash(), 0, p.theirLog[q].amount, p.ourCounter, q));
    SettleKeepsFlags(p, b, q, u);
  }

  /** Dropping the tail of the remote chain. */
  lemma AdvanceRemote(p: Party, b: Books)
    requires OnChain(p, b, Remote) && |p.remoteChain| >= 2
    ensures OnChain(p.(remoteChain := p.remoteChain[1..]), b, Remote)
  {
    LogAdvance(p.ourLog, b.ours, p.remoteChain, Remote, Ours);
    LogAdvance(p.theirLog, b.theirs, p.remoteChain, Remote, Theirs);
    hide LogOnChain;
  }

  lemma AdvanceLocal(p: Party, b: Books)
    requires OnChain(p, b, Local) && |p.localChain| >= 2
    ensures OnChain(p.(localChain := p.localChain[1..]), b, Local)
  {
    LogAdvance(p.ourLog, b.ours, p.localChain, Local, Ours);
    LogAdvance(p.theirLog, b.theirs, p.localChain, Local, Theirs);
    hide LogOnChain;
  }

  lemma LogAdvance(log: Log, full: seq<Update>, chain: seq<Commitment>, c: Chain, side: Side)
    requires LogOnChain(log, full, chain, c, side) && Ascending(chain) && |chain| >= 2
    ensures LogOnChain(log, full, chain[1..], c, side)
  {
    assert IndexOf(chain[0], side) <= IndexOf(chain[1], side);
    forall k | 0 <= k < |chain[1..]| ensures StampedBy(log, chain[1..][k], c, side) {
      assert chain[1..][k] == chain[k + 1];
    }
  }

  /** An entry both chains applied at or below their tails lies below both tail indexes. */
  lemma UnderTails(log: Log, full: seq<Update>, local: seq<Commitment>, remote: seq<Commitment>, side: Side, i: nat)
    requires LogOnChain(log, full, local, Local, side) && LogOnChain(log, full, remote, Remote, side)
    requires i in log
    requires 0 < HeightIn(log[i], Local) <= local[0].height && 0 < HeightIn(log[i], Remote) <= remote[0].height
    ensures i < IndexOf(local[0], side) && i < IndexOf(remote[0], side)
  {
    assert StampedBy(log, local[0], Local, side) && StampedBy(log, remote[0], Remote, side);
    assert StampedAt(log[i], i, local[0], Local, side) && StampedAt(log[i], i, remote[0], Remote, side);
  }

  lemma ForwardedUnderTails(p: Party, b: Books, i: nat)
    requires OnChain(p, b, Local) && OnChain(p, b, Remote)
    requires i in p.theirLog && p.theirLog[i].kind.AddEntry?
    requires ForwardNow(p.theirLog[i], p.localChain[0].height, p.remoteChain[0].height)
    ensures i < p.localChain[0].theirIndex && i < p.remoteChain[0].theirIndex
  {
    hide LogOnChain, ChainOk;
    UnderTails(p.theirLog, b.theirs, p.localChain, p.remoteChain, Theirs, i);
  }

  /** Below a forwarded Add every other Add is forwarded, now or before. */
  lemma ForwardsInOrder(p: Party, b: Books, q: nat, i: nat)
    requires OnChain(p, b, Local) && OnChain(p, b, Remote)
    requires q < i && q in p.theirLog && i in p.theirLog
    requires p.theirLog[q].kind.AddEntry? && p.theirLog[i].kind.AddEntry?
    requires ForwardNow(p.theirLog[i], p.localChain[0].height, p.remoteChain[0].height)
    ensures p.theirLog[q].isForwarded || ForwardNow(p.theirLog[q], p.localChain[0].height, p.remoteChain[0].height)
  {
    ForwardedUnderTails(p, b, i);
    hide ChainOk, HeightsUpTo, ParentsBelow, Retained;
    assert StampedBy(p.theirLog, p.localChain[0], Local, Theirs) && StampedBy(p.theirLog, p.remoteChain[0], Remote, Theirs);
    assert StampedAt(p.theirLog[q], q, p.localChain[0], Local, Theirs);
    assert StampedAt(p.theirLog[q], q, p.remoteChain[0], Remote, Theirs);
  }

  lemma MarkForwardsOrder(p: Party, b: Books)
    requires OnChain(p, b, Local) && OnChain(p, b, Remote) && ForwardOrder(p.theirLog)
    ensures ForwardOrder(MarkForwards(p.theirLog, p.localChain[0].height, p.remoteChain[0].height))
  {
    var lt, rt := p.localChain[0].height, p.remoteChain[0].height;
    hide OnChain;
    var log := p.theirLog;
    forall q, i | q in log && i in log && q < i && log[q].kind.AddEntry? && log[i].kind.AddEntry? && ForwardNow(log[i], lt, rt)
      ensures log[q].isForwarded || ForwardNow(log[q], lt, rt)
    {
      ForwardsInOrder(p, b, q, i);
    }
    hide ForwardNow;
  }

  /** Marking what may be forwarded keeps the representation. */
  lemma ForwardKeepsRep(p: Party, b: Books)
    requires Rep(p, b)
    ensures Rep(p.(theirLog := MarkForwards(p.theirLog, p.localChain[0].height, p.remoteChain[0].height)), b)
  {
    hide OnChain, LogOk, IndexesOk, SettledIn, ForwardOrder;
    var lt, rt := p.localChain[0].height, p.remoteChain[0].height;
    FlagsOnlyKeeps(p, b, MarkForwards(p.theirLog, lt, rt));
    MarkForwardsOrder(p, b);
    forall i | i in p.theirLog && p.theirLog[i].kind.AddEntry? && ForwardNow(p.theirLog[i], lt, rt)
      ensures i < p.localChain[0].theirIndex && i < p.remoteChain[0].theirIndex
    {
      ForwardedUnderTails(p, b, i);
    }
  }

  /** The entries one log loses to compaction: its own removals and the Adds cleared
  by the other log's. */
  function Pruned(log: Log, otherLog: Log, lt: nat, rt: nat): Log {
    log - Evicted(log, lt, rt) - EvictedParents(otherLog, lt, rt)
  }

  /** The parents an eviction names are Adds of the other log. */
  lemma EvictedParentsAreAdds(log: Log, full: seq<Update>, otherLog: Log, other: seq<Update>, lt: nat, rt: nat, q: nat)
    requires LogOk(log, full, otherLog, other) && q in EvictedParents(log, lt, rt)
    ensures q < |other| && other[q].Add? && SettledIn(full, q)
    ensures exists j :: j in log && Evictable(log[j], lt, rt) && j < |full| && full[j] == Settle(q, other[q].amount)
  {
    hide Cleared, Twinned, Unrepeated;
    var j: nat :| j in log && Evictable(log[j], lt, rt) && log[j].parent == q;
    assert Matches(log[j], j, full[j]);
  }

  /** The two passes of compaction come to the same as pruning both logs at once. */
  lemma CompactIsPruning(p: Party, b: Books, lt: nat, rt: nat)
    requires LogsOk(p, b)
    ensures CompactLogs(p, lt, rt).ourLog == Pruned(p.ourLog, p.theirLog, lt, rt)
    ensures CompactLogs(p, lt, rt).theirLog == Pruned(p.theirLog, p.ourLog, lt, rt)
    ensures EvictedParents(p.theirLog - EvictedParents(p.ourLog, lt, rt), lt, rt) == EvictedParents(p.theirLog, lt, rt)
    ensures Evicted(p.theirLog - EvictedParents(p.ourLog, lt, rt), lt, rt) == Evicted(p.theirLog, lt, rt)
  {
    hide Cleared, Twinned, Unrepeated, Paired, SettledIn;
    var theirAdds := EvictedParents(p.ourLog, lt, rt);
    var theirLog := p.theirLog - theirAdds;
    forall q | q in theirAdds && q in p.theirLog ensures !Evictable(p.theirLog[q], lt, rt) {
      EvictedParentsAreAdds(p.ourLog, b.ours, p.theirLog, b.theirs, lt, rt, q);
      assert Matches(p.theirLog[q], q, b.theirs[q]);
    }
    assert Evicted(theirLog, lt, rt) == Evicted(p.theirLog, lt, rt);
    forall r | r in EvictedParents(p.theirLog, lt, rt) ensures r in EvictedParents(theirLog, lt, rt) {
      var j: nat :| j in p.theirLog && Evictable(p.theirLog[j], lt, rt) && p.theirLog[j].parent == r;
      assert j in theirLog && theirLog[j] == p.theirLog[j];
    }
    assert EvictedParents(theirLog, lt, rt) == EvictedParents(p.theirLog, lt, rt);
  }

  lemma PrunedCleared(log: Log, full: seq<Update>, otherLog: Log, other: seq<Update>, lt: nat, rt: nat)
    requires LogOk(log, full, otherLog, other) && LogOk(otherLog, other, log, full)
    ensures Cleared(Pruned(log, otherLog, lt, rt), full, other)
  {
    hide Twinned, Paired, SettledIn;
    var log' := Pruned(log, otherLog, lt, rt);
    forall i | 0 <= i < |full| && i !in log' && full[i].Add? ensures SettledIn(other, i) {
      if i in log {
        assert Matches(log[i], i, full[i]);
        assert i in EvictedParents(otherLog, lt, rt);
        EvictedParentsAreAdds(otherLog, other, log, full, lt, rt, i);
      }
    }
  }

  lemma PrunedTwinned(log: Log, full: seq<Update>, otherLog: Log, other: seq<Update>, lt: nat, rt: nat)
    requires LogOk(log, full, otherLog, other) && LogOk(otherLog, other, log, full)
    ensures Twinned(Pruned(log, otherLog, lt, rt), Pruned(otherLog, log, lt, rt), full)
  {
    var log', otherLog' := Pruned(log, otherLog, lt, rt), Pruned(otherLog, log, lt, rt);
    forall j | 0 <= j < |full| && full[j].Settle? ensures j in log' <==> full[j].parent in otherLog' {
      PrunedTogether(log, full, otherLog, other, lt, rt, j);
    }
  }

  lemma PrunedTogether(log: Log, full: seq<Update>, otherLog: Log, other: seq<Update>, lt: nat, rt: nat, j: nat)
    requires LogOk(log, full, otherLog, other) && LogOk(otherLog, other, log, full)
    requires j < |full| && full[j].Settle?
    ensures j in Pruned(log, otherLog, lt, rt) <==> full[j].parent in Pruned(otherLog, log, lt, rt)
  {
    hide Cleared, SettledIn;
    var q := full[j].parent;
    assert j in log <==> q in otherLog;
    if j in log {
      assert Matches(log[j], j, full[j]) && Matches(otherLog[q], q, other[q]);
      if j in EvictedParents(otherLog, lt, rt) {
        EvictedParentsAreAdds(otherLog, other, log, full, lt, rt, j);
      }
      if q in EvictedParents(log, lt, rt) {
        EvictedParentsAreAdds(log, full, otherLog, other, lt, rt, q);
        var k :| k in log && Evictable(log[k], lt, rt) && k < |full| && full[k] == Settle(q, other[q].amount);
        assert k == j;
      }
    }
  }

  lemma PrunedLogOk(log: Log, full: seq<Update>, otherLog: Log, other: seq<Update>, lt: nat, rt: nat)
    requires LogOk(log, full, otherLog, other) && LogOk(otherLog, other, log, full)
    ensures LogOk(Pruned(log, otherLog, lt, rt), full, Pruned(otherLog, log, lt, rt), other)
  {
    hide Cleared, Twinned, Paired;
    PrunedCleared(log, full, otherLog, other, lt, rt);
    PrunedTwinned(log, full, otherLog, other, lt, rt);
  }

  /** Both chains have applied an evictable removal at or below their tails. */
  lemma EvictedUnderTails(log: Log, full: seq<Update>, local: seq<Commitment>, remote: seq<Commitment>, side: Side, j: nat)
    requires LogOnChain(log, full, local, Local, side) && LogOnChain(log, full, remote, Remote, side)
    requires j in log && Evictable(log[j], local[0].height, remote[0].height)
    ensures j < IndexOf(local[0], side) && j < IndexOf(remote[0], side)
  {
    hide LogOnChain;
    UnderTails(log, full, local, remote, side, j);
  }

  /** Compaction only drops what lies below the tails of both chains. */
  lemma PrunedRetained(log: Log, full: seq<Update>, otherLog: Log, other: seq<Update>,
                       local: seq<Commitment>, remote: seq<Commitment>, side: Side, c: Chain)
    requires LogOk(log, full, otherLog, other) && LogOk(otherLog, other, log, full)
    requires LogOnChain(log, full, local, Local, side) && LogOnChain(log, full, remote, Remote, side)
    requires LogOnChain(otherLog, other, local, Local, Opposite(side))
    requires LogOnChain(otherLog, other, remote, Remote, Opposite(side))
    requires var k := if c.Remote? then remote[0] else local[0];
             ParentsBelow(other, IndexOf(k, Opposite(side)), IndexOf(k, side))
    ensures Retained(Pruned(log, otherLog, local[0].height, remote[0].height), full,
                     IndexOf(if c.Remote? then remote[0] else local[0], side))
  {
    hide Cleared, Twinned, Paired, StampedBy, HeightsUpTo;
    var lt, rt := local[0].height, remote[0].height;
    var k := if c.Remote? then remote[0] else local[0];
    forall i | IndexOf(k, side) <= i < |full| ensures i in Pruned(log, otherLog, lt, rt) {
      assert i in log;
      if i in Evicted(log, lt, rt) {
        EvictedUnderTails(log, full, local, remote, side, i);
        assert false;
      }
      if i in EvictedParents(otherLog, lt, rt) {
        var j: nat :| j in otherLog && Evictable(otherLog[j], lt, rt) && otherLog[j].parent == i;
        EvictedUnderTails(otherLog, other, local, remote, Opposite(side), j);
        assert false;
      }
    }
  }

  lemma SubLogOnChain(log: Log, log': Log, full: seq<Update>, chain: seq<Commitment>, c: Chain, side: Side)
    requires LogOnChain(log, full, chain, c, side)
    requires forall i | i in log' :: i in log && log'[i] == log[i]
    requires Retained(log', full, IndexOf(chain[0], side))
    ensures LogOnChain(log', full, chain, c, side)
  {
    forall k | 0 <= k < |chain| ensures StampedBy(log', chain[k], c, side) {
      assert StampedBy(log, chain[k], c, side);
    }
  }

  lemma PrunedOnChain(p: Party, b: Books, c: Chain)
    requires LogsOk(p, b) && OnChain(p, b, Local) && OnChain(p, b, Remote)
    ensures var (lt, rt) := (p.localChain[0].height, p.remoteChain[0].height);
            OnChain(p.(ourLog := Pruned(p.ourLog, p.theirLog, lt, rt), theirLog := Pruned(p.theirLog, p.ourLog, lt, rt)), b, c)
  {
    hide LogOk, LogOnChain, Denotes;
    var lt, rt := p.localChain[0].height, p.remoteChain[0].height;
    assert Closed(p.localChain[0], b) && Closed(p.remoteChain[0], b);
    PrunedRetained(p.ourLog, b.ours, p.theirLog, b.theirs, p.localChain, p.remoteChain, Ours, c);
    PrunedRetained(p.theirLog, b.theirs, p.ourLog, b.ours, p.localChain, p.remoteChain, Theirs, c);
    SubLogOnChain(p.ourLog, Pruned(p.ourLog, p.theirLog, lt, rt), b.ours, ChainOf(p, c), c, Ours);
    SubLogOnChain(p.theirLog, Pruned(p.theirLog, p.ourLog, lt, rt), b.theirs, ChainOf(p, c), c, Theirs);
  }

  /** Only the logs and the chains matter. */
  lemma OnChainFrame(p: Party, p': Party, b: Books)
    requires OnChain(p, b, Local) && OnChain(p, b, Remote)
    requires p'.ourLog == p.ourLog && p'.theirLog == p.theirLog
    requires p'.localChain == p.localChain && p'.remoteChain == p.remoteChain
    ensures OnChain(p', b, Local) && OnChain(p', b, Remote)
  {
    hide LogOnChain, ChainOk;
  }

  /** The pruned logs stand for the same books: every removal left still finds its Add, and
  the index maps hold exactly the Adds left. */
  lemma CompactKeepsRep(p: Party, b: Books)
    requires Rep(p, b)
    ensures Rep(CompactLogs(p, p.localChain[0].height, p.remoteChain[0].height), b)
  {
    hide LogOk, OnChain;
    var lt, rt := p.localChain[0].height, p.remoteChain[0].height;
    var p' := CompactLogs(p, lt, rt);
    CompactIsPruning(p, b, lt, rt);
    PrunedLogOk(p.ourLog, b.ours, p.theirLog, b.theirs, lt, rt);
    PrunedLogOk(p.theirLog, b.theirs, p.ourLog, b.ours, lt, rt);
    var pruned := p.(ourLog := p'.ourLog, theirLog := p'.theirLog);
    PrunedOnChain(p, b, Local);
    PrunedOnChain(p, b, Remote);
    OnChainFrame(pruned, p', b);
    assert p'.ourLogIndex == AddsOf(p'.ourLog);
    assert p'.theirLogIndex == AddsOf(p'.theirLog);
  }

  /** Two commitments with the same height, indexes and revocation that stand for the same
  books are the same. */
  lemma DenotesOne(k: Commitment, k': Commitment, b: Books)
    requires Denotes(k, b) && Denotes(k', b)
    requires k.height == k'.height && k.revocation == k'.revocation
    requires k.ourIndex == k'.ourIndex && k.theirIndex == k'.theirIndex
    ensures k == k'
  {
    hide Net, Active;
  }

  /** Compaction is invisible: every later view of either chain is the same commitment. */
  lemma CompactInvisible(p: Party, b: Books, c: Chain, n: nat, m: nat, rev: Revocation)
    requires Rep(p, b) && Forward(p, b, c, n, m)
    ensures var p' := CompactLogs(p, p.localChain[0].height, p.remoteChain[0].height);
            ChainOf(p', c) == ChainOf(p, c) && ViewAt(p', c, n, m, rev) == ViewAt(p, c, n, m, rev)
  {
    hide LogOk, LogOnChain, Denotes, Closed, IndexesOk, FlagsOk, SkipSet, Credit, Debit, Live, Evicted, EvictedParents;
    assert p.localChain != [] && p.remoteChain != [];
    hide OnChain;
    var p' := CompactLogs(p, p.localChain[0].height, p.remoteChain[0].height);
    CompactKeepsRep(p, b);
    ViewDenotes(p, b, c, n, m, rev);
    ViewDenotes(p', b, c, n, m, rev);
    DenotesOne(ViewAt(p', c, n, m, rev), ViewAt(p, c, n, m, rev), b);
  }
}
