/** Which updates of the peer a revocation hands up to the switch: all those both tails
contain, each once, and exactly which others.
 */
module Forwarding {
  import opened Primitives
  import opened Ledger
  import opened ChannelSpec
  import opened ChannelRep
  import opened ChannelSteps
  import opened Protocol
  import opened ProtocolReceives
  import opened ProtocolTheorems
  import Elk = ElkremSpec

  ghost predicate HasTails(p: Party) {
    p.localChain != [] && p.remoteChain != []
  }

  /** Both tails contain the peer's update number `i`. */
  ghost predicate BehindTails(p: Party, i: nat)
    requires HasTails(p)
  {
    i < p.localChain[0].theirIndex && i < p.remoteChain[0].theirIndex
  }

  /** The last commitment of the chain contains update number `i` and the first does not. */
  predicate Pending(chain: seq<Commitment>, i: nat)
    requires chain != []
  {
    chain[0].theirIndex <= i < Tip(chain).theirIndex
  }

  /** What makes the code hand up an update: an Add must be on both tails; a settle must not be
  under way on either chain, and need not be on any. */
  ghost predicate Due(p: Party, u: Update, i: nat)
    requires HasTails(p)
  {
    if u.Add? then BehindTails(p, i) else !Pending(p.localChain, i) && !Pending(p.remoteChain, i)
  }

  /* --- one log entry ------------------------------------------------------------------------ */

  /** The stamps of an entry tell where on the chain it is. */
  lemma StampsTell(log: Log, full: seq<Update>, chain: seq<Commitment>, c: Chain, i: nat)
    requires LogOnChain(log, full, chain, c, Theirs) && i in log
    ensures i < chain[0].theirIndex <==> 0 < HeightIn(log[i], c) <= chain[0].height
    ensures i < Tip(chain).theirIndex <==> 0 < HeightIn(log[i], c)
  {
    assert StampedBy(log, chain[0], c, Theirs) && StampedBy(log, chain[|chain| - 1], c, Theirs);
    assert StampedAt(log[i], i, chain[0], c, Theirs) && StampedAt(log[i], i, Tip(chain), c, Theirs);
  }

  lemma ReleasedIfDue(p: Party, b: Books, i: nat)
    requires Rep(p, b) && i in p.theirLog && !p.theirLog[i].isForwarded
    ensures HasTails(p) && i < |b.theirs|
    ensures ForwardNow(p.theirLog[i], p.localChain[0].height, p.remoteChain[0].height) <==> Due(p, b.theirs[i], i)
  {
    hide LogOnChain, ChainOk, ForwardOrder, SettledIn, IndexesOk, Cleared, Twinned, Paired;
    StampsTell(p.theirLog, b.theirs, p.localChain, Local, i);
    StampsTell(p.theirLog, b.theirs, p.remoteChain, Remote, i);
    assert Matches(p.theirLog[i], i, b.theirs[i]);
  }

  /* --- one revocation ------------------------------------------------------------------------- */

  /** The peer's oldest message revokes its tail. */
  ghost predicate Revokes(s: Sys) {
    Receivable(s) && s.b.outbox[0].RevocationMsg? && s.b.outbox[0].rev.preimage != ZeroHash()
  }

  /** What handling that message does, as far as handing up is concerned. */
  lemma RevocationHandsUp(cr: Crypto, s: Sys)
    requires Revokes(s) && Receiving(cr, s).Some?
    ensures |s.a.party.remoteChain| >= 2
    ensures var (s', p) := (Receiving(cr, s).value, s.a.party);
            && s'.b.sent == s.b.sent && s'.a.party.theirCounter == p.theirCounter
            && s'.a.party.localChain == p.localChain && s'.a.party.remoteChain == p.remoteChain[1..]
            && s'.a.handedUp == s.a.handedUp + Indexes(Handle(cr, p, s.b.outbox[0]).value)
            && Handle(cr, p, s.b.outbox[0]).value
               == Forwards(p.theirLog, p.theirCounter, p.localChain[0].height, p.remoteChain[1].height)
  {
    hide ReceiveRevocation, Forwards, Indexes, ZeroHash, ToChannelDelta, MarkForwards, Elk.AddNext;
    RevocationFacts(cr, s.a.party, s.b.outbox[0].rev);
  }

  lemma NewlyHandedUp(x: Node, y: Node, up: seq<nat>, i: nat)
    requires LedgerOk(x, y) && HandedOk(x) && i < x.party.theirCounter && i !in x.handedUp
    requires |x.party.remoteChain| >= 2 && x.party.localChain != []
    requires Released(up, x.party.theirLog, x.party.theirCounter, x.party.localChain[0].height, x.party.remoteChain[1].height)
    ensures HasTails(Advanced(x.party)) && i < |y.sent|
    ensures i in up <==> Due(Advanced(x.party), y.sent[i], i)
  {
    hide Rep, ChainOk, ForwardNow, Due;
    AdvanceKeepsRep(x.party, BooksOf(x, y));
    ReleasedIfDue(Advanced(x.party), BooksOf(x, y), i);
  }

  lemma HandsUpDue(cr: Crypto, s: Sys, i: nat)
    requires Inv(cr, s) && Revokes(s) && i < s.a.party.theirCounter
    ensures Receiving(cr, s).Some?
    ensures var s' := Receiving(cr, s).value;
            && HasTails(s'.a.party) && i < |s'.b.sent| && s'.a.party.theirCounter == s.a.party.theirCounter
            && (i in s'.a.handedUp <==> i in s.a.handedUp || Due(s'.a.party, s'.b.sent[i], i))
  {
    assert LedgerOk(s.a, s.b) && HandedOk(s.a);
    hide Inv, Rep, ChainOk, HandedOk, Handle, Receiving, Released, Due, Indexes, Forwards, ZeroHash, LogMatches;
    ReceiveKeepsInv(cr, s);
    RevocationHandsUp(cr, s);
    var (p, s') := (s.a.party, Receiving(cr, s).value);
    LogKnown(p, BooksOf(s.a, s.b));
    ForwardsReleased(p.theirLog, BooksOf(s.a, s.b).theirs, p.theirCounter, p.localChain[0].height, p.remoteChain[1].height);
    var up := Indexes(Handle(cr, p, s.b.outbox[0]).value);
    if i in s.a.handedUp {
      assert i < |s.b.sent|;
    } else {
      NewlyHandedUp(s.a, s.b, up, i);
      DueFrame(Advanced(p), s'.a.party, s.b.sent[i], i);
    }
  }

  lemma DueFrame(p: Party, p': Party, u: Update, i: nat)
    requires HasTails(p) && p'.localChain == p.localChain && p'.remoteChain == p.remoteChain
    ensures Due(p, u, i) <==> Due(p', u, i)
  {
  }

  /** Exactly when an accepted revocation hands up an update that was not handed up before. */
  lemma HandedUpExactly(cr: Crypto, run: seq<Sys>, n: nat, byFirst: bool, i: nat)
    requires IsRun(cr, run) && n < |run| && Revokes(Seen(run, n, byFirst))
    requires i < Seen(run, n, byFirst).a.party.theirCounter
    ensures Receiving(cr, Seen(run, n, byFirst)).Some?
    ensures var (s, s') := (Seen(run, n, byFirst), Receiving(cr, Seen(run, n, byFirst)).value);
            && HasTails(s'.a.party) && i < |s'.b.sent|
            && (i in s'.a.handedUp <==> i in s.a.handedUp || Due(s'.a.party, s'.b.sent[i], i))
  {
    SeenInv(cr, run, n, byFirst);
    hide IsRun, Inv, Revokes, Receiving, Due;
    HandsUpDue(cr, Seen(run, n, byFirst), i);
  }

  /* --- nothing both tails contain is missing ------------------------------------------------- */

  /** The tails stay within what has been received. */
  lemma TailsKnown(x: Node, y: Node)
    requires LedgerOk(x, y)
    ensures HasTails(x.party) && x.party.localChain[0].theirIndex <= x.party.theirCounter <= |y.sent|
    ensures x.party.remoteChain[0].theirIndex <= x.party.theirCounter
  {
    hide LogOnChain, LogOk, FlagsOk;
    var (p, b) := (x.party, BooksOf(x, y));
    assert OnChain(p, b, Local) && OnChain(p, b, Remote);
    assert Denotes(p.localChain[0], b) && Denotes(p.remoteChain[0], b);
  }

  /** Exactly one place of the list holds the number. */
  ghost predicate Once(list: seq<nat>, i: nat) {
    exists j :: 0 <= j < |list| && list[j] == i && forall k | 0 <= k < |list| && k != j :: list[k] != i
  }

  lemma OnceIfDistinct(list: seq<nat>, i: nat)
    requires i in list && forall j, k | 0 <= j < k < |list| :: list[j] != list[k]
    ensures Once(list, i)
  {
    var j :| 0 <= j < |list| && list[j] == i;
    forall k | 0 <= k < |list| && k != j ensures list[k] != i {
      assert list[if j < k then j else k] != list[if j < k then k else j];
    }
  }

  lemma InvHandsUpOnce(cr: Crypto, s: Sys, i: nat)
    requires Inv(cr, s) && Revokes(s) && Receiving(cr, s).Some? && HasTails(Receiving(cr, s).value.a.party)
    requires BehindTails(Receiving(cr, s).value.a.party, i)
    ensures Once(Receiving(cr, s).value.a.handedUp, i)
  {
    hide LedgerOk, HistoryOk, MirrorOk, KeysOk, QueueOk, SettlesOk, StoreOk, Matched, Receiving, Once, ZeroHash;
    var s' := Receiving(cr, s).value;
    ReceiveKeepsInv(cr, s);
    assert LedgerOk(s'.a, s'.b) && HandedOk(s'.a);
    hide Inv;
    TailsKnown(s'.a, s'.b);
    CounterKept(cr, s);
    HandsUpDue(cr, s, i);
    OnceIfDistinct(s'.a.handedUp, i);
  }

  lemma CounterKept(cr: Crypto, s: Sys)
    requires Revokes(s) && Receiving(cr, s).Some?
    ensures Receiving(cr, s).value.a.party.theirCounter == s.a.party.theirCounter
  {
    hide Receiving, Handle, Forwards, Indexes, ZeroHash;
    RevocationHandsUp(cr, s);
  }

  /** Completeness: after every accepted revocation of every run, each update of the peer that
  both tails contain, Add or settle, has been handed up exactly once. */
  lemma EveryUpdateHandedUpOnce(cr: Crypto, run: seq<Sys>, n: nat, byFirst: bool, i: nat)
    requires IsRun(cr, run) && n < |run| && Revokes(Seen(run, n, byFirst))
    ensures var r := Receiving(cr, Seen(run, n, byFirst));
            && r.Some? && HasTails(r.value.a.party)
            && (BehindTails(r.value.a.party, i) ==> Once(r.value.a.handedUp, i))
  {
    SeenInv(cr, run, n, byFirst);
    hide IsRun, LedgerOk, HandedOk, HistoryOk, MirrorOk, KeysOk, QueueOk, SettlesOk, StoreOk, Matched, Receiving, Once, ZeroHash;
    var s := Seen(run, n, byFirst);
    ReceiveKeepsInv(cr, s);
    var s' := Receiving(cr, s).value;
    assert LedgerOk(s'.a, s'.b);
    TailsKnown(s'.a, s'.b);
    if BehindTails(s'.a.party, i) {
      InvHandsUpOnce(cr, s, i);
    }
  }

  /* --- and no Add too early --------------------------------------------------------------------- */

  lemma HandedAddsBehind(x: Node, y: Node, i: nat)
    requires LedgerOk(x, y) && HandedOk(x) && i in x.handedUp
    ensures HasTails(x.party) && i < |y.sent|
    ensures y.sent[i].Add? ==> BehindTails(x.party, i)
  {
    hide Denotes, Closed, LogOk, SettledIn, StampedBy;
    var (p, b) := (x.party, BooksOf(x, y));
    var j :| 0 <= j < |x.handedUp| && x.handedUp[j] == i;
    assert i < p.theirCounter == |b.theirs|;
    assert OnChain(p, b, Local) && OnChain(p, b, Remote) && FlagsOk(p, b);
    assert Retained(p.theirLog, b.theirs, p.localChain[0].theirIndex);
    assert Retained(p.theirLog, b.theirs, p.remoteChain[0].theirIndex);
    if i in p.theirLog && y.sent[i].Add? {
      KnownAdd(p.theirLog, b.theirs, p.ourLog, b.ours, i);
    }
  }

  /** In every state an Add that has been handed up is on both tails, so with
  `EveryUpdateHandedUpOnce` the Adds handed up after a revocation are exactly those. */
  lemma HandedUpAddsOnTails(cr: Crypto, run: seq<Sys>, n: nat, byFirst: bool, i: nat)
    requires IsRun(cr, run) && n < |run| && i in Seen(run, n, byFirst).a.handedUp
    ensures var s := Seen(run, n, byFirst);
            HasTails(s.a.party) && i < |s.b.sent| && (s.b.sent[i].Add? ==> BehindTails(s.a.party, i))
  {
    SeenInv(cr, run, n, byFirst);
    hide IsRun, LedgerOk, HandedOk, HistoryOk, MirrorOk, KeysOk, QueueOk, SettlesOk, StoreOk, Matched;
    var s := Seen(run, n, byFirst);
    HandedAddsBehind(s.a, s.b, i);
  }

  /* --- the entries themselves ------------------------------------------------------------------- */

  lemma {:induction false} ForwardsMatch(log: Log, full: seq<Update>, n: nat, lt: nat, rt: nat)
    requires LogMatches(log, full)
    ensures forall e | e in Forwards(log, n, lt, rt) :: e.index < |full| && Matches(e, e.index, full[e.index])
    decreases n
  {
    hide ForwardNow;
    if n > 0 {
      ForwardsMatch(log, full, n - 1, lt, rt);
      if n - 1 in log {
        assert Matches(log[n - 1], n - 1, full[n - 1]);
      }
    }
  }

  lemma LedgerEntries(x: Node, y: Node, lt: nat, rt: nat)
    requires LedgerOk(x, y)
    ensures forall e | e in Forwards(x.party.theirLog, x.party.theirCounter, lt, rt) ::
              e.index < |y.sent| && Matches(e, e.index, y.sent[e.index])
  {
    hide Rep, ChainOk, LogMatches, Forwards, Matches;
    LogKnown(x.party, BooksOf(x, y));
    ForwardsMatch(x.party.theirLog, BooksOf(x, y).theirs, x.party.theirCounter, lt, rt);
  }

  /** What is handed up is what the peer sent: kind, amount, payment hash and timeout of an
  Add, parent and amount of a settle. */
  lemma HandedUpAsSent(cr: Crypto, run: seq<Sys>, n: nat, byFirst: bool)
    requires IsRun(cr, run) && n < |run| && Revokes(Seen(run, n, byFirst))
    ensures Receiving(cr, Seen(run, n, byFirst)).Some?
    ensures var s := Seen(run, n, byFirst);
            var es := Handle(cr, s.a.party, s.b.outbox[0]).value;
            && Receiving(cr, s).value.a.handedUp == s.a.handedUp + Indexes(es)
            && forall e | e in es :: e.index < |s.b.sent| && Matches(e, e.index, s.b.sent[e.index])
  {
    SeenInv(cr, run, n, byFirst);
    hide IsRun, LedgerOk, HandedOk, HistoryOk, MirrorOk, KeysOk, QueueOk, SettlesOk, StoreOk, Matched;
    hide Receiving, Handle, Forwards, Indexes, Matches, ZeroHash;
    var s := Seen(run, n, byFirst);
    ReceiveKeepsInv(cr, s);
    RevocationHandsUp(cr, s);
    LedgerEntries(s.a, s.b, s.a.party.localChain[0].height, s.a.party.remoteChain[1].height);
  }
}
