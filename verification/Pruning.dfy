/** What the update logs hold after a revocation: exactly the updates that are not finished. A
settle is finished once both tails contain it, an Add once its settle is.
 */
module Pruning {
  import opened Primitives
  import opened Ledger
  import opened ChannelSpec
  import opened ChannelRep
  import opened ChannelSteps
  import opened Protocol
  import opened ProtocolReceives
  import opened ProtocolTheorems
  import opened Forwarding
  import Elk = ElkremSpec

  /** Both tails contain update number `i` of that side. */
  ghost predicate OnTails(p: Party, side: Side, i: nat)
    requires HasTails(p)
  {
    i < IndexOf(p.localChain[0], side) && i < IndexOf(p.remoteChain[0], side)
  }

  /** The update and its counterpart are on both tails, and no later commitment needs them. */
  ghost predicate Finished(p: Party, side: Side, full: seq<Update>, other: seq<Update>, i: nat)
    requires HasTails(p) && i < |full|
  {
    if full[i].Settle? then OnTails(p, side, i)
    else exists j :: 0 <= j < |other| && other[j].Settle? && other[j].parent == i && OnTails(p, Opposite(side), j)
  }

  /** Nothing both tails have removed is left. */
  ghost predicate Swept(p: Party)
    requires HasTails(p)
  {
    && (forall i | i in p.ourLog :: !Evictable(p.ourLog[i], p.localChain[0].height, p.remoteChain[0].height))
    && (forall i | i in p.theirLog :: !Evictable(p.theirLog[i], p.localChain[0].height, p.remoteChain[0].height))
  }

  lemma CompactSweeps(p: Party, b: Books)
    requires Rep(p, b)
    ensures HasTails(p) && Swept(CompactLogs(p, p.localChain[0].height, p.remoteChain[0].height))
  {
    hide LogOk, OnChain, Evictable, IndexesOk, ForwardOrder, SettledIn;
    assert HasTails(p);
    CompactIsPruning(p, b, p.localChain[0].height, p.remoteChain[0].height);
  }

  /** A settle that both tails contain is evictable. */
  lemma OnTailsEvictable(log: Log, full: seq<Update>, local: seq<Commitment>, remote: seq<Commitment>, side: Side, i: nat)
    requires LogOnChain(log, full, local, Local, side) && LogOnChain(log, full, remote, Remote, side)
    requires i in log && !log[i].kind.AddEntry? && i < IndexOf(local[0], side) && i < IndexOf(remote[0], side)
    ensures Evictable(log[i], local[0].height, remote[0].height)
  {
    assert StampedBy(log, local[0], Local, side) && StampedBy(log, remote[0], Remote, side);
    assert StampedAt(log[i], i, local[0], Local, side) && StampedAt(log[i], i, remote[0], Remote, side);
  }

  /** A settle is in a swept log exactly as long as some tail does not contain it. */
  lemma SettlesLeft(p: Party, side: Side, log: Log, full: seq<Update>, otherLog: Log, other: seq<Update>, i: nat)
    requires HasTails(p) && LogOk(log, full, otherLog, other) && i < |full| && full[i].Settle?
    requires LogOnChain(log, full, p.localChain, Local, side) && LogOnChain(log, full, p.remoteChain, Remote, side)
    requires forall j | j in log :: !Evictable(log[j], p.localChain[0].height, p.remoteChain[0].height)
    ensures i in log <==> !OnTails(p, side, i)
  {
    assert Retained(log, full, IndexOf(p.localChain[0], side)) && Retained(log, full, IndexOf(p.remoteChain[0], side));
    hide LogOnChain, Evictable, Cleared, Twinned, Paired;
    if i in log && OnTails(p, side, i) {
      assert Matches(log[i], i, full[i]);
      OnTailsEvictable(log, full, p.localChain, p.remoteChain, side, i);
    }
  }

  /** The books of one side: the log, the complete log, and how they relate to both chains. */
  ghost predicate SideOk(p: Party, side: Side, log: Log, full: seq<Update>, otherLog: Log, other: seq<Update>)
    requires HasTails(p)
  {
    && LogOk(log, full, otherLog, other)
    && LogOnChain(log, full, p.localChain, Local, side) && LogOnChain(log, full, p.remoteChain, Remote, side)
    && forall j | j in log :: !Evictable(log[j], p.localChain[0].height, p.remoteChain[0].height)
  }

  lemma ExactlyUnfinished(p: Party, side: Side, log: Log, full: seq<Update>, otherLog: Log, other: seq<Update>, i: nat)
    requires HasTails(p) && i < |full|
    requires SideOk(p, side, log, full, otherLog, other) && SideOk(p, Opposite(side), otherLog, other, log, full)
    ensures i in log <==> !Finished(p, side, full, other, i)
  {
    hide LogOnChain, Evictable, OnTails;
    if full[i].Settle? {
      SettlesLeft(p, side, log, full, otherLog, other, i);
    } else {
      forall j | 0 <= j < |other| && other[j].Settle? && other[j].parent == i
        ensures OnTails(p, Opposite(side), j) <==> i !in log
      {
        SettlesLeft(p, Opposite(side), otherLog, other, log, full, j);
        assert j in otherLog <==> other[j].parent in log;
      }
      if i !in log {
        assert SettledIn(other, i);
        var j :| 0 <= j < |other| && other[j].Settle? && other[j].parent == i;
        assert OnTails(p, Opposite(side), j);
      }
    }
  }

  /** Both logs hold exactly the unfinished updates of the books. */
  ghost predicate HoldsUnfinished(p: Party, b: Books)
    requires HasTails(p)
  {
    && (forall i | 0 <= i < |b.ours| :: i in p.ourLog <==> !Finished(p, Ours, b.ours, b.theirs, i))
    && (forall i | 0 <= i < |b.theirs| :: i in p.theirLog <==> !Finished(p, Theirs, b.theirs, b.ours, i))
  }

  lemma SweptHoldsUnfinished(p: Party, b: Books)
    requires Rep(p, b) && HasTails(p) && Swept(p)
    ensures HoldsUnfinished(p, b)
  {
    hide LogOk, LogOnChain, Evictable, ChainOk, IndexesOk, FlagsOk, Finished;
    assert SideOk(p, Ours, p.ourLog, b.ours, p.theirLog, b.theirs);
    assert SideOk(p, Theirs, p.theirLog, b.theirs, p.ourLog, b.ours);
    hide SideOk;
    forall i | 0 <= i < |b.ours| ensures i in p.ourLog <==> !Finished(p, Ours, b.ours, b.theirs, i) {
      ExactlyUnfinished(p, Ours, p.ourLog, b.ours, p.theirLog, b.theirs, i);
    }
    forall i | 0 <= i < |b.theirs| ensures i in p.theirLog <==> !Finished(p, Theirs, b.theirs, b.ours, i) {
      ExactlyUnfinished(p, Theirs, p.theirLog, b.theirs, p.ourLog, b.ours, i);
    }
  }

  /* --- after a revocation ------------------------------------------------------------------------ */

  lemma RevocationSweeps(cr: Crypto, p: Party, b: Books, m: RevMsg)
    requires Rep(p, b) && HasTails(p) && m.preimage != ZeroHash() && ReceiveRevocation(cr, p, m).Ok?
    ensures HasTails(ReceiveRevocation(cr, p, m).party) && Swept(ReceiveRevocation(cr, p, m).party)
  {
    hide LogOk, OnChain, IndexesOk, FlagsOk, SettledIn, Elk.AddNext, ToChannelDelta, Forwards, ZeroHash, Evictable;
    var p' := ReceiveRevocation(cr, p, m).party;
    AdvanceKeepsRep(p, b);
    var p1 := Advanced(p);
    HasBoth(p1, b);
    ForwardKeepsRep(p1, b);
    var p2 := Forwarded(p1);
    CompactSweeps(p2, b);
    SweptFrame(CompactLogs(p2, p2.localChain[0].height, p2.remoteChain[0].height), p');
  }

  lemma HasBoth(p: Party, b: Books)
    requires Rep(p, b)
    ensures HasTails(p)
  {
    hide LogOk, OnChain, IndexesOk, ForwardOrder, SettledIn;
  }

  lemma SweptFrame(p: Party, p': Party)
    requires HasTails(p) && Swept(p) && SameBooks(p, p')
    ensures HasTails(p') && Swept(p')
  {
    hide Evictable;
  }

  lemma LedgerHoldsUnfinished(cr: Crypto, x: Node, y: Node, x': Node, y': Node, m: RevMsg)
    requires LedgerOk(x, y) && LedgerOk(x', y') && HasTails(x.party) && m.preimage != ZeroHash()
    requires ReceiveRevocation(cr, x.party, m).Ok? && x'.party == ReceiveRevocation(cr, x.party, m).party
    ensures HasTails(x'.party) && HoldsUnfinished(x'.party, BooksOf(x', y'))
  {
    hide Rep, ChainOk, HoldsUnfinished, Swept, ReceiveRevocation, ZeroHash;
    RevocationSweeps(cr, x.party, BooksOf(x, y), m);
    SweptHoldsUnfinished(x'.party, BooksOf(x', y'));
  }

  lemma InvHoldsUnfinished(cr: Crypto, s: Sys)
    requires Inv(cr, s) && Revokes(s)
    ensures Receiving(cr, s).Some?
    ensures var s' := Receiving(cr, s).value;
            BooksKnown(s'.a, s'.b) && HasTails(s'.a.party) && HoldsUnfinished(s'.a.party, BooksOf(s'.a, s'.b))
  {
    hide Rep, ChainOk, HandedOk, HistoryOk, MirrorOk, KeysOk, QueueOk, SettlesOk, StoreOk, Matched, HoldsUnfinished;
    hide ReceiveRevocation, ZeroHash, Indexes;
    ReceiveKeepsInv(cr, s);
    var s' := Receiving(cr, s).value;
    assert LedgerOk(s.a, s.b) && LedgerOk(s'.a, s'.b);
    hide Inv, LedgerOk;
    TailsKnown(s.a, s.b);
    LedgerHoldsUnfinished(cr, s.a, s.b, s'.a, s'.b, s.b.outbox[0].rev);
  }

  /** In every run, after every accepted revocation, each of the two logs holds exactly the
  updates that are not finished: nothing is kept for longer and nothing dropped sooner. */
  lemma LogsHoldUnfinished(cr: Crypto, run: seq<Sys>, n: nat, byFirst: bool)
    requires IsRun(cr, run) && n < |run| && Revokes(Seen(run, n, byFirst))
    ensures Receiving(cr, Seen(run, n, byFirst)).Some?
    ensures var s' := Receiving(cr, Seen(run, n, byFirst)).value;
            BooksKnown(s'.a, s'.b) && HasTails(s'.a.party) && HoldsUnfinished(s'.a.party, BooksOf(s'.a, s'.b))
  {
    hide IsRun, Inv, Receiving, HoldsUnfinished, Revokes;
    SeenInv(cr, run, n, byFirst);
    InvHoldsUnfinished(cr, Seen(run, n, byFirst));
  }
}
