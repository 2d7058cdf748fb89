/** A run in which a settle is handed up before any commitment contains it: the check for Adds
that no chain has committed has no counterpart for removals.
 */
module ForwardingExample {
  import opened Primitives
  import opened Ledger
  import opened ChannelSpec
  import opened ChannelRep
  import opened Protocol
  import opened ProtocolReceives
  import opened ProtocolTheorems
  import opened ProtocolExample
  import opened Forwarding
  import Elk = ElkremSpec

  /** No unrevoked commitment of the party contains an update of the peer. */
  ghost predicate NothingFromPeer(p: Party) {
    && (forall k | k in p.localChain :: k.theirIndex == 0)
    && (forall k | k in p.remoteChain :: k.theirIndex == 0)
  }

  lemma NothingReceived(x: Node, y: Node)
    requires LedgerOk(x, y) && x.party.theirCounter == 0
    ensures NothingFromPeer(x.party)
  {
    hide LogOnChain, LogOk, FlagsOk, Closed, Ascending;
    var (p, b) := (x.party, BooksOf(x, y));
    assert OnChain(p, b, Local) && OnChain(p, b, Remote);
    forall i | 0 <= i < |p.localChain| ensures p.localChain[i].theirIndex == 0 {
      assert Denotes(p.localChain[i], b);
    }
    forall i | 0 <= i < |p.remoteChain| ensures p.remoteChain[i].theirIndex == 0 {
      assert Denotes(p.remoteChain[i], b);
    }
  }

  lemma InvNothingReceived(cr: Crypto, s: Sys)
    requires Inv(cr, s) && s.a.party.theirCounter == 0
    ensures NothingFromPeer(s.a.party)
  {
    hide LedgerOk, HistoryOk, MirrorOk, KeysOk, QueueOk, SettlesOk, StoreOk, HandedOk, Matched, NothingFromPeer;
    NothingReceived(s.a, s.b);
  }

  /** A received settle only adds to the peer's log. */
  lemma SettleReceived(cr: Crypto, s: Sys)
    requires Inv(cr, s) && Receivable(s) && s.b.outbox[0].SettleMsg?
    ensures ApplyA(cr, s, DoReceive).Some?
    ensures var (p, s') := (s.a.party, ApplyA(cr, s, DoReceive).value);
            && s'.a.party.localChain == p.localChain && s'.a.party.remoteChain == p.remoteChain
            && s'.a.party.theirCounter == p.theirCounter + 1 && s'.b == s.b.(outbox := s.b.outbox[1..])
  {
    hide Inv;
    ReceiveKeepsInv(cr, s);
  }

  /** The payer signs once more, and the payee revokes behind its settle. */
  lemma SettleThenRevocation(cr: Crypto, run: seq<Sys>) returns (run': seq<Sys>)
    requires IsRun(cr, run) && run != [] && SettleUnderWay(Last(run)) && Inv(cr, Last(run))
    ensures IsRun(cr, run') && run' != [] && run'[0] == run[0] && Inv(cr, Last(run'))
    ensures var (s, s') := (Last(run), Last(run'));
            && s'.a.party.theirCounter == 0 && s'.b.sent == s.b.sent && s'.a.party.localChain != []
            && |s'.b.outbox| == 2 && s'.b.outbox[0] == s.b.outbox[0]
            && s'.b.outbox[1].RevocationMsg? && s'.b.outbox[1].rev.preimage != ZeroHash()
  {
    hide IsRun, Inv, ApplyA, OwnRevocation, ViewAt, MarkLog, SkipSet, SignatureOf, Elk.SecretAt, ZeroHash, ToChannelDelta;
    RemoteNotEmpty(cr, Last(run));
    SignStep(cr, Last(run));
    var r := Act(cr, run, true, DoSign);
    SigReceived(cr, Flip(Last(r)));
    r := Act(cr, r, false, DoReceive);
    var s := Last(r);
    RevokeStep(cr, Flip(s));
    SecretNotZero(cr, Flip(s));
    run' := Act(cr, r, false, DoRevoke);
  }

  lemma RemoteNotEmpty(cr: Crypto, s: Sys)
    requires Inv(cr, s)
    ensures s.a.party.remoteChain != [] && s.a.party.localChain != [] && s.b.party.localChain != []
  {
    hide LedgerOk, MirrorOk, KeysOk, QueueOk, StoreOk, HandedOk, Matched, Paired, ParentsBelow;
  }

  /** The two messages are handled: the settle is handed up, on no commitment yet. */
  lemma SettleOvertakes(cr: Crypto, run: seq<Sys>) returns (run': seq<Sys>)
    requires IsRun(cr, run) && run != [] && Inv(cr, Last(run))
    requires var s := Last(run);
             && s.a.party.theirCounter == 0 && s.a.party.localChain != [] && |s.b.outbox| == 2 && s.b.outbox[0].SettleMsg?
             && s.b.outbox[1].RevocationMsg? && s.b.outbox[1].rev.preimage != ZeroHash()
             && |s.b.sent| == 1 && s.b.sent[0].Settle?
    ensures IsRun(cr, run') && run' != [] && run'[0] == run[0]
    ensures var (s, s') := (Last(run), Last(run'));
            s'.b.sent == s.b.sent && 0 in s'.a.handedUp && NothingFromPeer(s'.a.party)
  {
    hide IsRun, Inv, ApplyA, Handle, Receiving, Indexes, Forwards, ZeroHash;
    InvNothingReceived(cr, Last(run));
    SettleReceived(cr, Last(run));
    var r := Act(cr, run, true, DoReceive);
    var s := Last(r);
    HandsUpDue(cr, s, 0);
    RevocationHandsUp(cr, s);
    NotPending(Receiving(cr, s).value.a.party);
    ReceiveApplies(cr, s);
    run' := Act(cr, r, true, DoReceive);
  }

  lemma ReceiveApplies(cr: Crypto, s: Sys)
    requires Receivable(s)
    ensures ApplyA(cr, s, DoReceive) == Receiving(cr, s)
  {
    hide Receiving;
  }

  lemma NotPending(p: Party)
    requires HasTails(p) && NothingFromPeer(p)
    ensures !Pending(p.localChain, 0) && !Pending(p.remoteChain, 0)
  {
    assert Tip(p.localChain) in p.localChain && Tip(p.remoteChain) in p.remoteChain;
  }

  /** For any balances and amount there is a run in which the payer is handed the settle of its
  payment while no unrevoked commitment of either chain contains it. */
  lemma SettleHandedUpEarly(ours: int, theirs: int, amount: int) returns (cr: Crypto, run: seq<Sys>)
    ensures IsRun(cr, run) && run != [] && run[0].a.start == ours && run[0].b.start == theirs
    ensures var s := Last(run);
            s.b.sent == [Settle(0, amount)] && 0 in s.a.handedUp && NothingFromPeer(s.a.party)
  {
    hide IsRun, Inv, ZeroHash, NothingFromPeer;
    var r;
    cr, r := PaymentRun(ours, theirs, amount);
    r := SettleThenRevocation(cr, r);
    run := SettleOvertakes(cr, r);
  }
}
