/** Sending steps keep the invariant: add, settle, sign, revoke, extend. */
module ProtocolSends {
  import opened Primitives
  import opened Ledger
  import opened ChannelSpec
  import opened ChannelRep
  import opened ChannelSteps
  import opened Protocol
  import Elk = ElkremSpec

  /* --- queues ------------------------------------------------------------------- */

  ghost predicate WorldGrows(w: World, w': World) {
    w.cr == w'.cr && w.cfg == w'.cfg && w.sent <= w'.sent && w.peerSent <= w'.peerSent && w.signed <= w'.signed
  }

  lemma {:induction false} LinkGrows(q: seq<Msg>, from: Pos, to: Pos, w: World, w': World)
    requires Link(q, from, to, w) && WorldGrows(w, w')
    ensures Link(q, from, to, w')
    decreases q
  {
    if q != [] {
      LinkGrows(q[1..], After(q[0], from), to, w, w');
    }
  }

  lemma {:induction false} LinkAppend(q: seq<Msg>, m: Msg, from: Pos, to: Pos, w: World)
    requires Link(q, from, to, w) && MsgOk(m, to, w)
    ensures Link(q + [m], from, After(m, to), w)
    decreases q
  {
    if q == [] {
      assert (q + [m])[1..] == [];
    } else {
      LinkAppend(q[1..], m, After(q[0], from), to, w);
      assert (q + [m])[1..] == q[1..] + [m];
      hide MsgOk;
    }
  }

  /** Handled counts never run ahead of sent ones. */
  lemma {:induction false} LinkBounds(q: seq<Msg>, from: Pos, to: Pos, w: World)
    requires Link(q, from, to, w)
    ensures from.update <= to.update && from.sig <= to.sig && from.revoked <= to.revoked && from.window <= to.window
    decreases q
  {
    if q != [] {
      LinkBounds(q[1..], After(q[0], from), to, w);
    }
  }

  /** A sent message continues the sender's stream. */
  lemma SendKeepsQueue(cr: Crypto, x: Node, x': Node, y: Node, m: Msg)
    requires QueueOk(cr, x, y)
    requires x'.outbox == x.outbox + [m] && x'.party.cfg == x.party.cfg
    requires x.sent <= x'.sent && x.signed <= x'.signed
    requires MsgOk(m, SentPos(x), World(cr, x'.party.cfg, x'.sent, y.sent, x'.signed))
    requires After(m, SentPos(x)) == SentPos(x')
    ensures QueueOk(cr, x', y)
  {
    hide MsgOk, After;
    var w, w' := World(cr, x.party.cfg, x.sent, y.sent, x.signed), World(cr, x'.party.cfg, x'.sent, y.sent, x'.signed);
    LinkGrows(x.outbox, ReceivedPos(y), SentPos(x), w, w');
    LinkAppend(x.outbox, m, ReceivedPos(y), SentPos(x), w');
  }

  /** What the peer has in flight is not affected by what is sent to it. */
  lemma PeerKeepsQueue(cr: Crypto, x: Node, x': Node, y: Node)
    requires QueueOk(cr, y, x) && x.sent <= x'.sent
    requires RemoteTail(x') >= 0 && ReceivedPos(x) == ReceivedPos(x')
    ensures QueueOk(cr, y, x')
  {
    LinkGrows(y.outbox, ReceivedPos(x), SentPos(y), World(cr, y.party.cfg, y.sent, x.sent, y.signed),
              World(cr, y.party.cfg, y.sent, x'.sent, y.signed));
  }

  /** The peer's books do not change when its counterpart's log grows. */
  lemma PeerKeepsLedger(x: Node, x': Node, y: Node)
    requires LedgerOk(y, x) && x.sent <= x'.sent && x.start == x'.start
    ensures LedgerOk(y, x')
  {
    hide Rep, ChainOk;
    assert x'.sent[..y.party.theirCounter] == x.sent[..y.party.theirCounter];
  }

  lemma SignedGrows(x: Node, y: Node, b': Books)
    requires LedgerOk(x, y) && Grows(BooksOf(x, y), b')
    ensures ChainOk(x.signed, b')
  {
    hide Rep;
    ChainGrows(x.signed, BooksOf(x, y), b');
  }

  /* --- adding and settling ------------------------------------------------------- */

  /** Everything but the sender's own logs and log counter. */
  ghost predicate OnlyLogs(x: Node, x': Node) {
    && x'.signed == x.signed && x'.start == x.start && x'.handedUp == x.handedUp
    && x'.party == x.party.(ourLog := x'.party.ourLog, theirLog := x'.party.theirLog,
                            ourLogIndex := x'.party.ourLogIndex, ourCounter := x'.party.ourCounter)
  }

  /** The new update may be appended without harm to the peer. */
  ghost predicate UpdateOk(u: Update, x: Node, y: Node) {
    u.Settle? ==>
      && u.parent < |y.sent| && y.sent[u.parent].Add? && y.sent[u.parent].amount == u.amount
      && !SettledIn(x.sent, u.parent)
      && y.party.localChain != [] && u.parent < Tip(y.party.localChain).ourIndex
      && y.party.remoteChain != [] && u.parent < Tip(y.party.remoteChain).ourIndex
  }

  lemma UpdateKeepsSettles(x: Node, x': Node, y: Node, u: Update)
    requires SettlesOk(x, y) && x'.sent == x.sent + [u] && UpdateOk(u, x, y)
    ensures SettlesOk(x', y)
  {
    assert Unrepeated(x.sent + [u]);
  }

  /** What a node knows does not depend on queues or on the peer's received log. */
  lemma KnownFrame(cr: Crypto, x: Node, x': Node, y: Node, y': Node)
    requires KeysOk(cr, x, y) && StoreOk(cr, x, y) && MirrorOk(x, y)
    requires x'.signed == x.signed && x'.party.remoteChain == x.party.remoteChain
    requires x'.party.used == x.party.used && x'.party.window == x.party.window
    requires x'.party.theirRevocation == x.party.theirRevocation
    requires x'.party.remoteElkrem == x.party.remoteElkrem && x'.party.revocationLog == x.party.revocationLog
    requires y'.party.cfg == y.party.cfg && y'.party.windowEdge == y.party.windowEdge
    requires y'.party.localChain == y.party.localChain && y'.party.currentHeight == y.party.currentHeight
    ensures KeysOk(cr, x', y') && StoreOk(cr, x', y') && MirrorOk(x', y')
  {
    KeysFrame(cr, x, x', y, y');
    hide OwnRevocation, Mirror, KeysOk;
  }

  lemma KeysFrame(cr: Crypto, x: Node, x': Node, y: Node, y': Node)
    requires KeysOk(cr, x, y)
    requires x'.signed == x.signed && x'.party.remoteChain == x.party.remoteChain
    requires x'.party.used == x.party.used && x'.party.window == x.party.window
    requires x'.party.theirRevocation == x.party.theirRevocation
    requires y'.party.cfg == y.party.cfg && y'.party.windowEdge == y.party.windowEdge
    ensures KeysOk(cr, x', y')
  {
    hide OwnRevocation, Consecutive, SignedKeysOk;
  }

  lemma UpdateSends(cr: Crypto, x: Node, x': Node, y: Node, u: Update, m: Msg)
    requires Half(cr, x, y) && OnlyLogs(x, x')
    requires x'.sent == x.sent + [u] && x'.outbox == x.outbox + [m] && UpdateOk(u, x, y)
    requires LedgerOk(x', y) && HandedOk(x')
    requires m.AddMsg? || m.SettleMsg?
    requires MsgOk(m, SentPos(x), World(cr, x.party.cfg, x'.sent, y.sent, x.signed))
    ensures Half(cr, x', y)
  {
    hide LedgerOk, SettlesOk, QueueOk, HandedOk, MsgOk, KeysOk, StoreOk, MirrorOk;
    SendKeepsQueue(cr, x, x', y, m);
    UpdateKeepsSettles(x, x', y, u);
    KnownFrame(cr, x, x', y, y);
  }

  /** What `y` knows of `x` depends on a few of its fields only. */
  lemma PeerFrame(cr: Crypto, x: Node, x': Node, y: Node)
    requires KeysOk(cr, y, x) && StoreOk(cr, y, x)
    requires x'.party.cfg == x.party.cfg && x.party.windowEdge <= x'.party.windowEdge <= Elk.MAX_INDEX
    ensures KeysOk(cr, y, x') && StoreOk(cr, y, x')
  {
    hide OwnRevocation;
  }

  lemma MirrorFrame(x: Node, x': Node, y: Node)
    requires MirrorOk(y, x)
    requires x'.party.localChain == x.party.localChain && x'.party.currentHeight == x.party.currentHeight
    ensures MirrorOk(y, x')
  {
    hide Mirror;
  }

  lemma UpdateSeenByPeer(cr: Crypto, x: Node, x': Node, y: Node)
    requires Half(cr, y, x) && OnlyLogs(x, x') && x.sent <= x'.sent
    requires RemoteTail(x) >= 0
    ensures Half(cr, y, x')
  {
    hide LedgerOk, QueueOk, HandedOk, HistoryOk, StoreOk, Paired, MirrorOk;
    hide OwnRevocation;
    PeerKeepsLedger(x, x', y);
    PeerKeepsQueue(cr, x, x', y);
    PeerFrame(cr, x, x', y);
    MirrorFrame(x, x', y);
    PairedGrowsOther(y.sent, x.sent, x'.sent);
  }

  lemma PairedGrowsOther(full: seq<Update>, other: seq<Update>, other': seq<Update>)
    requires Paired(full, other) && other <= other'
    ensures Paired(full, other')
  {
  }

  lemma AddKeepsInv(cr: Crypto, s: Sys, amount: int, rhash: Hash, timeout: nat)
    requires Inv(cr, s)
    ensures Inv(cr, Adding(s, amount, rhash, timeout))
  {
    hide Rep, ChainOk, SettlesOk, QueueOk, KeysOk, MirrorOk, StoreOk, Matched;
    var x, y := s.a, s.b;
    var x' := Adding(s, amount, rhash, timeout).a;
    var u := Add(amount, rhash, timeout);
    AddHTLCKeepsRep(x.party, BooksOf(x, y), amount, rhash, timeout);
    SignedGrows(x, y, BooksOf(x', y));
    UpdateSends(cr, x, x', y, u, AddMsg(amount, rhash, timeout));
    UpdateSeenByPeer(cr, x, x', y);
  }

  /** The peer's own tips reach at least as far as the tails seen from here. */
  lemma TailsReach(cr: Crypto, x: Node, y: Node)
    requires LedgerOk(x, y) && HistoryOk(x) && MirrorOk(x, y) && RemoteTail(x) >= 0
    requires LedgerOk(y, x) && HistoryOk(y) && MirrorOk(y, x) && QueueOk(cr, y, x)
    ensures x.party.remoteChain[0].theirIndex <= Tip(y.party.localChain).ourIndex
    ensures x.party.localChain[0].theirIndex <= Tip(y.party.remoteChain).ourIndex
  {
    hide Rep, MsgOk, Denotes, Closed, Link;
    LinkBounds(y.outbox, ReceivedPos(x), SentPos(y), World(cr, y.party.cfg, y.sent, x.sent, y.signed));
    var h := y.party.currentHeight + |y.party.localChain| - 1;
    assert x.party.remoteChain[0] == x.signed[RemoteTail(x)];
    assert RemoteTail(x) < h ==> x.signed[RemoteTail(x)].theirIndex <= x.signed[h].theirIndex;
    assert Tip(y.party.localChain).ourIndex == x.signed[h].theirIndex;
    var g := x.party.currentHeight;
    assert x.party.localChain[0].theirIndex == y.signed[g].ourIndex;
    assert g < |y.signed| - 1 ==> y.signed[g].ourIndex <= y.signed[|y.signed| - 1].ourIndex;
  }

  lemma SettleKeepsInv(cr: Crypto, s: Sys, preimage: Hash)
    requires Inv(cr, s) && SettleEnabled(cr, s.a.party, preimage)
    ensures Settling(cr, s, preimage).Some?
    ensures Inv(cr, Settling(cr, s, preimage).value)
  {
    hide Rep, ChainOk, QueueOk, KeysOk, StoreOk, Matched, SettleHTLC, MirrorOk, SettleEnabled, SettledIn, HistoryOk, SettlesOk;
    var x, y := s.a, s.b;
    var b := BooksOf(x, y);
    SettleTarget(cr, x.party, b, preimage);
    SettleKeepsRep(cr, x.party, b, preimage);
    var q := SettleHTLC(cr, x.party, preimage).value;
    var u := Settle(q, b.theirs[q].amount);
    assert b.theirs[q] == y.sent[q];
    SettleFrame(cr, x, y, preimage);
    var x' := Settling(cr, s, preimage).value.a;
    SignedGrows(x, y, BooksOf(x', y));
    assert UpdateOk(u, x, y) by { SettleReaches(cr, x, y, u); }
    assert RemoteTail(x) >= 0 by { TailIsNat(cr, x, y); }
    UpdateSends(cr, x, x', y, u, SettleMsg(q, preimage));
    UpdateSeenByPeer(cr, x, x', y);
  }

  lemma TailIsNat(cr: Crypto, x: Node, y: Node)
    requires Half(cr, x, y)
    ensures RemoteTail(x) >= 0
  {
    hide LedgerOk, QueueOk, SettlesOk, MirrorOk, StoreOk, HandedOk;
    hide OwnRevocation;
  }

  lemma SettleReaches(cr: Crypto, x: Node, y: Node, u: Update)
    requires Half(cr, x, y) && Half(cr, y, x)
    requires u.Settle? && u.parent < |y.sent| && y.sent[u.parent].Add? && y.sent[u.parent].amount == u.amount
    requires !SettledIn(x.sent, u.parent)
    requires u.parent < x.party.localChain[0].theirIndex && u.parent < x.party.remoteChain[0].theirIndex
    ensures UpdateOk(u, x, y)
  {
    hide LedgerOk, QueueOk, KeysOk, StoreOk, HandedOk, SettledIn;
    TailIsNat(cr, x, y);
    TailsReach(cr, x, y);
  }

  lemma SettleFrame(cr: Crypto, x: Node, y: Node, preimage: Hash)
    requires LedgerOk(x, y) && HandedOk(x) && SettleHTLC(cr, x.party, preimage).Ok?
    ensures var p' := SettleHTLC(cr, x.party, preimage).party;
            && p' == x.party.(ourLog := p'.ourLog, theirLog := p'.theirLog, ourCounter := p'.ourCounter)
            && p'.theirLog.Keys == x.party.theirLog.Keys
            && (forall i | i in x.party.theirLog :: p'.theirLog[i].isForwarded == x.party.theirLog[i].isForwarded)
    ensures HandedOk(x.(party := SettleHTLC(cr, x.party, preimage).party))
  {
    hide Rep, ChainOk;
  }

  /* --- signing --------------------------------------------------------------------- */

  /** What signing changes, without saying what the view contains. */
  lemma SignFacts(p: Party)
    requires p.remoteChain != [] && SignNextCommitment(p).Ok?
    ensures var (p', r) := (SignNextCommitment(p).party, SignNextCommitment(p).value);
            && p'.remoteChain != []
            && var view := Tip(p'.remoteChain);
            && p'.remoteChain == p.remoteChain + [view]
            && p.window != [] && p'.window == p.window[1..] && p'.used == p.used + [p.window[0]]
            && |p.used| != INITIAL_REVOCATION_WINDOW
            && view.height == Tip(p.remoteChain).height + 1 && view.ourIndex == p.ourCounter
            && view.theirIndex == p.theirCounter && view.revocation == p.window[0]
            && r == (SignatureOf(p.cfg, Remote, view), p.theirCounter)
            && p' == p.(ourLog := p'.ourLog, theirLog := p'.theirLog, remoteChain := p'.remoteChain,
                        used := p'.used, window := p'.window)
            && p'.theirLog.Keys == p.theirLog.Keys
            && (forall i | i in p.theirLog :: p'.theirLog[i].isForwarded == p.theirLog[i].isForwarded)
  {
    hide Credit, Debit, Live, SkipSet;
    var h := Tip(p.remoteChain).height + 1;
    MarkKeepsFlags(p.theirLog, p.theirCounter, Remote, SkipSet(p.ourLog, p.ourCounter), h);
  }

  lemma SignLedger(x: Node, y: Node, x': Node)
    requires LedgerOk(x, y) && HistoryOk(x) && SignNextCommitment(x.party).Ok?
    requires x' == x.(party := SignNextCommitment(x.party).party, outbox := x'.outbox,
                      signed := x.signed + [Tip(SignNextCommitment(x.party).party.remoteChain)])
    ensures LedgerOk(x', y) && HistoryOk(x')
    ensures x.signed[|x.signed| - 1] == Tip(x.party.remoteChain)
    ensures Tip(x.party.remoteChain).ourIndex <= x.party.ourCounter
  {
    hide SignNextCommitment, LogsOk, LogOnChain, FlagsOk, Denotes, Closed;
    var b := BooksOf(x, y);
    SignFacts(x.party);
    SignKeepsRep(x.party, b);
    var view := Tip(x'.party.remoteChain);
    TailBelowTip(x.party, b, Remote);
    assert x'.party.remoteChain[|x.party.remoteChain|] == view;
    assert Denotes(view, b) && Closed(view, b);
    ChainPush(x.signed, view, b);
  }

  lemma UseKey(cr: Crypto, used: seq<Revocation>, window: seq<Revocation>, cfg: Config, t: nat, n: nat)
    requires Consecutive(cr, used, cfg, t) && Consecutive(cr, window, cfg, n) && window != []
    requires t + |used| == n
    ensures window[0] == OwnRevocation(cr, cfg, n)
    ensures Consecutive(cr, used + [window[0]], cfg, t) && Consecutive(cr, window[1..], cfg, n + 1)
  {
    hide OwnRevocation;
    assert window[0] == OwnRevocation(cr, cfg, n + 0);
    forall i | 0 <= i < |window[1..]| ensures window[1..][i] == OwnRevocation(cr, cfg, n + 1 + i) {
      assert window[1..][i] == window[i + 1];
      assert n + (i + 1) == n + 1 + i;
    }
  }

  lemma CurrentKeyFrame(cr: Crypto, x: Node, x': Node, y: Node)
    requires CountsOk(x, y) && CountsOk(x', y) && CurrentKeyOk(cr, x, y)
    requires x'.party.theirRevocation == x.party.theirRevocation && RemoteTail(x') == RemoteTail(x)
    ensures CurrentKeyOk(cr, x', y)
  {
    hide OwnRevocation;
  }

  lemma SignKeys(cr: Crypto, x: Node, y: Node, x': Node)
    requires KeysOk(cr, x, y) && x.party.remoteChain != [] && SignNextCommitment(x.party).Ok?
    requires x' == x.(party := SignNextCommitment(x.party).party, outbox := x'.outbox,
                      signed := x.signed + [Tip(SignNextCommitment(x.party).party.remoteChain)])
    ensures KeysOk(cr, x', y) && RemoteTail(x') == RemoteTail(x)
  {
    hide SignNextCommitment, OwnRevocation, Consecutive, SignedKeysOk, CurrentKeyOk;
    SignFacts(x.party);
    CurrentKeyFrame(cr, x, x', y);
    UseKey(cr, x.party.used, x.party.window, y.party.cfg, RemoteTail(x) + 1, |x.signed|);
    SignedKeysPush(cr, x.signed, x'.signed[|x.signed|], y.party.cfg);
  }

  lemma SignedKeysPush(cr: Crypto, signed: seq<Commitment>, k: Commitment, cfg: Config)
    requires SignedKeysOk(cr, signed, cfg) && |signed| <= Elk.MAX_INDEX
    requires k.revocation == OwnRevocation(cr, cfg, |signed|)
    ensures SignedKeysOk(cr, signed + [k], cfg)
  {
    hide OwnRevocation;
  }

  /** Longer histories serve the peer and the records just as well. */
  lemma SignedFrame(cr: Crypto, x: Node, x': Node, y: Node)
    requires MirrorOk(x, y) && StoreOk(cr, x, y)
    requires x.signed <= x'.signed && RemoteTail(x') == RemoteTail(x) <= |x.signed|
    requires x'.party.remoteElkrem == x.party.remoteElkrem && x'.party.revocationLog == x.party.revocationLog
    ensures MirrorOk(x', y) && StoreOk(cr, x', y)
  {
    hide Mirror;
  }

  lemma SignKeepsInv(cr: Crypto, s: Sys)
    requires Inv(cr, s) && s.a.party.remoteChain != [] && Signing(s).Some?
    ensures Inv(cr, Signing(s).value)
  {
    hide SignNextCommitment, Rep, ChainOk, Matched, OwnRevocation, SignatureOf;
    hide StoreOk, Paired, LedgerOk, MirrorOk, KeysOk, SettlesOk;
    var x, y := s.a, s.b;
    var x' := Signing(s).value.a;
    SignFacts(x.party);
    SignLedger(x, y, x');
    SignKeys(cr, x, y, x');
    TailIsNat(cr, x, y);
    SignedFrame(cr, x, x', y);
    var m := SigMsg(SignNextCommitment(x.party).value.0, SignNextCommitment(x.party).value.1);
    CountersKnown(x, y);
    SendKeepsQueue(cr, x, x', y, m);
    PeerKeepsLedger(x, x', y);
    PeerKeepsQueue(cr, x, x', y);
    EdgeBound(cr, x, y);
    PeerFrame(cr, x, x', y);
    MirrorFrame(x, x', y);
    SettlesFrame(x, x', y);
    SettlesSeen(x, x', y);
  }

  lemma CountersKnown(x: Node, y: Node)
    requires LedgerOk(x, y)
    ensures x.party.ourCounter == |x.sent| && x.party.theirCounter <= |y.sent|
    ensures x.party.localChain != [] && x.party.remoteChain != []
  {
    hide LogsOk, OnChain, ChainOk, SettledIn;
  }

  lemma EdgeBound(cr: Crypto, x: Node, y: Node)
    requires KeysOk(cr, y, x)
    ensures x.party.windowEdge <= Elk.MAX_INDEX
  {
    hide OwnRevocation;
  }

  lemma SettlesFrame(x: Node, x': Node, y: Node)
    requires SettlesOk(x, y) && x'.sent == x.sent
    ensures SettlesOk(x', y)
  {
    hide Paired, ParentsBelow;
  }

  /** A tip that only moves up stays above every settled Add. */
  lemma SettlesSeen(x: Node, x': Node, y: Node)
    requires SettlesOk(y, x) && x'.sent == x.sent
    requires x'.party.localChain != [] && Tip(x.party.localChain).ourIndex <= Tip(x'.party.localChain).ourIndex
    requires x'.party.remoteChain != [] && Tip(x.party.remoteChain).ourIndex <= Tip(x'.party.remoteChain).ourIndex
    ensures SettlesOk(y, x')
  {
    hide Paired;
  }

  /* --- revoking and extending the window --------------------------------------------- */

  /** The node sent one revocation message and nothing its peer relies on moved back. */
  ghost predicate OnlyRevoked(x: Node, x': Node, m: RevMsg) {
    && x' == x.(party := x'.party, outbox := x.outbox + [RevocationMsg(m)])
    && x'.party == x.party.(windowEdge := x.party.windowEdge + 1, localChain := x'.party.localChain,
                            currentHeight := x'.party.currentHeight, saved := x'.party.saved)
    && x'.party.localChain != [] && x.party.localChain != []
    && Tip(x'.party.localChain) == Tip(x.party.localChain)
    && x'.party.currentHeight + |x'.party.localChain| == x.party.currentHeight + |x.party.localChain|
  }

  lemma RevocationSends(cr: Crypto, x: Node, x': Node, y: Node, m: RevMsg)
    requires Half(cr, x, y) && OnlyRevoked(x, x', m) && LedgerOk(x', y)
    requires MsgOk(RevocationMsg(m), SentPos(x), World(cr, x.party.cfg, x.sent, y.sent, x.signed))
    requires After(RevocationMsg(m), SentPos(x)) == SentPos(x')
    ensures Half(cr, x', y)
  {
    hide LedgerOk, SettlesOk, QueueOk, MsgOk, After;
    hide OwnRevocation;
    SendKeepsQueue(cr, x, x', y, RevocationMsg(m));
    SettlesFrame(x, x', y);
  }

  lemma RevocationSeen(cr: Crypto, x: Node, x': Node, y: Node, m: RevMsg)
    requires Half(cr, y, x) && OnlyRevoked(x, x', m) && MirrorOk(y, x') && RemoteTail(x) >= 0
    requires x'.party.windowEdge <= Elk.MAX_INDEX && x.party.remoteChain != []
    ensures Half(cr, y, x')
  {
    hide LedgerOk, SettlesOk, QueueOk, KeysOk, StoreOk, HandedOk, MirrorOk, HistoryOk;
    PeerKeepsLedger(x, x', y);
    PeerKeepsQueue(cr, x, x', y);
    PeerFrame(cr, x, x', y);
    SettlesSeen(x, x', y);
  }

  lemma HeightBound(cr: Crypto, x: Node, y: Node)
    requires MirrorOk(y, x) && KeysOk(cr, y, x)
    ensures x.party.currentHeight <= Elk.MAX_INDEX && x.party.currentHeight < |y.signed|
  {
    hide Mirror, OwnRevocation, Consecutive;
  }

  lemma ExtendKeepsInv(cr: Crypto, s: Sys)
    requires Inv(cr, s) && Extending(cr, s).Some?
    ensures Inv(cr, Extending(cr, s).value)
  {
    hide Rep, ChainOk, SettlesOk, QueueOk, KeysOk, StoreOk, HandedOk, MirrorOk, HistoryOk, Matched;
    hide OwnRevocation;
    var x, y := s.a, s.b;
    var x' := Extending(cr, s).value.a;
    var m := ExtendRevocationWindow(cr, x.party).value;
    HeightBound(cr, x, y);
    TailIsNat(cr, x, y);
    CountersKnown(x, y);
    RepFrame(x.party, x'.party, BooksOf(x, y));
    MirrorFrame(x, x', y);
    RevocationSends(cr, x, x', y, m);
    RevocationSeen(cr, x, x', y, m);
  }

  lemma RevokeMirror(x: Node, x': Node, y: Node)
    requires MirrorOk(y, x) && |x.party.localChain| == 2
    requires x'.party.localChain == x.party.localChain[1..] && x'.party.currentHeight == x.party.currentHeight + 1
    ensures MirrorOk(y, x')
  {
    hide Mirror;
    assert x'.party.localChain[0] == x.party.localChain[1];
  }

  lemma ChainLength(x: Node, y: Node)
    requires MirrorOk(y, x)
    ensures 1 <= |x.party.localChain| <= 2
  {
    hide Mirror;
  }

  lemma RevokeKeepsInv(cr: Crypto, s: Sys)
    requires Inv(cr, s) && Revoking(cr, s).Some?
    ensures Inv(cr, Revoking(cr, s).value)
  {
    hide Rep, ChainOk, SettlesOk, QueueOk, KeysOk, StoreOk, HandedOk, MirrorOk, HistoryOk;
    hide OwnRevocation, ToChannelDelta;
    var x, y := s.a, s.b;
    var x' := Revoking(cr, s).value.a;
    var m := RevokeCurrentCommitment(cr, x.party).value;
    HeightBound(cr, x, y);
    TailIsNat(cr, x, y);
    CountersKnown(x, y);
    ChainLength(x, y);
    RevokeKeepsRep(cr, x.party, BooksOf(x, y));
    RevokeMirror(x, x', y);
    assert m.preimage != ZeroHash();
    RevocationSends(cr, x, x', y, m);
    RevocationSeen(cr, x, x', y, m);
  }
}
