/** Handling a message keeps the invariant, and no honest message is ever refused. */
module ProtocolReceives {
  import opened Primitives
  import opened Ledger
  import opened ChannelSpec
  import opened ChannelRep
  import opened ChannelSteps
  import opened Protocol
  import opened ProtocolSends
  import Elk = ElkremSpec

  function Popped(y: Node): Node
    requires y.outbox != []
  {
    y.(outbox := y.outbox[1..])
  }

  lemma HeadOk(cr: Crypto, x: Node, y: Node)
    requires QueueOk(cr, y, x) && y.outbox != []
    ensures MsgOk(y.outbox[0], ReceivedPos(x), World(cr, y.party.cfg, y.sent, x.sent, y.signed))
    ensures var next := After(y.outbox[0], ReceivedPos(x));
            && next.update <= |y.sent| && next.sig <= |y.signed|
            && next.revoked <= y.party.currentHeight && next.window <= y.party.windowEdge + 1
  {
    hide MsgOk, After;
    var m := y.outbox[0];
    LinkBounds(y.outbox[1..], After(m, ReceivedPos(x)), SentPos(y), World(cr, y.party.cfg, y.sent, x.sent, y.signed));
  }

  /** Taking the oldest message off the queue moves the receiver's position past it. */
  lemma PopKeepsQueue(cr: Crypto, x: Node, x': Node, y: Node)
    requires QueueOk(cr, y, x) && y.outbox != [] && x'.sent == x.sent
    requires RemoteTail(x') >= 0 && ReceivedPos(x') == After(y.outbox[0], ReceivedPos(x))
    ensures QueueOk(cr, Popped(y), x')
  {
    hide MsgOk, After;
  }

  /** The receiver's own stream is untouched. */
  lemma ReceiverKeepsQueue(cr: Crypto, x: Node, x': Node, y: Node)
    requires QueueOk(cr, x, y) && y.outbox != []
    requires x'.outbox == x.outbox && x'.sent == x.sent && x'.signed == x.signed && x'.party.cfg == x.party.cfg
    requires x'.party.currentHeight == x.party.currentHeight && x'.party.windowEdge == x.party.windowEdge
    ensures QueueOk(cr, x', Popped(y))
  {
    hide Link;
  }

  /* --- receiving updates ---------------------------------------------------------- */

  /** Only the log of received updates changed. */
  ghost predicate OnlyReceived(x: Node, x': Node) {
    && x' == x.(party := x'.party)
    && x'.party == x.party.(theirLog := x'.party.theirLog, theirLogIndex := x'.party.theirLogIndex,
                            theirCounter := x.party.theirCounter + 1)
  }

  lemma UpdateReceived(cr: Crypto, x: Node, x': Node, y: Node)
    requires Half(cr, x, y) && Half(cr, y, x) && y.outbox != [] && OnlyReceived(x, x')
    requires y.outbox[0].AddMsg? || y.outbox[0].SettleMsg?
    requires LedgerOk(x', y) && HandedOk(x')
    ensures Half(cr, x', Popped(y)) && Half(cr, Popped(y), x')
  {
    hide LedgerOk, SettlesOk, QueueOk, KeysOk, StoreOk, HandedOk, MirrorOk;
    var y' := Popped(y);
    TailIsNat(cr, x, y);
    EdgeBound(cr, x, y);
    EdgeBound(cr, y, x);
    CountersKnown(x, y);
    PopKeepsQueue(cr, x, x', y);
    ReceiverKeepsQueue(cr, x, x', y);
    KnownFrame(cr, x, x', y, y');
    KnownFrame(cr, y, y', x, x');
    HandedFrame(y, y');
    PeerFrames(x, x', y);
  }

  lemma HandedFrame(y: Node, y': Node)
    requires HandedOk(y) && y'.handedUp == y.handedUp && y'.party == y.party
    ensures HandedOk(y')
  {
  }

  lemma PeerFrames(x: Node, x': Node, y: Node)
    requires y.outbox != [] && x'.sent == x.sent && x'.start == x.start
    requires LedgerOk(y, x) && LedgerOk(x', y)
    requires SettlesOk(x, y) && SettlesOk(y, x)
    requires x'.party.localChain == x.party.localChain && x'.party.remoteChain == x.party.remoteChain
    ensures LedgerOk(Popped(y), x') && LedgerOk(x', Popped(y))
    ensures SettlesOk(x', Popped(y)) && SettlesOk(Popped(y), x')
  {
    hide Rep, ChainOk, Paired;
  }

  lemma ReceiveAddLedger(cr: Crypto, x: Node, y: Node, m: Msg)
    requires LedgerOk(x, y) && HandedOk(x) && m.AddMsg? && x.party.theirCounter < |y.sent|
    requires y.sent[x.party.theirCounter] == Add(m.amount, m.rhash, m.timeout)
    ensures var x' := x.(party := ReceiveHTLC(x.party, m.amount, m.rhash, m.timeout));
            LedgerOk(x', y) && HandedOk(x')
  {
    hide Rep, ChainOk;
    var u := x.party.theirCounter;
    var x' := x.(party := ReceiveHTLC(x.party, m.amount, m.rhash, m.timeout));
    assert y.sent[..u + 1] == y.sent[..u] + [y.sent[u]];
    ReceiveHTLCKeepsRep(x.party, BooksOf(x, y), m.amount, m.rhash, m.timeout);
    SignedGrows(x, y, BooksOf(x', y));
  }

  /** The Add an incoming settle names is still in the log and unsettled. */
  lemma SettleFindsAdd(x: Node, y: Node, u: nat)
    requires LedgerOk(x, y) && SettlesOk(y, x) && u == x.party.theirCounter < |y.sent| && y.sent[u].Settle?
    ensures var q := y.sent[u].parent;
            && q in x.party.ourLogIndex && q in x.party.ourLog && q < |x.sent| && x.sent[q].Add?
            && x.party.ourLog[q].rhash == x.sent[q].rhash && x.sent[q].amount == y.sent[u].amount
            && !SettledIn(y.sent[..u], q)
            && q < Tip(x.party.localChain).ourIndex && q < Tip(x.party.remoteChain).ourIndex
  {
    hide ChainOk, OnChain, FlagsOk, Twinned;
    var q := y.sent[u].parent;
    SettledInPrefix(y.sent, u, q);
    assert !SettledIn(y.sent[..u], q);
    assert q in x.party.ourLog;
    assert Matches(x.party.ourLog[q], q, x.sent[q]);
  }

  lemma ReceiveSettleLedger(cr: Crypto, x: Node, y: Node, m: Msg)
    requires LedgerOk(x, y) && SettlesOk(y, x) && HandedOk(x) && m.SettleMsg? && x.party.theirCounter < |y.sent|
    requires m.htlcKey < |x.sent| && x.sent[m.htlcKey].Add?
    requires y.sent[x.party.theirCounter] == Settle(m.htlcKey, x.sent[m.htlcKey].amount)
    requires x.sent[m.htlcKey].rhash == cr.sha256(m.preimage)
    ensures ReceiveHTLCSettle(cr, x.party, m.preimage, m.htlcKey).Ok?
    ensures var x' := x.(party := ReceiveHTLCSettle(cr, x.party, m.preimage, m.htlcKey).party);
            LedgerOk(x', y) && HandedOk(x') && OnlyReceived(x, x')
  {
    hide Rep, ChainOk, SettledIn, SettlesOk;
    var u := x.party.theirCounter;
    SettleFindsAdd(x, y, u);
    CountersKnown(x, y);
    var x' := x.(party := ReceiveHTLCSettle(cr, x.party, m.preimage, m.htlcKey).party);
    assert y.sent[..u + 1] == y.sent[..u] + [y.sent[u]];
    ReceiveSettleKeepsRep(cr, x.party, BooksOf(x, y), m.preimage, m.htlcKey);
    SignedGrows(x, y, BooksOf(x', y));
  }

  lemma NodeUnchanged(x: Node, p: Party)
    ensures x.(party := p, handedUp := x.handedUp + Indexes([])) == x.(party := p)
  {
    assert x.handedUp + [] == x.handedUp;
  }

  lemma ReceiveUpdateKeepsInv(cr: Crypto, s: Sys)
    requires Inv(cr, s) && Receivable(s)
    requires s.b.outbox[0].AddMsg? || s.b.outbox[0].SettleMsg?
    ensures Receiving(cr, s).Some?
    ensures Inv(cr, Receiving(cr, s).value)
  {
    hide LedgerOk, SettlesOk, KeysOk, StoreOk, HandedOk, MirrorOk, Matched, QueueOk, HistoryOk;
    var x, y, m := s.a, s.b, s.b.outbox[0];
    TailIsNat(cr, x, y);
    HeadOk(cr, x, y);
    if m.AddMsg? {
      ReceiveAddLedger(cr, x, y, m);
    } else {
      ReceiveSettleLedger(cr, x, y, m);
    }
    var p := Handle(cr, x.party, m).party;
    NodeUnchanged(x, p);
    UpdateReceived(cr, x, x.(party := p), y);
  }

  /* --- receiving a signature ---------------------------------------------------------- */

  /** The view the receiver of a signature builds for itself. */
  function OwnView(cr: Crypto, p: Party, ourIndex: nat): Commitment
    requires p.localChain != [] && p.currentHeight + 1 <= Elk.MAX_INDEX
  {
    ViewAt(p, Local, ourIndex, p.theirCounter, OwnRevocation(cr, p.cfg, p.currentHeight + 1))
  }

  lemma {:induction false} HtlcOutputsMirror(a: Config, b: Config, incoming: bool, hs: seq<Htlc>, hash: Hash)
    requires a.ourCommitKey == b.theirCommitKey && a.theirCommitKey == b.ourCommitKey
    requires a.localCsvDelay == b.remoteCsvDelay
    ensures HtlcOutputs(a, true, incoming, hs, hash) == HtlcOutputs(b, false, !incoming, hs, hash)
  {
    if hs != [] {
      HtlcOutputsMirror(a, b, incoming, hs[..|hs| - 1], hash);
    }
  }

  /** Both sides derive the same transaction from mirrored commitments. */
  lemma SignatureMirror(a: Config, b: Config, k: Commitment)
    requires a.ourCommitKey == b.theirCommitKey && a.theirCommitKey == b.ourCommitKey
    requires a.localCsvDelay == b.remoteCsvDelay
    ensures SignatureOf(a, Local, Mirror(k)) == SignatureOf(b, Remote, k)
  {
    HtlcOutputsMirror(a, b, false, k.incoming, k.revocation.hash);
    HtlcOutputsMirror(a, b, true, k.outgoing, k.revocation.hash);
    hide HtlcOutputs;
  }

  /** Two denotations of the same logs seen from the two sides mirror each other. */
  lemma DenotationsMirror(k: Commitment, kb: Books, v: Commitment, vb: Books)
    requires Denotes(k, kb) && Denotes(v, vb)
    requires v.height == k.height && v.ourIndex == k.theirIndex && v.theirIndex == k.ourIndex
    requires v.revocation == k.revocation
    requires kb.ourStart == vb.theirStart && kb.theirStart == vb.ourStart
    requires kb.ours[..k.ourIndex] == vb.theirs[..v.theirIndex] && kb.theirs[..k.theirIndex] == vb.ours[..v.ourIndex]
    ensures v == Mirror(k)
  {
    hide Net, Active;
  }

  /** Where the next signature stands: right above the receiver's own tip. */
  lemma SignatureForward(cr: Crypto, x: Node, y: Node, h: nat, n: nat)
    requires LedgerOk(x, y) && LedgerOk(y, x) && HistoryOk(y) && MirrorOk(y, x) && KeysOk(cr, y, x)
    requires |x.party.localChain| == 1 && h == x.party.currentHeight + 1 < |y.signed|
    requires y.signed[h].ourIndex == x.party.theirCounter && y.signed[h].theirIndex == n
    ensures h <= Elk.MAX_INDEX && y.signed[h].height == Tip(x.party.localChain).height + 1
    ensures y.signed[h].revocation == OwnRevocation(cr, x.party.cfg, h)
    ensures Forward(x.party, BooksOf(x, y), Local, n, x.party.theirCounter)
    ensures Denotes(y.signed[h], BooksOf(y, x)) && n <= y.party.theirCounter
  {
    hide Rep, Closed, OwnRevocation, CurrentKeyOk, Consecutive, CountsOk;
    CountersKnown(x, y);
    CountersKnown(y, x);
    assert Denotes(y.signed[h], BooksOf(y, x));
    hide Net, Active;
    assert x.party.localChain[0].(revocation := y.signed[h - 1].revocation) == Mirror(y.signed[h - 1]);
    assert y.signed[h].height == y.signed[h - 1].height + 1;
  }

  /** Agreement: the view built on receipt of a signature is the mirror image of the
  commitment that was signed, although the two sides have compacted differently. */
  lemma ViewsAgree(cr: Crypto, x: Node, y: Node, h: nat, n: nat)
    requires LedgerOk(x, y) && LedgerOk(y, x) && HistoryOk(y) && MirrorOk(y, x) && KeysOk(cr, y, x)
    requires |x.party.localChain| == 1 && h == x.party.currentHeight + 1 < |y.signed|
    requires y.signed[h].ourIndex == x.party.theirCounter && y.signed[h].theirIndex == n
    ensures h <= Elk.MAX_INDEX && OwnView(cr, x.party, n) == Mirror(y.signed[h])
  {
    hide OwnRevocation, OnChain, LogOk, FlagsOk, Denotes, MirrorOk, KeysOk, HistoryOk;
    SignatureForward(cr, x, y, h, n);
    hide IndexesOk, ChainOk;
    CountersKnown(x, y);
    CountersKnown(y, x);
    var v := OwnView(cr, x.party, n);
    ViewDenotes(x.party, BooksOf(x, y), Local, n, x.party.theirCounter, OwnRevocation(cr, x.party.cfg, h));
    assert x.sent[..y.party.theirCounter][..n] == x.sent[..n];
    assert y.sent[..x.party.theirCounter][..x.party.theirCounter] == y.sent[..x.party.theirCounter];
    DenotationsMirror(y.signed[h], BooksOf(y, x), v, BooksOf(x, y));
  }

  /** What accepting a signature changes, without saying what the view contains. */
  lemma AcceptFacts(cr: Crypto, p: Party, sig: Signature, n: nat)
    requires p.localChain != [] && p.currentHeight + 1 <= Elk.MAX_INDEX
    requires sig == SignatureOf(p.cfg, Local, OwnView(cr, p, n))
    ensures OwnView(cr, p, n).ourIndex == n
    ensures ReceiveNewCommitment(cr, p, sig, n).Ok?
    ensures var p' := ReceiveNewCommitment(cr, p, sig, n).party;
            && p'.localChain == p.localChain + [OwnView(cr, p, n)]
            && p' == p.(ourLog := p'.ourLog, theirLog := p'.theirLog, localChain := p'.localChain)
            && p'.theirLog.Keys == p.theirLog.Keys
            && (forall i | i in p.theirLog :: p'.theirLog[i].isForwarded == p.theirLog[i].isForwarded)
  {
    hide Credit, Debit, Live, SkipSet, SignatureOf, OwnRevocation;
    var h := Tip(p.localChain).height + 1;
    MarkKeepsFlags(p.theirLog, p.theirCounter, Local, SkipSet(p.ourLog, n), h);
  }

  lemma AcceptMirror(cr: Crypto, x: Node, x': Node, y: Node, v: Commitment, h: nat)
    requires MirrorOk(y, x) && |x.party.localChain| == 1 && h == x.party.currentHeight + 1 < |y.signed|
    requires v == Mirror(y.signed[h])
    requires x'.party.localChain == x.party.localChain + [v] && x'.party.currentHeight == x.party.currentHeight
    ensures MirrorOk(y, x')
  {
    assert v.revocation == y.signed[h].revocation;
    hide Mirror;
  }

  lemma AcceptHanded(x: Node, x': Node)
    requires HandedOk(x) && x'.handedUp == x.handedUp && x'.party.theirCounter == x.party.theirCounter
    requires x'.party.theirLog.Keys == x.party.theirLog.Keys
    requires forall i | i in x.party.theirLog :: x'.party.theirLog[i].isForwarded == x.party.theirLog[i].isForwarded
    ensures HandedOk(x')
  {
  }

  /** The signature is accepted and the accepted commitment is the signed one, mirrored. */
  lemma SignatureAccepted(cr: Crypto, s: Sys)
    requires Inv(cr, s) && Receivable(s) && s.b.outbox[0].SigMsg?
    ensures var (x, y, m) := (s.a, s.b, s.b.outbox[0]);
            var h := x.party.currentHeight + 1;
            && h <= Elk.MAX_INDEX && h < |y.signed|
            && y.signed[h].ourIndex == x.party.theirCounter && y.signed[h].theirIndex == m.logIndex
            && OwnView(cr, x.party, m.logIndex) == Mirror(y.signed[h])
            && m.sig == SignatureOf(x.party.cfg, Local, OwnView(cr, x.party, m.logIndex))
            && Forward(x.party, BooksOf(x, y), Local, m.logIndex, x.party.theirCounter)
  {
    hide LedgerOk, SettlesOk, StoreOk, HandedOk, QueueOk, MirrorOk, KeysOk, HistoryOk, HonestSecrets, SignatureOf, OwnView, Mirror;
    hide Forward;
    var x, y, m := s.a, s.b, s.b.outbox[0];
    var h := x.party.currentHeight + 1;
    TailIsNat(cr, x, y);
    HeadOk(cr, x, y);
    ViewsAgree(cr, x, y, h, m.logIndex);
    SignatureForward(cr, x, y, h, m.logIndex);
    SignatureMirror(x.party.cfg, y.party.cfg, y.signed[h]);
  }

  lemma ReceiveSignatureKeepsInv(cr: Crypto, s: Sys)
    requires Inv(cr, s) && Receivable(s) && s.b.outbox[0].SigMsg?
    ensures Receiving(cr, s).Some?
    ensures Inv(cr, Receiving(cr, s).value)
  {
    hide SettlesOk, StoreOk, HandedOk, QueueOk, MirrorOk, KeysOk, Matched, SignatureOf, OwnView, Mirror;
    hide ReceiveNewCommitment, Rep, ChainOk;
    var x, y, m := s.a, s.b, s.b.outbox[0];
    SignatureAccepted(cr, s);
    AcceptFacts(cr, x.party, m.sig, m.logIndex);
    ReceiveCommitmentKeepsRep(cr, x.party, BooksOf(x, y), m.sig, m.logIndex);
    var p := Handle(cr, x.party, m).party;
    var x' := x.(party := p);
    NodeUnchanged(x, p);
    AcceptHanded(x, x');
    AcceptMirror(cr, x, x', y, OwnView(cr, x.party, m.logIndex), x.party.currentHeight + 1);
    SignatureReceived(cr, x, x', y, OwnView(cr, x.party, m.logIndex));
  }

  /** The parts of the invariant that accepting a commitment leaves alone. */
  lemma SignatureReceived(cr: Crypto, x: Node, x': Node, y: Node, v: Commitment)
    requires Half(cr, x, y) && Half(cr, y, x) && y.outbox != [] && y.outbox[0].SigMsg?
    requires x' == x.(party := x'.party)
    requires x'.party == x.party.(ourLog := x'.party.ourLog, theirLog := x'.party.theirLog, localChain := x'.party.localChain)
    requires x'.party.localChain == x.party.localChain + [v]
    requires x.party.localChain != [] && Tip(x.party.localChain).ourIndex <= v.ourIndex
    requires LedgerOk(x', y) && HandedOk(x') && MirrorOk(y, x')
    ensures Half(cr, x', Popped(y)) && Half(cr, Popped(y), x')
  {
    hide LedgerOk, SettlesOk, QueueOk, KeysOk, StoreOk, HandedOk, MirrorOk;
    var y' := Popped(y);
    TailIsNat(cr, x, y);
    EdgeBound(cr, x, y);
    CountersKnown(x, y);
    PopKeepsQueue(cr, x, x', y);
    ReceiverKeepsQueue(cr, x, x', y);
    KnownFrame(cr, x, x', y, y');
    PeerFrame(cr, x, x', y);
    KnownFrame(cr, y, y', x', x');
    HandedFrame(y, y');
    SettlesSeen(x, x', y);
    PopFrames(x, x', y);
  }

  lemma PopFrames(x: Node, x': Node, y: Node)
    requires y.outbox != [] && x'.sent == x.sent && x'.start == x.start
    requires LedgerOk(y, x) && LedgerOk(x', y) && SettlesOk(x, y) && SettlesOk(y, x')
    ensures LedgerOk(Popped(y), x') && LedgerOk(x', Popped(y))
    ensures SettlesOk(x', Popped(y)) && SettlesOk(Popped(y), x')
  {
    hide Rep, ChainOk, Paired;
  }

  /* --- receiving a revocation ---------------------------------------------------------- */

  lemma WindowGrows(cr: Crypto, window: seq<Revocation>, next: Revocation, cfg: Config, n: nat)
    requires Consecutive(cr, window, cfg, n) && n + |window| <= Elk.MAX_INDEX
    requires next == OwnRevocation(cr, cfg, n + |window|)
    ensures Consecutive(cr, window + [next], cfg, n)
  {
    hide OwnRevocation;
  }

  /** A zero preimage: one more key at the end of the window. */
  lemma ExtensionReceived(cr: Crypto, s: Sys)
    requires Inv(cr, s) && Receivable(s) && s.b.outbox[0].RevocationMsg? && s.b.outbox[0].rev.preimage == ZeroHash()
    ensures Receiving(cr, s).Some?
    ensures Inv(cr, Receiving(cr, s).value)
  {
    hide SettlesOk, StoreOk, HandedOk, MirrorOk, Matched, Rep, ChainOk, CurrentKeyOk, OwnRevocation, Consecutive, QueueOk, ZeroHash, HistoryOk;
    hide SignedKeysOk;
    var x, y, m := s.a, s.b, s.b.outbox[0];
    var x' := x.(party := x.party.(window := x.party.window + [m.rev.next]));
    TailIsNat(cr, x, y);
    HeadOk(cr, x, y);
    WindowGrows(cr, x.party.window, m.rev.next, y.party.cfg, |x.signed|);
    NodeUnchanged(x, x'.party);
    CurrentKeyFrame(cr, x, x', y);
    hide KeysOk;
    RepFrame(x.party, x'.party, BooksOf(x, y));
    WindowReceived(cr, x, x', y);
  }

  lemma WindowReceived(cr: Crypto, x: Node, x': Node, y: Node)
    requires Half(cr, x, y) && Half(cr, y, x) && y.outbox != []
    requires y.outbox[0].RevocationMsg? && y.outbox[0].rev.preimage == ZeroHash()
    requires x' == x.(party := x.party.(window := x'.party.window)) && |x'.party.window| == |x.party.window| + 1
    requires LedgerOk(x', y) && KeysOk(cr, x', y)
    ensures Half(cr, x', Popped(y)) && Half(cr, Popped(y), x')
  {
    hide LedgerOk, SettlesOk, QueueOk, KeysOk, StoreOk, HandedOk, MirrorOk;
    var y' := Popped(y);
    TailIsNat(cr, x, y);
    EdgeBound(cr, x, y);
    EdgeBound(cr, y, x);
    CountersKnown(x, y);
    PopKeepsQueue(cr, x, x', y);
    ReceiverKeepsQueue(cr, x, x', y);
    StoreFrame(cr, x, x', y);
    KnownFrame(cr, x', x', y, y');
    KnownFrame(cr, y, y', x, x');
    HandedFrame(y, y');
    HandedFrameParty(x, x');
    SettlesSeen(x, x', y);
    PopFrames(x, x', y);
  }

  lemma StoreFrame(cr: Crypto, x: Node, x': Node, y: Node)
    requires StoreOk(cr, x, y) && MirrorOk(x, y)
    requires x'.signed == x.signed && x'.party.remoteChain == x.party.remoteChain
    requires x'.party.remoteElkrem == x.party.remoteElkrem && x'.party.revocationLog == x.party.revocationLog
    ensures StoreOk(cr, x', y) && MirrorOk(x', y)
  {
    hide Mirror;
  }

  lemma HandedFrameParty(x: Node, x': Node)
    requires HandedOk(x) && x'.handedUp == x.handedUp
    requires x'.party.theirLog == x.party.theirLog && x'.party.theirCounter == x.party.theirCounter
    ensures HandedOk(x')
  {
  }

  /** The preimage of an honest revocation: the secret of the peer's lowest unrevoked height. */
  ghost predicate RevokesTail(cr: Crypto, x: Node, y: Node, m: RevMsg) {
    && CountsOk(x, y)
    && m.preimage != ZeroHash() && m.preimage == Elk.SecretAt(cr.dsha, y.party.cfg.root, RemoteTail(x))
    && |x.party.used| > 0 && |x.signed| + |x.party.window| + 1 <= y.party.windowEdge + 1
    && m.next == OwnRevocation(cr, y.party.cfg, |x.signed| + |x.party.window|)
  }

  lemma RevocationHead(cr: Crypto, x: Node, y: Node)
    requires KeysOk(cr, x, y) && MirrorOk(x, y) && QueueOk(cr, y, x) && y.outbox != []
    requires y.outbox[0].RevocationMsg? && y.outbox[0].rev.preimage != ZeroHash()
    ensures RevokesTail(cr, x, y, y.outbox[0].rev)
  {
    hide QueueOk, OwnRevocation, Consecutive, CurrentKeyOk, SignedKeysOk, Mirror, ZeroHash;
    hide Elk.SecretAt;
    HeadOk(cr, x, y);
  }

  /** The receiver's elkrem stack takes the next secret. */
  lemma SecretAccepted(cr: Crypto, root: Hash, t: nat, stack: seq<Elk.Node>)
    requires t <= Elk.MAX_INDEX && Elk.Feed(cr.dsha, Elk.Secrets(cr.dsha, root, t)) == Some(stack)
    ensures var next := Elk.AddNext(cr.dsha, stack, Elk.SecretAt(cr.dsha, root, t));
            next.Some? && Elk.Feed(cr.dsha, Elk.Secrets(cr.dsha, root, t + 1)) == next
  {
    hide Elk.SecretAt, Elk.AddNext, Elk.HonestStack;
    Elk.SenderFeedsReceiver(cr.dsha, root, t + 1);
    assert Elk.Secrets(cr.dsha, root, t + 1)[..t] == Elk.Secrets(cr.dsha, root, t);
  }

  /** No empty queue, no key mismatch, no refused secret: the revocation goes through. */
  lemma RevocationAccepted(cr: Crypto, x: Node, y: Node, m: RevMsg)
    requires KeysOk(cr, x, y) && StoreOk(cr, x, y) && RevokesTail(cr, x, y, m) && x.party.localChain != []
    requires x.party.cfg.ourCommitKey == y.party.cfg.theirCommitKey
    ensures Elk.AddNext(cr.dsha, x.party.remoteElkrem, m.preimage).Some?
    ensures ReceiveRevocation(cr, x.party, m).Ok?
  {
    hide Elk.SecretAt, Elk.AddNext, Elk.Feed, Elk.Secrets, Consecutive, SignedKeysOk, CompactLogs, MarkForwards, Forwards, ToChannelDelta;
    SecretAccepted(cr, y.party.cfg.root, RemoteTail(x), x.party.remoteElkrem);
  }

  /** What an accepted revocation changes, without saying what the logs become. */
  lemma RevocationFacts(cr: Crypto, p: Party, m: RevMsg)
    requires p.localChain != [] && m.preimage != ZeroHash() && ReceiveRevocation(cr, p, m).Ok?
    ensures Elk.AddNext(cr.dsha, p.remoteElkrem, m.preimage).Some?
    ensures |p.used| > 0 && |p.remoteChain| >= 2
    ensures var p' := ReceiveRevocation(cr, p, m).party;
            var delta := ToChannelDelta(p.remoteChain[0]);
            && p' == p.(ourLog := p'.ourLog, theirLog := p'.theirLog, ourLogIndex := p'.ourLogIndex,
                        theirLogIndex := p'.theirLogIndex, remoteElkrem := p'.remoteElkrem,
                        theirRevocation := p.used[0], used := p.used[1..], window := p.window + [m.next],
                        revocationLog := p.revocationLog[delta.updateNum := delta], remoteChain := p.remoteChain[1..])
            && Some(p'.remoteElkrem) == Elk.AddNext(cr.dsha, p.remoteElkrem, m.preimage)
            && var marked := MarkForwards(p.theirLog, p.localChain[0].height, p.remoteChain[1].height);
            && (forall i | i in p'.theirLog :: i in marked && p'.theirLog[i] == marked[i])
    ensures ReceiveRevocation(cr, p, m).value
         == Forwards(p.theirLog, p.theirCounter, p.localChain[0].height, p.remoteChain[1].height)
  {
    hide Elk.AddNext, ToChannelDelta, Forwards, MarkForwards, Evicted, EvictedParents;
  }

  lemma RevocationKeys(cr: Crypto, x: Node, x': Node, y: Node, m: RevMsg)
    requires KeysOk(cr, x, y) && RevokesTail(cr, x, y, m)
    requires x'.signed == x.signed && x'.party.remoteChain == x.party.remoteChain[1..]
    requires x'.party.theirRevocation == x.party.used[0] && x'.party.used == x.party.used[1..]
    requires x'.party.window == x.party.window + [m.next]
    ensures KeysOk(cr, x', y) && RemoteTail(x') == RemoteTail(x) + 1
  {
    hide OwnRevocation, Elk.SecretAt, ZeroHash, SignedKeysOk;
    var t, cfg := RemoteTail(x) + 1, y.party.cfg;
    assert x.party.used[0] == OwnRevocation(cr, cfg, t + 0);
    assert Consecutive(cr, x'.party.used, cfg, t + 1) by {
      forall i | 0 <= i < |x'.party.used| ensures x'.party.used[i] == OwnRevocation(cr, cfg, t + 1 + i) {
        assert x'.party.used[i] == x.party.used[i + 1];
        assert t + (i + 1) == t + 1 + i;
      }
    }
    hide Consecutive;
    WindowGrows(cr, x.party.window, m.next, cfg, |x.signed|);
  }

  lemma RevocationStore(cr: Crypto, x: Node, x': Node, y: Node, m: RevMsg)
    requires StoreOk(cr, x, y) && HistoryOk(x) && LedgerOk(x, y) && RevokesTail(cr, x, y, m)
    requires x'.signed == x.signed && x'.party.remoteChain == x.party.remoteChain[1..]
    requires Some(x'.party.remoteElkrem) == Elk.AddNext(cr.dsha, x.party.remoteElkrem, m.preimage)
    requires var delta := ToChannelDelta(x.party.remoteChain[0]);
             x'.party.revocationLog == x.party.revocationLog[delta.updateNum := delta]
    ensures StoreOk(cr, x', y) && HistoryOk(x')
  {
    hide Elk.SecretAt, Elk.AddNext, Elk.Feed, Elk.Secrets, OwnRevocation, DiskHtlcs, Rep, Denotes, Closed;
    var t := RemoteTail(x);
    SecretAccepted(cr, y.party.cfg.root, t, x.party.remoteElkrem);
    assert x.party.remoteChain[0] == x.signed[t] && x.signed[t].height == t;
    var delta := ToChannelDelta(x.signed[t]);
    assert delta.updateNum == t % TWO32;
    hide ToChannelDelta;
    forall h | 0 <= h < t + 1 <= h + TWO32
      ensures h % TWO32 in x'.party.revocationLog && x'.party.revocationLog[h % TWO32] == ToChannelDelta(x.signed[h])
    {
      if h < t {
        assert h % TWO32 != t % TWO32;
      }
    }
  }

  /** The rising indexes below `n` of the entries this revocation releases. */
  ghost predicate Released(up: seq<nat>, log: Log, n: nat, lt: nat, rt: nat) {
    && (forall i :: i in up <==> i < n && i in log && ForwardNow(log[i], lt, rt))
    && (forall i, j | 0 <= i < j < |up| :: up[i] < up[j])
  }

  lemma ReleaseOne(up: seq<nat>, log: Log, n: nat, lt: nat, rt: nat)
    requires Released(up, log, n, lt, rt)
    ensures if n in log && ForwardNow(log[n], lt, rt) then Released(up + [n], log, n + 1, lt, rt)
            else Released(up, log, n + 1, lt, rt)
  {
    hide ForwardNow;
    forall k | 0 <= k < |up| ensures up[k] < n {
      assert up[k] in up;
    }
  }

  lemma IndexesPush(es: seq<Entry>, e: Entry)
    ensures Indexes(es + [e]) == Indexes(es) + [e.index]
  {
    assert (es + [e])[..|es|] == es;
  }

  lemma {:induction false} ForwardsReleased(log: Log, full: seq<Update>, n: nat, lt: nat, rt: nat)
    requires LogMatches(log, full)
    ensures Released(Indexes(Forwards(log, n, lt, rt)), log, n, lt, rt)
    decreases n
  {
    hide ForwardNow, Indexes;
    if n > 0 {
      ForwardsReleased(log, full, n - 1, lt, rt);
      var before := Forwards(log, n - 1, lt, rt);
      ReleaseOne(Indexes(before), log, n - 1, lt, rt);
      hide Released;
      if n - 1 in log && ForwardNow(log[n - 1], lt, rt) {
        assert Matches(log[n - 1], n - 1, full[n - 1]);
        IndexesPush(before, log[n - 1].(isForwarded := true));
      } else {
        assert Forwards(log, n, lt, rt) == before + [] == before;
      }
    } else {
      assert Indexes([]) == [] by { IndexesEmpty(); }
    }
  }

  lemma IndexesEmpty()
    ensures Indexes([]) == []
  {
  }

  /** What compaction drops from the peer's log has been handed up, now or before. */
  lemma DroppedWereForwarded(cr: Crypto, p: Party, b: Books, m: RevMsg, i: nat)
    requires Rep(p, b) && m.preimage != ZeroHash() && ReceiveRevocation(cr, p, m).Ok? && |p.remoteChain| >= 2
    requires i in p.theirLog && i !in ReceiveRevocation(cr, p, m).party.theirLog
    ensures p.theirLog[i].isForwarded || ForwardNow(p.theirLog[i], p.localChain[0].height, p.remoteChain[1].height)
  {
    hide Elk.AddNext, ToChannelDelta, Forwards, ZeroHash, OnChain, LogOk, SettledIn, IndexesOk;
    var lt, rt := p.localChain[0].height, p.remoteChain[1].height;
    if i in EvictedParents(p.ourLog, lt, rt) {
      EvictedParentsAreAdds(p.ourLog, b.ours, p.theirLog, b.theirs, lt, rt, i);
      KnownAdd(p.theirLog, b.theirs, p.ourLog, b.ours, i);
    }
  }

  lemma KnownAdd(log: Log, full: seq<Update>, otherLog: Log, other: seq<Update>, i: nat)
    requires LogOk(log, full, otherLog, other) && i in log && i < |full| && full[i].Add?
    ensures log[i].kind.AddEntry?
  {
    assert Matches(log[i], i, full[i]);
  }

  lemma RevocationHanded(x: Node, x': Node, up: seq<nat>, lt: nat, rt: nat)
    requires HandedOk(x) && x'.handedUp == x.handedUp + up && x'.party.theirCounter == x.party.theirCounter
    requires Released(up, x.party.theirLog, x.party.theirCounter, lt, rt)
    requires forall i | i in x'.party.theirLog ::
               i in x.party.theirLog && x'.party.theirLog[i] == MarkForwards(x.party.theirLog, lt, rt)[i]
    requires forall i | i in x.party.theirLog && i !in x'.party.theirLog ::
               x.party.theirLog[i].isForwarded || ForwardNow(x.party.theirLog[i], lt, rt)
    ensures HandedOk(x')
  {
    var log, log' := x.party.theirLog, x'.party.theirLog;
    forall i | i in log' ensures log'[i].isForwarded <==> log[i].isForwarded || ForwardNow(log[i], lt, rt) {
    }
    forall i, j | 0 <= i < |x.handedUp| && 0 <= j < |up| ensures x.handedUp[i] != up[j] {
      assert up[j] in up && x.handedUp[i] in x.handedUp;
    }
    hide ForwardNow, MarkForwards;
    forall j | 0 <= j < |up| ensures up[j] < x.party.theirCounter {
      assert up[j] in up;
    }
  }

  lemma RevocationReceived(cr: Crypto, s: Sys)
    requires Inv(cr, s) && Receivable(s) && s.b.outbox[0].RevocationMsg? && s.b.outbox[0].rev.preimage != ZeroHash()
    ensures Receiving(cr, s).Some?
    ensures Inv(cr, Receiving(cr, s).value)
  {
    hide SettlesOk, StoreOk, HandedOk, QueueOk, MirrorOk, KeysOk, HonestSecrets, Rep, ChainOk, HistoryOk, ReceiveRevocation;
    hide ToChannelDelta, MarkForwards, Forwards, Indexes, RevokesTail, ZeroHash, Elk.AddNext;
    var x, y, m := s.a, s.b, s.b.outbox[0].rev;
    CountersKnown(x, y);
    RevocationHead(cr, x, y);
    RevocationAccepted(cr, x, y, m);
    RevocationFacts(cr, x.party, m);
    var x' := Receiving(cr, s).value.a;
    ReceiveRevocationKeepsRep(cr, x.party, BooksOf(x, y), m);
    RevocationKeys(cr, x, x', y, m);
    RevocationStore(cr, x, x', y, m);
    HandedUpOnce(cr, x, x', y, m);
    TailDropped(cr, x, x', y);
  }

  lemma HandedUpOnce(cr: Crypto, x: Node, x': Node, y: Node, m: RevMsg)
    requires LedgerOk(x, y) && HandedOk(x) && m.preimage != ZeroHash()
    requires x.party.localChain != [] && ReceiveRevocation(cr, x.party, m).Ok?
    requires x' == x.(party := ReceiveRevocation(cr, x.party, m).party,
                      handedUp := x.handedUp + Indexes(ReceiveRevocation(cr, x.party, m).value))
    ensures HandedOk(x')
  {
    hide HandedOk, ReceiveRevocation, Indexes, Forwards, ChainOk, OnChain, FlagsOk, ZeroHash, ToChannelDelta, Elk.AddNext;
    hide ForwardNow, Cleared, Twinned, Paired;
    RevocationFacts(cr, x.party, m);
    var lt, rt := x.party.localChain[0].height, x.party.remoteChain[1].height;
    ForwardsReleased(x.party.theirLog, BooksOf(x, y).theirs, x.party.theirCounter, lt, rt);
    forall i | i in x.party.theirLog && i !in x'.party.theirLog
      ensures x.party.theirLog[i].isForwarded || ForwardNow(x.party.theirLog[i], lt, rt)
    {
      DroppedWereForwarded(cr, x.party, BooksOf(x, y), m, i);
    }
    RevocationHanded(x, x', Indexes(Forwards(x.party.theirLog, x.party.theirCounter, lt, rt)), lt, rt);
  }

  /** The parts of the invariant that dropping the peer's tail leaves alone. */
  lemma TailDropped(cr: Crypto, x: Node, x': Node, y: Node)
    requires Half(cr, x, y) && Half(cr, y, x) && y.outbox != []
    requires y.outbox[0].RevocationMsg? && y.outbox[0].rev.preimage != ZeroHash()
    requires x' == x.(party := x'.party, handedUp := x'.handedUp)
    requires x'.party == x.party.(ourLog := x'.party.ourLog, theirLog := x'.party.theirLog,
                                  ourLogIndex := x'.party.ourLogIndex, theirLogIndex := x'.party.theirLogIndex,
                                  remoteElkrem := x'.party.remoteElkrem, theirRevocation := x'.party.theirRevocation,
                                  used := x'.party.used, window := x'.party.window,
                                  revocationLog := x'.party.revocationLog, remoteChain := x.party.remoteChain[1..])
    requires |x.party.remoteChain| >= 2 && |x'.party.window| == |x.party.window| + 1
    requires LedgerOk(x', y) && KeysOk(cr, x', y) && StoreOk(cr, x', y) && HistoryOk(x') && HandedOk(x')
    ensures Half(cr, x', Popped(y)) && Half(cr, Popped(y), x')
  {
    hide LedgerOk, SettlesOk, QueueOk, KeysOk, StoreOk, HandedOk, MirrorOk;
    var y' := Popped(y);
    TailIsNat(cr, x, y);
    CountersKnown(x, y);
    PopKeepsQueue(cr, x, x', y);
    ReceiverKeepsQueue(cr, x, x', y);
    SignedMirror(x, x', y);
    KnownFrame(cr, x', x', y, y');
    KnownFrame(cr, y, y', x, x');
    HandedFrame(y, y');
    SettlesSeen(x, x', y);
    PopFrames(x, x', y);
  }

  lemma SignedMirror(x: Node, x': Node, y: Node)
    requires MirrorOk(x, y) && x'.signed == x.signed
    ensures MirrorOk(x', y)
  {
    hide Mirror;
  }

  /** Handling any message of an honest peer succeeds and keeps the invariant. */
  lemma ReceiveKeepsInv(cr: Crypto, s: Sys)
    requires Inv(cr, s) && Receivable(s)
    ensures Receiving(cr, s).Some?
    ensures Inv(cr, Receiving(cr, s).value)
  {
    hide Inv, Receiving, ZeroHash;
    match s.b.outbox[0]
    case AddMsg(_, _, _) => ReceiveUpdateKeepsInv(cr, s);
    case SettleMsg(_, _) => ReceiveUpdateKeepsInv(cr, s);
    case SigMsg(_, _) => ReceiveSignatureKeepsInv(cr, s);
    case RevocationMsg(rev) =>
      if rev.preimage == ZeroHash() {
        ExtensionReceived(cr, s);
      } else {
        RevocationReceived(cr, s);
      }
  }
}
