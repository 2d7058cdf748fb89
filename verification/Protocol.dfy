/** Two honest parties over reliable first-in-first-out links: the transition system
and its invariant.
 */
module Protocol {
  import opened Primitives
  import opened Ledger
  import opened ChannelSpec
  import opened ChannelRep
  import Elk = ElkremSpec

  datatype Msg =
    | AddMsg(amount: int, rhash: Hash, timeout: nat)
    | SettleMsg(htlcKey: nat, preimage: Hash)
    | SigMsg(sig: Signature, logIndex: nat)
    | RevocationMsg(rev: RevMsg)

  /** One party, the messages it has sent which the peer has not handled yet, and
  what it has done so far: every update it made, every commitment it put on the
  peer's chain (by height) and every update of the peer handed up to the switch. */
  datatype Node = Node(
    party: Party, outbox: seq<Msg>, start: int,
    sent: seq<Update>, signed: seq<Commitment>, handedUp: seq<nat>)

  datatype Sys = Sys(a: Node, b: Node)

  datatype Event =
    | DoAdd(amount: int, rhash: Hash, timeout: nat)
    | DoSettle(preimage: Hash)
    | DoSign
    | DoRevoke
    | DoExtend
    | DoReceive

  function Flip(s: Sys): Sys {
    Sys(s.b, s.a)
  }

  /* --- steps of `a` ----------------------------------------------------------- */

  function Adding(s: Sys, amount: int, rhash: Hash, timeout: nat): Sys {
    s.(a := s.a.(party := AddHTLC(s.a.party, amount, rhash, timeout),
                 outbox := s.a.outbox + [AddMsg(amount, rhash, timeout)],
                 sent := s.a.sent + [Add(amount, rhash, timeout)]))
  }

  /** The driver settles only with the preimage of an Add handed up to it. */
  ghost function Settling(cr: Crypto, s: Sys, preimage: Hash): Option<Sys> {
    var r := SettleHTLC(cr, s.a.party, preimage);
    if !SettleEnabled(cr, s.a.party, preimage) || r.Err? || r.value !in s.a.party.theirLog then None
    else
      Some(s.(a := s.a.(party := r.party,
                        outbox := s.a.outbox + [SettleMsg(r.value, preimage)],
                        sent := s.a.sent + [Settle(r.value, s.a.party.theirLog[r.value].amount)])))
  }

  function Signing(s: Sys): Option<Sys>
    requires s.a.party.remoteChain != []
  {
    var r := SignNextCommitment(s.a.party);
    if r.Err? then None
    else
      Some(s.(a := s.a.(party := r.party,
                        outbox := s.a.outbox + [SigMsg(r.value.0, r.value.1)],
                        signed := s.a.signed + [Tip(r.party.remoteChain)])))
  }

  function Revoking(cr: Crypto, s: Sys): Option<Sys> {
    if |s.a.party.localChain| < 2 then None
    else
      var r := RevokeCurrentCommitment(cr, s.a.party);
      if r.Err? then None
      else Some(s.(a := s.a.(party := r.party, outbox := s.a.outbox + [RevocationMsg(r.value)])))
  }

  function Extending(cr: Crypto, s: Sys): Option<Sys> {
    var r := ExtendRevocationWindow(cr, s.a.party);
    if r.Err? then None
    else Some(s.(a := s.a.(party := r.party, outbox := s.a.outbox + [RevocationMsg(r.value)])))
  }

  function Indexes(es: seq<Entry>): seq<nat> {
    if es == [] then [] else Indexes(es[..|es| - 1]) + [es[|es| - 1].index]
  }

  /** What handling the peer's oldest message does to `a`. */
  function Handle(cr: Crypto, p: Party, m: Msg): Step<seq<Entry>>
    requires p.localChain != []
  {
    match m
    case AddMsg(amount, rhash, timeout) => Ok(ReceiveHTLC(p, amount, rhash, timeout), [])
    case SettleMsg(key, preimage) =>
      (match ReceiveHTLCSettle(cr, p, preimage, key)
       case Ok(p', _) => Ok(p', [])
       case Err(p') => Err(p'))
    case SigMsg(sig, logIndex) =>
      (match ReceiveNewCommitment(cr, p, sig, logIndex)
       case Ok(p', _) => Ok(p', [])
       case Err(p') => Err(p'))
    case RevocationMsg(rev) => ReceiveRevocation(cr, p, rev)
  }

  /** A signature is handled only after the previous one has been revoked. */
  predicate Receivable(s: Sys) {
    && s.b.outbox != [] && s.a.party.localChain != []
    && (s.b.outbox[0].SigMsg? ==> |s.a.party.localChain| == 1)
  }

  function Receiving(cr: Crypto, s: Sys): Option<Sys>
    requires Receivable(s)
  {
    var r := Handle(cr, s.a.party, s.b.outbox[0]);
    if r.Err? then None
    else
      Some(Sys(s.a.(party := r.party, handedUp := s.a.handedUp + Indexes(r.value)),
               s.b.(outbox := s.b.outbox[1..])))
  }

  ghost function ApplyA(cr: Crypto, s: Sys, ev: Event): Option<Sys> {
    match ev
    case DoAdd(amount, rhash, timeout) => Some(Adding(s, amount, rhash, timeout))
    case DoSettle(preimage) => Settling(cr, s, preimage)
    case DoSign => if s.a.party.remoteChain == [] then None else Signing(s)
    case DoRevoke => Revoking(cr, s)
    case DoExtend => Extending(cr, s)
    case DoReceive => if Receivable(s) then Receiving(cr, s) else None
  }

  /** One event of one party. */
  ghost predicate Next(cr: Crypto, s: Sys, s': Sys) {
    exists ev :: ApplyA(cr, s, ev) == Some(s') || ApplyA(cr, Flip(s), ev) == Some(Flip(s'))
  }

  function OpenedNode(cr: Crypto, cfg: Config, peer: Config, ours: int, theirs: int): Node {
    var p := Opened(cr, cfg, ours, theirs, OwnRevocation(cr, peer, 0).key);
    Node(p, [], ours, [], p.remoteChain, [])
  }

  /** Neither secret tree contains the zero hash, which the wire format reserves. */
  ghost predicate HonestSecrets(cr: Crypto, root: Hash) {
    forall i: nat | i <= Elk.MAX_INDEX :: Elk.SecretAt(cr.dsha, root, i) != ZeroHash()
  }

  ghost predicate Matched(cr: Crypto, a: Config, b: Config) {
    && a.ourCommitKey == b.theirCommitKey && a.theirCommitKey == b.ourCommitKey
    && a.localCsvDelay == b.remoteCsvDelay && a.remoteCsvDelay == b.localCsvDelay
    && HonestSecrets(cr, a.root) && HonestSecrets(cr, b.root)
  }

  ghost predicate Init(cr: Crypto, s: Sys) {
    exists ca, cb, ours, theirs ::
      Matched(cr, ca, cb) && s == Sys(OpenedNode(cr, ca, cb, ours, theirs), OpenedNode(cr, cb, ca, theirs, ours))
  }

  /** A run: an initial state and any number of events of either party. */
  ghost predicate IsRun(cr: Crypto, run: seq<Sys>) {
    && run != [] && Init(cr, run[0])
    && (forall i, j | 0 <= i && j == i + 1 && j < |run| :: Next(cr, run[i], run[j]))
  }

  /* --- the invariant ------------------------------------------------------------ */

  /** A message stream position: next update, signature, revoked height, window index. */
  datatype Pos = Pos(update: nat, sig: nat, revoked: nat, window: nat)

  datatype World = World(cr: Crypto, cfg: Config, sent: seq<Update>, peerSent: seq<Update>, signed: seq<Commitment>)

  /** The message is what an honest sender sends at this position. */
  ghost predicate MsgOk(m: Msg, pos: Pos, w: World) {
    match m
    case AddMsg(amount, rhash, timeout) =>
      pos.update < |w.sent| && w.sent[pos.update] == Add(amount, rhash, timeout)
    case SettleMsg(key, preimage) =>
      && pos.update < |w.sent| && key < |w.peerSent| && w.peerSent[key].Add?
      && w.sent[pos.update] == Settle(key, w.peerSent[key].amount)
      && w.peerSent[key].rhash == w.cr.sha256(preimage)
    case SigMsg(sig, logIndex) =>
      && pos.sig < |w.signed|
      && w.signed[pos.sig].ourIndex == pos.update && w.signed[pos.sig].theirIndex == logIndex
      && sig == SignatureOf(w.cfg, Remote, w.signed[pos.sig])
    case RevocationMsg(rev) =>
      && pos.window <= Elk.MAX_INDEX && pos.revoked <= Elk.MAX_INDEX
      && rev.next == OwnRevocation(w.cr, w.cfg, pos.window)
      && (rev.preimage == ZeroHash() || rev.preimage == Elk.SecretAt(w.cr.dsha, w.cfg.root, pos.revoked))
  }

  function After(m: Msg, pos: Pos): Pos {
    match m
    case AddMsg(_, _, _) => pos.(update := pos.update + 1)
    case SettleMsg(_, _) => pos.(update := pos.update + 1)
    case SigMsg(_, _) => pos.(sig := pos.sig + 1)
    case RevocationMsg(rev) =>
      pos.(window := pos.window + 1, revoked := if rev.preimage == ZeroHash() then pos.revoked else pos.revoked + 1)
  }

  /** The queued messages are exactly what leads from one position to the other. */
  ghost predicate Link(q: seq<Msg>, from: Pos, to: Pos, w: World) {
    if q == [] then from == to
    else MsgOk(q[0], from, w) && Link(q[1..], After(q[0], from), to, w)
  }

  /** Height of the lowest commitment of the peer's chain not known to be revoked. */
  function RemoteTail(x: Node): int {
    |x.signed| - |x.party.remoteChain|
  }

  ghost predicate BooksKnown(x: Node, y: Node) {
    x.party.theirCounter <= |y.sent|
  }

  function BooksOf(x: Node, y: Node): Books
    requires BooksKnown(x, y)
  {
    Books(x.sent, y.sent[..x.party.theirCounter], x.start, y.start)
  }

  /** The party's state stands for the complete logs, and so does every commitment
  it ever signed. */
  ghost predicate LedgerOk(x: Node, y: Node) {
    BooksKnown(x, y) && Rep(x.party, BooksOf(x, y)) && ChainOk(x.signed, BooksOf(x, y))
  }

  ghost predicate HistoryOk(x: Node) {
    && x.signed != [] && x.signed[0].height == 0
    && 0 < |x.party.remoteChain| <= |x.signed|
    && x.party.remoteChain == x.signed[RemoteTail(x)..]
  }

  /** The same commitment seen by its owner instead of its signer. */
  function Mirror(k: Commitment): Commitment {
    k.(ourIndex := k.theirIndex, theirIndex := k.ourIndex, ourBalance := k.theirBalance,
       theirBalance := k.ourBalance, outgoing := k.incoming, incoming := k.outgoing)
  }

  /** The peer's own chain consists of commitments `x` signed, mirrored. At height 0,
  before any signature, only the revocation hash may differ. */
  ghost predicate MirrorOk(x: Node, y: Node) {
    && 1 <= |y.party.localChain| <= 2
    && y.party.currentHeight + |y.party.localChain| <= |x.signed|
    && (forall k | 0 <= k < |y.party.localChain| ::
          var h := y.party.currentHeight + k;
          && y.party.localChain[k].(revocation := x.signed[h].revocation) == Mirror(x.signed[h])
          && (h > 0 ==> y.party.localChain[k].revocation == x.signed[h].revocation))
  }

  /** One commitment of the peer's chain per used revocation, and one more; no key is
  beyond what the peer has handed out. */
  ghost predicate CountsOk(x: Node, y: Node) {
    && |x.party.remoteChain| == |x.party.used| + 1 && |x.party.used| <= INITIAL_REVOCATION_WINDOW
    && |x.signed| + |x.party.window| <= y.party.windowEdge + 1 <= Elk.MAX_INDEX + 1
    && 0 <= RemoteTail(x) < |x.signed|
  }

  ghost predicate CurrentKeyOk(cr: Crypto, x: Node, y: Node)
    requires CountsOk(x, y)
  {
    var own := OwnRevocation(cr, y.party.cfg, RemoteTail(x));
    && x.party.theirRevocation.key == own.key
    && (x.party.theirRevocation.hash == ZeroHash() || x.party.theirRevocation.hash == own.hash)
  }

  /** The revocations are those of consecutive heights of the peer's chain. */
  ghost predicate Consecutive(cr: Crypto, revs: seq<Revocation>, cfg: Config, first: nat) {
    first + |revs| <= Elk.MAX_INDEX + 1
    && forall i | 0 <= i < |revs| :: revs[i] == OwnRevocation(cr, cfg, first + i)
  }

  ghost predicate SignedKeysOk(cr: Crypto, signed: seq<Commitment>, cfg: Config) {
    |signed| <= Elk.MAX_INDEX + 1
    && forall h | 0 <= h < |signed| ::
         && signed[h].revocation.key == OwnRevocation(cr, cfg, h).key
         && (h > 0 ==> signed[h].revocation == OwnRevocation(cr, cfg, h))
  }

  /** The revocations `x` holds of `y`, from the current one to the end of the window,
  follow each other without a gap, and each commitment was signed with its own. */
  ghost predicate KeysOk(cr: Crypto, x: Node, y: Node) {
    && CountsOk(x, y) && CurrentKeyOk(cr, x, y)
    && Consecutive(cr, x.party.used, y.party.cfg, RemoteTail(x) + 1)
    && Consecutive(cr, x.party.window, y.party.cfg, |x.signed|)
    && SignedKeysOk(cr, x.signed, y.party.cfg)
  }

  function ReceivedPos(y: Node): Pos
    requires RemoteTail(y) >= 0
  {
    Pos(y.party.theirCounter, y.party.currentHeight + |y.party.localChain|, RemoteTail(y),
        |y.signed| + |y.party.window|)
  }

  function SentPos(x: Node): Pos {
    Pos(|x.sent|, |x.signed|, x.party.currentHeight, x.party.windowEdge + 1)
  }

  /** What `x` has sent and `y` has not handled is exactly what is in the queue. */
  ghost predicate QueueOk(cr: Crypto, x: Node, y: Node) {
    && RemoteTail(y) >= 0
    && Link(x.outbox, ReceivedPos(y), SentPos(x), World(cr, x.party.cfg, x.sent, y.sent, x.signed))
  }

  /** Every Add that `x` settles, even in a message still under way, is on both chains of `y`. */
  ghost predicate SettlesOk(x: Node, y: Node) {
    && y.party.localChain != [] && y.party.remoteChain != []
    && ParentsBelow(x.sent, |x.sent|, Tip(y.party.localChain).ourIndex)
    && ParentsBelow(x.sent, |x.sent|, Tip(y.party.remoteChain).ourIndex)
    && Paired(x.sent, y.sent)
  }

  /** The revoked secrets and states are on record; a log entry survives until the
  height comes round again modulo 2^32. */
  ghost predicate StoreOk(cr: Crypto, x: Node, y: Node) {
    && 0 <= RemoteTail(x) <= Elk.MAX_INDEX + 1
    && Elk.Feed(cr.dsha, Elk.Secrets(cr.dsha, y.party.cfg.root, RemoteTail(x))) == Some(x.party.remoteElkrem)
    && (forall h | 0 <= h < RemoteTail(x) <= h + TWO32 ::
          h % TWO32 in x.party.revocationLog && x.party.revocationLog[h % TWO32] == ToChannelDelta(x.signed[h]))
  }

  /** No update is handed up twice; those handed up are the marked ones and the ones dropped. */
  ghost predicate HandedOk(x: Node) {
    && (forall i, j | 0 <= i < j < |x.handedUp| :: x.handedUp[i] != x.handedUp[j])
    && (forall i | 0 <= i < |x.handedUp| :: x.handedUp[i] < x.party.theirCounter)
    && (forall i | 0 <= i < x.party.theirCounter ::
          i in x.handedUp <==> i !in x.party.theirLog || x.party.theirLog[i].isForwarded)
  }

  /** The half of the invariant about what `x` knows and sends. */
  ghost predicate Half(cr: Crypto, x: Node, y: Node) {
    && LedgerOk(x, y) && HistoryOk(x) && MirrorOk(x, y) && KeysOk(cr, x, y)
    && QueueOk(cr, x, y) && SettlesOk(x, y) && StoreOk(cr, x, y) && HandedOk(x)
  }

  ghost predicate Inv(cr: Crypto, s: Sys) {
    && Matched(cr, s.a.party.cfg, s.b.party.cfg)
    && Half(cr, s.a, s.b) && Half(cr, s.b, s.a)
  }
}
