/** One party of a payment channel as a value, and every operation of the
commitment state machine as a function on it.

An update log is a map from log index to entry: the linked list holds its entries
in rising index order, so the map loses nothing. The LightningChannel class works
on the lists and is proved against these functions.
 */
module ChannelSpec {
  import opened Primitives
  import opened Ledger
  import Elk = ElkremSpec

  type PubKey = seq<byte>

  /** The functions of the crypto libraries. Nothing is assumed about them. */
  datatype Crypto = Crypto(dsha: Hasher, sha256: Hasher, derive: (PubKey, Hash) -> PubKey)

  datatype EntryType = AddEntry | TimeoutEntry | SettleEntry

  datatype Chain = Local | Remote

  datatype Entry = Entry(
    kind: EntryType, rhash: Hash, timeout: nat, amount: int, index: nat, parent: nat,
    addRemote: nat, addLocal: nat, removeRemote: nat, removeLocal: nat,
    isForwarded: bool, settled: bool)

  type Log = map<nat, Entry>

  /** A revocation key and hash handed over for one future commitment. */
  datatype Revocation = Revocation(key: PubKey, hash: Hash)

  /** The CommitRevocation message; a zero preimage only extends the window. */
  datatype RevMsg = RevMsg(preimage: Hash, next: Revocation)

  datatype Commitment = Commitment(
    height: nat, ourIndex: nat, theirIndex: nat, ourBalance: int, theirBalance: int,
    outgoing: seq<Htlc>, incoming: seq<Htlc>, revocation: Revocation)

  datatype DiskHtlc = DiskHtlc(incoming: bool, amount: int, rhash: Hash, timeout: nat, delay: nat)

  datatype Delta = Delta(localBalance: int, remoteBalance: int, updateNum: nat, htlcs: seq<DiskHtlc>)

  datatype Config = Config(
    ourCommitKey: PubKey, theirCommitKey: PubKey, localCsvDelay: nat, remoteCsvDelay: nat, root: Hash)

  datatype Party = Party(
    cfg: Config,
    ourLog: Log, theirLog: Log, ourLogIndex: set<nat>, theirLogIndex: set<nat>,
    ourCounter: nat, theirCounter: nat,
    currentHeight: nat, windowEdge: nat,
    used: seq<Revocation>, window: seq<Revocation>,
    remoteChain: seq<Commitment>, localChain: seq<Commitment>,
    theirRevocation: Revocation, remoteElkrem: seq<Elk.Node>,
    saved: Delta, revocationLog: map<nat, Delta>)

  /** The outcome of an operation. A refusal can still leave a changed party. */
  datatype Step<+T> = Ok(party: Party, value: T) | Err(party: Party)

  const INITIAL_REVOCATION_WINDOW: nat := 4

  /* --- log entries ------------------------------------------------------- */

  function NewEntry(kind: EntryType, rhash: Hash, timeout: nat, amount: int, index: nat, parent: nat): Entry {
    Entry(kind, rhash, timeout, amount, index, parent, 0, 0, 0, 0, false, false)
  }

  function AddHeight(e: Entry, c: Chain): nat {
    if c.Remote? then e.addRemote else e.addLocal
  }

  function RemoveHeight(e: Entry, c: Chain): nat {
    if c.Remote? then e.removeRemote else e.removeLocal
  }

  function SetAddHeight(e: Entry, c: Chain, h: nat): Entry {
    if c.Remote? then e.(addRemote := h) else e.(addLocal := h)
  }

  function SetRemoveHeight(e: Entry, c: Chain, h: nat): Entry {
    if c.Remote? then e.(removeRemote := h) else e.(removeLocal := h)
  }

  /* --- evaluating a view of the logs -------------------------------------- */

  /** Indexes of the other log's Adds which the removals below `n` clear. */
  function SkipSet(log: Log, n: nat): set<nat> {
    set i | i in log && i < n && !log[i].kind.AddEntry? :: log[i].parent
  }

  /** Total of the removals of one kind below `n` the chain has not applied yet. */
  function Credit(log: Log, n: nat, c: Chain, kind: EntryType): int {
    if n == 0 then 0
    else
      var i := n - 1;
      Credit(log, i, c, kind)
      + if i in log && log[i].kind == kind && RemoveHeight(log[i], c) == 0 then log[i].amount else 0
  }

  /** Total of the unskipped Adds below `n` the chain has not applied yet. */
  function Debit(log: Log, n: nat, c: Chain, skip: set<nat>): int {
    if n == 0 then 0
    else
      var i := n - 1;
      Debit(log, i, c, skip)
      + if i in log && log[i].kind.AddEntry? && i !in skip && AddHeight(log[i], c) == 0 then log[i].amount else 0
  }

  function HtlcOf(e: Entry): Htlc {
    Htlc(e.index, e.amount, e.rhash, e.timeout)
  }

  /** The unskipped Adds below `n`, in log order. */
  function Live(log: Log, n: nat, skip: set<nat>): seq<Htlc> {
    if n == 0 then []
    else
      var i := n - 1;
      if i in log && log[i].kind.AddEntry? && i !in skip then Live(log, i, skip) + [HtlcOf(log[i])]
      else Live(log, i, skip)
  }

  /** The height an evaluation leaves on an entry: set once, never moved. */
  function MarkEntry(e: Entry, c: Chain, skipped: bool, h: nat): Entry {
    if e.kind.AddEntry? then
      if skipped || AddHeight(e, c) != 0 then e else SetAddHeight(e, c, h)
    else
      if RemoveHeight(e, c) != 0 then e else SetRemoveHeight(e, c, h)
  }

  function MarkLog(log: Log, n: nat, c: Chain, skip: set<nat>, h: nat): Log {
    map i | i in log :: if i < n then MarkEntry(log[i], c, i in skip, h) else log[i]
  }

  function ChainOf(p: Party, c: Chain): seq<Commitment> {
    if c.Remote? then p.remoteChain else p.localChain
  }

  function Tip(chain: seq<Commitment>): Commitment
    requires chain != []
  {
    chain[|chain| - 1]
  }

  /** The commitment that extends chain `c` by the logs up to the two indexes. */
  function ViewAt(p: Party, c: Chain, ourIndex: nat, theirIndex: nat, rev: Revocation): Commitment
    requires ChainOf(p, c) != []
  {
    var tip := Tip(ChainOf(p, c));
    var skipUs, skipThem := SkipSet(p.theirLog, theirIndex), SkipSet(p.ourLog, ourIndex);
    Commitment(
      tip.height + 1, ourIndex, theirIndex,
      tip.ourBalance + Credit(p.ourLog, ourIndex, c, SettleEntry) + Credit(p.theirLog, theirIndex, c, TimeoutEntry)
      - Debit(p.ourLog, ourIndex, c, skipUs),
      tip.theirBalance + Credit(p.theirLog, theirIndex, c, SettleEntry) + Credit(p.ourLog, ourIndex, c, TimeoutEntry)
      - Debit(p.theirLog, theirIndex, c, skipThem),
      Live(p.ourLog, ourIndex, skipUs), Live(p.theirLog, theirIndex, skipThem),
      rev)
  }

  /** The party once that view has been evaluated: only heights change. */
  function Evaluated(p: Party, c: Chain, ourIndex: nat, theirIndex: nat): Party
    requires ChainOf(p, c) != []
  {
    var h := Tip(ChainOf(p, c)).height + 1;
    var skipUs, skipThem := SkipSet(p.theirLog, theirIndex), SkipSet(p.ourLog, ourIndex);
    p.(ourLog := MarkLog(p.ourLog, ourIndex, c, skipUs, h),
       theirLog := MarkLog(p.theirLog, theirIndex, c, skipThem, h))
  }

  /* --- the transaction a signature covers --------------------------------- */

  datatype TxOutput =
    | ToSelf(amount: int, selfKey: PubKey, delay: nat, revocationKey: PubKey)
    | ToOther(amount: int, key: PubKey)
    | SenderHtlc(amount: int, timeout: nat, delay: nat, sender: PubKey, receiver: PubKey,
                 revocationHash: Hash, rhash: Hash)
    | ReceiverHtlc(amount: int, timeout: nat, delay: nat, sender: PubKey, receiver: PubKey,
                   revocationHash: Hash, rhash: Hash)

  /** The output for one HTLC, by the case split of addHTLC. */
  function HtlcOutput(cfg: Config, ourCommit: bool, isIncoming: bool, h: Htlc, hash: Hash): TxOutput {
    var delay := if ourCommit then cfg.localCsvDelay else cfg.remoteCsvDelay;
    if isIncoming && ourCommit then
      ReceiverHtlc(h.amount, h.timeout, delay, cfg.theirCommitKey, cfg.ourCommitKey, hash, h.rhash)
    else if isIncoming && !ourCommit then
      SenderHtlc(h.amount, h.timeout, delay, cfg.theirCommitKey, cfg.ourCommitKey, hash, h.rhash)
    else if !isIncoming && ourCommit then
      SenderHtlc(h.amount, h.timeout, delay, cfg.ourCommitKey, cfg.theirCommitKey, hash, h.rhash)
    else
      ReceiverHtlc(h.amount, h.timeout, delay, cfg.ourCommitKey, cfg.theirCommitKey, hash, h.rhash)
  }

  function HtlcOutputs(cfg: Config, ourCommit: bool, isIncoming: bool, hs: seq<Htlc>, hash: Hash): seq<TxOutput> {
    if hs == [] then []
    else
      HtlcOutputs(cfg, ourCommit, isIncoming, hs[..|hs| - 1], hash)
      + [HtlcOutput(cfg, ourCommit, isIncoming, hs[|hs| - 1], hash)]
  }

  /** The outputs of CreateCommitTx: a zero balance gets none. */
  function CreateCommitTx(selfKey: PubKey, theirKey: PubKey, revokeKey: PubKey, delay: nat, toSelf: int, toThem: int)
    : seq<TxOutput>
  {
    (if toSelf != 0 then [ToSelf(toSelf, selfKey, delay, revokeKey)] else [])
    + (if toThem != 0 then [ToOther(toThem, theirKey)] else [])
  }

  function BalanceOutputs(cfg: Config, c: Chain, k: Commitment): seq<TxOutput> {
    if c.Remote? then
      CreateCommitTx(cfg.theirCommitKey, cfg.ourCommitKey, k.revocation.key, cfg.remoteCsvDelay,
                     k.theirBalance, k.ourBalance)
    else
      CreateCommitTx(cfg.ourCommitKey, cfg.theirCommitKey, k.revocation.key, cfg.localCsvDelay,
                     k.ourBalance, k.theirBalance)
  }

  function TxOutputs(cfg: Config, c: Chain, k: Commitment): seq<TxOutput> {
    BalanceOutputs(cfg, c, k)
    + HtlcOutputs(cfg, c.Local?, false, k.outgoing, k.revocation.hash)
    + HtlcOutputs(cfg, c.Local?, true, k.incoming, k.revocation.hash)
  }

  /** The sorted transaction is determined by its outputs as a multiset, and a
  signature by the transaction: signing yields this value, verifying compares it. */
  type Signature = multiset<TxOutput>

  function SignatureOf(cfg: Config, c: Chain, k: Commitment): Signature {
    multiset(TxOutputs(cfg, c, k))
  }

  /* --- the operations ----------------------------------------------------- */

  function AddHTLC(p: Party, amount: int, rhash: Hash, timeout: nat): Party {
    var i := p.ourCounter;
    p.(ourLog := p.ourLog[i := NewEntry(AddEntry, rhash, timeout, amount, i, 0)],
       ourLogIndex := p.ourLogIndex + {i}, ourCounter := i + 1)
  }

  function ReceiveHTLC(p: Party, amount: int, rhash: Hash, timeout: nat): Party {
    var i := p.theirCounter;
    p.(theirLog := p.theirLog[i := NewEntry(AddEntry, rhash, timeout, amount, i, 0)],
       theirLogIndex := p.theirLogIndex + {i}, theirCounter := i + 1)
  }

  predicate SettleCandidate(log: Log, i: nat, paymentHash: Hash) {
    i in log && log[i].kind.AddEntry? && !log[i].settled && log[i].rhash == paymentHash
  }

  /** The first unsettled Add with the payment hash at or after `i`, below `n`. */
  function FirstCandidate(log: Log, i: nat, n: nat, paymentHash: Hash): (r: Option<nat>)
    ensures r.Some? ==> i <= r.value < n && SettleCandidate(log, r.value, paymentHash)
    ensures forall k | i <= k < (if r.Some? then r.value else n) :: !SettleCandidate(log, k, paymentHash)
    decreases n - i
  {
    if i >= n then None
    else if SettleCandidate(log, i, paymentHash) then Some(i)
    else FirstCandidate(log, i + 1, n, paymentHash)
  }


  function SettleHTLC(cr: Crypto, p: Party, preimage: Hash): Step<nat> {
    var target := FirstCandidate(p.theirLog, 0, p.theirCounter, cr.sha256(preimage));
    if target.None? then Err(p)
    else
      var q, i := target.value, p.ourCounter;
      Ok(p.(theirLog := p.theirLog[q := p.theirLog[q].(settled := true)],
            ourLog := p.ourLog[i := NewEntry(SettleEntry, ZeroHash(), 0, p.theirLog[q].amount, i, q)],
            ourCounter := i + 1),
         q)
  }

  function ReceiveHTLCSettle(cr: Crypto, p: Party, preimage: Hash, logIndex: nat): Step<()> {
    if logIndex !in p.ourLogIndex || logIndex !in p.ourLog then Err(p)
    else if p.ourLog[logIndex].rhash != cr.sha256(preimage) then Err(p)
    else
      var i := p.theirCounter;
      Ok(p.(theirLog := p.theirLog[i := NewEntry(SettleEntry, ZeroHash(), 0, p.ourLog[logIndex].amount, i, logIndex)],
            theirCounter := i + 1),
         ())
  }

  /** The revocation this party would hand out for its own commitment at height `h`. */
  function OwnRevocation(cr: Crypto, cfg: Config, h: nat): Revocation
    requires h <= Elk.MAX_INDEX
  {
    var secret := Elk.SecretAt(cr.dsha, cfg.root, h);
    Revocation(cr.derive(cfg.theirCommitKey, secret), cr.sha256(secret))
  }

  function SignNextCommitment(p: Party): Step<(Signature, nat)>
    requires p.remoteChain != []
  {
    if |p.window| == 0 || |p.used| == INITIAL_REVOCATION_WINDOW then Err(p)
    else
      var rev := p.window[0];
      var view := ViewAt(p, Remote, p.ourCounter, p.theirCounter, rev);
      var p' := Evaluated(p, Remote, p.ourCounter, p.theirCounter);
      Ok(p'.(remoteChain := p.remoteChain + [view], used := p.used + [rev], window := p.window[1..]),
         (SignatureOf(p.cfg, Remote, view), p.theirCounter))
  }

  function ReceiveNewCommitment(cr: Crypto, p: Party, sig: Signature, ourIndex: nat): Step<()>
    requires p.localChain != []
  {
    if p.currentHeight + 1 > Elk.MAX_INDEX then Err(p)
    else
      var rev := OwnRevocation(cr, p.cfg, p.currentHeight + 1);
      var view := ViewAt(p, Local, ourIndex, p.theirCounter, rev);
      var p' := Evaluated(p, Local, ourIndex, p.theirCounter);
      if sig != SignatureOf(p.cfg, Local, view) then Err(p')
      else Ok(p'.(localChain := p.localChain + [view]), ())
  }

  function DiskHtlcs(hs: seq<Htlc>, incoming: bool): seq<DiskHtlc> {
    if hs == [] then []
    else
      var h := hs[|hs| - 1];
      DiskHtlcs(hs[..|hs| - 1], incoming) + [DiskHtlc(incoming, h.amount, h.rhash, h.timeout, 0)]
  }

  function ToChannelDelta(k: Commitment): Delta {
    Delta(k.ourBalance, k.theirBalance, k.height % TWO32, DiskHtlcs(k.outgoing, false) + DiskHtlcs(k.incoming, true))
  }

  function RevokeCurrentCommitment(cr: Crypto, p: Party): Step<RevMsg>
    requires |p.localChain| >= 2
  {
    if p.currentHeight > Elk.MAX_INDEX then Err(p)
    else if p.windowEdge + 1 > Elk.MAX_INDEX then Err(p.(windowEdge := p.windowEdge + 1))
    else
      Ok(p.(windowEdge := p.windowEdge + 1, localChain := p.localChain[1..],
            currentHeight := p.currentHeight + 1, saved := ToChannelDelta(p.localChain[1])),
         RevMsg(Elk.SecretAt(cr.dsha, p.cfg.root, p.currentHeight), OwnRevocation(cr, p.cfg, p.windowEdge + 1)))
  }

  function ExtendRevocationWindow(cr: Crypto, p: Party): Step<RevMsg> {
    if p.windowEdge + 1 > Elk.MAX_INDEX then Err(p)
    else Ok(p.(windowEdge := p.windowEdge + 1), RevMsg(ZeroHash(), OwnRevocation(cr, p.cfg, p.windowEdge + 1)))
  }

  /** An entry of the peer's log that this revocation releases to the switch. */
  predicate ForwardNow(e: Entry, localTail: nat, remoteTail: nat) {
    !e.isForwarded
    && if e.kind.AddEntry?
       then e.addRemote != 0 && e.addLocal != 0 && remoteTail >= e.addRemote && localTail >= e.addLocal
       else remoteTail >= e.removeRemote && localTail >= e.removeLocal
  }

  function Forwards(log: Log, n: nat, localTail: nat, remoteTail: nat): seq<Entry> {
    if n == 0 then []
    else
      var i := n - 1;
      Forwards(log, i, localTail, remoteTail)
      + if i in log && ForwardNow(log[i], localTail, remoteTail) then [log[i].(isForwarded := true)] else []
  }

  function MarkForwards(log: Log, localTail: nat, remoteTail: nat): Log {
    map i | i in log :: if ForwardNow(log[i], localTail, remoteTail) then log[i].(isForwarded := true) else log[i]
  }

  /** A removal both chains have applied at or below their tails. */
  predicate Evictable(e: Entry, localTail: nat, remoteTail: nat) {
    !e.kind.AddEntry? && e.removeRemote != 0 && e.removeLocal != 0
    && remoteTail >= e.removeRemote && localTail >= e.removeLocal
  }

  function Evicted(log: Log, localTail: nat, remoteTail: nat): set<nat> {
    set i | i in log && Evictable(log[i], localTail, remoteTail)
  }

  function EvictedParents(log: Log, localTail: nat, remoteTail: nat): set<nat> {
    set i | i in log && Evictable(log[i], localTail, remoteTail) :: log[i].parent
  }

  /** One pass over log A: its evictable removals go, and so do their Adds in log B. */
  function CompactLogs(p: Party, localTail: nat, remoteTail: nat): Party {
    var ours := Evicted(p.ourLog, localTail, remoteTail);
    var theirAdds := EvictedParents(p.ourLog, localTail, remoteTail);
    var theirLog := p.theirLog - theirAdds;
    var theirs := Evicted(theirLog, localTail, remoteTail);
    var ourAdds := EvictedParents(theirLog, localTail, remoteTail);
    p.(ourLog := p.ourLog - ours - ourAdds, theirLog := theirLog - theirs,
       ourLogIndex := p.ourLogIndex - ours - ourAdds, theirLogIndex := p.theirLogIndex - theirAdds - theirs)
  }

  function ReceiveRevocation(cr: Crypto, p: Party, msg: RevMsg): Step<seq<Entry>>
    requires p.localChain != []
  {
    if msg.preimage == ZeroHash() then Ok(p.(window := p.window + [msg.next]), [])
    else
      var elkrem := Elk.AddNext(cr.dsha, p.remoteElkrem, msg.preimage);
      if elkrem.None? then Err(p)
      else
        var p1 := p.(remoteElkrem := elkrem.value);
        if cr.derive(p.cfg.ourCommitKey, msg.preimage) != p.theirRevocation.key then Err(p1)
        else if p.theirRevocation.hash != ZeroHash() && p.theirRevocation.hash != cr.sha256(msg.preimage) then Err(p1)
        else if |p.used| == 0 || |p.remoteChain| < 2 then Err(p1)
        else
          var delta := ToChannelDelta(p.remoteChain[0]);
          var remoteTail, localTail := p.remoteChain[1].height, p.localChain[0].height;
          var p2 := p1.(theirRevocation := p.used[0], used := p.used[1..], window := p.window + [msg.next],
                        revocationLog := p.revocationLog[delta.updateNum := delta],
                        remoteChain := p.remoteChain[1..],
                        theirLog := MarkForwards(p.theirLog, localTail, remoteTail));
          Ok(CompactLogs(p2, localTail, remoteTail), Forwards(p.theirLog, p.theirCounter, localTail, remoteTail))
  }

  /** NewLightningChannel on a channel without history. */
  function Opened(cr: Crypto, cfg: Config, ourBalance: int, theirBalance: int, firstKey: PubKey): Party {
    var base := Commitment(0, 0, 0, ourBalance, theirBalance, [], [], Revocation(firstKey, ZeroHash()));
    Party(cfg, map[], map[], {}, {}, 0, 0, 0, 0, [], [], [base],
          [base.(revocation := OwnRevocation(cr, cfg, 0))],
          Revocation(firstKey, ZeroHash()), [], Delta(ourBalance, theirBalance, 0, []), map[])
  }
}
