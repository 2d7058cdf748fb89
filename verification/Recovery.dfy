/** From the protocol's guarantees to the bytes on disk: the database is written with every
revocation a run accepts, and what it holds is what a revoked state is recovered from.
 */
module Recovery {
  import opened Primitives
  import opened ChannelSpec
  import opened Protocol
  import opened ProtocolReceives
  import opened ProtocolTheorems
  import opened RevocationLog
  import opened ChannelDisk
  import Restart
  import Serdes = ElkremSerdes
  import Elk = ElkremSpec

  /** Serialized keys have their usual size. */
  ghost predicate Compressed(cr: Crypto) {
    forall key, secret :: |cr.derive(key, secret)| == COMPRESSED_KEY_SIZE
  }

  function StateOf(p: Party): ElkremState {
    ElkremState(p.theirRevocation.key, p.theirRevocation.hash, p.cfg.root, p.remoteElkrem)
  }

  /** What a step of the run writes for the first party: a revocation it accepts is recorded
  with the tail it revokes; nothing else touches this part of the disk. */
  function Written(disk: Disk, o: OutPoint, s: Sys, s': Sys): Disk {
    if RemoteTail(s'.a) > RemoteTail(s.a) && s.a.party.remoteChain != []
       && |s'.a.party.theirRevocation.key| == COMPRESSED_KEY_SIZE
    then Recorded(disk, o, StateOf(s'.a.party), ToChannelDelta(s.a.party.remoteChain[0]))
    else disk
  }

  /** The two disks hold the same for channel `o`; other channels may have written. */
  ghost predicate SameChannel(x: Disk, y: Disk, o: OutPoint) {
    && (ElkremKey(o) in x.node ==> ElkremKey(o) in y.node && x.node[ElkremKey(o)] == y.node[ElkremKey(o)])
    && forall n: nat | n < TWO32 && LogKey(o, n) in x.log ::
         LogKey(o, n) in y.log && y.log[LogKey(o, n)] == x.log[LogKey(o, n)]
  }

  /** The disk along a run: the elkrem state of the opened channel, then what each step writes. */
  ghost predicate Follows(disks: seq<Disk>, o: OutPoint, run: seq<Sys>, byFirst: bool) {
    && |disks| == |run| > 0 && o.index < TWO32
    && var p := Seen(run, 0, byFirst).a.party;
    && (|p.theirRevocation.key| == COMPRESSED_KEY_SIZE ==> Keeps(disks[0], o, StateOf(p), map[]))
    && forall i, j | 0 <= i && j == i + 1 && j < |run| ::
         SameChannel(Written(disks[i], o, Seen(run, i, byFirst), Seen(run, j, byFirst)), disks[j], o)
  }

  /** Every run has such disks, from any disk the opened channel was put on. */
  lemma DisksExist(first: Disk, o: OutPoint, run: seq<Sys>, byFirst: bool) returns (disks: seq<Disk>)
    requires run != [] && o.index < TWO32
    requires var p := Seen(run, 0, byFirst).a.party;
             |p.theirRevocation.key| == COMPRESSED_KEY_SIZE ==> Keeps(first, o, StateOf(p), map[])
    ensures Follows(disks, o, run, byFirst)
  {
    hide Written, Keeps, LogKey, ElkremKey;
    disks := [first];
    while |disks| < |run|
      invariant 0 < |disks| <= |run| && disks[0] == first
      invariant forall i, j | 0 <= i && j == i + 1 && j < |disks| ::
                  SameChannel(Written(disks[i], o, Seen(run, i, byFirst), Seen(run, j, byFirst)), disks[j], o)
    {
      var last := |disks| - 1;
      disks := disks + [Written(disks[last], o, Seen(run, last, byFirst), Seen(run, last + 1, byFirst))];
    }
  }

  /* --- what a step does to the party's store --------------------------------------------------- */

  /** Either nothing of the store changes, or the tail is revoked and put on the log. */
  ghost predicate StoreStep(x: Node, x': Node) {
    if RemoteTail(x') > RemoteTail(x) then
      && RemoteTail(x') == RemoteTail(x) + 1 && x.party.remoteChain != []
      && var d := ToChannelDelta(x.party.remoteChain[0]);
      x'.party.revocationLog == x.party.revocationLog[d.updateNum := d]
    else
      && RemoteTail(x') == RemoteTail(x)
      && x'.party.revocationLog == x.party.revocationLog && StateOf(x'.party) == StateOf(x.party)
  }

  lemma HandleStores(cr: Crypto, s: Sys)
    requires Receivable(s) && Receiving(cr, s).Some?
    ensures StoreStep(s.a, Receiving(cr, s).value.a)
  {
    hide ToChannelDelta, ViewAt, MarkLog, SkipSet, SignatureOf, Elk.AddNext, Forwards, MarkForwards, Indexes, CompactLogs;
    var m := s.b.outbox[0];
    if m.RevocationMsg? && m.rev.preimage != ZeroHash() {
      hide ReceiveRevocation, ZeroHash;
      RevocationFacts(cr, s.a.party, m.rev);
    } else {
      hide OwnRevocation, ZeroHash;
    }
  }

  lemma StepStores(cr: Crypto, s: Sys, ev: Event)
    requires ApplyA(cr, s, ev).Some?
    ensures StoreStep(s.a, ApplyA(cr, s, ev).value.a)
    ensures StoreStep(s.b, ApplyA(cr, s, ev).value.b)
  {
    hide ToChannelDelta, ViewAt, MarkLog, SkipSet, SignatureOf, OwnRevocation, Receiving, FirstCandidate;
    if ev.DoReceive? {
      HandleStores(cr, s);
      ReceivingSpares(cr, s);
    }
  }

  lemma ReceivingSpares(cr: Crypto, s: Sys)
    requires Receivable(s) && Receiving(cr, s).Some?
    ensures var b := Receiving(cr, s).value.b; b.party == s.b.party && b.signed == s.b.signed
  {
    hide Handle;
  }

  lemma NextStores(cr: Crypto, run: seq<Sys>, i: nat, byFirst: bool)
    requires IsRun(cr, run) && i + 1 < |run|
    ensures StoreStep(Seen(run, i, byFirst).a, Seen(run, i + 1, byFirst).a)
  {
    hide ApplyA, Init, StoreStep;
    var (s, s') := (run[i], run[i + 1]);
    assert Next(cr, s, s');
    var ev :| ApplyA(cr, s, ev) == Some(s') || ApplyA(cr, Flip(s), ev) == Some(Flip(s'));
    if ApplyA(cr, s, ev) == Some(s') {
      StepStores(cr, s, ev);
    } else {
      StepStores(cr, Flip(s), ev);
    }
  }

  /* --- the disk holds the store ------------------------------------------------------------------ */

  /** The commitments revoked so far have the values the database's fields can hold. */
  ghost predicate RevokedFit(x: Node) {
    forall h | 0 <= h < RemoteTail(x) && h < |x.signed| :: DeltaFits(ToChannelDelta(x.signed[h]))
  }

  lemma SeenStore(cr: Crypto, run: seq<Sys>, n: nat, byFirst: bool)
    requires IsRun(cr, run) && n < |run| && Compressed(cr)
    ensures var s := Seen(run, n, byFirst);
            && 0 <= RemoteTail(s.a) <= Elk.MAX_INDEX + 1 && RemoteTail(s.a) < |s.a.signed|
            && s.a.party.remoteChain != [] && s.a.party.remoteChain[0] == s.a.signed[RemoteTail(s.a)]
            && |s.a.party.theirRevocation.key| == COMPRESSED_KEY_SIZE
            && Elk.Feed(cr.dsha, Elk.Secrets(cr.dsha, s.b.party.cfg.root, RemoteTail(s.a))) == Some(s.a.party.remoteElkrem)
            && Serdes.Sane(s.a.party.remoteElkrem)
  {
    hide LedgerOk, MirrorOk, QueueOk, SettlesOk, HandedOk, Matched, IsRun, Elk.Feed, Elk.SecretAt, Serdes.Sane;
    SeenInv(cr, run, n, byFirst);
    var s := Seen(run, n, byFirst);
    assert Half(cr, s.a, s.b);
    Serdes.ReceiverSurvivesDisk(cr.dsha, Elk.Secrets(cr.dsha, s.b.party.cfg.root, RemoteTail(s.a)), s.a.party.remoteElkrem);
  }

  lemma SameKeeps(x: Disk, y: Disk, o: OutPoint, st: ElkremState, log: map<nat, Delta>)
    requires |st.key| == COMPRESSED_KEY_SIZE && Keeps(x, o, st, log) && SameChannel(x, y, o)
    ensures Keeps(y, o, st, log)
  {
    hide LogKey, ElkremKey, StateBytes, DeltaFrom;
    forall n | n in log ensures n < TWO32 && StoresAt(y.log, o, n, log[n]) {
      assert StoresAt(x.log, o, n, log[n]);
    }
  }

  /** The tail revoked by a step has fitting values if all commitments revoked later do. */
  lemma TailFits(cr: Crypto, run: seq<Sys>, i: nat, n: nat, byFirst: bool)
    requires IsRun(cr, run) && i < n < |run| && Compressed(cr) && RevokedFit(Seen(run, n, byFirst).a)
    ensures RevokedFit(Seen(run, i, byFirst).a)
    decreases n - i
  {
    hide IsRun, DeltaFits, ToChannelDelta, Elk.Feed, Elk.Secrets, Serdes.Sane;
    NextStores(cr, run, n - 1, byFirst);
    HistoryGrows(cr, run, n - 1, n);
    SeenStore(cr, run, n - 1, byFirst);
    var (x, x') := (Seen(run, n - 1, byFirst).a, Seen(run, n, byFirst).a);
    forall h | 0 <= h < RemoteTail(x) && h < |x.signed| ensures DeltaFits(ToChannelDelta(x.signed[h])) {
      assert x.signed[h] == x'.signed[h];
    }
    if i < n - 1 {
      TailFits(cr, run, i, n - 1, byFirst);
    }
  }

  /** In every state of every run the disk holds the party's elkrem state and its log. */
  lemma {:induction false} DiskKeeps(cr: Crypto, run: seq<Sys>, n: nat, byFirst: bool, disks: seq<Disk>, o: OutPoint)
    requires IsRun(cr, run) && n < |run| && Compressed(cr) && Follows(disks, o, run, byFirst)
    requires RevokedFit(Seen(run, n, byFirst).a)
    ensures var p := Seen(run, n, byFirst).a.party;
            |p.theirRevocation.key| == COMPRESSED_KEY_SIZE && Keeps(disks[n], o, StateOf(p), p.revocationLog)
    decreases n
  {
    hide IsRun, Keeps, SameChannel, Recorded, ToChannelDelta, DeltaFits, Elk.Feed, Elk.Secrets;
    SeenStore(cr, run, n, byFirst);
    if n == 0 {
      OpenedLog(cr, run, byFirst);
    } else {
      var (s, s') := (Seen(run, n - 1, byFirst), Seen(run, n, byFirst));
      SeenStore(cr, run, n - 1, byFirst);
      TailFits(cr, run, n - 1, n, byFirst);
      DiskKeeps(cr, run, n - 1, byFirst, disks, o);
      NextStores(cr, run, n - 1, byFirst);
      var disk := Written(disks[n - 1], o, s, s');
      assert SameChannel(disk, disks[n], o) by {
        assert 0 <= n - 1 && n == (n - 1) + 1;
      }
      if RemoteTail(s'.a) > RemoteTail(s.a) {
        RevokedTailFits(cr, run, n - 1, byFirst);
        RecordedKeeps(disks[n - 1], o, StateOf(s.a.party), StateOf(s'.a.party), s.a.party.revocationLog,
                      ToChannelDelta(s.a.party.remoteChain[0]));
      }
      SameKeeps(disk, disks[n], o, StateOf(s'.a.party), s'.a.party.revocationLog);
    }
  }

  lemma OpenedLog(cr: Crypto, run: seq<Sys>, byFirst: bool)
    requires IsRun(cr, run)
    ensures Seen(run, 0, byFirst).a.party.revocationLog == map[]
  {
    hide OwnRevocation, Matched;
  }

  lemma RevokedTailFits(cr: Crypto, run: seq<Sys>, i: nat, byFirst: bool)
    requires IsRun(cr, run) && i + 1 < |run| && Compressed(cr) && RevokedFit(Seen(run, i + 1, byFirst).a)
    requires RemoteTail(Seen(run, i + 1, byFirst).a) > RemoteTail(Seen(run, i, byFirst).a)
    ensures var p := Seen(run, i, byFirst).a.party; p.remoteChain != [] && DeltaFits(ToChannelDelta(p.remoteChain[0]))
  {
    hide IsRun, DeltaFits, ToChannelDelta, Elk.Feed, Elk.Secrets, Serdes.Sane;
    SeenStore(cr, run, i, byFirst);
    HistoryGrows(cr, run, i, i + 1);
    var (x, x') := (Seen(run, i, byFirst).a, Seen(run, i + 1, byFirst).a);
    assert x.signed[RemoteTail(x)] == x'.signed[RemoteTail(x)];
  }

  /** The entry shows the commitment: both balances, its number, and its HTLCs, first those we
  offered, then the peer's, in order and by direction. */
  ghost predicate Shows(d: Delta, k: Commitment) {
    && d.localBalance == k.ourBalance && d.remoteBalance == k.theirBalance && d.updateNum == k.height % TWO32
    && |d.htlcs| == |k.outgoing| + |k.incoming|
    && (forall i | 0 <= i < |k.outgoing| ::
          d.htlcs[i] == DiskHtlc(false, k.outgoing[i].amount, k.outgoing[i].rhash, k.outgoing[i].timeout, 0))
    && (forall i | 0 <= i < |k.incoming| ::
          d.htlcs[|k.outgoing| + i]
          == DiskHtlc(true, k.incoming[i].amount, k.incoming[i].rhash, k.incoming[i].timeout, 0))
  }

  lemma DeltaShows(k: Commitment)
    ensures Shows(ToChannelDelta(k), k)
  {
    hide DiskHtlcs;
    Restart.DiskHtlcsAt(k.outgoing, false);
    Restart.DiskHtlcsAt(k.incoming, true);
  }

  /** In every state of every run, for each revoked height, the log on disk gives back that
  commitment's balances and HTLCs. The elkrem state is read back if and only if the receiver
  has at most 24 nodes, as it has below 2^25 - 25 revocations, and then yields the secret. */
  lemma RevokedStatesOnDisk(cr: Crypto, run: seq<Sys>, n: nat, byFirst: bool, disks: seq<Disk>, o: OutPoint, h: nat)
    requires IsRun(cr, run) && n < |run| && Compressed(cr) && Follows(disks, o, run, byFirst)
    requires RevokedFit(Seen(run, n, byFirst).a) && h < RemoteTail(Seen(run, n, byFirst).a)
    ensures h <= Elk.MAX_INDEX && ElkremKey(o) in disks[n].node
    ensures var s := Seen(run, n, byFirst);
            var state := StateFrom(disks[n].node[ElkremKey(o)]);
            && (RemoteTail(s.a) <= h + TWO32 ==>
                  var entry := Lookup(disks[n].log, o, h); entry.Some? && Shows(entry.value, s.a.signed[h]))
            && (state.Some? <==> |s.a.party.remoteElkrem| <= 24)
            && (RemoteTail(s.a) < 0x200_0000 - 25 ==> state.Some?)
            && (state.Some? ==>
                  Elk.AtIndex(cr.dsha, state.value.receiver, h) == Some(Elk.SecretAt(cr.dsha, s.b.party.cfg.root, h)))
  {
    hide IsRun, ToChannelDelta, Elk.AtIndex, Elk.SecretAt, Elk.Feed, Serdes.Sane, DeltaFrom, LogKey, StateFrom,
         StateBytes, DeltaFits, Shows;
    var s := Seen(run, n, byFirst);
    var p := s.a.party;
    DeltaShows(s.a.signed[h]);
    RevokedStatesRecoverable(cr, run, n, byFirst, h);
    SeenStore(cr, run, n, byFirst);
    DiskKeeps(cr, run, n, byFirst, disks, o);
    assert RemoteTail(s.a) <= h + TWO32 ==> StoresAt(disks[n].log, o, h % TWO32, p.revocationLog[h % TWO32]);
    Serdes.ReceiverSurvivesDisk(cr.dsha, Elk.Secrets(cr.dsha, s.b.party.cfg.root, RemoteTail(s.a)), p.remoteElkrem);
    StateRoundTrip(StateOf(p));
  }

  /** At exactly 2^25 - 25 revocations the elkrem state on disk cannot be read back. */
  lemma UnreadableAtCap(cr: Crypto, run: seq<Sys>, n: nat, byFirst: bool, disks: seq<Disk>, o: OutPoint)
    requires IsRun(cr, run) && n < |run| && Compressed(cr) && Follows(disks, o, run, byFirst)
    requires RevokedFit(Seen(run, n, byFirst).a) && RemoteTail(Seen(run, n, byFirst).a) == 0x200_0000 - 25
    ensures ElkremKey(o) in disks[n].node && StateFrom(disks[n].node[ElkremKey(o)]) == None
  {
    hide IsRun, ToChannelDelta, Elk.SecretAt, Elk.Feed, Serdes.Sane, StateFrom, StateBytes, DeltaFits, Serdes.Encoded;
    var s := Seen(run, n, byFirst);
    SeenStore(cr, run, n, byFirst);
    DiskKeeps(cr, run, n, byFirst, disks, o);
    Serdes.ReadCapReached(cr.dsha, s.b.party.cfg.root);
    StateRoundTrip(StateOf(s.a.party));
  }
}
