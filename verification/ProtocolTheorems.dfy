/** What holds in every run of two honest parties, in every interleaving. */
module ProtocolTheorems {
  import opened Primitives
  import opened Ledger
  import opened ChannelSpec
  import opened ChannelRep
  import opened ChannelSteps
  import opened Protocol
  import opened ProtocolSends
  import opened ProtocolReceives
  import Elk = ElkremSpec

  /* --- the invariant holds throughout ------------------------------------------------ */

  lemma OpenedRep(cr: Crypto, cfg: Config, ours: int, theirs: int, key: PubKey)
    ensures Rep(Opened(cr, cfg, ours, theirs, key), Books([], [], ours, theirs))
    ensures ChainOk(Opened(cr, cfg, ours, theirs, key).remoteChain, Books([], [], ours, theirs))
  {
    hide OwnRevocation;
    var p, b := Opened(cr, cfg, ours, theirs, key), Books([], [], ours, theirs);
    assert Denotes(p.remoteChain[0], b) && Denotes(p.localChain[0], b);
    hide Denotes;
    assert OnChain(p, b, Local) && OnChain(p, b, Remote);
    assert p.ourLogIndex == AddsOf(p.ourLog) && p.theirLogIndex == AddsOf(p.theirLog);
  }

  lemma OpenedHalf(cr: Crypto, ca: Config, cb: Config, ours: int, theirs: int)
    ensures Half(cr, OpenedNode(cr, ca, cb, ours, theirs), OpenedNode(cr, cb, ca, theirs, ours))
  {
    hide Rep, ChainOk;
    var x, y := OpenedNode(cr, ca, cb, ours, theirs), OpenedNode(cr, cb, ca, theirs, ours);
    OpenedRep(cr, ca, ours, theirs, OwnRevocation(cr, cb, 0).key);
    assert LedgerOk(x, y);
    hide LedgerOk;
    assert Elk.Secrets(cr.dsha, cb.root, 0) == [];
    assert x.signed[0..] == x.signed;
    hide OwnRevocation;
  }

  lemma InitInv(cr: Crypto, s: Sys)
    requires Init(cr, s)
    ensures Inv(cr, s)
  {
    hide Half;
    var ca, cb, ours, theirs :|
      Matched(cr, ca, cb) && s == Sys(OpenedNode(cr, ca, cb, ours, theirs), OpenedNode(cr, cb, ca, theirs, ours));
    OpenedHalf(cr, ca, cb, ours, theirs);
    OpenedHalf(cr, cb, ca, theirs, ours);
  }

  lemma InvFlips(cr: Crypto, s: Sys)
    requires Inv(cr, s)
    ensures Inv(cr, Flip(s))
  {
    hide Half, HonestSecrets;
  }

  lemma ApplyKeepsInv(cr: Crypto, s: Sys, ev: Event)
    requires Inv(cr, s) && ApplyA(cr, s, ev).Some?
    ensures Inv(cr, ApplyA(cr, s, ev).value)
  {
    hide Inv, Adding, Settling, Signing, Revoking, Extending, Receiving, Receivable;
    match ev
    case DoAdd(amount, rhash, timeout) => AddKeepsInv(cr, s, amount, rhash, timeout);
    case DoSettle(preimage) => SettleGuarded(cr, s, preimage);
    case DoSign => SignKeepsInv(cr, s);
    case DoRevoke => RevokeKeepsInv(cr, s);
    case DoExtend => ExtendKeepsInv(cr, s);
    case DoReceive => ReceiveKeepsInv(cr, s);
  }

  lemma SettleGuarded(cr: Crypto, s: Sys, preimage: Hash)
    requires Inv(cr, s) && Settling(cr, s, preimage).Some?
    ensures Inv(cr, Settling(cr, s, preimage).value)
  {
    hide Inv, SettleHTLC, SettleEnabled;
    SettleKeepsInv(cr, s, preimage);
  }

  lemma NextKeepsInv(cr: Crypto, s: Sys, s': Sys)
    requires Inv(cr, s) && Next(cr, s, s')
    ensures Inv(cr, s')
  {
    hide Inv, ApplyA;
    var ev :| ApplyA(cr, s, ev) == Some(s') || ApplyA(cr, Flip(s), ev) == Some(Flip(s'));
    if ApplyA(cr, s, ev) == Some(s') {
      ApplyKeepsInv(cr, s, ev);
    } else {
      InvFlips(cr, s);
      ApplyKeepsInv(cr, Flip(s), ev);
      InvFlips(cr, Flip(s'));
    }
  }

  /** Every state of every run satisfies the invariant. */
  lemma {:induction false} RunKeepsInv(cr: Crypto, run: seq<Sys>, n: nat)
    requires IsRun(cr, run) && n < |run|
    ensures Inv(cr, run[n])
    decreases n
  {
    hide Inv, Init, Next;
    if n == 0 {
      InitInv(cr, run[0]);
    } else {
      RunKeepsInv(cr, run, n - 1);
      NextKeepsInv(cr, run[n - 1], run[n]);
    }
  }

  /** A tree of ones, under a hash that is always ones, holds ones only. */
  lemma {:induction false} OnesOnly(dsha: Hasher, one: Hash, w: nat, i: nat, h: nat)
    requires w <= i < w + Elk.Size(h) && forall bs :: dsha(bs) == one
    ensures Elk.SubtreeAt(dsha, w, i, h, one) == one
    decreases h
  {
    if w < i {
      if w <= i - Pow2(h) {
        OnesOnly(dsha, one, w, i - Pow2(h), h - 1);
      } else {
        OnesOnly(dsha, one, w, i - 1, h - 1);
      }
    }
  }

  /** The theorems below are about something: a channel can be opened with any balances. */
  lemma RunsExist(ours: int, theirs: int) returns (cr: Crypto, run: seq<Sys>)
    ensures IsRun(cr, run) && |run| == 1 && run[0].a.start == ours && run[0].b.start == theirs
  {
    var one: Hash := seq(32, _ => 1);
    cr := Crypto(_ => one, _ => one, (key, _) => key);
    var cfg := Config([], [], 0, 0, one);
    assert one[0] != ZeroHash()[0];
    forall i: nat | i <= Elk.MAX_INDEX ensures Elk.SecretAt(cr.dsha, one, i) != ZeroHash() {
      assert Elk.Size(Elk.MAX_HEIGHT) == Elk.MAX_INDEX + 1 by {
        Pow2Values();
      }
      OnesOnly(cr.dsha, one, i, Elk.MAX_INDEX, Elk.MAX_HEIGHT);
    }
    assert Matched(cr, cfg, cfg);
    run := [Sys(OpenedNode(cr, cfg, cfg, ours, theirs), OpenedNode(cr, cfg, cfg, theirs, ours))];
  }

  /** State `n` of the run, seen by the first party or by the second. */
  function Seen(run: seq<Sys>, n: nat, byFirst: bool): Sys
    requires n < |run|
  {
    if byFirst then run[n] else Flip(run[n])
  }

  lemma SeenInv(cr: Crypto, run: seq<Sys>, n: nat, byFirst: bool)
    requires IsRun(cr, run) && n < |run|
    ensures Inv(cr, Seen(run, n, byFirst))
  {
    hide Inv;
    RunKeepsInv(cr, run, n);
    InvFlips(cr, run[n]);
  }

  /* --- agreement and progress ---------------------------------------------------------- */

  /** No message between honest parties is ever refused: every update finds its Add,
  every signature verifies, every revocation fits its key and its place in the tree. */
  lemma NothingRefused(cr: Crypto, run: seq<Sys>, n: nat, byFirst: bool)
    requires IsRun(cr, run) && n < |run| && Receivable(Seen(run, n, byFirst))
    ensures Handle(cr, Seen(run, n, byFirst).a.party, Seen(run, n, byFirst).b.outbox[0]).Ok?
  {
    SeenInv(cr, run, n, byFirst);
    hide Inv, IsRun, Handle;
    ReceiveKeepsInv(cr, Seen(run, n, byFirst));
  }

  /** The receiver of the signature at the head of the queue extends its own chain by
  the mirror image of what its peer signed. */
  ghost predicate Agrees(cr: Crypto, s: Sys)
    requires Receivable(s) && s.b.outbox[0].SigMsg?
  {
    var (p, m, h) := (s.a.party, s.b.outbox[0], s.a.party.currentHeight + 1);
    && h < |s.b.signed| && s.b.signed[h].height == h
    && ReceiveNewCommitment(cr, p, m.sig, m.logIndex).Ok?
    && ReceiveNewCommitment(cr, p, m.sig, m.logIndex).party.localChain == p.localChain + [Mirror(s.b.signed[h])]
  }

  lemma InvAgrees(cr: Crypto, s: Sys)
    requires Inv(cr, s) && Receivable(s) && s.b.outbox[0].SigMsg?
    ensures Agrees(cr, s)
  {
    hide Half, SignatureOf, Mirror, OwnView, ReceiveNewCommitment, Forward, Matched;
    SignatureAccepted(cr, s);
    AcceptFacts(cr, s.a.party, s.b.outbox[0].sig, s.b.outbox[0].logIndex);
    SignedHeight(cr, s, s.a.party.currentHeight + 1);
  }

  /** Agreement: the commitment a party builds when a signature arrives is the one its
  peer signed, seen from the other side: the same height and revocation, balances,
  indexes and HTLC lists exchanged, and the signature verifies. */
  lemma Agreement(cr: Crypto, run: seq<Sys>, n: nat, byFirst: bool)
    requires IsRun(cr, run) && n < |run|
    requires Receivable(Seen(run, n, byFirst)) && Seen(run, n, byFirst).b.outbox[0].SigMsg?
    ensures Agrees(cr, Seen(run, n, byFirst))
  {
    hide Agrees, Inv;
    SeenInv(cr, run, n, byFirst);
    InvAgrees(cr, Seen(run, n, byFirst));
  }

  lemma SignedHeight(cr: Crypto, s: Sys, h: nat)
    requires Half(cr, s.b, s.a) && h < |s.b.signed|
    ensures s.b.signed[h].height == h
  {
    hide Rep, Denotes, Closed, MirrorOk, KeysOk, QueueOk, SettlesOk, StoreOk, HandedOk;
  }

  /** Nothing signed or sent is ever withdrawn. */
  ghost predicate Continues(s: Sys, s': Sys) {
    && s.a.signed <= s'.a.signed && s.b.signed <= s'.b.signed
    && s.a.sent <= s'.a.sent && s.b.sent <= s'.b.sent
    && s.a.start == s'.a.start && s.b.start == s'.b.start
  }

  lemma StepContinues(cr: Crypto, s: Sys, ev: Event)
    requires ApplyA(cr, s, ev).Some?
    ensures Continues(s, ApplyA(cr, s, ev).value)
  {
    hide AddHTLC, SettleHTLC, SignNextCommitment, RevokeCurrentCommitment, ExtendRevocationWindow, Handle, SettleEnabled;
  }

  lemma NextContinues(cr: Crypto, s: Sys, s': Sys)
    requires Next(cr, s, s')
    ensures Continues(s, s')
  {
    hide ApplyA;
    var ev :| ApplyA(cr, s, ev) == Some(s') || ApplyA(cr, Flip(s), ev) == Some(Flip(s'));
    if ApplyA(cr, s, ev) == Some(s') {
      StepContinues(cr, s, ev);
    } else {
      StepContinues(cr, Flip(s), ev);
    }
  }

  /** What was signed stays signed: the history only grows along a run. */
  lemma {:induction false} HistoryGrows(cr: Crypto, run: seq<Sys>, m: nat, n: nat)
    requires IsRun(cr, run) && m <= n < |run|
    ensures Continues(run[m], run[n])
    decreases n
  {
    hide Init, Next;
    if m < n {
      HistoryGrows(cr, run, m, n - 1);
      NextContinues(cr, run[n - 1], run[n]);
    }
  }

  /* --- conservation ------------------------------------------------------------------------ */

  /** On every unrevoked commitment of both chains of both parties, balances and
  outstanding HTLCs add up to the balances the channel was opened with. */
  lemma CapacityConserved(cr: Crypto, run: seq<Sys>, n: nat, byFirst: bool, c: Chain, i: nat)
    requires IsRun(cr, run) && n < |run|
    requires i < |ChainOf(Seen(run, n, byFirst).a.party, c)|
    ensures var k := ChainOf(Seen(run, n, byFirst).a.party, c)[i];
            k.ourBalance + k.theirBalance + Total(k.outgoing) + Total(k.incoming) == run[0].a.start + run[0].b.start
  {
    SeenInv(cr, run, n, byFirst);
    HistoryGrows(cr, run, 0, n);
    hide IsRun, Rep, ChainOk, HistoryOk, MirrorOk, KeysOk, QueueOk, SettlesOk, StoreOk, HandedOk;
    var s := Seen(run, n, byFirst);
    RepConserves(s.a.party, BooksOf(s.a, s.b), c, i);
  }

  /* --- revocation -------------------------------------------------------------------------- */

  lemma ChainKeys(cr: Crypto, x: Node, y: Node, k: nat)
    requires HistoryOk(x) && LedgerOk(x, y) && KeysOk(cr, x, y) && k < |x.party.remoteChain|
    ensures x.party.remoteChain[k].height == RemoteTail(x) + k <= Elk.MAX_INDEX
    ensures x.party.remoteChain[k].revocation.key == OwnRevocation(cr, y.party.cfg, RemoteTail(x) + k).key
  {
    hide Rep, Denotes, Closed, OwnRevocation, Consecutive, CurrentKeyOk;
    assert x.party.remoteChain[k] == x.signed[RemoteTail(x) + k];
  }

  /** The peer's chain is one longer than the queue of used revocations, so at most 5;
  the revocations held are those of consecutive heights; and the key at height h is
  the one its owner derives from elkrem index h. */
  ghost predicate Aligned(cr: Crypto, x: Node, y: Node) {
    var (p, cfg, t) := (x.party, y.party.cfg, RemoteTail(x));
    && |p.remoteChain| == |p.used| + 1 <= 5 && 0 <= t
    && Consecutive(cr, p.used, cfg, t + 1) && Consecutive(cr, p.window, cfg, t + 1 + |p.used|)
    && (forall k | 0 <= k < |p.remoteChain| ::
          && p.remoteChain[k].height == t + k <= Elk.MAX_INDEX
          && p.remoteChain[k].revocation.key == OwnRevocation(cr, cfg, t + k).key)
  }

  lemma KeysAligned(cr: Crypto, x: Node, y: Node)
    requires HistoryOk(x) && LedgerOk(x, y) && KeysOk(cr, x, y)
    ensures Aligned(cr, x, y)
  {
    hide LedgerOk, OwnRevocation, Consecutive, CurrentKeyOk, SignedKeysOk;
    forall k | 0 <= k < |x.party.remoteChain|
      ensures x.party.remoteChain[k].height == RemoteTail(x) + k <= Elk.MAX_INDEX
      ensures x.party.remoteChain[k].revocation.key == OwnRevocation(cr, y.party.cfg, RemoteTail(x) + k).key
    {
      ChainKeys(cr, x, y, k);
    }
  }

  lemma RevocationAlignment(cr: Crypto, run: seq<Sys>, n: nat, byFirst: bool)
    requires IsRun(cr, run) && n < |run|
    ensures Aligned(cr, Seen(run, n, byFirst).a, Seen(run, n, byFirst).b)
  {
    SeenInv(cr, run, n, byFirst);
    var s := Seen(run, n, byFirst);
    hide IsRun, LedgerOk, MirrorOk, QueueOk, SettlesOk, StoreOk, HandedOk, Matched, HistoryOk, KeysOk, Aligned;
    KeysAligned(cr, s.a, s.b);
  }

  /** With a revocation in the window a party can sign exactly as long as at most three of its
  signatures wait for their revocation; it never has more than four. */
  lemma SigningEnabled(cr: Crypto, run: seq<Sys>, n: nat, byFirst: bool)
    requires IsRun(cr, run) && n < |run|
    ensures var p := Seen(run, n, byFirst).a.party;
            && 1 <= |p.remoteChain| <= 5
            && (Signing(Seen(run, n, byFirst)).Some? <==> p.window != [] && |p.remoteChain| - 1 <= 3)
  {
    hide IsRun, Signing, Consecutive, OwnRevocation;
    RevocationAlignment(cr, run, n, byFirst);
    CanSign(Seen(run, n, byFirst));
  }

  lemma CanSign(s: Sys)
    requires s.a.party.remoteChain != [] && |s.a.party.used| <= 4
    ensures Signing(s).Some? <==> s.a.party.window != [] && |s.a.party.used| <= 3
  {
    hide ViewAt, Evaluated, SignatureOf;
  }

  /** Every revoked state is recoverable: the stored tree yields the secret of each
  revoked height, the secret opens that commitment's revocation key and hash, and the
  revocation log holds that commitment's balances and HTLCs. The log is keyed by the
  height modulo 2^32, so an entry lasts for 2^32 revocations. */
  lemma RevokedStatesRecoverable(cr: Crypto, run: seq<Sys>, n: nat, byFirst: bool, h: nat)
    requires IsRun(cr, run) && n < |run| && h < RemoteTail(Seen(run, n, byFirst).a)
    ensures h <= Elk.MAX_INDEX
    ensures var s := Seen(run, n, byFirst);
            var (p, k, secret) := (s.a.party, s.a.signed[h], Elk.SecretAt(cr.dsha, s.b.party.cfg.root, h));
            && k.height == h
            && Elk.AtIndex(cr.dsha, p.remoteElkrem, h) == Some(secret)
            && cr.derive(p.cfg.ourCommitKey, secret) == k.revocation.key
            && (h > 0 ==> cr.sha256(secret) == k.revocation.hash)
            && (RemoteTail(s.a) <= h + TWO32 ==>
                  h % TWO32 in p.revocationLog && p.revocationLog[h % TWO32] == ToChannelDelta(k))
  {
    SeenInv(cr, run, n, byFirst);
    var s := Seen(run, n, byFirst);
    hide IsRun, LedgerOk, MirrorOk, QueueOk, SettlesOk, HandedOk, Consecutive, CurrentKeyOk, HonestSecrets, ToChannelDelta;
    hide Elk.Feed, Elk.SecretAt, Elk.AtIndex, Elk.Represents;
    SignedHeight(cr, Flip(s), h);
    var t := RemoteTail(s.a);
    var list := Elk.Secrets(cr.dsha, s.b.party.cfg.root, t);
    Elk.FeedRepresents(cr.dsha, list);
    Elk.AtIndexIsListLookup(cr.dsha, s.a.party.remoteElkrem, list, h);
  }

  /* --- lock-in ------------------------------------------------------------------------------ */

  lemma {:induction false} ActiveContains(log: seq<Update>, other: seq<Update>, i: nat)
    requires i < |log| && log[i].Add? && !SettledIn(other, i)
    ensures Htlc(i, log[i].amount, log[i].rhash, log[i].timeout) in Active(log, other)
  {
    hide SettledIn;
    if i < |log| - 1 {
      ActiveContains(log[..|log| - 1], other, i);
    }
  }

  lemma DenotedContains(k: Commitment, b: Books, i: nat)
    requires Denotes(k, b) && i < k.theirIndex && b.theirs[i].Add? && !SettledIn(b.ours, i)
    ensures Htlc(i, b.theirs[i].amount, b.theirs[i].rhash, b.theirs[i].timeout) in k.incoming
  {
    hide Net, Active;
    SettledInPrefix(b.ours, k.ourIndex, i);
    ActiveContains(b.theirs[..k.theirIndex], b.ours[..k.ourIndex], i);
  }

  /** An Add below both tails that this party has not settled is on every commitment. */
  lemma OnEveryCommitment(p: Party, b: Books, i: nat, c: Chain, k: nat)
    requires OnChain(p, b, c) && k < |ChainOf(p, c)| && i < ChainOf(p, c)[0].theirIndex && i < |b.theirs|
    requires b.theirs[i].Add? && !SettledIn(b.ours, i)
    ensures Htlc(i, b.theirs[i].amount, b.theirs[i].rhash, b.theirs[i].timeout) in ChainOf(p, c)[k].incoming
  {
    hide LogOnChain, Denotes, Closed, SettledIn;
    DenotedContains(ChainOf(p, c)[k], b, i);
  }

  lemma ReleasedUnsettled(p: Party, b: Books, i: nat)
    requires Rep(p, b) && i in p.theirLog && p.theirLog[i].kind.AddEntry?
    requires ForwardNow(p.theirLog[i], p.localChain[0].height, p.remoteChain[0].height)
    ensures i < p.localChain[0].theirIndex && i < p.remoteChain[0].theirIndex
    ensures i < |b.theirs| && b.theirs[i].Add? && !SettledIn(b.ours, i)
  {
    ForwardedUnderTails(p, b, i);
    hide OnChain, IndexesOk, SettledIn, Cleared, Twinned, Paired;
    assert Matches(p.theirLog[i], i, b.theirs[i]);
  }

  /** Every unrevoked commitment of both chains contains the peer's Add number `i`. */
  ghost predicate LockedIn(x: Node, y: Node, i: nat) {
    && i < |y.sent| && y.sent[i].Add?
    && var htlc := Htlc(i, y.sent[i].amount, y.sent[i].rhash, y.sent[i].timeout);
    && (forall k | 0 <= k < |x.party.localChain| :: htlc in x.party.localChain[k].incoming)
    && (forall k | 0 <= k < |x.party.remoteChain| :: htlc in x.party.remoteChain[k].incoming)
  }

  lemma AdvancedLocksIn(x: Node, y: Node, x': Node, i: nat)
    requires LedgerOk(x, y) && |x.party.remoteChain| >= 2
    requires x'.party.localChain == x.party.localChain && x'.party.remoteChain == x.party.remoteChain[1..]
    requires i in x.party.theirLog && x.party.theirLog[i].kind.AddEntry? && x.party.localChain != []
    requires ForwardNow(x.party.theirLog[i], x.party.localChain[0].height, x.party.remoteChain[1].height)
    ensures LockedIn(x', y, i)
  {
    hide ChainOk, OnChain, LogOk, FlagsOk, SettledIn, ForwardNow;
    var b := BooksOf(x, y);
    var p := Advanced(x.party);
    AdvanceKeepsRep(x.party, b);
    ReleasedUnsettled(p, b, i);
    forall k | 0 <= k < |p.localChain|
      ensures Htlc(i, b.theirs[i].amount, b.theirs[i].rhash, b.theirs[i].timeout) in p.localChain[k].incoming
    {
      OnEveryCommitment(p, b, i, Local, k);
    }
    forall k | 0 <= k < |p.remoteChain|
      ensures Htlc(i, b.theirs[i].amount, b.theirs[i].rhash, b.theirs[i].timeout) in p.remoteChain[k].incoming
    {
      OnEveryCommitment(p, b, i, Remote, k);
    }
  }

  /** Only a revocation with a preimage hands anything up. */
  lemma OnlyRevocationsHandUp(cr: Crypto, p: Party, m: Msg)
    requires p.localChain != [] && Handle(cr, p, m).Ok? && Indexes(Handle(cr, p, m).value) != []
    ensures m.RevocationMsg? && m.rev.preimage != ZeroHash()
  {
    hide ReceiveHTLCSettle, ReceiveNewCommitment, ZeroHash;
  }

  lemma HandleLocksIn(cr: Crypto, s: Sys, i: nat)
    requires LedgerOk(s.a, s.b) && Receivable(s) && Receiving(cr, s).Some?
    requires i in Indexes(Handle(cr, s.a.party, s.b.outbox[0]).value)
    ensures i < |s.b.sent|
    ensures s.b.sent[i].Add? ==> LockedIn(Receiving(cr, s).value.a, Receiving(cr, s).value.b, i)
  {
    hide Rep, ChainOk, LockedIn, ReceiveHTLCSettle, ReceiveNewCommitment, ReceiveRevocation, ZeroHash, ToChannelDelta;
    hide Forwards, Indexes, LogMatches, MarkForwards, ForwardNow;
    var p, m := s.a.party, s.b.outbox[0];
    OnlyRevocationsHandUp(cr, p, m);
    RevocationFacts(cr, p, m.rev);
    LogKnown(p, BooksOf(s.a, s.b));
    ForwardsReleased(p.theirLog, BooksOf(s.a, s.b).theirs, p.theirCounter, p.localChain[0].height, p.remoteChain[1].height);
    var s' := Receiving(cr, s).value;
    EntryKnown(p.theirLog, BooksOf(s.a, s.b).theirs, i);
    if s.b.sent[i].Add? {
      AdvancedLocksIn(s.a, s.b, s'.a, i);
      LockedFrame(s'.a, s.b, s'.b, i);
    }
  }

  lemma EntryKnown(log: Log, full: seq<Update>, i: nat)
    requires LogMatches(log, full) && i in log
    ensures i < |full| && (log[i].kind.AddEntry? <==> full[i].Add?)
  {
    assert Matches(log[i], i, full[i]);
  }

  /** Lock-in: when a message hands an Add up for forwarding, every commitment either
  party could still use contains it. */
  lemma HandedUpLockedIn(cr: Crypto, run: seq<Sys>, n: nat, byFirst: bool, j: nat)
    requires IsRun(cr, run) && n < |run|
    requires var s := Seen(run, n, byFirst);
             Receivable(s) && Receiving(cr, s).Some? && |s.a.handedUp| <= j < |Receiving(cr, s).value.a.handedUp|
    ensures var s' := Receiving(cr, Seen(run, n, byFirst)).value;
            var i := s'.a.handedUp[j];
            i < |s'.b.sent| && (s'.b.sent[i].Add? ==> LockedIn(s'.a, s'.b, i))
  {
    SeenInv(cr, run, n, byFirst);
    hide IsRun, LedgerOk, HistoryOk, MirrorOk, KeysOk, QueueOk, SettlesOk, StoreOk, HandedOk, LockedIn, Handle, Matched;
    var s := Seen(run, n, byFirst);
    var s' := Receiving(cr, s).value;
    HandleLocksIn(cr, s, s'.a.handedUp[j]);
  }

  lemma LogKnown(p: Party, b: Books)
    requires Rep(p, b)
    ensures LogMatches(p.theirLog, b.theirs)
  {
    hide OnChain, FlagsOk, IndexesOk;
  }

  lemma LockedFrame(x: Node, y: Node, y': Node, i: nat)
    requires LockedIn(x, y, i) && y'.sent == y.sent
    ensures LockedIn(x, y', i)
  {
  }

  /** Within a session no update is handed up twice. */
  lemma HandedUpOnceOnly(cr: Crypto, run: seq<Sys>, n: nat, byFirst: bool, i: nat, j: nat)
    requires IsRun(cr, run) && n < |run| && i < j < |Seen(run, n, byFirst).a.handedUp|
    ensures Seen(run, n, byFirst).a.handedUp[i] != Seen(run, n, byFirst).a.handedUp[j]
  {
    SeenInv(cr, run, n, byFirst);
    hide IsRun, LedgerOk, HistoryOk, MirrorOk, KeysOk, QueueOk, SettlesOk, StoreOk;
  }
}
