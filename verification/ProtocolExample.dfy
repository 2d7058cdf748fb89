/** A run in which a payment goes through: the theorems about signatures, revoked heights and
handed-up Adds are about something.
 */
module ProtocolExample {
  import opened Primitives
  import opened Ledger
  import opened ChannelSpec
  import opened ChannelRep
  import opened Protocol
  import opened ProtocolReceives
  import opened ProtocolTheorems
  import Elk = ElkremSpec

  /* --- what each event does ---------------------------------------------------------------- */

  lemma ExtendStep(cr: Crypto, s: Sys)
    requires s.a.party.windowEdge < Elk.MAX_INDEX
    ensures var next := OwnRevocation(cr, s.a.party.cfg, s.a.party.windowEdge + 1);
            ApplyA(cr, s, DoExtend) ==
            Some(s.(a := s.a.(party := s.a.party.(windowEdge := s.a.party.windowEdge + 1),
                              outbox := s.a.outbox + [RevocationMsg(RevMsg(ZeroHash(), next))])))
  {
    hide OwnRevocation, ZeroHash;
  }

  lemma WindowStep(cr: Crypto, s: Sys)
    requires Receivable(s) && s.b.outbox[0].RevocationMsg? && s.b.outbox[0].rev.preimage == ZeroHash()
    ensures ApplyA(cr, s, DoReceive)
         == Some(Sys(s.a.(party := s.a.party.(window := s.a.party.window + [s.b.outbox[0].rev.next])),
                     s.b.(outbox := s.b.outbox[1..])))
  {
    hide ZeroHash;
    assert s.a.handedUp + [] == s.a.handedUp;
  }

  lemma SignStep(cr: Crypto, s: Sys)
    requires s.a.party.remoteChain != [] && |s.a.party.window| > 0 && |s.a.party.used| < INITIAL_REVOCATION_WINDOW
    ensures var p := s.a.party;
            var view := ViewAt(p, Remote, p.ourCounter, p.theirCounter, p.window[0]);
            ApplyA(cr, s, DoSign) ==
            Some(s.(a := s.a.(party := Evaluated(p, Remote, p.ourCounter, p.theirCounter)
                                       .(remoteChain := p.remoteChain + [view], used := p.used + [p.window[0]],
                                         window := p.window[1..]),
                              outbox := s.a.outbox + [SigMsg(SignatureOf(p.cfg, Remote, view), p.theirCounter)],
                              signed := s.a.signed + [view])))
  {
    hide ViewAt, MarkLog, SkipSet, SignatureOf;
  }

  lemma AddReceived(cr: Crypto, s: Sys)
    requires Receivable(s) && s.b.outbox[0].AddMsg?
    ensures var m := s.b.outbox[0];
            ApplyA(cr, s, DoReceive) ==
            Some(Sys(s.a.(party := ReceiveHTLC(s.a.party, m.amount, m.rhash, m.timeout)), s.b.(outbox := s.b.outbox[1..])))
  {
    hide ReceiveHTLC;
    assert s.a.handedUp + [] == s.a.handedUp;
  }

  lemma SigReceived(cr: Crypto, s: Sys)
    requires Inv(cr, s) && Receivable(s) && s.b.outbox[0].SigMsg?
    ensures s.a.party.currentHeight + 1 <= Elk.MAX_INDEX
    ensures var (p, m) := (s.a.party, s.b.outbox[0]);
            var rev := OwnRevocation(cr, p.cfg, p.currentHeight + 1);
            ApplyA(cr, s, DoReceive) ==
            Some(Sys(s.a.(party := Evaluated(p, Local, m.logIndex, p.theirCounter)
                                   .(localChain := p.localChain + [ViewAt(p, Local, m.logIndex, p.theirCounter, rev)])),
                     s.b.(outbox := s.b.outbox[1..])))
  {
    hide Inv, ViewAt, MarkLog, SkipSet, SignatureOf, OwnRevocation;
    ReceiveKeepsInv(cr, s);
    assert s.a.handedUp + [] == s.a.handedUp;
  }

  lemma RevokeStep(cr: Crypto, s: Sys)
    requires |s.a.party.localChain| >= 2 && s.a.party.currentHeight <= Elk.MAX_INDEX && s.a.party.windowEdge < Elk.MAX_INDEX
    ensures var p := s.a.party;
            var m := RevMsg(Elk.SecretAt(cr.dsha, p.cfg.root, p.currentHeight), OwnRevocation(cr, p.cfg, p.windowEdge + 1));
            ApplyA(cr, s, DoRevoke) ==
            Some(s.(a := s.a.(party := p.(windowEdge := p.windowEdge + 1, localChain := p.localChain[1..],
                                          currentHeight := p.currentHeight + 1, saved := ToChannelDelta(p.localChain[1])),
                              outbox := s.a.outbox + [RevocationMsg(m)])))
  {
    hide OwnRevocation, Elk.SecretAt, ToChannelDelta;
  }

  /** A revocation advances the tail and hands up what the new tails release. */
  ghost predicate Advances(s: Sys, s': Sys)
    requires s.a.party.localChain != [] && |s.a.party.remoteChain| >= 2
  {
    var (p, p') := (s.a.party, s'.a.party);
    var (lt, rt) := (p.localChain[0].height, p.remoteChain[1].height);
    && s.b.outbox != [] && s'.b == s.b.(outbox := s.b.outbox[1..])
    && s'.a == s.a.(party := p', handedUp := s.a.handedUp + Indexes(Forwards(p.theirLog, p.theirCounter, lt, rt)))
    && p'.remoteChain == p.remoteChain[1..] && p'.localChain == p.localChain && p'.cfg == p.cfg
    && p.used != [] && p'.used == p.used[1..] && |p'.window| == |p.window| + 1
    && p'.currentHeight == p.currentHeight && p'.windowEdge == p.windowEdge
    && p'.theirCounter == p.theirCounter && p'.ourCounter == p.ourCounter
    && (p.ourLog == map[] && (forall i | i in p.theirLog :: p.theirLog[i].kind.AddEntry?) ==>
          p'.ourLog == map[] && p'.theirLog == MarkForwards(p.theirLog, lt, rt))
  }

  lemma RevocationEffect(cr: Crypto, s: Sys)
    requires Receivable(s) && s.b.outbox[0].RevocationMsg? && s.b.outbox[0].rev.preimage != ZeroHash()
    requires Receiving(cr, s).Some?
    ensures |s.a.party.remoteChain| >= 2 && Advances(s, Receiving(cr, s).value)
  {
    hide Forwards, Indexes, ToChannelDelta, Elk.AddNext, ZeroHash;
    RevocationFacts(cr, s.a.party, s.b.outbox[0].rev);
  }

  lemma RevocationStep(cr: Crypto, s: Sys)
    requires Inv(cr, s) && Receivable(s) && s.b.outbox[0].RevocationMsg? && s.b.outbox[0].rev.preimage != ZeroHash()
    ensures |s.a.party.remoteChain| >= 2 && ApplyA(cr, s, DoReceive).Some? && Advances(s, ApplyA(cr, s, DoReceive).value)
  {
    hide Inv, Advances, Receiving, ZeroHash;
    ReceiveKeepsInv(cr, s);
    RevocationEffect(cr, s);
  }

  /* --- the run ------------------------------------------------------------------------------ */

  function Last(run: seq<Sys>): Sys
    requires run != []
  {
    run[|run| - 1]
  }

  /** A run goes on with any event that is enabled. */
  lemma Act(cr: Crypto, run: seq<Sys>, byFirst: bool, ev: Event) returns (run': seq<Sys>)
    requires IsRun(cr, run) && ApplyA(cr, Seen(run, |run| - 1, byFirst), ev).Some?
    ensures IsRun(cr, run') && run'[0] == run[0] && |run'| == |run| + 1
    ensures Seen(run', |run|, byFirst) == ApplyA(cr, Seen(run, |run| - 1, byFirst), ev).value
    ensures Inv(cr, Seen(run', |run|, byFirst)) && Inv(cr, Seen(run', |run|, !byFirst))
  {
    hide ApplyA, Inv, Init;
    var s := ApplyA(cr, Seen(run, |run| - 1, byFirst), ev).value;
    run' := run + [if byFirst then s else Flip(s)];
    assert Next(cr, run[|run| - 1], run'[|run|]);
    forall i, j | 0 <= i && j == i + 1 && j < |run'| ensures Next(cr, run'[i], run'[j]) {
      if j < |run| {
        assert Next(cr, run[i], run[j]);
      }
    }
    SeenInv(cr, run', |run|, byFirst);
    SeenInv(cr, run', |run|, !byFirst);
  }

  /** The lengths and counters of a node. */
  datatype Shape = Shape(local: nat, used: nat, window: nat, height: nat, edge: nat, ours: nat, theirs: nat)

  function ShapeOf(x: Node): Shape {
    var p := x.party;
    Shape(|p.localChain|, |p.used|, |p.window|, p.currentHeight, p.windowEdge, p.ourCounter, p.theirCounter)
  }

  /** Nothing sent yet but possibly windows: one commitment of height zero on each chain. */
  ghost predicate Untouched(x: Node) {
    && x.party.ourLog == map[] && x.party.theirLog == map[] && x.outbox == [] && x.sent == [] && x.handedUp == []
    && |x.party.localChain| == |x.party.remoteChain| == |x.signed| == 1
    && x.party.localChain[0].height == 0 && x.party.remoteChain[0].height == 0
  }

  /** Each party hands over one revocation key. */
  lemma Windows(cr: Crypto, run: seq<Sys>, byFirst: bool) returns (run': seq<Sys>)
    requires IsRun(cr, run) && run != []
    requires var s := Seen(run, |run| - 1, byFirst);
             && Untouched(s.a) && Untouched(s.b) && ShapeOf(s.a).edge == 0
    ensures IsRun(cr, run') && run'[0] == run[0]
    ensures var (s, s') := (Seen(run, |run| - 1, byFirst), Seen(run', |run'| - 1, byFirst));
            && Untouched(s'.a) && Untouched(s'.b)
            && s'.a.party.cfg == s.a.party.cfg && s'.b.party.cfg == s.b.party.cfg
            && ShapeOf(s'.a) == ShapeOf(s.a).(edge := 1)
            && ShapeOf(s'.b) == ShapeOf(s.b).(window := ShapeOf(s.b).window + 1)
  {
    hide IsRun, Inv, ApplyA, OwnRevocation, ZeroHash;
    var s := Seen(run, |run| - 1, byFirst);
    ExtendStep(cr, s);
    var r1 := Act(cr, run, byFirst, DoExtend);
    WindowStep(cr, Seen(r1, |run|, !byFirst));
    run' := Act(cr, r1, !byFirst, DoReceive);
  }

  /* --- the payment ---------------------------------------------------------------------------- */

  datatype Payment = Payment(amount: int, rhash: Hash, timeout: nat)

  /** The payee's log entry of the payment: the heights it is stamped with, and whether it has
  been handed up. */
  function Stamped(pay: Payment, local: nat, remote: nat, forwarded: bool): Entry {
    NewEntry(AddEntry, pay.rhash, pay.timeout, pay.amount, 0, 0)
    .(addLocal := local, addRemote := remote, isForwarded := forwarded)
  }

  lemma StampedAdd(pay: Payment, local: nat, remote: nat, forwarded: bool)
    ensures Stamped(pay, local, remote, forwarded).kind.AddEntry?
  {
  }

  lemma StampLocal(pay: Payment)
    ensures MarkLog(map[0 := Stamped(pay, 0, 0, false)], 1, Local, {}, 1) == map[0 := Stamped(pay, 1, 0, false)]
  {
  }

  lemma StampRemote(pay: Payment)
    ensures MarkLog(map[0 := Stamped(pay, 1, 0, false)], 1, Remote, {}, 1) == map[0 := Stamped(pay, 1, 1, false)]
  {
  }

  lemma ForwardOne(log: Log, lt: nat, rt: nat)
    requires 0 in log && ForwardNow(log[0], lt, rt)
    ensures Forwards(log, 1, lt, rt) == [log[0].(isForwarded := true)]
  {
    hide ForwardNow;
    assert Forwards(log, 0, lt, rt) == [];
  }

  lemma IndexOfOne(e: Entry)
    ensures Indexes([e]) == [e.index]
  {
    assert [e][..0] == [];
  }

  lemma StampForward(pay: Payment)
    ensures MarkForwards(map[0 := Stamped(pay, 1, 1, false)], 1, 1) == map[0 := Stamped(pay, 1, 1, true)]
    ensures Indexes(Forwards(map[0 := Stamped(pay, 1, 1, false)], 1, 1, 1)) == [0]
  {
    hide Forwards, Indexes;
    var log := map[0 := Stamped(pay, 1, 1, false)];
    ForwardOne(log, 1, 1);
    IndexOfOne(log[0].(isForwarded := true));
  }

  lemma NothingSkipped(n: nat)
    ensures SkipSet(map[], n) == {}
  {
  }

  /** The Add is announced and signed for. */
  lemma Offers(cr: Crypto, run: seq<Sys>, pay: Payment) returns (run': seq<Sys>)
    requires IsRun(cr, run) && run != [] && Untouched(Last(run).a) && ShapeOf(Last(run).a) == Shape(1, 0, 1, 0, 1, 0, 0)
    ensures IsRun(cr, run') && run'[0] == run[0]
    ensures var (s, s') := (Last(run), Last(run'));
            && s'.b == s.b && s'.a.party.cfg == s.a.party.cfg && s'.a.sent == [Add(pay.amount, pay.rhash, pay.timeout)]
            && |s'.a.outbox| == 2 && s'.a.outbox[0] == AddMsg(pay.amount, pay.rhash, pay.timeout)
            && s'.a.outbox[1].SigMsg? && s'.a.outbox[1].logIndex == 0
            && ShapeOf(s'.a) == Shape(1, 1, 0, 0, 1, 1, 0) && |s'.a.signed| == |s'.a.party.remoteChain| == 2
  {
    hide IsRun, Inv, OwnRevocation, ViewAt, MarkLog, SkipSet, SignatureOf;
    var r1 := Act(cr, run, true, DoAdd(pay.amount, pay.rhash, pay.timeout));
    SignStep(cr, Last(r1));
    hide ApplyA;
    run' := Act(cr, r1, true, DoSign);
  }

  /** The payee has the Add on its commitment and revokes the one before. */
  ghost predicate Committed(x: Node, pay: Payment) {
    && x.party.ourLog == map[] && x.party.theirLog == map[0 := Stamped(pay, 1, 0, false)] && x.handedUp == [] && x.sent == []
    && |x.party.localChain| == |x.party.remoteChain| == |x.signed| == 1
    && x.party.localChain[0].height == 1 && x.party.remoteChain[0].height == 0
  }

  lemma AddArrives(cr: Crypto, run: seq<Sys>, pay: Payment) returns (run': seq<Sys>)
    requires IsRun(cr, run) && run != [] && Untouched(Last(run).b) && ShapeOf(Last(run).b) == Shape(1, 0, 1, 0, 1, 0, 0)
    requires Last(run).a.outbox != [] && Last(run).a.outbox[0] == AddMsg(pay.amount, pay.rhash, pay.timeout)
    ensures IsRun(cr, run') && run'[0] == run[0] && Inv(cr, Flip(Last(run')))
    ensures var (s, s') := (Last(run), Last(run'));
            && s'.a == s.a.(outbox := s.a.outbox[1..])
            && s'.b == s.b.(party := s.b.party.(theirLog := map[0 := Stamped(pay, 0, 0, false)], theirLogIndex := {0},
                                                theirCounter := 1))
  {
    hide IsRun, Inv;
    var s := Last(run);
    AddReceived(cr, Flip(s));
    assert s.b.party.theirLogIndex + {0} == {0} by {
      EmptyIndex(cr, run);
    }
    hide ApplyA;
    run' := Act(cr, run, false, DoReceive);
  }

  lemma EmptyIndex(cr: Crypto, run: seq<Sys>)
    requires IsRun(cr, run) && run != [] && Last(run).b.party.theirLog == map[]
    ensures Last(run).b.party.theirLogIndex == {}
  {
    hide IsRun, HistoryOk, MirrorOk, KeysOk, QueueOk, SettlesOk, StoreOk, HandedOk, Matched;
    SeenInv(cr, run, |run| - 1, false);
    var s := Seen(run, |run| - 1, false);
    assert LedgerOk(s.a, s.b);
    hide OnChain, FlagsOk, LogsOk;
    assert IndexesOk(s.a.party, BooksOf(s.a, s.b));
  }

  /** The signature arrives, and the payee revokes. */
  lemma PayeeRevokes(cr: Crypto, run: seq<Sys>, pay: Payment) returns (run': seq<Sys>)
    requires IsRun(cr, run) && run != [] && Inv(cr, Flip(Last(run)))
    requires var s := Last(run);
             && |s.a.outbox| == 1 && s.a.outbox[0].SigMsg? && s.a.outbox[0].logIndex == 0
             && s.b.party.ourLog == map[] && s.b.party.theirLog == map[0 := Stamped(pay, 0, 0, false)]
             && s.b.outbox == [] && s.b.sent == [] && s.b.handedUp == []
             && |s.b.party.localChain| == |s.b.party.remoteChain| == |s.b.signed| == 1
             && s.b.party.localChain[0].height == 0 && s.b.party.remoteChain[0].height == 0
             && ShapeOf(s.b) == Shape(1, 0, 1, 0, 1, 0, 1)
    ensures IsRun(cr, run') && run'[0] == run[0] && Inv(cr, Last(run'))
    ensures var (s, s') := (Last(run), Last(run'));
            && s'.a == s.a.(outbox := []) && Committed(s'.b, pay) && ShapeOf(s'.b) == Shape(1, 0, 1, 1, 2, 0, 1)
            && |s'.b.outbox| == 1 && s'.b.outbox[0].RevocationMsg? && s'.b.outbox[0].rev.preimage != ZeroHash()
            && s'.b.party.cfg == s.b.party.cfg
  {
    hide IsRun, Inv, OwnRevocation, ApplyA, MarkLog, SkipSet, Credit, Debit, Live, Elk.SecretAt, ZeroHash, ToChannelDelta;
    SigReceived(cr, Flip(Last(run)));
    NothingSkipped(0);
    StampLocal(pay);
    EmptyMarked(0, Local, SkipSet(Last(run).b.party.theirLog, 1), 1);
    var r1 := Act(cr, run, false, DoReceive);
    var s1 := Last(r1);
    RevokeStep(cr, Flip(s1));
    SecretNotZero(cr, Flip(s1));
    run' := Act(cr, r1, false, DoRevoke);
  }

  lemma EmptyMarked(n: nat, c: Chain, skip: set<nat>, h: nat)
    ensures MarkLog(map[], n, c, skip, h) == map[]
  {
  }

  lemma SecretNotZero(cr: Crypto, s: Sys)
    requires Inv(cr, s) && s.a.party.currentHeight <= Elk.MAX_INDEX
    ensures Elk.SecretAt(cr.dsha, s.a.party.cfg.root, s.a.party.currentHeight) != ZeroHash()
  {
    hide Half;
  }

  /** The payer records the revocation: height zero of the payee's chain is revoked. */
  lemma PayerRecords(cr: Crypto, run: seq<Sys>) returns (run': seq<Sys>)
    requires IsRun(cr, run) && run != [] && Inv(cr, Last(run))
    requires var s := Last(run);
             && |s.b.outbox| == 1 && s.b.outbox[0].RevocationMsg? && s.b.outbox[0].rev.preimage != ZeroHash()
             && |s.a.signed| == |s.a.party.remoteChain| == 2 && s.a.outbox == [] && s.a.party.localChain != []
             && |s.a.party.used| == 1
    ensures IsRun(cr, run') && run'[0] == run[0]
    ensures var (s, s') := (Last(run), Last(run'));
            && s'.b == s.b.(outbox := []) && RemoteTail(s'.a) == 1 && s'.a.outbox == [] && s'.a.sent == s.a.sent
            && ShapeOf(s'.a) == ShapeOf(s.a).(used := 0, window := ShapeOf(s.a).window + 1)
            && s'.a.party.localChain == s.a.party.localChain
  {
    hide IsRun, Inv, ApplyA, ZeroHash;
    RevocationStep(cr, Last(run));
    hide Forwards, Indexes, MarkForwards;
    run' := Act(cr, run, true, DoReceive);
  }

  /** The payee signs the payer's next commitment. */
  lemma PayeeSigns(cr: Crypto, run: seq<Sys>, pay: Payment) returns (run': seq<Sys>)
    requires IsRun(cr, run) && run != [] && Committed(Last(run).b, pay) && Last(run).b.outbox == []
    requires ShapeOf(Last(run).b) == Shape(1, 0, 1, 1, 2, 0, 1)
    ensures IsRun(cr, run') && run'[0] == run[0] && Inv(cr, Last(run'))
    ensures var (s, s') := (Last(run), Last(run'));
            && s'.a == s.a && |s'.b.outbox| == 1 && s'.b.outbox[0].SigMsg?
            && s'.b.party.ourLog == map[] && s'.b.party.theirLog == map[0 := Stamped(pay, 1, 1, false)]
            && s'.b.handedUp == [] && s'.b.sent == [] && s'.b.party.localChain == s.b.party.localChain
            && |s'.b.party.remoteChain| == 2 && s'.b.party.remoteChain[1].height == 1
            && ShapeOf(s'.b) == Shape(1, 1, 0, 1, 2, 0, 1)
  {
    hide IsRun, Inv, ApplyA, MarkLog, SkipSet, Credit, Debit, Live, SignatureOf;
    SignStep(cr, Flip(Last(run)));
    NothingSkipped(0);
    StampRemote(pay);
    EmptyMarked(0, Remote, SkipSet(Last(run).b.party.theirLog, 1), 1);
    run' := Act(cr, run, false, DoSign);
  }

  /** The payer accepts and revokes in turn. */
  lemma PayerRevokes(cr: Crypto, run: seq<Sys>) returns (run': seq<Sys>)
    requires IsRun(cr, run) && run != [] && Inv(cr, Last(run))
    requires var s := Last(run);
             && |s.b.outbox| == 1 && s.b.outbox[0].SigMsg? && s.a.outbox == [] && |s.a.party.localChain| == 1
             && s.a.party.currentHeight == 0 && s.a.party.windowEdge == 1
    ensures IsRun(cr, run') && run'[0] == run[0] && Inv(cr, Flip(Last(run')))
    ensures var (s, s') := (Last(run), Last(run'));
            && s'.b == s.b.(outbox := []) && |s'.a.outbox| == 1 && s'.a.outbox[0].RevocationMsg?
            && s'.a.outbox[0].rev.preimage != ZeroHash() && RemoteTail(s'.a) == RemoteTail(s.a) && s'.a.sent == s.a.sent
            && ShapeOf(s'.a) == ShapeOf(s.a).(height := 1, edge := 2)
  {
    hide IsRun, Inv, OwnRevocation, ApplyA, MarkLog, SkipSet, ViewAt, Elk.SecretAt, ZeroHash, ToChannelDelta;
    SigReceived(cr, Last(run));
    var r1 := Act(cr, run, true, DoReceive);
    var s1 := Last(r1);
    RevokeStep(cr, s1);
    SecretNotZero(cr, s1);
    run' := Act(cr, r1, true, DoRevoke);
  }

  /** The payee has signed for the Add as well. */
  ghost predicate AwaitsRevocation(x: Node, pay: Payment) {
    && x.party.ourLog == map[] && x.party.theirLog == map[0 := Stamped(pay, 1, 1, false)]
    && x.handedUp == [] && x.sent == [] && x.party.localChain != [] && x.party.localChain[0].height == 1
    && |x.party.remoteChain| == 2 && x.party.remoteChain[1].height == 1 && x.outbox == []
    && ShapeOf(x) == Shape(1, 1, 0, 1, 2, 0, 1)
  }

  /** The Add has been handed up at the payee. */
  ghost predicate Received(x: Node, pay: Payment) {
    && x.party.theirLog == map[0 := Stamped(pay, 1, 1, true)] && x.handedUp == [0] && x.sent == [] && x.outbox == []
    && ShapeOf(x) == Shape(1, 0, 1, 1, 2, 0, 1)
  }

  lemma AddHandedUp(cr: Crypto, run: seq<Sys>, pay: Payment) returns (run': seq<Sys>)
    requires IsRun(cr, run) && run != [] && Inv(cr, Flip(Last(run)))
    requires var s := Last(run);
             && |s.a.outbox| == 1 && s.a.outbox[0].RevocationMsg? && s.a.outbox[0].rev.preimage != ZeroHash()
             && AwaitsRevocation(s.b, pay)
    ensures IsRun(cr, run') && run' != [] && run'[0] == run[0]
    ensures var (s, s') := (Last(run), Last(run')); s'.a == s.a.(outbox := []) && Received(s'.b, pay)
  {
    hide IsRun, Inv, ApplyA, ZeroHash, Forwards, Indexes, MarkForwards, Stamped;
    RevocationStep(cr, Flip(Last(run)));
    StampForward(pay);
    StampedAdd(pay, 1, 1, false);
    run' := Act(cr, run, false, DoReceive);
  }

  /** The payee settles it. */
  lemma PayeeSettles(cr: Crypto, run: seq<Sys>, pay: Payment, preimage: Hash) returns (run': seq<Sys>)
    requires IsRun(cr, run) && run != [] && Received(Last(run).b, pay) && pay.rhash == cr.sha256(preimage)
    ensures IsRun(cr, run') && run' != [] && run'[0] == run[0] && Inv(cr, Last(run'))
    ensures var (s, s') := (Last(run), Last(run'));
            && s'.b.handedUp == [0] && s'.b.sent == [Settle(0, pay.amount)] && s'.b.outbox == [SettleMsg(0, preimage)]
            && s'.a == s.a && ShapeOf(s'.b) == Shape(1, 0, 1, 1, 2, 1, 1)
  {
    hide IsRun, Inv, ApplyA;
    SettleStep(cr, Flip(Last(run)), pay, preimage);
    run' := Act(cr, run, false, DoSettle(preimage));
  }

  lemma SettleStep(cr: Crypto, s: Sys, pay: Payment, preimage: Hash)
    requires s.a.party.theirLog == map[0 := Stamped(pay, 1, 1, true)] && s.a.party.theirCounter == 1
    requires pay.rhash == cr.sha256(preimage)
    ensures ApplyA(cr, s, DoSettle(preimage)).Some?
    ensures var s' := ApplyA(cr, s, DoSettle(preimage)).value;
            && s'.b == s.b && s'.a.sent == s.a.sent + [Settle(0, pay.amount)] && s'.a.handedUp == s.a.handedUp
            && s'.a.outbox == s.a.outbox + [SettleMsg(0, preimage)]
            && ShapeOf(s'.a) == ShapeOf(s.a).(ours := ShapeOf(s.a).ours + 1)
  {
    var log := s.a.party.theirLog;
    assert SettleCandidate(log, 0, cr.sha256(preimage)) && log[0].isForwarded;
    assert FirstCandidate(log, 0, 1, cr.sha256(preimage)) == Some(0);
  }

  /** The first half: the Add is on the payee's commitment, and the one before is revoked. */
  lemma AddCommitted(cr: Crypto, run: seq<Sys>, pay: Payment) returns (run': seq<Sys>)
    requires IsRun(cr, run) && run != [] && Untouched(Last(run).a) && Untouched(Last(run).b)
    requires ShapeOf(Last(run).a) == ShapeOf(Last(run).b) == Shape(1, 0, 0, 0, 0, 0, 0)
    ensures IsRun(cr, run') && run'[0] == run[0]
    ensures var s := Last(run');
            && s.a.sent == [Add(pay.amount, pay.rhash, pay.timeout)] && RemoteTail(s.a) == 1
            && s.a.outbox == [] && ShapeOf(s.a) == Shape(1, 0, 1, 0, 1, 1, 0)
            && s.b.outbox == [] && Committed(s.b, pay) && ShapeOf(s.b) == Shape(1, 0, 1, 1, 2, 0, 1)
  {
    hide Inv, ZeroHash, Init, Next;
    var r := Windows(cr, run, true);
    r := Windows(cr, r, false);
    r := Offers(cr, r, pay);
    r := AddArrives(cr, r, pay);
    r := PayeeRevokes(cr, r, pay);
    run' := PayerRecords(cr, r);
  }

  /** The second half: the payer's commitment contains it too, and the one before is revoked. */
  lemma AddSigned(cr: Crypto, run: seq<Sys>, pay: Payment) returns (run': seq<Sys>)
    requires IsRun(cr, run) && run != []
    requires var s := Last(run);
             && s.a.outbox == [] && ShapeOf(s.a) == Shape(1, 0, 1, 0, 1, 1, 0)
             && s.b.outbox == [] && Committed(s.b, pay) && ShapeOf(s.b) == Shape(1, 0, 1, 1, 2, 0, 1)
    ensures IsRun(cr, run') && run'[0] == run[0] && Inv(cr, Flip(Last(run')))
    ensures var (s, s') := (Last(run), Last(run'));
            && s'.a.sent == s.a.sent && RemoteTail(s'.a) == RemoteTail(s.a)
            && |s'.a.outbox| == 1 && s'.a.outbox[0].RevocationMsg? && s'.a.outbox[0].rev.preimage != ZeroHash()
            && ShapeOf(s'.a) == Shape(1, 0, 1, 1, 2, 1, 0) && AwaitsRevocation(s'.b, pay)
  {
    hide Inv, ZeroHash, Init, Next;
    var r := PayeeSigns(cr, run, pay);
    run' := PayerRevokes(cr, r);
  }

  /** The payee's settle is on its way, and the payer could sign once more. */
  ghost predicate SettleUnderWay(s: Sys) {
    && s.a.outbox == [] && |s.b.outbox| == 1 && s.b.outbox[0].SettleMsg?
    && ShapeOf(s.a) == Shape(1, 0, 1, 1, 2, 1, 0) && ShapeOf(s.b) == Shape(1, 0, 1, 1, 2, 1, 1)
  }

  /** For any balances and any amount there is a run in which the first party pays the second:
  commitments are signed and revoked on both sides, and the Add is handed up and settled. */
  lemma PaymentRun(ours: int, theirs: int, amount: int) returns (cr: Crypto, run: seq<Sys>)
    ensures IsRun(cr, run) && run != [] && run[0].a.start == ours && run[0].b.start == theirs
    ensures var s := Last(run);
            && RemoteTail(s.a) == 1 && s.b.handedUp == [0] && |s.a.sent| == 1 && s.a.sent[0].Add?
            && s.a.sent[0].amount == amount && s.b.sent == [Settle(0, amount)]
    ensures SettleUnderWay(Last(run)) && Inv(cr, Last(run))
  {
    hide Init, Next, Inv, ZeroHash, Committed, AwaitsRevocation, Received, Untouched, OwnRevocation;
    var r;
    cr, r := RunsExist(ours, theirs);
    OpenedShape(cr, r);
    var preimage: Hash := ZeroHash();
    var pay := Payment(amount, cr.sha256(preimage), 0);
    r := AddCommitted(cr, r, pay);
    r := AddSigned(cr, r, pay);
    r := AddHandedUp(cr, r, pay);
    run := PayeeSettles(cr, r, pay, preimage);
  }

  lemma OpenedShape(cr: Crypto, run: seq<Sys>)
    requires IsRun(cr, run) && |run| == 1
    ensures Untouched(run[0].a) && Untouched(run[0].b)
    ensures ShapeOf(run[0].a) == ShapeOf(run[0].b) == Shape(1, 0, 0, 0, 0, 0, 0)
  {
    hide OwnRevocation, Matched;
  }
}
