/** Restart from the state a running channel has saved: in every run what is saved is the tail
of the party's own chain, and it survives the database.
 */
module RestartRuns {
  import opened Primitives
  import opened Bytes
  import opened Ledger
  import opened ChannelSpec
  import opened Protocol
  import opened ProtocolReceives
  import opened ProtocolTheorems
  import opened RevocationLog
  import opened Restart
  import Elk = ElkremSpec

  /* --- the saved state on disk ------------------------------------------------------------------ */

  /** A signed amount written as eight bytes and read again. */
  function RereadAmount(x: int): int {
    FromWord64(Value64(BigEndian(ToWord64(x), 8)))
  }

  /** The saved state written to the database and read again: two balances, the number of
  updates and the current HTLCs. */
  function Reread(d: Delta): Option<Delta> {
    var htlcs := AllHtlcsFrom(HtlcsBytes(d.htlcs));
    if htlcs.None? then None
    else
      Some(Delta(RereadAmount(d.localBalance), RereadAmount(d.remoteBalance),
                 BigEndianValue(BigEndian(d.updateNum % TWO64, 8)), htlcs.value))
  }

  lemma AmountSurvives(x: int)
    requires IsInt64(x)
    ensures RereadAmount(x) == x
  {
    hide BigEndian, BigEndianValue, Pow256;
    Pow256Values();
    BigEndianRoundTrip(ToWord64(x), 8);
    Int64RoundTrip(x);
  }

  lemma SavedSurvives(d: Delta)
    requires DeltaFits(d)
    ensures Reread(d) == Some(d)
  {
    hide RereadAmount, BigEndian, BigEndianValue, Pow256, HtlcsBytes, AllHtlcsFrom;
    AmountSurvives(d.localBalance);
    AmountSurvives(d.remoteBalance);
    Pow256Values();
    BigEndianRoundTrip(d.updateNum, 8);
    AllHtlcsRoundTrip(d.htlcs);
  }

  /* --- what is saved along a run ------------------------------------------------------------------ */

  ghost predicate SavedOk(x: Node) {
    x.party.localChain != [] && x.party.saved == ToChannelDelta(x.party.localChain[0])
  }

  lemma HandleSaves(cr: Crypto, s: Sys)
    requires Receivable(s) && Receiving(cr, s).Some? && SavedOk(s.a)
    ensures SavedOk(Receiving(cr, s).value.a) && Receiving(cr, s).value.b.party == s.b.party
  {
    hide ToChannelDelta, ViewAt, MarkLog, SkipSet, SignatureOf, Elk.AddNext, Forwards, MarkForwards, Indexes, CompactLogs;
    var m := s.b.outbox[0];
    if m.RevocationMsg? && m.rev.preimage != ZeroHash() {
      hide ReceiveRevocation, ZeroHash;
      RevocationFacts(cr, s.a.party, m.rev);
    } else {
      hide OwnRevocation, ZeroHash;
    }
  }

  lemma StepSaves(cr: Crypto, s: Sys, ev: Event)
    requires ApplyA(cr, s, ev).Some? && SavedOk(s.a) && SavedOk(s.b)
    ensures SavedOk(ApplyA(cr, s, ev).value.a) && SavedOk(ApplyA(cr, s, ev).value.b)
  {
    hide ToChannelDelta, ViewAt, MarkLog, SkipSet, SignatureOf, OwnRevocation, Receiving, FirstCandidate;
    if ev.DoReceive? {
      HandleSaves(cr, s);
    }
  }

  /** In every state of every run a party has saved the tail of its own chain. */
  lemma {:induction false} TailIsSaved(cr: Crypto, run: seq<Sys>, n: nat)
    requires IsRun(cr, run) && n < |run|
    ensures SavedOk(run[n].a) && SavedOk(run[n].b)
    decreases n
  {
    if n == 0 {
      hide OwnRevocation, Matched;
      assert DiskHtlcs([], false) + DiskHtlcs([], true) == [];
    } else {
      hide ApplyA, Init, SavedOk;
      TailIsSaved(cr, run, n - 1);
      var (s, s') := (run[n - 1], run[n]);
      assert Next(cr, s, s');
      var ev :| ApplyA(cr, s, ev) == Some(s') || ApplyA(cr, Flip(s), ev) == Some(Flip(s'));
      if ApplyA(cr, s, ev) == Some(s') {
        StepSaves(cr, s, ev);
      } else {
        StepSaves(cr, Flip(s), ev);
      }
    }
  }

  lemma {:induction false} AmountsOfDisk(hs: seq<Htlc>, incoming: bool)
    ensures Amounts(DiskHtlcs(hs, incoming)) == Total(hs)
    decreases |hs|
  {
    if hs != [] {
      var front := hs[..|hs| - 1];
      AmountsOfDisk(front, incoming);
      assert DiskHtlcs(hs, incoming)[..|DiskHtlcs(hs, incoming)| - 1] == DiskHtlcs(front, incoming);
    }
  }

  /** A restart in any state of any run: what is saved is read back, and the next commitment of
  either chain lists the HTLCs of the party's own tail. It has the tail's balances too, except
  at height 1 for a direction whose HTLCs do not add up to nothing. */
  lemma RestartInEveryRun(cr: Crypto, run: seq<Sys>, n: nat, byFirst: bool, rev: Revocation, c: Chain, next: Revocation)
    requires IsRun(cr, run) && n < |run| && DeltaFits(Seen(run, n, byFirst).a.party.saved)
    ensures var p := Seen(run, n, byFirst).a.party;
            && Reread(p.saved) == Some(p.saved) && p.localChain != []
            && var (k, q) := (p.localChain[0], Restored(p, p.saved, rev));
            && var view := ViewAt(q, c, q.ourCounter, q.theirCounter, next);
            && (k.height % TWO32 > 0 ==> SameHtlcs(view.outgoing, k.outgoing) && SameHtlcs(view.incoming, k.incoming))
            && (view.ourBalance == k.ourBalance <==> k.height % TWO32 != 1 || Total(k.outgoing) == 0)
            && (view.theirBalance == k.theirBalance <==> k.height % TWO32 != 1 || Total(k.incoming) == 0)
  {
    hide IsRun, OfDirection, DiskHtlcs, ViewAt, Restored, Reread, Total, Amounts;
    var p := Seen(run, n, byFirst).a.party;
    TailIsSaved(cr, run, n);
    SavedSurvives(p.saved);
    var k := p.localChain[0];
    RestartKeepsLedger(p, p.saved, rev, c, next);
    DeltaByDirection(k);
    DiskHtlcsAt(k.outgoing, false);
    DiskHtlcsAt(k.incoming, true);
    AmountsOfDisk(k.outgoing, false);
    AmountsOfDisk(k.incoming, true);
  }
}
