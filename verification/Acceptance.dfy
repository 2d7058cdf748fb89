/** What a party may rely on when it accepts a message, whoever sent it: the preimage fits the
HTLC, the signature is for the transaction that pays what the party's own view says, and the
revocation opens the key it was given for.
 */
module Acceptance {
  import opened Primitives
  import opened Ledger
  import opened ChannelSpec
  import opened ChannelRep
  import opened Amounts
  import opened Payouts
  import Elk = ElkremSpec

  /** A settle is accepted exactly for an HTLC of ours that is still in the log, with the preimage
  of its payment hash; it is then entered as the removal of that HTLC, for its amount. */
  lemma SettleAccepted(cr: Crypto, p: Party, b: Books, preimage: Hash, i: nat)
    requires Rep(p, b)
    ensures i in p.ourLog ==> i < |b.ours|
    ensures ReceiveHTLCSettle(cr, p, preimage, i).Ok?
       <==> i in p.ourLog && b.ours[i].Add? && b.ours[i].rhash == cr.sha256(preimage)
    ensures ReceiveHTLCSettle(cr, p, preimage, i).Ok? ==>
              var log := ReceiveHTLCSettle(cr, p, preimage, i).party.theirLog;
              log == p.theirLog[p.theirCounter := log[p.theirCounter]]
              && Matches(log[p.theirCounter], |b.theirs|, Settle(i, b.ours[i].amount))
    ensures ReceiveHTLCSettle(cr, p, preimage, i).Err? ==> ReceiveHTLCSettle(cr, p, preimage, i).party == p
  {
    hide OnChain, FlagsOk, Cleared, Twinned, Paired;
    if i in p.ourLog {
      assert Matches(p.ourLog[i], i, b.ours[i]);
    }
  }

  /** An accepted signature is for the transaction of the commitment the party adds to its own
  chain: the next height, the party's own revocation, and outputs that pay each balance to
  the right key and each HTLC from its offerer to the other. */
  lemma SignatureAcceptedPays(cr: Crypto, p: Party, sig: Signature, n: nat, outs: seq<TxOutput>)
    requires p.localChain != [] && ReceiveNewCommitment(cr, p, sig, n).Ok?
    requires multiset(outs) == sig && p.cfg.ourCommitKey != p.cfg.theirCommitKey
    ensures p.currentHeight + 1 <= Elk.MAX_INDEX
    ensures var p' := ReceiveNewCommitment(cr, p, sig, n).party;
            && |p'.localChain| == |p.localChain| + 1 && p'.localChain[..|p.localChain|] == p.localChain
            && var k := Tip(p'.localChain);
            && k.height == Tip(p.localChain).height + 1 && k.ourIndex == n && k.theirIndex == p.theirCounter
            && k.revocation == OwnRevocation(cr, p.cfg, p.currentHeight + 1)
            && PaidTo(outs, p.cfg.ourCommitKey) == k.ourBalance && PaidTo(outs, p.cfg.theirCommitKey) == k.theirBalance
            && OutputTotal(outs) == k.ourBalance + k.theirBalance + Total(k.outgoing) + Total(k.incoming)
  {
    hide ViewAt, MarkLog, SkipSet, TxOutputs, Paying, OutputTotal, Total, OwnRevocation;
    var rev := OwnRevocation(cr, p.cfg, p.currentHeight + 1);
    ViewFields(p, n, rev);
    var k := ViewAt(p, Local, n, p.theirCounter, rev);
    var (cfg, all) := (p.cfg, TxOutputs(p.cfg, Local, k));
    BalancesPaid(cfg, Local, k);
    PayingPermutes(outs, all, Some(cfg.ourCommitKey));
    PayingPermutes(outs, all, Some(cfg.theirCommitKey));
    TotalOfPermutation(Paying(outs, Some(cfg.ourCommitKey)), Paying(all, Some(cfg.ourCommitKey)));
    TotalOfPermutation(Paying(outs, Some(cfg.theirCommitKey)), Paying(all, Some(cfg.theirCommitKey)));
    TotalOfPermutation(outs, all);
    OutputsPayCommitment(cfg, Local, k);
  }

  lemma ViewFields(p: Party, n: nat, rev: Revocation)
    requires p.localChain != []
    ensures var k := ViewAt(p, Local, n, p.theirCounter, rev);
            && k.height == Tip(p.localChain).height + 1 && k.ourIndex == n && k.theirIndex == p.theirCounter
            && k.revocation == rev
  {
    hide SkipSet, Credit, Debit, Live;
  }

  /** An accepted revocation is the next value of the peer's tree and opens the key, and the hash
  if there is one, of the commitment it revokes; it can be looked up from then on. */
  lemma RevocationAcceptedOpens(cr: Crypto, p: Party, list: seq<Hash>, m: RevMsg)
    requires p.localChain != [] && Elk.Represents(cr.dsha, p.remoteElkrem, list)
    requires m.preimage != ZeroHash() && ReceiveRevocation(cr, p, m).Ok?
    ensures cr.derive(p.cfg.ourCommitKey, m.preimage) == p.theirRevocation.key
    ensures p.theirRevocation.hash == ZeroHash() || p.theirRevocation.hash == cr.sha256(m.preimage)
    ensures var p' := ReceiveRevocation(cr, p, m).party;
            && Elk.Represents(cr.dsha, p'.remoteElkrem, list + [m.preimage])
            && Elk.AtIndex(cr.dsha, p'.remoteElkrem, |list|) == Some(m.preimage)
            && p.used != [] && p'.theirRevocation == p.used[0] && p'.used == p.used[1..]
            && p.remoteChain != [] && p'.remoteChain == p.remoteChain[1..]
  {
    hide Elk.AddNext, Elk.Represents, Elk.AtIndex, ToChannelDelta, Forwards, MarkForwards, ZeroHash, Evicted, EvictedParents;
    Elk.AddNextRefinesAppend(cr.dsha, p.remoteElkrem, list, m.preimage);
    var s := Elk.AddNext(cr.dsha, p.remoteElkrem, m.preimage).value;
    Elk.AtIndexIsListLookup(cr.dsha, s, list + [m.preimage], |list|);
  }

  /** A refused message leaves both chains, the window and what is on record alone. */
  lemma RefusalKeeps(cr: Crypto, p: Party, sig: Signature, n: nat, m: RevMsg)
    requires p.localChain != []
    ensures ReceiveNewCommitment(cr, p, sig, n).Err? ==>
              var p' := ReceiveNewCommitment(cr, p, sig, n).party; p' == p.(ourLog := p'.ourLog, theirLog := p'.theirLog)
    ensures ReceiveRevocation(cr, p, m).Err? ==>
              var p' := ReceiveRevocation(cr, p, m).party; p' == p.(remoteElkrem := p'.remoteElkrem)
  {
    hide ViewAt, MarkLog, SkipSet, SignatureOf, Elk.AddNext, ToChannelDelta, Forwards, MarkForwards, CompactLogs;
  }
}
