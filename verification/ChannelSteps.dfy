/** The commitment operations keep the representation, and what it says about the
commitments themselves: conservation.
 */
module ChannelSteps {
  import opened Primitives
  import opened Ledger
  import opened ChannelSpec
  import opened ChannelRep

  /** Everything the representation talks about. */
  ghost predicate SameBooks(p: Party, p': Party) {
    && p'.ourLog == p.ourLog && p'.theirLog == p.theirLog
    && p'.ourLogIndex == p.ourLogIndex && p'.theirLogIndex == p.theirLogIndex
    && p'.ourCounter == p.ourCounter && p'.theirCounter == p.theirCounter
    && p'.localChain == p.localChain && p'.remoteChain == p.remoteChain
  }

  lemma RepFrame(p: Party, p': Party, b: Books)
    requires Rep(p, b) && SameBooks(p, p')
    ensures Rep(p', b)
  {
    hide LogOk, OnChain;
    OnChainFrame(p, p', b);
  }

  lemma SignKeepsRep(p: Party, b: Books)
    requires Rep(p, b) && SignNextCommitment(p).Ok?
    ensures Rep(SignNextCommitment(p).party, b)
  {
    hide LogOk, AddsOf, OnChain, SettledIn;
    TailBelowTip(p, b, Remote);
    ExtendKeepsRep(p, b, Remote, p.ourCounter, p.theirCounter, p.window[0]);
    hide Rep;
    RepFrame(Extended(p, Remote, p.ourCounter, p.theirCounter, p.window[0]), SignNextCommitment(p).party, b);
  }

  lemma ReceiveCommitmentKeepsRep(cr: Crypto, p: Party, b: Books, sig: Signature, n: nat)
    requires Rep(p, b) && ReceiveNewCommitment(cr, p, sig, n).Ok?
    requires Tip(p.localChain).ourIndex <= n <= |b.ours|
    ensures Rep(ReceiveNewCommitment(cr, p, sig, n).party, b)
  {
    hide LogOk, AddsOf, OnChain, SettledIn;
    TailBelowTip(p, b, Local);
    ExtendKeepsRep(p, b, Local, n, p.theirCounter, OwnRevocation(cr, p.cfg, p.currentHeight + 1));
  }

  lemma RevokeKeepsRep(cr: Crypto, p: Party, b: Books)
    requires Rep(p, b) && |p.localChain| >= 2 && RevokeCurrentCommitment(cr, p).Ok?
    ensures Rep(RevokeCurrentCommitment(cr, p).party, b)
  {
    hide LogOk, LogOnChain, Denotes, Closed, SettledIn;
    var p1 := p.(localChain := p.localChain[1..]);
    AdvanceLocal(p, b);
    assert p.localChain[0].theirIndex <= p.localChain[1].theirIndex;
    assert Rep(p1, b);
    RepFrame(p1, RevokeCurrentCommitment(cr, p).party, b);
  }

  /** The party once the peer's tail is dropped, before forwarding and compaction. */
  function Advanced(p: Party): Party
    requires |p.remoteChain| >= 2
  {
    p.(remoteChain := p.remoteChain[1..])
  }

  lemma AdvanceKeepsRep(p: Party, b: Books)
    requires Rep(p, b) && |p.remoteChain| >= 2
    ensures Rep(Advanced(p), b)
  {
    hide LogOk, LogOnChain, Denotes, Closed, SettledIn;
    AdvanceRemote(p, b);
    assert p.remoteChain[0].theirIndex <= p.remoteChain[1].theirIndex;
  }

  function Forwarded(p: Party): Party
    requires p.localChain != [] && p.remoteChain != []
  {
    p.(theirLog := MarkForwards(p.theirLog, p.localChain[0].height, p.remoteChain[0].height))
  }

  lemma ReceiveRevocationKeepsRep(cr: Crypto, p: Party, b: Books, msg: RevMsg)
    requires Rep(p, b) && ReceiveRevocation(cr, p, msg).Ok?
    ensures Rep(ReceiveRevocation(cr, p, msg).party, b)
  {
    hide LogOk, OnChain, IndexesOk, SettledIn;
    var p' := ReceiveRevocation(cr, p, msg).party;
    if msg.preimage == ZeroHash() {
      RepFrame(p, p', b);
    } else {
      var p1 := Advanced(p);
      AdvanceKeepsRep(p, b);
      var p2 := Forwarded(p1);
      ForwardKeepsRep(p1, b);
      CompactKeepsRep(p2, b);
      RepFrame(CompactLogs(p2, p2.localChain[0].height, p2.remoteChain[0].height), p', b);
    }
  }

  /* --- what the representation gives ----------------------------------------- */

  lemma PairedBelow(full: seq<Update>, other: seq<Update>, n: nat, m: nat)
    requires Paired(full, other) && n <= |full| && m <= |other| && ParentsBelow(full, n, m)
    ensures Paired(full[..n], other[..m])
  {
  }

  /** On a commitment that stands for the books nothing is created or lost. */
  lemma CommitmentConserves(k: Commitment, b: Books)
    requires Denotes(k, b) && Closed(k, b) && Paired(b.ours, b.theirs) && Paired(b.theirs, b.ours)
    ensures k.ourBalance + k.theirBalance + Total(k.outgoing) + Total(k.incoming) == b.ourStart + b.theirStart
  {
    PairedBelow(b.ours, b.theirs, k.ourIndex, k.theirIndex);
    PairedBelow(b.theirs, b.ours, k.theirIndex, k.ourIndex);
    Conservation(b.ours[..k.ourIndex], b.theirs[..k.theirIndex]);
  }

  lemma RepConserves(p: Party, b: Books, c: Chain, i: nat)
    requires Rep(p, b) && i < |ChainOf(p, c)|
    ensures var k := ChainOf(p, c)[i];
            k.ourBalance + k.theirBalance + Total(k.outgoing) + Total(k.incoming) == b.ourStart + b.theirStart
  {
    hide LogOnChain, Ascending, FlagsOk, IndexesOk, Cleared, Twinned, LogMatches;
    CommitmentConserves(ChainOf(p, c)[i], b);
  }
}
