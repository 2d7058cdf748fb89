/** Whom the outputs of a commitment transaction pay: in every state of every run each party
gets its own balance to its own key, and each HTLC names its offerer as sender and the other
as receiver.
 */
module Payouts {
  import opened Primitives
  import opened Ledger
  import opened ChannelSpec
  import opened ChannelRep
  import opened Protocol
  import opened ProtocolTheorems
  import opened Amounts

  /** The key an output pays whatever happens; none for an HTLC. */
  function Payee(o: TxOutput): Option<PubKey> {
    match o
    case ToSelf(_, selfKey, _, _) => Some(selfKey)
    case ToOther(_, key) => Some(key)
    case SenderHtlc(_, _, _, _, _, _, _) => None
    case ReceiverHtlc(_, _, _, _, _, _, _) => None
  }

  /** The outputs with that payee, in order. */
  function Paying(outs: seq<TxOutput>, payee: Option<PubKey>): seq<TxOutput> {
    if outs == [] then []
    else
      Paying(outs[..|outs| - 1], payee)
      + if Payee(outs[|outs| - 1]) == payee then [outs[|outs| - 1]] else []
  }

  function PaidTo(outs: seq<TxOutput>, key: PubKey): int {
    OutputTotal(Paying(outs, Some(key)))
  }

  lemma {:induction false} PayingConcat(a: seq<TxOutput>, b: seq<TxOutput>, payee: Option<PubKey>)
    ensures Paying(a + b, payee) == Paying(a, payee) + Paying(b, payee)
    decreases |b|
  {
    if b == [] {
      assert a + b == a;
    } else {
      PayingConcat(a, b[..|b| - 1], payee);
      assert (a + b)[..|a + b| - 1] == a + b[..|b| - 1];
    }
  }

  lemma PayingOne(o: TxOutput, payee: Option<PubKey>)
    ensures Paying([o], payee) == if Payee(o) == payee then [o] else []
  {
    assert [o][..0] == [];
  }

  /** Sorting keeps what each payee gets. */
  lemma {:induction false} PayingCounts(outs: seq<TxOutput>, payee: Option<PubKey>, o: TxOutput)
    ensures multiset(Paying(outs, payee))[o] == if Payee(o) == payee then multiset(outs)[o] else 0
    decreases |outs|
  {
    if outs != [] {
      var (front, last) := (outs[..|outs| - 1], outs[|outs| - 1]);
      PayingCounts(front, payee, o);
      assert outs == front + [last];
      hide Payee;
      assert multiset(outs) == multiset(front) + multiset{last};
    }
  }

  lemma PayingPermutes(a: seq<TxOutput>, b: seq<TxOutput>, payee: Option<PubKey>)
    requires multiset(a) == multiset(b)
    ensures multiset(Paying(a, payee)) == multiset(Paying(b, payee))
  {
    hide Paying, Payee;
    forall o ensures multiset(Paying(a, payee))[o] == multiset(Paying(b, payee))[o] {
      PayingCounts(a, payee, o);
      PayingCounts(b, payee, o);
    }
  }

  /* --- balances ------------------------------------------------------------------------------- */

  lemma PayingBalances(selfKey: PubKey, theirKey: PubKey, revokeKey: PubKey, delay: nat, toSelf: int, toThem: int)
    requires selfKey != theirKey
    ensures var outs := CreateCommitTx(selfKey, theirKey, revokeKey, delay, toSelf, toThem);
            && PaidTo(outs, selfKey) == toSelf && PaidTo(outs, theirKey) == toThem && Paying(outs, None) == []
  {
    hide Paying, OutputTotal;
    var self, other := ToSelf(toSelf, selfKey, delay, revokeKey), ToOther(toThem, theirKey);
    PayingPair(self, toSelf != 0, other, toThem != 0, Some(selfKey));
    PayingPair(self, toSelf != 0, other, toThem != 0, Some(theirKey));
    PayingPair(self, toSelf != 0, other, toThem != 0, None);
    SingleTotal(self);
    SingleTotal(other);
    NothingTotal();
  }

  lemma NothingTotal()
    ensures OutputTotal([]) == 0
  {
  }

  /** Of two outputs that may be there, those with the payee. */
  lemma PayingPair(a: TxOutput, hasA: bool, b: TxOutput, hasB: bool, payee: Option<PubKey>)
    requires Payee(a) != Payee(b)
    ensures Paying((if hasA then [a] else []) + (if hasB then [b] else []), payee)
         == if hasA && Payee(a) == payee then [a] else if hasB && Payee(b) == payee then [b] else []
  {
    PayingOne(a, payee);
    PayingOne(b, payee);
    PayingNone(payee);
    hide Paying, Payee;
    PayingConcat(if hasA then [a] else [], if hasB then [b] else [], payee);
  }

  lemma PayingNone(payee: Option<PubKey>)
    ensures Paying([], payee) == []
  {
  }

  lemma {:induction false} HtlcsPayNoOne(cfg: Config, ours: bool, incoming: bool, hs: seq<Htlc>, hash: Hash, key: PubKey)
    ensures var outs := HtlcOutputs(cfg, ours, incoming, hs, hash);
            Paying(outs, Some(key)) == [] && Paying(outs, None) == outs
    decreases |hs|
  {
    if hs != [] {
      HtlcsPayNoOne(cfg, ours, incoming, hs[..|hs| - 1], hash, key);
      var outs := HtlcOutputs(cfg, ours, incoming, hs, hash);
      assert outs[..|outs| - 1] == HtlcOutputs(cfg, ours, incoming, hs[..|hs| - 1], hash);
    }
  }

  lemma PayingCommitment(cfg: Config, c: Chain, k: Commitment, payee: Option<PubKey>)
    ensures var balances := Paying(BalanceOutputs(cfg, c, k), payee);
            Paying(TxOutputs(cfg, c, k), payee) ==
            if payee.Some? then balances
            else balances + HtlcOutputs(cfg, c.Local?, false, k.outgoing, k.revocation.hash)
                 + HtlcOutputs(cfg, c.Local?, true, k.incoming, k.revocation.hash)
  {
    hide Paying, HtlcOutputs, BalanceOutputs;
    var balances := BalanceOutputs(cfg, c, k);
    var outs := HtlcOutputs(cfg, c.Local?, false, k.outgoing, k.revocation.hash);
    var ins := HtlcOutputs(cfg, c.Local?, true, k.incoming, k.revocation.hash);
    PayingConcat(balances, outs, payee);
    PayingConcat(balances + outs, ins, payee);
    var key := if payee.Some? then payee.value else [];
    HtlcsPayNoOne(cfg, c.Local?, false, k.outgoing, k.revocation.hash, key);
    HtlcsPayNoOne(cfg, c.Local?, true, k.incoming, k.revocation.hash, key);
  }

  /** A commitment transaction pays our balance to our key and the peer's to the peer's. */
  lemma BalancesPaid(cfg: Config, c: Chain, k: Commitment)
    requires cfg.ourCommitKey != cfg.theirCommitKey
    ensures PaidTo(TxOutputs(cfg, c, k), cfg.ourCommitKey) == k.ourBalance
    ensures PaidTo(TxOutputs(cfg, c, k), cfg.theirCommitKey) == k.theirBalance
    ensures Paying(TxOutputs(cfg, c, k), None)
         == HtlcOutputs(cfg, c.Local?, false, k.outgoing, k.revocation.hash)
            + HtlcOutputs(cfg, c.Local?, true, k.incoming, k.revocation.hash)
  {
    hide Paying, OutputTotal, HtlcOutputs, CreateCommitTx, TxOutputs;
    PayingCommitment(cfg, c, k, Some(cfg.ourCommitKey));
    PayingCommitment(cfg, c, k, Some(cfg.theirCommitKey));
    PayingCommitment(cfg, c, k, None);
    var (outs, ins) := (HtlcOutputs(cfg, c.Local?, false, k.outgoing, k.revocation.hash),
                        HtlcOutputs(cfg, c.Local?, true, k.incoming, k.revocation.hash));
    assert [] + outs + ins == outs + ins;
    if c.Remote? {
      PayingBalances(cfg.theirCommitKey, cfg.ourCommitKey, k.revocation.key, cfg.remoteCsvDelay, k.theirBalance, k.ourBalance);
    } else {
      PayingBalances(cfg.ourCommitKey, cfg.theirCommitKey, k.revocation.key, cfg.localCsvDelay, k.ourBalance, k.theirBalance);
    }
  }

  /** The owner's own balance is the delayed, revocable output; the other party's is neither. */
  lemma {:induction false} OwnerIsDelayed(cfg: Config, c: Chain, k: Commitment, o: TxOutput)
    requires o in TxOutputs(cfg, c, k)
    ensures o.ToSelf? ==> o.selfKey == (if c.Local? then cfg.ourCommitKey else cfg.theirCommitKey)
    ensures o.ToSelf? ==> o.delay == (if c.Local? then cfg.localCsvDelay else cfg.remoteCsvDelay)
    ensures o.ToSelf? ==> o.revocationKey == k.revocation.key
    ensures o.ToOther? ==> o.key == (if c.Local? then cfg.theirCommitKey else cfg.ourCommitKey)
  {
    hide HtlcOutputs;
    OnlyHtlcs(cfg, c.Local?, false, k.outgoing, k.revocation.hash, o);
    OnlyHtlcs(cfg, c.Local?, true, k.incoming, k.revocation.hash, o);
  }

  lemma {:induction false} OnlyHtlcs(cfg: Config, ours: bool, incoming: bool, hs: seq<Htlc>, hash: Hash, o: TxOutput)
    ensures o in HtlcOutputs(cfg, ours, incoming, hs, hash) ==> o.SenderHtlc? || o.ReceiverHtlc?
    decreases |hs|
  {
    if hs != [] {
      OnlyHtlcs(cfg, ours, incoming, hs[..|hs| - 1], hash, o);
    }
  }

  /* --- HTLCs ------------------------------------------------------------------------------------ */

  /** The output for an HTLC between two parties. */
  function HtlcBetween(h: Htlc, sender: PubKey, receiver: PubKey, onReceivers: bool, delay: nat, hash: Hash): TxOutput {
    if onReceivers then ReceiverHtlc(h.amount, h.timeout, delay, sender, receiver, hash, h.rhash)
    else SenderHtlc(h.amount, h.timeout, delay, sender, receiver, hash, h.rhash)
  }

  /** One output per HTLC, in order, all from the same sender to the same receiver. */
  ghost predicate Between(outs: seq<TxOutput>, hs: seq<Htlc>, sender: PubKey, receiver: PubKey, onReceivers: bool,
                          delay: nat, hash: Hash) {
    && |outs| == |hs|
    && forall j | 0 <= j < |hs| :: outs[j] == HtlcBetween(hs[j], sender, receiver, onReceivers, delay, hash)
  }

  /** What each party offered has it as the sender; the script is the receiver's exactly on the
  receiver's own commitment. */
  lemma {:induction false} HtlcParties(cfg: Config, ours: bool, incoming: bool, hs: seq<Htlc>, hash: Hash)
    ensures Between(HtlcOutputs(cfg, ours, incoming, hs, hash), hs,
                    if incoming then cfg.theirCommitKey else cfg.ourCommitKey,
                    if incoming then cfg.ourCommitKey else cfg.theirCommitKey,
                    incoming == ours, if ours then cfg.localCsvDelay else cfg.remoteCsvDelay, hash)
    decreases |hs|
  {
    if hs != [] {
      HtlcParties(cfg, ours, incoming, hs[..|hs| - 1], hash);
    }
  }

  /* --- in every run -------------------------------------------------------------------------- */

  /** What the transaction of commitment `k`, owned by `owner`, pays: `x` and `y` are the party
  that holds the commitment and its peer. */
  ghost predicate Pays(outs: seq<TxOutput>, k: Commitment, x: Node, y: Node, owner: Node, other: Node) {
    var (ourKey, theirKey) := (x.party.cfg.ourCommitKey, y.party.cfg.ourCommitKey);
    && k.ourIndex <= |x.sent| && k.theirIndex <= |y.sent|
    && PaidTo(outs, ourKey) == x.start + Net(x.sent[..k.ourIndex])
    && PaidTo(outs, theirKey) == y.start + Net(y.sent[..k.theirIndex])
    && (forall o | o in outs && o.ToSelf? ::
          && o.selfKey == owner.party.cfg.ourCommitKey && o.delay == owner.party.cfg.localCsvDelay
          && o.revocationKey == k.revocation.key)
    && (forall o | o in outs && o.ToOther? :: o.key == other.party.cfg.ourCommitKey)
  }

  /** The HTLC outputs are, up to order, those of the two lists: what `x` offered from `x` to
  `y`, what `y` offered from `y` to `x`. */
  ghost predicate PaysHtlcs(outs: seq<TxOutput>, k: Commitment, x: Node, y: Node, owner: Node) {
    var (ourKey, theirKey, delay) := (x.party.cfg.ourCommitKey, y.party.cfg.ourCommitKey, owner.party.cfg.localCsvDelay);
    exists sent, received ::
      && multiset(Paying(outs, None)) == multiset(sent + received)
      && Between(sent, k.outgoing, ourKey, theirKey, owner == y, delay, k.revocation.hash)
      && Between(received, k.incoming, theirKey, ourKey, owner == x, delay, k.revocation.hash)
  }

  lemma PaysDenoted(x: Node, y: Node, c: Chain, k: Commitment, outs: seq<TxOutput>)
    requires BooksKnown(x, y) && Denotes(k, BooksOf(x, y)) && x.party.cfg.ourCommitKey != x.party.cfg.theirCommitKey
    requires x.party.cfg.ourCommitKey == y.party.cfg.theirCommitKey && x.party.cfg.theirCommitKey == y.party.cfg.ourCommitKey
    requires x.party.cfg.remoteCsvDelay == y.party.cfg.localCsvDelay
    requires multiset(outs) == SignatureOf(x.party.cfg, c, k)
    ensures Pays(outs, k, x, y, if c.Local? then x else y, if c.Local? then y else x)
  {
    hide Net, Active, TxOutputs, Paying, OutputTotal;
    var (cfg, all) := (x.party.cfg, TxOutputs(x.party.cfg, c, k));
    BalancesPaid(cfg, c, k);
    PayingPermutes(outs, all, Some(cfg.ourCommitKey));
    PayingPermutes(outs, all, Some(cfg.theirCommitKey));
    TotalOfPermutation(Paying(outs, Some(cfg.ourCommitKey)), Paying(all, Some(cfg.ourCommitKey)));
    TotalOfPermutation(Paying(outs, Some(cfg.theirCommitKey)), Paying(all, Some(cfg.theirCommitKey)));
    assert y.sent[..x.party.theirCounter][..k.theirIndex] == y.sent[..k.theirIndex];
    forall o | o in outs ensures o in all {
      assert o in multiset(outs);
    }
    forall o | o in all
      ensures o.ToSelf? ==> o.selfKey == (if c.Local? then cfg.ourCommitKey else cfg.theirCommitKey)
      ensures o.ToSelf? ==> o.delay == (if c.Local? then cfg.localCsvDelay else cfg.remoteCsvDelay)
      ensures o.ToSelf? ==> o.revocationKey == k.revocation.key
      ensures o.ToOther? ==> o.key == (if c.Local? then cfg.theirCommitKey else cfg.ourCommitKey)
    {
      OwnerIsDelayed(cfg, c, k, o);
    }
  }

  lemma PaysHtlcsDenoted(x: Node, y: Node, c: Chain, k: Commitment, outs: seq<TxOutput>)
    requires x.party.cfg.ourCommitKey != x.party.cfg.theirCommitKey
    requires x.party.cfg.ourCommitKey == y.party.cfg.theirCommitKey && x.party.cfg.theirCommitKey == y.party.cfg.ourCommitKey
    requires x.party.cfg.remoteCsvDelay == y.party.cfg.localCsvDelay
    requires multiset(outs) == SignatureOf(x.party.cfg, c, k)
    ensures PaysHtlcs(outs, k, x, y, if c.Local? then x else y)
  {
    hide TxOutputs, Paying, OutputTotal, HtlcOutputs, Between;
    var cfg := x.party.cfg;
    BalancesPaid(cfg, c, k);
    PayingPermutes(outs, TxOutputs(cfg, c, k), None);
    var sent := HtlcOutputs(cfg, c.Local?, false, k.outgoing, k.revocation.hash);
    var received := HtlcOutputs(cfg, c.Local?, true, k.incoming, k.revocation.hash);
    HtlcParties(cfg, c.Local?, false, k.outgoing, k.revocation.hash);
    HtlcParties(cfg, c.Local?, true, k.incoming, k.revocation.hash);
    assert multiset(Paying(outs, None)) == multiset(sent + received);
  }

  lemma ChainDenotes(x: Node, y: Node, c: Chain, i: nat)
    requires LedgerOk(x, y) && i < |ChainOf(x.party, c)|
    ensures Denotes(ChainOf(x.party, c)[i], BooksOf(x, y))
  {
    hide LogOnChain, LogOk, FlagsOk, IndexesOk, Denotes, Closed;
  }

  /** In every state of every run the transaction of each unrevoked commitment, its outputs in
  whatever order, pays each party what it opened the channel with and the net effect of its
  own updates up to the commitment's index, to that party's own key; the commitment's owner
  is paid with its own delay and under the commitment's revocation key, and every HTLC goes
  from the party that offered it to the other. */
  lemma CommitmentsPay(cr: Crypto, run: seq<Sys>, n: nat, byFirst: bool, c: Chain, i: nat, outs: seq<TxOutput>)
    requires IsRun(cr, run) && n < |run| && i < |ChainOf(Seen(run, n, byFirst).a.party, c)|
    requires var p := Seen(run, n, byFirst).a.party;
             && p.cfg.ourCommitKey != p.cfg.theirCommitKey
             && multiset(outs) == SignatureOf(p.cfg, c, ChainOf(p, c)[i])
    ensures var (x, y) := (Seen(run, n, byFirst).a, Seen(run, n, byFirst).b);
            var (k, owner, other) := (ChainOf(x.party, c)[i], if c.Local? then x else y, if c.Local? then y else x);
            Pays(outs, k, x, y, owner, other) && PaysHtlcs(outs, k, x, y, owner)
  {
    SeenInv(cr, run, n, byFirst);
    hide IsRun, LedgerOk, HistoryOk, MirrorOk, KeysOk, QueueOk, SettlesOk, StoreOk, HandedOk, HonestSecrets;
    hide Pays, PaysHtlcs, SignatureOf, Denotes;
    var (x, y) := (Seen(run, n, byFirst).a, Seen(run, n, byFirst).b);
    ChainDenotes(x, y, c, i);
    PaysDenoted(x, y, c, ChainOf(x.party, c)[i], outs);
    PaysHtlcsDenoted(x, y, c, ChainOf(x.party, c)[i], outs);
  }
}
