/** Where the money of a channel is: from the initial split of its capacity, through the
commitments, to the outputs of a commitment transaction and the colored-coins instructions
that carry their amounts.
 */
module Amounts {
  import opened Primitives
  import opened Bytes
  import opened Ledger
  import opened ChannelSpec
  import opened Protocol
  import opened ProtocolTheorems

  const COMMIT_FEE: int := 0
  const DUST_AMOUNT: int := 546

  /** The balances a reservation starts with: each side gets what it put in. */
  method InitialSplit(capacity: int, fundingAmt: int) returns (ourBalance: int, theirBalance: int)
    ensures ourBalance == fundingAmt && ourBalance + theirBalance == capacity
  {
    if fundingAmt == 0 {
      ourBalance := 0;
      theirBalance := capacity - COMMIT_FEE;
    } else {
      if capacity == fundingAmt + COMMIT_FEE {
        ourBalance := capacity - COMMIT_FEE;
      } else {
        ourBalance := fundingAmt - COMMIT_FEE;
      }
      theirBalance := capacity - fundingAmt - COMMIT_FEE;
    }
  }

  /* --- the outputs of a commitment transaction --------------------------------------------- */

  function OutputTotal(outs: seq<TxOutput>): int {
    if outs == [] then 0 else OutputTotal(outs[..|outs| - 1]) + outs[|outs| - 1].amount
  }

  lemma {:induction false} TotalConcat(a: seq<TxOutput>, b: seq<TxOutput>)
    ensures OutputTotal(a + b) == OutputTotal(a) + OutputTotal(b)
    decreases |b|
  {
    if b == [] {
      assert a + b == a;
    } else {
      TotalConcat(a, b[..|b| - 1]);
      assert (a + b)[..|a + b| - 1] == a + b[..|b| - 1];
    }
  }

  lemma {:induction false} HtlcTotal(cfg: Config, ours: bool, incoming: bool, hs: seq<Htlc>, hash: Hash)
    ensures OutputTotal(HtlcOutputs(cfg, ours, incoming, hs, hash)) == Total(hs)
    decreases |hs|
  {
    if hs != [] {
      HtlcTotal(cfg, ours, incoming, hs[..|hs| - 1], hash);
      var outs := HtlcOutputs(cfg, ours, incoming, hs, hash);
      assert outs[..|outs| - 1] == HtlcOutputs(cfg, ours, incoming, hs[..|hs| - 1], hash);
    }
  }

  lemma SingleTotal(o: TxOutput)
    ensures OutputTotal([o]) == o.amount
  {
    assert [o][..0] == [];
  }

  /** Zero balances get no output, so nothing is lost. */
  lemma BalanceTotal(selfKey: PubKey, theirKey: PubKey, revokeKey: PubKey, delay: nat, toSelf: int, toThem: int)
    ensures OutputTotal(CreateCommitTx(selfKey, theirKey, revokeKey, delay, toSelf, toThem)) == toSelf + toThem
  {
    var a := if toSelf != 0 then [ToSelf(toSelf, selfKey, delay, revokeKey)] else [];
    var b := if toThem != 0 then [ToOther(toThem, theirKey)] else [];
    SingleTotal(ToSelf(toSelf, selfKey, delay, revokeKey));
    SingleTotal(ToOther(toThem, theirKey));
    TotalConcat(a, b);
  }

  /** The outputs of a commitment transaction pay out its balances and HTLCs. */
  lemma OutputsPayCommitment(cfg: Config, c: Chain, k: Commitment)
    ensures OutputTotal(TxOutputs(cfg, c, k)) == k.ourBalance + k.theirBalance + Total(k.outgoing) + Total(k.incoming)
  {
    hide OutputTotal, CreateCommitTx, HtlcOutputs, Total;
    var balances := BalanceOutputs(cfg, c, k);
    BalanceTotal(cfg.theirCommitKey, cfg.ourCommitKey, k.revocation.key, cfg.remoteCsvDelay, k.theirBalance, k.ourBalance);
    BalanceTotal(cfg.ourCommitKey, cfg.theirCommitKey, k.revocation.key, cfg.localCsvDelay, k.ourBalance, k.theirBalance);
    var outs := HtlcOutputs(cfg, c.Local?, false, k.outgoing, k.revocation.hash);
    var ins := HtlcOutputs(cfg, c.Local?, true, k.incoming, k.revocation.hash);
    HtlcTotal(cfg, c.Local?, false, k.outgoing, k.revocation.hash);
    HtlcTotal(cfg, c.Local?, true, k.incoming, k.revocation.hash);
    TotalConcat(balances, outs);
    TotalConcat(balances + outs, ins);
  }

  function Without(b: seq<TxOutput>, i: nat): (r: seq<TxOutput>)
    requires i < |b|
    ensures |r| == |b| - 1
  {
    b[..i] + b[i + 1..]
  }

  lemma PartsTotal(front: seq<TxOutput>, o: TxOutput, back: seq<TxOutput>)
    ensures OutputTotal(front + [o] + back) == OutputTotal(front + back) + o.amount
    ensures multiset(front + [o] + back) == multiset(front + back) + multiset{o}
  {
    SingleTotal(o);
    hide OutputTotal;
    TotalConcat(front, [o]);
    TotalConcat(front + [o], back);
    TotalConcat(front, back);
  }

  lemma WithoutOne(b: seq<TxOutput>, i: nat)
    requires i < |b|
    ensures OutputTotal(b) == OutputTotal(Without(b, i)) + b[i].amount
    ensures multiset(b) == multiset(Without(b, i)) + multiset{b[i]}
  {
    hide OutputTotal;
    assert b == b[..i] + [b[i]] + b[i + 1..];
    PartsTotal(b[..i], b[i], b[i + 1..]);
  }

  /** Sorting the outputs does not change their total. */
  lemma {:induction false} TotalOfPermutation(a: seq<TxOutput>, b: seq<TxOutput>)
    requires multiset(a) == multiset(b)
    ensures OutputTotal(a) == OutputTotal(b)
    decreases |a|
  {
    assert |a| == |multiset(a)| && |b| == |multiset(b)|;
    if a == [] {
      assert b == [];
    } else {
      hide OutputTotal, Without;
      assert a[0] in multiset(b);
      var i :| 0 <= i < |b| && b[i] == a[0];
      WithoutOne(a, 0);
      WithoutOne(b, i);
      assert multiset(Without(a, 0)) == multiset(a) - multiset{a[0]};
      assert multiset(Without(b, i)) == multiset(b) - multiset{a[0]};
      TotalOfPermutation(Without(a, 0), Without(b, i));
    }
  }

  /* --- colored-coins instructions ------------------------------------------------------------ */

  datatype Instruction = Instruction(output: nat, amount: int)

  /** An output of the colored transaction: a dust amount for the same script, or the
  instructions in an OP_RETURN script. */
  datatype ColoredOutput = Dust(value: int, script: TxOutput) | OpReturn(value: int, bytes: seq<byte>)

  const OP_RETURN: byte := 0x6a

  function ScriptOf(o: TxOutput): TxOutput {
    o.(amount := 0)
  }

  function InstructionTotal(insts: seq<Instruction>): int {
    if insts == [] then 0 else InstructionTotal(insts[..|insts| - 1]) + insts[|insts| - 1].amount
  }

  lemma NothingMoved(outs: seq<TxOutput>)
    ensures InstructionTotal([]) == OutputTotal(outs[..0])
  {
  }

  lemma OneMoved(insts: seq<Instruction>, inst: Instruction, outs: seq<TxOutput>, i: nat)
    requires i < |outs|
    ensures InstructionTotal(insts + [inst]) == InstructionTotal(insts) + inst.amount
    ensures OutputTotal(outs[..i + 1]) == OutputTotal(outs[..i]) + outs[i].amount
  {
    assert (insts + [inst])[..|insts|] == insts;
    assert outs[..i + 1][..i] == outs[..i];
  }

  /** The loop: every output is replaced by dust and its amount moved to an instruction. */
  method MoveAmounts(outs: seq<TxOutput>, isFunding: bool) returns (insts: seq<Instruction>, dust: seq<ColoredOutput>)
    requires |outs| < TWO32
    ensures |insts| == |dust| == |outs|
    ensures forall i | 0 <= i < |outs| :: insts[i] == Instruction(i, outs[i].amount)
    ensures forall i | 0 <= i < |outs| ::
              dust[i] == Dust(if isFunding then 15 * DUST_AMOUNT else DUST_AMOUNT, ScriptOf(outs[i]))
    ensures InstructionTotal(insts) == OutputTotal(outs)
  {
    hide InstructionTotal, OutputTotal, ScriptOf;
    insts, dust := [], [];
    NothingMoved(outs);
    for i := 0 to |outs|
      invariant |insts| == |dust| == i
      invariant forall j | 0 <= j < i :: insts[j] == Instruction(j, outs[j].amount)
      invariant forall j | 0 <= j < i ::
                  dust[j] == Dust(if isFunding then 15 * DUST_AMOUNT else DUST_AMOUNT, ScriptOf(outs[j]))
      invariant InstructionTotal(insts) == OutputTotal(outs[..i])
    {
      var inst := Instruction(i % TWO32, outs[i].amount);
      OneMoved(insts, inst, outs, i);
      insts := insts + [inst];
      if isFunding {
        dust := dust + [Dust(DUST_AMOUNT * 15, ScriptOf(outs[i]))];
      } else {
        dust := dust + [Dust(DUST_AMOUNT, ScriptOf(outs[i]))];
      }
    }
    assert outs[..|outs|] == outs;
  }

  /** The colored transaction has the same scripts with dust, in order, and last an output
  without value that carries the encoded instructions. The instructions name each output
  with its amount, and add up to the outputs. It fails exactly if the encoding service does. */
  method ColorifyTx(encode: seq<Instruction> -> Option<seq<byte>>, outs: seq<TxOutput>, isFunding: bool)
    returns (colored: Option<seq<ColoredOutput>>, insts: seq<Instruction>)
    requires |outs| < TWO32
    ensures |insts| == |outs| && forall i | 0 <= i < |outs| :: insts[i] == Instruction(i, outs[i].amount)
    ensures InstructionTotal(insts) == OutputTotal(outs)
    ensures colored.Some? <==> encode(insts).Some?
    ensures colored.Some? ==>
              && |colored.value| == |outs| + 1
              && (forall i | 0 <= i < |outs| ::
                    colored.value[i] == Dust(if isFunding then 15 * DUST_AMOUNT else DUST_AMOUNT, ScriptOf(outs[i])))
              && var payload := encode(insts).value;
              colored.value[|outs|] == OpReturn(0, [OP_RETURN] + VarInt(|payload| % TWO64) + payload)
  {
    var dust;
    insts, dust := MoveAmounts(outs, isFunding);
    var payload := encode(insts);
    if payload.None? {
      return None, insts;
    }
    var script := [OP_RETURN] + VarInt(|payload.value| % TWO64) + payload.value;
    colored := Some(dust + [OpReturn(0, script)]);
  }

  /** In every state of every run of a channel whose initial balances make up its capacity, the outputs
  of each unrevoked commitment's transaction, in whatever order, add up to the capacity. */
  lemma TransactionsCarryCapacity(cr: Crypto, run: seq<Sys>, n: nat, byFirst: bool, c: Chain, i: nat,
                                  capacity: int, order: seq<TxOutput>)
    requires IsRun(cr, run) && n < |run| && run[0].a.start + run[0].b.start == capacity
    requires i < |ChainOf(Seen(run, n, byFirst).a.party, c)|
    requires var p := Seen(run, n, byFirst).a.party; multiset(order) == SignatureOf(p.cfg, c, ChainOf(p, c)[i])
    ensures OutputTotal(order) == capacity
  {
    var p := Seen(run, n, byFirst).a.party;
    CapacityConserved(cr, run, n, byFirst, c, i);
    hide IsRun;
    TotalOfPermutation(order, TxOutputs(p.cfg, c, ChainOf(p, c)[i]));
    OutputsPayCommitment(p.cfg, c, ChainOf(p, c)[i]);
  }
}
