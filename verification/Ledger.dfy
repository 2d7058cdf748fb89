/** What a commitment means: balances and active HTLCs as functions of the two
complete update logs, with no chain heights, no skipping and no compaction. The
channel's incremental evaluation is proved equal to this.
 */
module Ledger {
  import opened Primitives

  /** One update a party makes to its log. A settle names the Add of the other
  party's log that it clears, and carries its amount. */
  datatype Update =
    | Add(amount: int, rhash: Hash, timeout: nat)
    | Settle(parent: nat, amount: int)

  datatype Htlc = Htlc(index: nat, amount: int, rhash: Hash, timeout: nat)

  /** What a party's own updates did to its balance. */
  function Net(log: seq<Update>): int {
    if log == [] then 0
    else
      var u := log[|log| - 1];
      Net(log[..|log| - 1]) + (if u.Add? then -u.amount else u.amount)
  }

  ghost predicate SettledIn(other: seq<Update>, i: nat) {
    exists j :: 0 <= j < |other| && other[j].Settle? && other[j].parent == i
  }

  /** The HTLCs a party offered which the other party has not settled, in log order. */
  ghost function Active(log: seq<Update>, other: seq<Update>): seq<Htlc> {
    if log == [] then []
    else
      var i := |log| - 1;
      var before := Active(log[..i], other);
      if log[i].Add? && !SettledIn(other, i)
      then before + [Htlc(i, log[i].amount, log[i].rhash, log[i].timeout)]
      else before
  }

  function Total(htlcs: seq<Htlc>): int {
    if htlcs == [] then 0 else Total(htlcs[..|htlcs| - 1]) + htlcs[|htlcs| - 1].amount
  }

  /** Every settle of `log` clears an Add of `other`, for its amount, and no Add twice. */
  ghost predicate Paired(log: seq<Update>, other: seq<Update>) {
    && (forall j | 0 <= j < |log| && log[j].Settle? ::
          log[j].parent < |other| && other[log[j].parent].Add? && other[log[j].parent].amount == log[j].amount)
    && Unrepeated(log)
  }

  ghost predicate Unrepeated(log: seq<Update>) {
    forall j, k | 0 <= j < k < |log| && log[j].Settle? && log[k].Settle? :: log[j].parent != log[k].parent
  }

  function Added(log: seq<Update>): int {
    if log == [] then 0
    else Added(log[..|log| - 1]) + if log[|log| - 1].Add? then log[|log| - 1].amount else 0
  }

  function Settled(log: seq<Update>): int {
    if log == [] then 0
    else Settled(log[..|log| - 1]) + if log[|log| - 1].Settle? then log[|log| - 1].amount else 0
  }

  lemma {:induction false} NetSplits(log: seq<Update>)
    ensures Net(log) == Settled(log) - Added(log)
  {
    if log != [] {
      NetSplits(log[..|log| - 1]);
    }
  }

  lemma {:induction false} ActiveWithoutSettles(log: seq<Update>)
    ensures Total(Active(log, [])) == Added(log)
  {
    if log != [] {
      var i := |log| - 1;
      ActiveWithoutSettles(log[..i]);
      TotalStep(log, []);
    }
  }

  lemma TotalStep(log: seq<Update>, other: seq<Update>)
    requires log != []
    ensures var i := |log| - 1;
            Total(Active(log, other)) == Total(Active(log[..i], other))
              + if log[i].Add? && !SettledIn(other, i) then log[i].amount else 0
  {
    var i := |log| - 1;
    var before := Active(log[..i], other);
    if log[i].Add? && !SettledIn(other, i) {
      var h := Htlc(i, log[i].amount, log[i].rhash, log[i].timeout);
      assert (before + [h])[..|before|] == before;
    }
  }

  lemma SettledInStep(other: seq<Update>, u: Update, i: nat)
    ensures SettledIn(other + [u], i) <==> SettledIn(other, i) || (u.Settle? && u.parent == i)
  {
    var longer := other + [u];
    if SettledIn(other, i) {
      var j :| 0 <= j < |other| && other[j].Settle? && other[j].parent == i;
      assert longer[j] == other[j];
    }
    if u.Settle? && u.parent == i {
      assert longer[|other|] == u;
    }
  }

  /** One more update in the other log removes exactly the HTLC it settles, if any. */
  lemma {:induction false} ActiveAfter(log: seq<Update>, other: seq<Update>, u: Update)
    requires u.Settle? ==> !SettledIn(other, u.parent)
    ensures Total(Active(log, other + [u])) == Total(Active(log, other))
              - if u.Settle? && u.parent < |log| && log[u.parent].Add? then log[u.parent].amount else 0
  {
    if log != [] {
      var i := |log| - 1;
      ActiveAfter(log[..i], other, u);
      TotalStep(log, other);
      TotalStep(log, other + [u]);
      SettledInStep(other, u, i);
    }
  }

  lemma {:induction false} AddedIsActiveOrSettled(log: seq<Update>, other: seq<Update>)
    requires Paired(other, log)
    ensures Added(log) == Total(Active(log, other)) + Settled(other)
    decreases other
  {
    if other == [] {
      ActiveWithoutSettles(log);
    } else {
      var n := |other| - 1;
      var u := other[n];
      AddedIsActiveOrSettled(log, other[..n]);
      assert other[..n] + [u] == other;
      ActiveAfter(log, other[..n], u);
    }
  }

  /** No satoshi appears or disappears: what left the balances is in active HTLCs. */
  lemma Conservation(ours: seq<Update>, theirs: seq<Update>)
    requires Paired(ours, theirs) && Paired(theirs, ours)
    ensures Net(ours) + Net(theirs) + Total(Active(ours, theirs)) + Total(Active(theirs, ours)) == 0
  {
    NetSplits(ours);
    NetSplits(theirs);
    AddedIsActiveOrSettled(ours, theirs);
    AddedIsActiveOrSettled(theirs, ours);
  }
}
