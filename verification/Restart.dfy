/** Restarting a channel from disk: the update logs are rebuilt from the stored HTLCs, as Adds
committed one height before the stored one.
 */
module Restart {
  import opened Primitives
  import opened Ledger
  import opened ChannelSpec
  import opened ChannelLists

  /** The stored HTLCs of one direction, in order. */
  function OfDirection(hs: seq<DiskHtlc>, incoming: bool): seq<DiskHtlc> {
    if hs == [] then []
    else
      var (rest, h) := (OfDirection(hs[..|hs| - 1], incoming), hs[|hs| - 1]);
      if h.incoming == incoming then rest + [h] else rest
  }

  function RestoredEntry(h: DiskHtlc, index: nat, past: nat): Entry {
    NewEntry(AddEntry, h.rhash, h.timeout, h.amount, index, 0).(addRemote := past, addLocal := past)
  }

  function RestoredList(hs: seq<DiskHtlc>, past: nat): EntryList {
    seq(|hs|, i requires 0 <= i < |hs| => RestoredEntry(hs[i], i, past))
  }

  function RestoredLog(hs: seq<DiskHtlc>, past: nat): Log {
    map i | 0 <= i < |hs| :: RestoredEntry(hs[i], i, past)
  }

  lemma RestoredListIsLog(hs: seq<DiskHtlc>, past: nat)
    ensures Sorted(RestoredList(hs, past)) && AsMap(RestoredList(hs, past)) == RestoredLog(hs, past)
  {
    var s := RestoredList(hs, past);
    hide AsMap, RestoredEntry;
    assert Sorted(s) && forall i | 0 <= i < |s| :: s[i].index == i by {
      RestoredSorted(hs, past);
    }
    hide Sorted;
    forall i | 0 <= i < |s| ensures i in AsMap(s) && AsMap(s)[i] == s[i] {
      AsMapAt(s, i);
    }
    forall i | i in AsMap(s) ensures i < |s| {
      var k := AsMapFrom(s, i);
    }
  }

  lemma RestoredSorted(hs: seq<DiskHtlc>, past: nat)
    ensures Sorted(RestoredList(hs, past))
    ensures forall i | 0 <= i < |hs| :: RestoredList(hs, past)[i].index == i
  {
  }

  function Below(n: nat): set<nat> {
    if n == 0 then {} else Below(n - 1) + {n - 1}
  }

  function PastHeight(height: nat): nat {
    if height > 0 then height - 1 else 0
  }

  /** The channel a restart makes of a stored state. The chains start from the stored balances
  at the stored height; a channel without history keeps empty logs. */
  function Restored(p: Party, d: Delta, rev: Revocation): Party {
    var past := PastHeight(d.updateNum);
    var outs := if d.updateNum == 0 then [] else OfDirection(d.htlcs, false);
    var ins := if d.updateNum == 0 then [] else OfDirection(d.htlcs, true);
    var base := Commitment(d.updateNum, |outs|, |ins|, d.localBalance, d.remoteBalance, [], [], rev);
    p.(ourLog := RestoredLog(outs, past), theirLog := RestoredLog(ins, past),
       ourLogIndex := Below(|outs|), theirLogIndex := Below(|ins|),
       ourCounter := |outs|, theirCounter := |ins|,
       currentHeight := d.updateNum, windowEdge := d.updateNum, remoteChain := [base], localChain := [base])
  }

  /** The loop that rebuilds the logs. */
  method RestoreStateLogs(htlcs: seq<DiskHtlc>, currentHeight: nat)
    returns (ourLog: EntryList, theirLog: EntryList, ourIndex: set<nat>, theirIndex: set<nat>)
    ensures var (outs, ins, past) := (OfDirection(htlcs, false), OfDirection(htlcs, true), PastHeight(currentHeight));
            && ourLog == RestoredList(outs, past) && theirLog == RestoredList(ins, past)
            && ourIndex == Below(|outs|) && theirIndex == Below(|ins|)
            && Sorted(ourLog) && AsMap(ourLog) == RestoredLog(outs, past)
            && Sorted(theirLog) && AsMap(theirLog) == RestoredLog(ins, past)
  {
    var pastHeight := 0;
    if currentHeight > 0 {
      pastHeight := currentHeight - 1;
    }
    var ourCounter, theirCounter := 0, 0;
    ourLog, theirLog, ourIndex, theirIndex := [], [], {}, {};
    for k := 0 to |htlcs|
      invariant ourLog == RestoredList(OfDirection(htlcs[..k], false), pastHeight)
      invariant theirLog == RestoredList(OfDirection(htlcs[..k], true), pastHeight)
      invariant ourCounter == |ourLog| && theirCounter == |theirLog|
      invariant ourIndex == Below(ourCounter) && theirIndex == Below(theirCounter)
    {
      var h := htlcs[k];
      assert htlcs[..k + 1][..k] == htlcs[..k];
      if !h.incoming {
        ourLog := ourLog + [RestoredEntry(h, ourCounter, pastHeight)];
        ourIndex := ourIndex + {ourCounter};
        ourCounter := ourCounter + 1;
      } else {
        theirLog := theirLog + [RestoredEntry(h, theirCounter, pastHeight)];
        theirIndex := theirIndex + {theirCounter};
        theirCounter := theirCounter + 1;
      }
    }
    assert htlcs[..|htlcs|] == htlcs;
    RestoredListIsLog(OfDirection(htlcs, false), pastHeight);
    RestoredListIsLog(OfDirection(htlcs, true), pastHeight);
  }

  function Amounts(hs: seq<DiskHtlc>): int {
    if hs == [] then 0 else Amounts(hs[..|hs| - 1]) + hs[|hs| - 1].amount
  }

  /** The view lists these HTLCs, in order. */
  ghost predicate Lists(view: seq<Htlc>, hs: seq<DiskHtlc>) {
    && |view| == |hs|
    && forall i | 0 <= i < |hs| :: view[i] == Htlc(i, hs[i].amount, hs[i].rhash, hs[i].timeout)
  }

  /** Evaluating a restored log: the Adds are all listed, and debited only if the height they
  were restored at is zero, which the evaluator takes for uncommitted. */
  lemma {:induction false} EvaluateRestored(hs: seq<DiskHtlc>, past: nat, n: nat, c: Chain)
    requires n <= |hs|
    ensures var log := RestoredLog(hs, past);
            && SkipSet(log, n) == {}
            && Credit(log, n, c, SettleEntry) == 0 && Credit(log, n, c, TimeoutEntry) == 0
            && Debit(log, n, c, {}) == (if past == 0 then Amounts(hs[..n]) else 0)
            && Lists(Live(log, n, {}), hs[..n])
    decreases n
  {
    if n > 0 {
      EvaluateRestored(hs, past, n - 1, c);
      assert hs[..n][..n - 1] == hs[..n - 1];
    }
  }

  lemma NoAmounts()
    ensures Amounts([]) == 0
  {
  }

  /** A restart from height 2 or more keeps the ledger: the next commitment of either chain has
  the stored balances and lists exactly the stored HTLCs, by direction and in order. At height
  1 the HTLCs are listed too, but the balances are kept only if the HTLCs of each direction
  add up to nothing. */
  lemma RestartKeepsLedger(p: Party, d: Delta, rev: Revocation, c: Chain, next: Revocation)
    ensures var q := Restored(p, d, rev);
            var view := ViewAt(q, c, q.ourCounter, q.theirCounter, next);
            var (outs, ins) := (OfDirection(d.htlcs, false), OfDirection(d.htlcs, true));
            && (d.updateNum > 0 ==> Lists(view.outgoing, outs) && Lists(view.incoming, ins))
            && (view.ourBalance == d.localBalance <==> d.updateNum != 1 || Amounts(outs) == 0)
            && (view.theirBalance == d.remoteBalance <==> d.updateNum != 1 || Amounts(ins) == 0)
  {
    hide OfDirection, SkipSet, Credit, Debit, Live, RestoredLog, Below, Amounts;
    var q := Restored(p, d, rev);
    var past := PastHeight(d.updateNum);
    var outs := if d.updateNum == 0 then [] else OfDirection(d.htlcs, false);
    var ins := if d.updateNum == 0 then [] else OfDirection(d.htlcs, true);
    EvaluateRestored(outs, past, |outs|, c);
    EvaluateRestored(ins, past, |ins|, c);
    assert outs[..|outs|] == outs && ins[..|ins|] == ins;
    assert Amounts([]) == 0 by {
      NoAmounts();
    }
  }

  lemma OfDirectionPush(xs: seq<DiskHtlc>, h: DiskHtlc, wanted: bool)
    ensures OfDirection(xs + [h], wanted) == OfDirection(xs, wanted) + if h.incoming == wanted then [h] else []
  {
    assert (xs + [h])[..|xs|] == xs;
  }

  lemma {:induction false} DirectionOfDisk(xs: seq<DiskHtlc>, hs: seq<Htlc>, incoming: bool, wanted: bool)
    ensures OfDirection(xs + DiskHtlcs(hs, incoming), wanted)
         == OfDirection(xs, wanted) + if incoming == wanted then DiskHtlcs(hs, incoming) else []
    decreases |hs|
  {
    hide OfDirection;
    if hs == [] {
      assert xs + DiskHtlcs(hs, incoming) == xs;
    } else {
      var (front, h) := (hs[..|hs| - 1], hs[|hs| - 1]);
      var last := DiskHtlc(incoming, h.amount, h.rhash, h.timeout, 0);
      DirectionOfDisk(xs, front, incoming, wanted);
      OfDirectionPush(xs + DiskHtlcs(front, incoming), last, wanted);
      assert xs + DiskHtlcs(hs, incoming) == xs + DiskHtlcs(front, incoming) + [last];
    }
  }

  lemma DeltaByDirection(k: Commitment)
    ensures OfDirection(ToChannelDelta(k).htlcs, false) == DiskHtlcs(k.outgoing, false)
    ensures OfDirection(ToChannelDelta(k).htlcs, true) == DiskHtlcs(k.incoming, true)
  {
    var outs, ins := DiskHtlcs(k.outgoing, false), DiskHtlcs(k.incoming, true);
    assert OfDirection([], false) == [] && OfDirection([], true) == [];
    assert [] + outs == outs && [] + ins == ins && outs + [] == outs;
    hide OfDirection, DiskHtlcs;
    DirectionOfDisk([], k.outgoing, false, false);
    DirectionOfDisk([], k.outgoing, false, true);
    DirectionOfDisk(outs, k.incoming, true, false);
    DirectionOfDisk(outs, k.incoming, true, true);
  }

  lemma {:induction false} DiskHtlcsAt(hs: seq<Htlc>, incoming: bool)
    ensures |DiskHtlcs(hs, incoming)| == |hs|
    ensures forall i | 0 <= i < |hs| ::
              DiskHtlcs(hs, incoming)[i] == DiskHtlc(incoming, hs[i].amount, hs[i].rhash, hs[i].timeout, 0)
    decreases |hs|
  {
    if hs != [] {
      DiskHtlcsAt(hs[..|hs| - 1], incoming);
    }
  }

  /** The same HTLCs, whatever their log indexes. */
  ghost predicate SameHtlcs(a: seq<Htlc>, b: seq<Htlc>) {
    && |a| == |b|
    && forall i | 0 <= i < |a| :: a[i].amount == b[i].amount && a[i].rhash == b[i].rhash && a[i].timeout == b[i].timeout
  }

  /** Storing a commitment and restarting from it gives a channel whose next commitment has
  the same balances and the same HTLCs, from height 2 on. */
  lemma RestartAfterStore(p: Party, k: Commitment, rev: Revocation, c: Chain, next: Revocation)
    requires k.height % TWO32 >= 2
    ensures var q := Restored(p, ToChannelDelta(k), rev);
            var view := ViewAt(q, c, q.ourCounter, q.theirCounter, next);
            && view.ourBalance == k.ourBalance && view.theirBalance == k.theirBalance
            && SameHtlcs(view.outgoing, k.outgoing) && SameHtlcs(view.incoming, k.incoming)
  {
    hide OfDirection, DiskHtlcs, ViewAt, Restored;
    RestartKeepsLedger(p, ToChannelDelta(k), rev, c, next);
    DeltaByDirection(k);
    DiskHtlcsAt(k.outgoing, false);
    DiskHtlcsAt(k.incoming, true);
  }

  /** At height 1 a stored HTLC is taken from its sender's balance a second time. */
  lemma RestartAtHeightOneDebitsAgain(p: Party, rev: Revocation, next: Revocation)
    ensures var d := Delta(95, 100, 1, [DiskHtlc(false, 5, ZeroHash(), 0, 0)]);
            var q := Restored(p, d, rev);
            ViewAt(q, Local, q.ourCounter, q.theirCounter, next).ourBalance == 90
  {
    var h := DiskHtlc(false, 5, ZeroHash(), 0, 0);
    assert [h][..0] == [];
    assert OfDirection([h], false) == [h] && OfDirection([h], true) == [];
    EvaluateRestored([h], 0, 1, Local);
    EvaluateRestored([], 0, 0, Local);
    assert [h][..1] == [h];
    assert Amounts([h]) == 5;
  }
}
