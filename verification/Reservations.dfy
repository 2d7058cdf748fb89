/** Channel reservations and coin selection: which outputs are locked for which pending
channel, over every run of reserve, cancel, complete and reset.
 */
module Reservations {
  import opened Primitives

  datatype Utxo = Utxo(outpoint: OutPoint, assetId: string, value: int)

  /** The wallet lists an output once. */
  ghost predicate Distinct(coins: seq<Utxo>) {
    forall i, j | 0 <= i < j < |coins| :: coins[i].outpoint != coins[j].outpoint
  }

  /* --- coin selection ------------------------------------------------------------------------ */

  /** How much of an asset the first `k` coins hold. */
  function AssetTotal(coins: seq<Utxo>, k: nat, assetId: string): int
    requires k <= |coins|
  {
    if k == 0 then 0
    else AssetTotal(coins, k - 1, assetId) + if coins[k - 1].assetId == assetId then coins[k - 1].value else 0
  }

  /** The coins of an asset among the first `k`, in order. */
  function AssetCoins(coins: seq<Utxo>, k: nat, assetId: string): (r: seq<OutPoint>)
    requires k <= |coins|
  {
    if k == 0 then []
    else AssetCoins(coins, k - 1, assetId) + if coins[k - 1].assetId == assetId then [coins[k - 1].outpoint] else []
  }

  /** Takes the asset's coins in order until they make up the amount. Fails exactly if no
  initial part of the coins holds enough. */
  method SelectInputs(amt: int, coins: seq<Utxo>, assetId: string)
    returns (ok: bool, total: int, selected: seq<OutPoint>, ghost k: nat)
    ensures ok ==> k <= |coins| && total == AssetTotal(coins, k, assetId) >= amt
    ensures ok ==> selected == AssetCoins(coins, k, assetId)
    ensures ok ==> forall j | 0 <= j < k :: AssetTotal(coins, j, assetId) < amt
    ensures !ok ==> forall j | 0 <= j <= |coins| :: AssetTotal(coins, j, assetId) < amt
  {
    ok, total, selected, k := true, 0, [], 0;
    var i := 0;
    while total < amt
      invariant i <= |coins| && total == AssetTotal(coins, i, assetId) && selected == AssetCoins(coins, i, assetId)
      invariant forall j | 0 <= j < i :: AssetTotal(coins, j, assetId) < amt
      decreases |coins| - i
    {
      if i > |coins| - 1 {
        return false, 0, [], 0;
      }
      var coin := coins[i];
      if coin.assetId == assetId {
        selected := selected + [coin.outpoint];
        total := total + coin.value;
      }
      i := i + 1;
    }
    k := i;
  }

  ghost predicate NonNegative(coins: seq<Utxo>) {
    forall i | 0 <= i < |coins| :: coins[i].value >= 0
  }

  ghost predicate Suffices(coins: seq<Utxo>, amt: int, assetId: string) {
    AssetTotal(coins, |coins|, assetId) >= amt
  }

  /** With non-negative holdings an initial part is enough exactly if all of them are. */
  lemma {:induction false} TotalRises(coins: seq<Utxo>, assetId: string, j: nat, k: nat)
    requires j <= k <= |coins| && NonNegative(coins)
    ensures AssetTotal(coins, j, assetId) <= AssetTotal(coins, k, assetId)
    decreases k
  {
    if j < k {
      TotalRises(coins, assetId, j, k - 1);
    }
  }

  /** The selected coins hold the amount and the change; with non-negative holdings selection
  succeeds exactly if the asset's holdings suffice. */
  method CoinSelect(amt: int, coins: seq<Utxo>, assetId: string)
    returns (ok: bool, selected: seq<OutPoint>, change: int, ghost k: nat)
    ensures ok ==> k <= |coins| && selected == AssetCoins(coins, k, assetId)
    ensures ok ==> AssetTotal(coins, k, assetId) == amt + change && change >= 0
    ensures ok ==> forall j | 0 <= j < k :: AssetTotal(coins, j, assetId) < amt
    ensures NonNegative(coins) ==> (ok <==> Suffices(coins, amt, assetId))
  {
    var total;
    ok, total, selected, k := SelectInputs(amt, coins, assetId);
    change := total - amt;
    AllAreMost(coins, assetId);
  }

  lemma AllAreMost(coins: seq<Utxo>, assetId: string)
    ensures NonNegative(coins) ==>
              forall k | 0 <= k <= |coins| :: AssetTotal(coins, k, assetId) <= AssetTotal(coins, |coins|, assetId)
  {
    if NonNegative(coins) {
      forall k | 0 <= k <= |coins|
        ensures AssetTotal(coins, k, assetId) <= AssetTotal(coins, |coins|, assetId)
      {
        TotalRises(coins, assetId, k, |coins|);
      }
    }
  }

  lemma {:induction false} AssetCoinsFrom(coins: seq<Utxo>, k: nat, assetId: string, o: OutPoint)
    requires k <= |coins| && o in AssetCoins(coins, k, assetId)
    ensures exists i :: 0 <= i < k && coins[i].outpoint == o && coins[i].assetId == assetId
    decreases k
  {
    if o in AssetCoins(coins, k - 1, assetId) {
      AssetCoinsFrom(coins, k - 1, assetId, o);
    } else {
      assert coins[k - 1].outpoint == o;
    }
  }

  /** No coin is selected twice. */
  lemma {:induction false} AssetCoinsDistinct(coins: seq<Utxo>, k: nat, assetId: string)
    requires k <= |coins| && Distinct(coins)
    ensures forall i, j | 0 <= i < j < |AssetCoins(coins, k, assetId)| ::
              AssetCoins(coins, k, assetId)[i] != AssetCoins(coins, k, assetId)[j]
    decreases k
  {
    if k > 0 {
      AssetCoinsDistinct(coins, k - 1, assetId);
      if coins[k - 1].outpoint in AssetCoins(coins, k - 1, assetId) {
        AssetCoinsFrom(coins, k - 1, assetId, coins[k - 1].outpoint);
      }
    }
  }

  /** The coins the wallet offers: those not locked. */
  function Eligible(unspent: seq<Utxo>, locks: set<OutPoint>): (r: seq<Utxo>)
    ensures forall c :: c in r <==> c in unspent && c.outpoint !in locks
  {
    if unspent == [] then []
    else
      Eligible(unspent[..|unspent| - 1], locks)
      + if unspent[|unspent| - 1].outpoint !in locks then [unspent[|unspent| - 1]] else []
  }

  lemma {:induction false} EligibleDistinct(unspent: seq<Utxo>, locks: set<OutPoint>)
    requires Distinct(unspent)
    ensures Distinct(Eligible(unspent, locks))
    decreases |unspent|
  {
    if unspent != [] {
      var (front, last) := (unspent[..|unspent| - 1], unspent[|unspent| - 1]);
      EligibleDistinct(front, locks);
      forall c | c in Eligible(front, locks) ensures c.outpoint != last.outpoint {
        assert c in front;
        var i :| 0 <= i < |front| && front[i] == c;
        assert unspent[i] == c;
      }
    }
  }

  /** The coins `r` are the unlocked ones, in the order of the wallet, `at` their places there. */
  ghost predicate InOrder(at: seq<nat>, r: seq<Utxo>, unspent: seq<Utxo>, locks: set<OutPoint>) {
    && |at| == |r|
    && (forall j, k | 0 <= j < k < |at| :: at[j] < at[k])
    && (forall k | 0 <= k < |at| :: at[k] < |unspent| && r[k] == unspent[at[k]] && r[k].outpoint !in locks)
    && (forall i | 0 <= i < |unspent| && unspent[i].outpoint !in locks :: i in at)
  }

  lemma InOrderStep(at: seq<nat>, r: seq<Utxo>, unspent: seq<Utxo>, c: Utxo, locks: set<OutPoint>)
    requires InOrder(at, r, unspent, locks)
    ensures if c.outpoint !in locks then InOrder(at + [|unspent|], r + [c], unspent + [c], locks)
            else InOrder(at, r, unspent + [c], locks)
  {
  }

  lemma {:induction false} EligibleInOrder(unspent: seq<Utxo>, locks: set<OutPoint>) returns (at: seq<nat>)
    ensures InOrder(at, Eligible(unspent, locks), unspent, locks)
    decreases |unspent|
  {
    hide InOrder, Eligible;
    if unspent == [] {
      at := [];
      NoneInOrder(locks);
    } else {
      var front, last := unspent[..|unspent| - 1], unspent[|unspent| - 1];
      assert unspent == front + [last];
      var before := EligibleInOrder(front, locks);
      InOrderStep(before, Eligible(front, locks), front, last, locks);
      EligibleStep(unspent, locks);
      if last.outpoint !in locks {
        at := before + [|front|];
      } else {
        at := before;
      }
    }
  }

  lemma NoneInOrder(locks: set<OutPoint>)
    ensures InOrder([], Eligible([], locks), [], locks)
  {
  }

  lemma EligibleStep(unspent: seq<Utxo>, locks: set<OutPoint>)
    requires unspent != []
    ensures var (before, last) := (Eligible(unspent[..|unspent| - 1], locks), unspent[|unspent| - 1]);
            Eligible(unspent, locks) == if last.outpoint !in locks then before + [last] else before
  {
  }

  /** What a selection from the coins promises. */
  ghost predicate Selects(coins: seq<Utxo>, amt: int, assetId: string, ok: bool, inputs: seq<OutPoint>, change: int, k: nat) {
    && (ok ==> k <= |coins| && inputs == AssetCoins(coins, k, assetId))
    && (ok ==> AssetTotal(coins, k, assetId) == amt + change && change >= 0)
    && (ok ==> forall j | 0 <= j < k :: AssetTotal(coins, j, assetId) < amt)
    && (NonNegative(coins) ==> (ok <==> Suffices(coins, amt, assetId)))
  }

  /** The inputs are the coins of the shortest initial part that holds the amount. */
  ghost predicate Funded(coins: seq<Utxo>, amt: int, assetId: string, inputs: seq<OutPoint>) {
    exists change, k :: Selects(coins, amt, assetId, true, inputs, change, k)
  }

  /** What the coin at an outpoint holds of an asset. */
  function Holding(coins: seq<Utxo>, o: OutPoint, assetId: string): int {
    if coins == [] then 0
    else
      Holding(coins[..|coins| - 1], o, assetId)
      + var c := coins[|coins| - 1]; if c.outpoint == o && c.assetId == assetId then c.value else 0
  }

  function InputTotal(coins: seq<Utxo>, inputs: seq<OutPoint>, assetId: string): int {
    if inputs == [] then 0
    else InputTotal(coins, inputs[..|inputs| - 1], assetId) + Holding(coins, inputs[|inputs| - 1], assetId)
  }

  lemma {:induction false} HoldingAbsent(coins: seq<Utxo>, o: OutPoint, assetId: string)
    requires forall i | 0 <= i < |coins| :: coins[i].outpoint != o
    ensures Holding(coins, o, assetId) == 0
    decreases |coins|
  {
    if coins != [] {
      HoldingAbsent(coins[..|coins| - 1], o, assetId);
    }
  }

  lemma {:induction false} HoldingAt(coins: seq<Utxo>, i: nat)
    requires Distinct(coins) && i < |coins|
    ensures Holding(coins, coins[i].outpoint, coins[i].assetId) == coins[i].value
    decreases |coins|
  {
    var n := |coins| - 1;
    if i < n {
      HoldingAt(coins[..n], i);
    } else {
      HoldingAbsent(coins[..n], coins[n].outpoint, coins[n].assetId);
    }
  }

  /** The running total of the selection is what the selected coins hold. */
  lemma {:induction false} SelectedHold(coins: seq<Utxo>, k: nat, assetId: string)
    requires Distinct(coins) && k <= |coins|
    ensures InputTotal(coins, AssetCoins(coins, k, assetId), assetId) == AssetTotal(coins, k, assetId)
    decreases k
  {
    if k > 0 {
      SelectedHold(coins, k - 1, assetId);
      var before, c := AssetCoins(coins, k - 1, assetId), coins[k - 1];
      if c.assetId == assetId {
        HoldingAt(coins, k - 1);
        assert (before + [c.outpoint])[..|before|] == before;
      } else {
        assert before + [] == before;
      }
    }
  }

  /** Inputs that fund an amount are coins of the asset that hold it, and every coin of them is
  needed: without the last they do not. */
  lemma FundedHolds(coins: seq<Utxo>, amt: int, assetId: string, inputs: seq<OutPoint>)
    requires Distinct(coins) && Funded(coins, amt, assetId, inputs)
    ensures InputTotal(coins, inputs, assetId) >= amt
    ensures inputs != [] ==> InputTotal(coins, inputs[..|inputs| - 1], assetId) < amt
    ensures forall o | o in inputs :: exists c :: c in coins && c.outpoint == o && c.assetId == assetId
  {
    hide InputTotal;
    var change, k :| Selects(coins, amt, assetId, true, inputs, change, k);
    SelectedHold(coins, k, assetId);
    if inputs != [] {
      var j := LastTaken(coins, k, assetId);
      SelectedHold(coins, j, assetId);
    }
    forall o | o in inputs ensures exists c :: c in coins && c.outpoint == o && c.assetId == assetId {
      AssetCoinsFrom(coins, k, assetId, o);
    }
  }

  /** The initial part before the last coin taken. */
  lemma {:induction false} LastTaken(coins: seq<Utxo>, k: nat, assetId: string) returns (j: nat)
    requires k <= |coins| && AssetCoins(coins, k, assetId) != []
    ensures var all := AssetCoins(coins, k, assetId); j < k && AssetCoins(coins, j, assetId) == all[..|all| - 1]
    decreases k
  {
    if coins[k - 1].assetId == assetId {
      j := k - 1;
      var before := AssetCoins(coins, j, assetId);
      assert (before + [coins[j].outpoint])[..|before|] == before;
    } else {
      j := LastTaken(coins, k - 1, assetId);
    }
  }

  /** Coin selection over coins that are not locked: different ones, and none locked. */
  method Choose(amt: int, coins: seq<Utxo>, assetId: string, ghost locks: set<OutPoint>)
    returns (ok: bool, inputs: seq<OutPoint>, change: int, ghost k: nat)
    requires Distinct(coins) && forall c | c in coins :: c.outpoint !in locks
    ensures Selects(coins, amt, assetId, ok, inputs, change, k)
    ensures ok ==> forall o | o in inputs :: o !in locks
    ensures ok ==> forall i, j | 0 <= i < j < |inputs| :: inputs[i] != inputs[j]
  {
    ok, inputs, change, k := CoinSelect(amt, coins, assetId);
    if ok {
      AssetCoinsDistinct(coins, k, assetId);
      forall o | o in inputs ensures o !in locks {
        AssetCoinsFrom(coins, k, assetId, o);
      }
    }
  }

  /* --- reservations ----------------------------------------------------------------------------- */

  /** Inputs of different reservations are disjoint, those of one are distinct, and all are
  locked, both in the reservation books and in the wallet. */
  ghost predicate Safe(limbo: map<nat, seq<OutPoint>>, locked: set<OutPoint>, wallet: set<OutPoint>) {
    && locked <= wallet
    && (forall id, o | id in limbo && o in limbo[id] :: o in locked)
    && (forall id, id', o | id in limbo && id' in limbo && id != id' && o in limbo[id] :: o !in limbo[id'])
    && (forall id | id in limbo :: forall i, j | 0 <= i < j < |limbo[id]| :: limbo[id][i] != limbo[id][j])
  }

  function Elements(s: seq<OutPoint>): (r: set<OutPoint>)
    ensures forall o :: o in r <==> o in s
  {
    if s == [] then {} else Elements(s[..|s| - 1]) + {s[|s| - 1]}
  }

  class LightningWallet {
    var fundingLimbo: map<nat, seq<OutPoint>>
    var nextFundingID: nat
    var lockedOutPoints: set<OutPoint>
    /** The locks held by the wallet behind the interface, ours and others. */
    var walletLocks: set<OutPoint>

    ghost predicate Valid()
      reads this
    {
      && Safe(fundingLimbo, lockedOutPoints, walletLocks)
      && forall id | id in fundingLimbo :: id <= nextFundingID
    }

    constructor (locks: set<OutPoint>)
      ensures Valid() && fundingLimbo == map[] && lockedOutPoints == {} && walletLocks == locks
    {
      fundingLimbo, nextFundingID, lockedOutPoints, walletLocks := map[], 0, {}, locks;
    }

    /** Marks the inputs as reserved, here and in the wallet. */
    method LockInputs(inputs: seq<OutPoint>)
      modifies this`lockedOutPoints, this`walletLocks
      ensures lockedOutPoints == old(lockedOutPoints) + Elements(inputs)
      ensures walletLocks == old(walletLocks) + Elements(inputs)
    {
      for i := 0 to |inputs|
        invariant lockedOutPoints == old(lockedOutPoints) + Elements(inputs[..i])
        invariant walletLocks == old(walletLocks) + Elements(inputs[..i])
      {
        assert inputs[..i + 1][..i] == inputs[..i];
        lockedOutPoints := lockedOutPoints + {inputs[i]};
        walletLocks := walletLocks + {inputs[i]};
      }
      assert inputs[..|inputs|] == inputs;
    }

    /** Selects coins no one has locked and locks exactly these. They hold the amount plus the
    change, and with non-negative holdings the selection succeeds exactly if the unlocked ones
    suffice; on failure nothing is locked. */
    method SelectCoins(amt: int, unspent: seq<Utxo>, assetId: string)
      returns (ok: bool, inputs: seq<OutPoint>, change: int, ghost k: nat)
      requires Valid() && Distinct(unspent)
      modifies this`lockedOutPoints, this`walletLocks
      ensures Valid()
      ensures Selects(Eligible(unspent, old(walletLocks)), amt, assetId, ok, inputs, change, k)
      ensures lockedOutPoints == old(lockedOutPoints) + if ok then Elements(inputs) else {}
      ensures walletLocks == old(walletLocks) + if ok then Elements(inputs) else {}
      ensures ok ==> forall o | o in inputs :: o !in old(walletLocks)
      ensures ok ==> forall i, j | 0 <= i < j < |inputs| :: inputs[i] != inputs[j]
    {
      hide Eligible, Selects, Distinct, Elements;
      var coins := Eligible(unspent, walletLocks);
      EligibleDistinct(unspent, walletLocks);
      ok, inputs, change, k := Choose(amt, coins, assetId, walletLocks);
      if ok {
        LockInputs(inputs);
      }
    }

    /** A reservation enters limbo under the next id, with inputs that fund it and that no one
    had locked; with non-negative holdings it is granted exactly if the keys can be derived
    and, unless nothing is to be funded, the unlocked coins suffice. A refused one adds
    nothing to limbo; coins already selected for it stay locked. */
    method Reserve(fundingAmount: int, unspent: seq<Utxo>, assetId: string, keysDerived: bool) returns (id: Option<nat>)
      requires Valid() && Distinct(unspent)
      modifies this
      ensures Valid()
      ensures nextFundingID == old(nextFundingID) + 1
      ensures id.Some? ==>
                && keysDerived && id.value == nextFundingID && id.value !in old(fundingLimbo)
                && id.value in fundingLimbo && fundingLimbo == old(fundingLimbo)[id.value := fundingLimbo[id.value]]
                && (forall o | o in fundingLimbo[id.value] :: o !in old(walletLocks))
                && lockedOutPoints == old(lockedOutPoints) + Elements(fundingLimbo[id.value])
                && walletLocks == old(walletLocks) + Elements(fundingLimbo[id.value])
                && (fundingAmount == 0 ==> fundingLimbo[id.value] == [])
                && (fundingAmount != 0 ==>
                      Funded(Eligible(unspent, old(walletLocks)), fundingAmount, assetId, fundingLimbo[id.value]))
      ensures NonNegative(Eligible(unspent, old(walletLocks))) ==>
                (id.Some? <==>
                   && keysDerived
                   && (fundingAmount == 0 || Suffices(Eligible(unspent, old(walletLocks)), fundingAmount, assetId)))
      ensures id.None? ==>
                && fundingLimbo == old(fundingLimbo)
                && exists inputs ::
                     && (inputs == [] ||
                           (!keysDerived && Funded(Eligible(unspent, old(walletLocks)), fundingAmount, assetId, inputs)))
                     && lockedOutPoints == old(lockedOutPoints) + Elements(inputs)
                     && walletLocks == old(walletLocks) + Elements(inputs)
    {
      hide Eligible, Distinct, NonNegative, Suffices, AssetTotal, AssetCoins;
      ghost var coins := Eligible(unspent, walletLocks);
      nextFundingID := nextFundingID + 1;
      var inputs: seq<OutPoint> := [];
      if fundingAmount != 0 {
        var ok, change;
        ghost var k;
        ok, inputs, change, k := SelectCoins(fundingAmount, unspent, assetId);
        if !ok {
          assert Elements([]) == {};
          return None;
        }
        assert Funded(coins, fundingAmount, assetId, inputs);
      }
      if !keysDerived {
        assert walletLocks == old(walletLocks) + Elements(inputs);
        return None;
      }
      fundingLimbo := fundingLimbo[nextFundingID := inputs];
      return Some(nextFundingID);
    }

    /** Marks the inputs as available again, here and in the wallet. */
    method FreeInputs(inputs: seq<OutPoint>)
      modifies this`lockedOutPoints, this`walletLocks
      ensures lockedOutPoints == old(lockedOutPoints) - Elements(inputs)
      ensures walletLocks == old(walletLocks) - Elements(inputs)
    {
      for i := 0 to |inputs|
        invariant lockedOutPoints == old(lockedOutPoints) - Elements(inputs[..i])
        invariant walletLocks == old(walletLocks) - Elements(inputs[..i])
      {
        assert inputs[..i + 1][..i] == inputs[..i];
        lockedOutPoints := lockedOutPoints - {inputs[i]};
        walletLocks := walletLocks - {inputs[i]};
      }
      assert inputs[..|inputs|] == inputs;
    }

    /** Frees the inputs of the cancelled reservation and no others. */
    method Cancel(id: nat) returns (ok: bool)
      requires Valid()
      modifies this`fundingLimbo, this`lockedOutPoints, this`walletLocks
      ensures Valid() && ok == (id in old(fundingLimbo)) && fundingLimbo == old(fundingLimbo) - {id}
      ensures ok ==> lockedOutPoints == old(lockedOutPoints) - Elements(old(fundingLimbo)[id])
      ensures ok ==> walletLocks == old(walletLocks) - Elements(old(fundingLimbo)[id])
      ensures !ok ==> lockedOutPoints == old(lockedOutPoints) && walletLocks == old(walletLocks)
    {
      if id !in fundingLimbo {
        return false;
      }
      FreeInputs(fundingLimbo[id]);
      fundingLimbo := fundingLimbo - {id};
      return true;
    }

    /** A completed reservation leaves limbo; its inputs stay locked. */
    method Complete(id: nat) returns (ok: bool)
      requires Valid()
      modifies this`fundingLimbo
      ensures Valid() && ok == (id in old(fundingLimbo)) && fundingLimbo == old(fundingLimbo) - {id}
    {
      ok := id in fundingLimbo;
      fundingLimbo := fundingLimbo - {id};
    }

    /** Nothing is in limbo and none of our locks is left; locks of others stay. */
    method ResetReservations()
      requires Valid()
      modifies this
      ensures Valid() && fundingLimbo == map[] && lockedOutPoints == {}
      ensures walletLocks == old(walletLocks) - old(lockedOutPoints)
    {
      nextFundingID, fundingLimbo := 0, map[];
      var left := lockedOutPoints;
      while left != {}
        modifies this`walletLocks
        invariant left <= old(lockedOutPoints) && walletLocks == old(walletLocks) - (old(lockedOutPoints) - left)
        decreases |left|
      {
        var o :| o in left;
        walletLocks := walletLocks - {o};
        left := left - {o};
      }
      lockedOutPoints := {};
    }
  }
}
