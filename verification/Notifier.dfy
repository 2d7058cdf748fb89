/** Confirmation notifications: clients ask to be told once when a transaction has a number
of confirmations. A registered client waits under its txid; once the transaction is mined
it is notified or put on the heap; a later block takes it off the heap and notifies it.
 */
module Notifier {
  import opened Primitives
  import opened ConfHeap

  /** A height sent on a client's channel. */
  datatype Send = Send(id: nat, height: nat)

  /** Where a client is: waiting for its transaction, on the heap, or told; in the last two
  cases with the height of the block that held the transaction. */
  datatype Place = Waiting | Pending(mined: nat) | Told(mined: nat)

  /** The dispatcher's books: clients by txid, the heap's entries and all sends so far, and
  beside them all clients in order of registration and the place of each. */
  datatype Books = Books(
    waiting: map<Hash, seq<Client>>, heap: multiset<Entry>, sent: multiset<Send>,
    clients: seq<Client>, places: seq<Place>)

  /** A 32-bit sum. */
  function Trigger(height: nat, confs: nat): nat {
    (height + confs - 1) % TWO32
  }

  /** The height a client is told: the trigger height, but not before the block that holds
  the transaction. */
  function TellAt(height: nat, confs: nat): nat {
    if confs == 1 || Trigger(height, confs) < height then height else Trigger(height, confs)
  }

  /** For one confirmation or more, short of the 32-bit limit, that is the height at which
  the transaction has so many confirmations. */
  lemma TellAtNthConfirmation(height: nat, confs: nat)
    requires 1 <= confs && height + confs - 1 < TWO32
    ensures TellAt(height, confs) == height + confs - 1
  {
  }

  function Bit(b: bool): nat {
    if b then 1 else 0
  }

  function WaitingCount(x: Books, c: Client): nat {
    if c.txid in x.waiting then multiset(x.waiting[c.txid])[c] else 0
  }

  ghost predicate IsClient(x: Books, c: Client) {
    c.id < |x.clients| && x.clients[c.id] == c
  }

  /** The client is at its place, once, and nowhere else. */
  ghost predicate ClientOk(x: Books, id: nat)
    requires id < |x.clients| == |x.places|
  {
    var (c, p) := (x.clients[id], x.places[id]);
    && c.id == id
    && WaitingCount(x, c) == Bit(p.Waiting?)
    && (forall t :: x.heap[Entry(c, t)] == Bit(p.Pending? && t == Trigger(p.mined, c.numConfirmations)))
    && (forall h :: x.sent[Send(id, h)] == Bit(p.Told? && h == TellAt(p.mined, c.numConfirmations)))
  }

  ghost predicate Registered(x: Books) {
    && |x.clients| == |x.places|
    && (forall e | e in x.heap :: IsClient(x, e.client))
    && (forall m | m in x.sent :: m.id < |x.clients|)
    && (forall t, c | t in x.waiting && c in x.waiting[t] :: IsClient(x, c) && c.txid == t)
  }

  ghost predicate Placed(x: Books) {
    Registered(x) && forall id | 0 <= id < |x.clients| :: ClientOk(x, id)
  }

  /** Between blocks: what is on the heap is still to come, what was told has come. */
  ghost predicate Timely(p: Place, confs: nat, height: nat) {
    match p
    case Waiting => true
    case Pending(b) => confs != 1 && b <= height < Trigger(b, confs)
    case Told(b) => TellAt(b, confs) <= height
  }

  /** While the block at `height` is processed, entries due now may still be on the heap. */
  ghost predicate Due(p: Place, confs: nat, height: nat) {
    match p
    case Waiting => true
    case Pending(b) => confs != 1 && b <= height && (b == height || height <= Trigger(b, confs))
    case Told(b) => TellAt(b, confs) <= height
  }

  ghost predicate Settled(x: Books, height: nat) {
    Placed(x) && forall id | 0 <= id < |x.clients| :: Timely(x.places[id], x.clients[id].numConfirmations, height)
  }

  ghost predicate Settling(x: Books, height: nat) {
    Placed(x) && forall id | 0 <= id < |x.clients| :: Due(x.places[id], x.clients[id].numConfirmations, height)
  }

  /** Exactly-once notification: between blocks, a client whose transaction was mined at
  height b has been told, once, if the height it waits for has been reached, and is still
  to be told otherwise; one whose transaction is not mined has never been told. */
  lemma ToldExactlyOnce(x: Books, height: nat, id: nat, h: nat)
    requires Settled(x, height) && id < |x.clients|
    ensures var (p, n) := (x.places[id], x.clients[id].numConfirmations);
            x.sent[Send(id, h)] == Bit(!p.Waiting? && h == TellAt(p.mined, n) && h <= height)
  {
    assert ClientOk(x, id);
    assert Timely(x.places[id], x.clients[id].numConfirmations, height);
  }

  /* --- the steps of the dispatcher ------------------------------------------------------------- */

  function Register(x: Books, c: Client): Books {
    var list := if c.txid in x.waiting then x.waiting[c.txid] else [];
    x.(waiting := x.waiting[c.txid := list + [c]], clients := x.clients + [c], places := x.places + [Waiting])
  }

  lemma RegisterNew(x: Books, c: Client)
    requires Registered(x) && c.id == |x.clients|
    ensures Registered(Register(x, c)) && ClientOk(Register(x, c), c.id)
  {
    var y := Register(x, c);
    forall e | e in x.heap ensures e.client != c {
      assert IsClient(x, e.client);
    }
    assert WaitingCount(x, c) == 0;
    assert forall h :: Send(c.id, h) !in x.sent;
  }

  lemma RegisterOther(x: Books, c: Client, id: nat)
    requires |x.clients| == |x.places| && id < |x.clients| == c.id && ClientOk(x, id)
    ensures ClientOk(Register(x, c), id)
  {
    var d := x.clients[id];
    assert d != c;
    assert WaitingCount(Register(x, c), d) == WaitingCount(x, d);
  }

  lemma RegisterKeeps(x: Books, height: nat, c: Client)
    requires Settled(x, height) && c.id == |x.clients|
    ensures Settled(Register(x, c), height)
  {
    hide ClientOk, Timely;
    var y := Register(x, c);
    RegisterNew(x, c);
    forall id | 0 <= id < |x.clients| ensures ClientOk(y, id) {
      RegisterOther(x, c, id);
    }
    assert Timely(Waiting, c.numConfirmations, height) by {
      AnyTimeToWait(c.numConfirmations, height);
    }
    forall id | 0 <= id < |x.clients| ensures Timely(y.places[id], y.clients[id].numConfirmations, height) {
      assert Timely(x.places[id], x.clients[id].numConfirmations, height);
    }
  }

  lemma AnyTimeToWait(confs: nat, height: nat)
    ensures Timely(Waiting, confs, height)
  {
  }

  /** The books once a waiting client's transaction is mined: told at once, or on the heap. */
  function Mine(x: Books, c: Client, rest: seq<Client>, height: nat): Books
    requires c.id < |x.places|
  {
    var y := x.(waiting := x.waiting[c.txid := rest]);
    if c.numConfirmations == 1
    then y.(sent := x.sent + multiset{Send(c.id, height)}, places := x.places[c.id := Told(height)])
    else y.(heap := x.heap + multiset{Entry(c, Trigger(height, c.numConfirmations))},
            places := x.places[c.id := Pending(height)])
  }

  ghost predicate First(x: Books, c: Client, rest: seq<Client>) {
    c.txid in x.waiting && x.waiting[c.txid] == [c] + rest
  }

  lemma MineRegistered(x: Books, c: Client, rest: seq<Client>, height: nat)
    requires Placed(x) && First(x, c, rest)
    ensures IsClient(x, c) && Registered(Mine(x, c, rest, height)) && x.places[c.id] == Waiting
  {
    assert x.waiting[c.txid][0] == c;
    assert ClientOk(x, c.id);
    hide ClientOk;
    var y := Mine(x, c, rest, height);
    forall t, d | t in y.waiting && d in y.waiting[t] ensures IsClient(y, d) && d.txid == t {
      assert t in x.waiting && d in x.waiting[t];
    }
    forall e | e in y.heap ensures IsClient(y, e.client) {
      assert e in x.heap ==> IsClient(x, e.client);
    }
  }

  lemma MineClient(x: Books, c: Client, rest: seq<Client>, height: nat, id: nat)
    requires Placed(x) && First(x, c, rest) && id < |x.clients| && IsClient(x, c) && x.places[c.id] == Waiting
    ensures ClientOk(Mine(x, c, rest, height), id)
  {
    assert ClientOk(x, id);
    hide Registered;
    var y := Mine(x, c, rest, height);
    var d := x.clients[id];
    assert multiset([c] + rest) == multiset{c} + multiset(rest);
    assert WaitingCount(y, d) == WaitingCount(x, d) - Bit(d == c);
  }

  lemma MineKeeps(x: Books, c: Client, rest: seq<Client>, height: nat)
    requires Settling(x, height) && First(x, c, rest)
    ensures IsClient(x, c) && x.places[c.id] == Waiting
    ensures Settling(Mine(x, c, rest, height), height)
  {
    MineRegistered(x, c, rest, height);
    var y := Mine(x, c, rest, height);
    forall id | 0 <= id < |y.clients| ensures ClientOk(y, id) {
      MineClient(x, c, rest, height, id);
    }
    hide ClientOk, Registered;
    forall id | 0 <= id < |y.clients| ensures Due(y.places[id], y.clients[id].numConfirmations, height) {
      assert Due(x.places[id], x.clients[id].numConfirmations, height);
    }
  }

  lemma DropEmpty(x: Books, height: nat, txid: Hash)
    requires Settling(x, height) && txid in x.waiting && x.waiting[txid] == []
    ensures Settling(x.(waiting := x.waiting - {txid}), height)
  {
    hide Due;
    var y := x.(waiting := x.waiting - {txid});
    forall id | 0 <= id < |y.clients| ensures ClientOk(y, id) {
      assert ClientOk(x, id);
      assert WaitingCount(y, x.clients[id]) == WaitingCount(x, x.clients[id]);
    }
  }

  /** The books once an entry is taken off the heap and its client told. */
  function Fire(x: Books, e: Entry, height: nat): Books
    requires e.client.id < |x.places| && !x.places[e.client.id].Waiting?
  {
    x.(heap := x.heap - multiset{e}, sent := x.sent + multiset{Send(e.client.id, height)},
       places := x.places[e.client.id := Told(x.places[e.client.id].mined)])
  }

  /** An entry on the heap belongs to a pending client, and if it is due it is due now. */
  lemma DueNow(x: Books, e: Entry, height: nat)
    requires Settling(x, height) && e in x.heap
    ensures IsClient(x, e.client) && x.places[e.client.id].Pending?
    ensures var b := x.places[e.client.id].mined;
            e.triggerHeight == Trigger(b, e.client.numConfirmations)
            && (e.triggerHeight <= height ==> TellAt(b, e.client.numConfirmations) == height)
  {
    assert IsClient(x, e.client);
    assert ClientOk(x, e.client.id);
    assert x.heap[Entry(e.client, e.triggerHeight)] > 0;
    assert Due(x.places[e.client.id], e.client.numConfirmations, height);
  }

  lemma FireClient(x: Books, e: Entry, height: nat, id: nat)
    requires Settling(x, height) && e in x.heap && e.triggerHeight <= height && id < |x.clients|
    requires IsClient(x, e.client) && x.places[e.client.id].Pending?
    ensures ClientOk(Fire(x, e, height), id)
  {
    DueNow(x, e, height);
    assert ClientOk(x, id);
    hide Registered, Due, TellAt, Trigger;
    var y := Fire(x, e, height);
    assert WaitingCount(y, x.clients[id]) == WaitingCount(x, x.clients[id]);
  }

  lemma FireKeeps(x: Books, e: Entry, height: nat)
    requires Settling(x, height) && e in x.heap && e.triggerHeight <= height
    ensures IsClient(x, e.client) && x.places[e.client.id].Pending?
    ensures Settling(Fire(x, e, height), height)
  {
    DueNow(x, e, height);
    var y := Fire(x, e, height);
    forall id | 0 <= id < |y.clients| ensures ClientOk(y, id) {
      FireClient(x, e, height, id);
    }
    hide ClientOk, TellAt, Trigger;
    assert Registered(y);
    forall id | 0 <= id < |y.clients| ensures Due(y.places[id], y.clients[id].numConfirmations, height) {
      assert Due(x.places[id], x.clients[id].numConfirmations, height);
    }
  }

  lemma BlockStarts(x: Books, height: nat)
    requires Settled(x, height)
    ensures Settling(x, height + 1)
  {
    hide ClientOk;
    forall id | 0 <= id < |x.clients| ensures Due(x.places[id], x.clients[id].numConfirmations, height + 1) {
      assert Timely(x.places[id], x.clients[id].numConfirmations, height);
    }
  }

  /** Once nothing on the heap is due, the block is done. */
  lemma BlockEnds(x: Books, height: nat)
    requires Settling(x, height) && forall e | e in x.heap :: height < e.triggerHeight
    ensures Settled(x, height)
  {
    forall id | 0 <= id < |x.clients| ensures Timely(x.places[id], x.clients[id].numConfirmations, height) {
      assert ClientOk(x, id);
      assert Due(x.places[id], x.clients[id].numConfirmations, height);
      if x.places[id].Pending? {
        var e := Entry(x.clients[id], Trigger(x.places[id].mined, x.clients[id].numConfirmations));
        assert x.heap[e] == 1;
      }
    }
  }

  /* --- the dispatcher ---------------------------------------------------------------------------- */

  function MinedAt(p: Place): Option<nat> {
    if p.Waiting? then None else Some(p.mined)
  }

  /** A block at `height` with these transactions marks the waiting clients it concerns as
  mined there, and no others. */
  ghost predicate Marks(before: seq<Place>, after: seq<Place>, clients: seq<Client>, txs: seq<Hash>, height: nat) {
    && |before| == |after| == |clients|
    && forall id | 0 <= id < |clients| ::
         MinedAt(after[id]) == if before[id].Waiting? && clients[id].txid in txs then Some(height) else MinedAt(before[id])
  }

  /** One client whose transaction was just mined. */
  method TriggerClient(c: Client, ghost rest: seq<Client>, height: nat, heap: seq<Entry>, sent: seq<Send>, ghost x: Books)
    returns (heap': seq<Entry>, sent': seq<Send>, ghost y: Books)
    requires Settling(x, height) && Heap(heap) && x.heap == multiset(heap) && x.sent == multiset(sent) && First(x, c, rest)
    ensures Settling(y, height) && Heap(heap') && y.heap == multiset(heap') && y.sent == multiset(sent')
    ensures y.waiting == x.waiting[c.txid := rest] && y.clients == x.clients
    ensures c.id < |x.places| && y.places == Mine(x, c, rest, height).places
  {
    hide Settling, Heap;
    heap', sent' := heap, sent;
    MineKeeps(x, c, rest, height);
    Sized(x, height);
    y := Mine(x, c, rest, height);
    if c.numConfirmations == 1 {
      sent' := sent' + [Send(c.id, height)];
    } else {
      heap' := Push(heap', Entry(c, Trigger(height, c.numConfirmations)));
    }
  }

  lemma Sized(x: Books, height: nat)
    requires Settling(x, height)
    ensures |x.places| == |x.clients|
  {
  }

  /** The loop over the clients waiting for a transaction just mined. */
  method TriggerClients(txid: Hash, list: seq<Client>, height: nat, heap: seq<Entry>, sent: seq<Send>, ghost x: Books)
    returns (heap': seq<Entry>, sent': seq<Send>, ghost y: Books)
    requires Settling(x, height) && Heap(heap) && x.heap == multiset(heap) && x.sent == multiset(sent)
    requires txid in x.waiting && x.waiting[txid] == list
    ensures Settling(y, height) && Heap(heap') && y.heap == multiset(heap') && y.sent == multiset(sent')
    ensures y.waiting == x.waiting[txid := []] && y.clients == x.clients
    ensures Marks(x.places, y.places, x.clients, [txid], height)
  {
    hide Settling, Heap, Advanced, Marks, Triggering;
    heap', sent', y := heap, sent, x;
    assert list[0..] == list;
    TriggeringStarts(x, txid, height);
    for k := 0 to |list|
      invariant Triggering(x, y, txid, list[k..], height)
      invariant Heap(heap') && y.heap == multiset(heap') && y.sent == multiset(sent')
    {
      TriggeringNext(x, y, txid, list, k, height);
      heap', sent', y := TriggerClient(list[k], list[k + 1..], height, heap', sent', y);
    }
    TriggeringEnds(x, y, txid, list[|list|..], height);
  }

  /** The clients of `txid` in `rest` are still to be dealt with. */
  ghost predicate Triggering(x: Books, y: Books, txid: Hash, rest: seq<Client>, height: nat) {
    && Settling(y, height) && txid in y.waiting && y.waiting == x.waiting[txid := rest] && y.clients == x.clients
    && Advanced(x.places, y.places, x.clients, txid, height)
  }

  lemma TriggeringStarts(x: Books, txid: Hash, height: nat)
    requires Settling(x, height) && txid in x.waiting
    ensures Triggering(x, x, txid, x.waiting[txid], height)
  {
    Sized(x, height);
    hide Settling;
  }

  lemma TriggeringNext(x: Books, y: Books, txid: Hash, list: seq<Client>, k: nat, height: nat)
    requires k < |list| && Triggering(x, y, txid, list[k..], height)
    ensures Settling(y, height) && First(y, list[k], list[k + 1..]) && list[k].id < |y.places|
    ensures forall z: Books | Settling(z, height) && z.waiting == y.waiting[list[k].txid := list[k + 1..]] && z.clients == y.clients
                              && z.places == Mine(y, list[k], list[k + 1..], height).places ::
              Triggering(x, z, txid, list[k + 1..], height)
  {
    hide Settling, Advanced;
    assert list[k..] == [list[k]] + list[k + 1..];
    OwnTxid(y, list[k], txid, height);
    AdvanceOne(x, y, list[k], list[k + 1..], height);
  }

  lemma TriggeringEnds(x: Books, y: Books, txid: Hash, rest: seq<Client>, height: nat)
    requires Triggering(x, y, txid, rest, height) && rest == []
    ensures Settling(y, height) && y.waiting == x.waiting[txid := []] && y.clients == x.clients
    ensures Marks(x.places, y.places, x.clients, [txid], height)
  {
    hide Settling, Advanced, Marks;
    AllMarked(x, y, txid, height);
  }

  /** Only clients of `txid` have changed place, to one mined at `height`. */
  ghost predicate Advanced(before: seq<Place>, after: seq<Place>, clients: seq<Client>, txid: Hash, height: nat) {
    && |before| == |after| == |clients|
    && forall id | 0 <= id < |clients| ::
         || after[id] == before[id]
         || (before[id].Waiting? && clients[id].txid == txid && MinedAt(after[id]) == Some(height))
  }

  lemma AdvanceOne(x: Books, y: Books, c: Client, rest: seq<Client>, height: nat)
    requires y.clients == x.clients && Settling(y, height) && First(y, c, rest)
    requires Advanced(x.places, y.places, x.clients, c.txid, height)
    ensures c.id < |y.places| && Advanced(x.places, Mine(y, c, rest, height).places, x.clients, c.txid, height)
  {
    MineKeeps(y, c, rest, height);
    hide Placed, Due;
  }

  lemma OwnTxid(x: Books, c: Client, txid: Hash, height: nat)
    requires Settling(x, height) && txid in x.waiting && c in x.waiting[txid]
    ensures c.txid == txid
  {
  }

  lemma AllMarked(x: Books, y: Books, txid: Hash, height: nat)
    requires Settling(y, height) && txid in y.waiting && y.waiting[txid] == [] && y.clients == x.clients
    requires Advanced(x.places, y.places, x.clients, txid, height)
    ensures Marks(x.places, y.places, x.clients, [txid], height)
  {
    forall id | 0 <= id < |x.clients| && x.clients[id].txid == txid ensures !y.places[id].Waiting? {
      assert ClientOk(y, id);
      assert WaitingCount(y, y.clients[id]) == 0;
    }
  }

  lemma NoneMarked(x: Books, txid: Hash, height: nat)
    requires Settling(x, height) && txid !in x.waiting
    ensures Marks(x.places, x.places, x.clients, [txid], height)
  {
    forall id | 0 <= id < |x.clients| && x.clients[id].txid == txid ensures !x.places[id].Waiting? {
      assert ClientOk(x, id);
      assert WaitingCount(x, x.clients[id]) == 0;
    }
  }

  lemma MarksCompose(a: seq<Place>, b: seq<Place>, c: seq<Place>, clients: seq<Client>, txs: seq<Hash>, tx: Hash, height: nat)
    requires Marks(a, b, clients, txs, height) && Marks(b, c, clients, [tx], height)
    ensures Marks(a, c, clients, txs + [tx], height)
  {
  }

  /** Takes entries off the heap, earliest first, until one is not due. */
  method FireDue(height: nat, heap: seq<Entry>, sent: seq<Send>, ghost x: Books)
    returns (heap': seq<Entry>, sent': seq<Send>, ghost y: Books)
    requires Settling(x, height) && Heap(heap) && x.heap == multiset(heap) && x.sent == multiset(sent)
    ensures Settled(y, height) && Heap(heap') && y.heap == multiset(heap') && y.sent == multiset(sent')
    ensures y.waiting == x.waiting && y.clients == x.clients
    ensures Marks(x.places, y.places, x.clients, [], height)
    ensures forall e: Entry :: y.heap[e] == if height < e.triggerHeight then x.heap[e] else 0
  {
    hide Settled, Heap, Marks, Firing, Later, Settling;
    heap', sent', y := heap, sent, x;
    FiringStarts(x, height);
    if |heap'| == 0 {
      FiringEnds(x, x, height);
      return;
    }
    var next: Entry;
    heap', next := Pop(heap');
    while next.triggerHeight <= height
      invariant Firing(x, y, height) && Heap(heap')
      invariant y.heap == multiset(heap') + multiset{next} && y.sent == multiset(sent')
      invariant forall e | e in heap' :: !Less(e, next)
      decreases |heap'|
    {
      y := FireNext(x, y, next, height);
      sent' := sent' + [Send(next.client.id, height)];
      if |heap'| == 0 {
        assert y.heap == multiset{};
        FiringEnds(x, y, height);
        return;
      }
      heap', next := Pop(heap');
    }
    forall e | e in y.heap ensures height < e.triggerHeight {
      assert e in heap' || e == next;
    }
    FiringEnds(x, y, height);
    heap' := Push(heap', next);
  }

  ghost predicate Later(before: multiset<Entry>, after: multiset<Entry>, height: nat) {
    forall e: Entry | height < e.triggerHeight :: after[e] == before[e]
  }

  /** Some of the due entries of `x` have been told in `y`. */
  ghost predicate Firing(x: Books, y: Books, height: nat) {
    && Settling(y, height) && y.waiting == x.waiting && y.clients == x.clients
    && Marks(x.places, y.places, x.clients, [], height) && Later(x.heap, y.heap, height)
  }

  lemma FiringStarts(x: Books, height: nat)
    requires Settling(x, height)
    ensures Firing(x, x, height)
  {
    hide Settling, Marks;
    PlacesMatch(x, height);
  }

  lemma FireNext(x: Books, y: Books, e: Entry, height: nat) returns (z: Books)
    requires Firing(x, y, height) && e in y.heap && e.triggerHeight <= height
    ensures Firing(x, z, height)
    ensures z.heap == y.heap - multiset{e} && z.sent == y.sent + multiset{Send(e.client.id, height)}
  {
    FireKeeps(y, e, height);
    Sized(y, height);
    z := Fire(y, e, height);
    hide Settling;
  }

  lemma FiringEnds(x: Books, y: Books, height: nat)
    requires Firing(x, y, height) && forall e | e in y.heap :: height < e.triggerHeight
    ensures Settled(y, height) && y.waiting == x.waiting && y.clients == x.clients
    ensures Marks(x.places, y.places, x.clients, [], height)
    ensures forall e: Entry :: y.heap[e] == if height < e.triggerHeight then x.heap[e] else 0
  {
    BlockEnds(y, height);
    hide Settling, Settled, Marks;
    forall e: Entry ensures y.heap[e] == if height < e.triggerHeight then x.heap[e] else 0 {
      assert y.heap[e] > 0 ==> e in y.heap;
    }
  }

  lemma PlacesMatch(x: Books, height: nat)
    requires Settling(x, height)
    ensures Marks(x.places, x.places, x.clients, [], height)
  {
  }

  class BtcdNotifier {
    var confNotifications: map<Hash, seq<Client>>
    var confHeap: seq<Entry>
    var sent: seq<Send>
    var nextClient: nat
    ghost var clients: seq<Client>
    ghost var places: seq<Place>
    ghost var height: nat

    ghost function State(): Books
      reads this
    {
      Books(confNotifications, multiset(confHeap), multiset(sent), clients, places)
    }

    ghost predicate Valid()
      reads this
    {
      nextClient == |clients| && Heap(confHeap) && Settled(State(), height)
    }

    constructor (bestHeight: nat)
      ensures Valid() && height == bestHeight && clients == []
    {
      confNotifications, confHeap, sent, nextClient := map[], [], [], 0;
      clients, places, height := [], [], bestHeight;
    }

    /** A new client is waiting; nothing is sent. */
    method RegisterConfirmationsNtfn(txid: Hash, numConfs: nat) returns (id: nat)
      requires Valid()
      modifies this
      ensures Valid() && id == |old(clients)| && clients == old(clients) + [Client(id, txid, numConfs)]
      ensures places == old(places) + [Waiting] && sent == old(sent) && height == old(height)
    {
      id := nextClient;
      var c := Client(id, txid, numConfs);
      RegisterKeeps(State(), height, c);
      var list := if txid in confNotifications then confNotifications[txid] else [];
      confNotifications := confNotifications[txid := list + [c]];
      nextClient := nextClient + 1;
      clients, places := clients + [c], places + [Waiting];
    }

    /** The clients waiting for this transaction are told, or put on the heap. */
    method CheckConfirmationTrigger(txid: Hash, blockHeight: nat)
      requires Heap(confHeap) && Settling(State(), blockHeight)
      modifies this`confNotifications, this`confHeap, this`sent, this`places
      ensures Heap(confHeap) && Settling(State(), blockHeight)
      ensures Marks(old(places), places, clients, [txid], blockHeight)
    {
      hide Settling, Heap, Marks;
      if txid in confNotifications {
        ghost var y;
        confHeap, sent, y :=
          TriggerClients(txid, confNotifications[txid], blockHeight, confHeap, sent, State());
        DropEmpty(y, blockHeight, txid);
        assert confNotifications[txid := []] - {txid} == confNotifications - {txid};
        confNotifications := confNotifications - {txid};
        places := y.places;
      } else {
        NoneMarked(State(), txid, blockHeight);
      }
    }

    /** After the block, the heap holds exactly the earlier entries that are not yet due. */
    method NotifyConfs(newBlockHeight: nat)
      requires Heap(confHeap) && Settling(State(), newBlockHeight)
      modifies this`confHeap, this`sent, this`places
      ensures Heap(confHeap) && Settled(State(), newBlockHeight)
      ensures Marks(old(places), places, clients, [], newBlockHeight)
      ensures forall e: Entry ::
                multiset(confHeap)[e] == if newBlockHeight < e.triggerHeight then multiset(old(confHeap))[e] else 0
    {
      hide Settling, Settled, Heap, Marks;
      ghost var y;
      confHeap, sent, y := FireDue(newBlockHeight, confHeap, sent, State());
      places := y.places;
    }

    /** The next block: its transactions are checked, then due entries are told. */
    method ConnectBlock(txs: seq<Hash>, newHeight: nat)
      requires Valid() && newHeight == height + 1
      modifies this
      ensures Valid() && height == newHeight && clients == old(clients)
      ensures Marks(old(places), places, clients, txs, newHeight)
    {
      hide Settling, Settled, Heap, Marks;
      BlockStarts(State(), height);
      assert Marks(places, places, clients, [], newHeight) by {
        PlacesMatch(State(), newHeight);
      }
      for i := 0 to |txs|
        modifies this`confNotifications, this`confHeap, this`sent, this`places
        invariant Heap(confHeap) && Settling(State(), newHeight)
        invariant Marks(old(places), places, clients, txs[..i], newHeight)
      {
        ghost var before := places;
        CheckConfirmationTrigger(txs[i], newHeight);
        MarksCompose(old(places), before, places, clients, txs[..i], txs[i], newHeight);
        assert txs[..i + 1] == txs[..i] + [txs[i]];
      }
      assert txs[..|txs|] == txs;
      ghost var before := places;
      NotifyConfs(newHeight);
      MarksNone(old(places), before, places, clients, txs, newHeight);
      height := newHeight;
    }
  }

  lemma MarksNone(a: seq<Place>, b: seq<Place>, c: seq<Place>, clients: seq<Client>, txs: seq<Hash>, height: nat)
    requires Marks(a, b, clients, txs, height) && Marks(b, c, clients, [], height)
    ensures Marks(a, c, clients, txs, height)
  {
  }
}
