/** The two goroutines that send a peer's messages, before shutdown. The queue handler
accepts messages from the rest of the daemon and hands them one at a time to the write
handler, which hands a token back after each write. Every channel operation is one step of
its own, so runs are all interleavings.
 */
module SendQueue {
  import opened Primitives

  const OUTGOING_QUEUE_LEN: nat := 50

  /** The queue handler is at its select, or about to send `msg` on sendQueue. */
  datatype Queuer<M> = Selecting | Handing(msg: M)

  /** The write handler is at its select, about to write `msg`, or about to return the token. */
  datatype Writer<M> = Waiting | Writing(msg: M) | Syncing

  datatype Peer<M> = Peer(
    outgoingQueue: seq<M>, sendQueue: seq<M>, sendQueueSync: nat,
    queuer: Queuer<M>, waitOnSync: bool, pendingMsgs: seq<M>,
    writer: Writer<M>,
    queued: seq<M>, written: seq<M>)

  datatype Action<M> = QueueMsg(msg: M) | TakeMsg | TakeToken | Hand | StartWrite | Write | GiveToken

  function NewPeer<M>(): Peer<M> {
    Peer([], [], 0, Selecting, false, [], Waiting, [], [])
  }

  /** The state after an action, or nothing where the goroutine would block. */
  function Apply<M>(p: Peer<M>, a: Action<M>): Option<Peer<M>> {
    match a
    case QueueMsg(m) =>
      if |p.outgoingQueue| < OUTGOING_QUEUE_LEN
      then Some(p.(outgoingQueue := p.outgoingQueue + [m], queued := p.queued + [m]))
      else None
    case TakeMsg =>
      if p.queuer != Selecting || p.outgoingQueue == [] then None
      else
        var (m, rest) := (p.outgoingQueue[0], p.outgoingQueue[1..]);
        if !p.waitOnSync then Some(p.(outgoingQueue := rest, queuer := Handing(m)))
        else Some(p.(outgoingQueue := rest, pendingMsgs := p.pendingMsgs + [m]))
    case TakeToken =>
      if p.queuer != Selecting || p.sendQueueSync == 0 then None
      else if p.pendingMsgs == [] then Some(p.(sendQueueSync := p.sendQueueSync - 1, waitOnSync := false))
      else Some(p.(sendQueueSync := p.sendQueueSync - 1, queuer := Handing(p.pendingMsgs[0]),
                   pendingMsgs := p.pendingMsgs[1..]))
    case Hand =>
      if p.queuer == Selecting || |p.sendQueue| == 1 then None
      else Some(p.(sendQueue := p.sendQueue + [p.queuer.msg], queuer := Selecting, waitOnSync := true))
    case StartWrite =>
      if p.writer != Waiting || p.sendQueue == [] then None
      else Some(p.(sendQueue := p.sendQueue[1..], writer := Writing(p.sendQueue[0])))
    case Write =>
      if !p.writer.Writing? then None
      else Some(p.(written := p.written + [p.writer.msg], writer := Syncing))
    case GiveToken =>
      if p.writer != Syncing || p.sendQueueSync == 1 then None
      else Some(p.(sendQueueSync := p.sendQueueSync + 1, writer := Waiting))
  }

  ghost predicate IsRun<M(!new)>(run: seq<Peer<M>>) {
    && run != [] && run[0] == NewPeer()
    && forall i, j | 0 <= i && j == i + 1 && j < |run| :: exists a :: Apply(run[i], a) == Some(run[j])
  }

  /* --- the invariant ---------------------------------------------------------------------- */

  /** Where the right to hand over a message may be: with an idle queue handler, with the
  message on its way, with the write handler, or in the sync channel. */
  function Tokens<M>(p: Peer<M>): int {
    (if p.queuer.Handing? || !p.waitOnSync then 1 else 0) + |p.sendQueue|
    + (if p.writer.Waiting? then 0 else 1) + p.sendQueueSync
  }

  function AtWriter<M>(w: Writer<M>): seq<M> {
    if w.Writing? then [w.msg] else []
  }

  function AtQueuer<M>(q: Queuer<M>): seq<M> {
    if q.Handing? then [q.msg] else []
  }

  /** Everything queued, in the order it will reach the wire. */
  function InOrder<M>(p: Peer<M>): seq<M> {
    p.written + AtWriter(p.writer) + p.sendQueue + AtQueuer(p.queuer) + p.pendingMsgs + p.outgoingQueue
  }

  ghost predicate Inv<M>(p: Peer<M>) {
    && Tokens(p) == 1
    && (!p.waitOnSync ==> p.pendingMsgs == [])
    && p.queued == InOrder(p)
  }

  lemma ApplyKeepsToken<M>(p: Peer<M>, a: Action<M>)
    requires Tokens(p) == 1 && (!p.waitOnSync ==> p.pendingMsgs == []) && Apply(p, a).Some?
    ensures var p' := Apply(p, a).value; Tokens(p') == 1 && (!p'.waitOnSync ==> p'.pendingMsgs == [])
  {
  }

  lemma QueueingKeepsOrder<M>(p: Peer<M>, a: Action<M>)
    requires Inv(p) && Apply(p, a).Some? && (a.QueueMsg? || a.TakeMsg? || a.TakeToken?)
    ensures var p' := Apply(p, a).value; p'.queued == InOrder(p')
  {
    var p' := Apply(p, a).value;
    match a
    case QueueMsg(m) => assert InOrder(p') == p'.queued;
    case TakeMsg => TakingKeepsOrder(p);
    case TakeToken =>
      if p.pendingMsgs != [] {
        TokenKeepsOrder(p);
      }
  }

  lemma TakingKeepsOrder<M>(p: Peer<M>)
    requires Inv(p) && Apply(p, TakeMsg).Some?
    ensures var p' := Apply(p, TakeMsg).value; p'.queued == InOrder(p')
  {
    var p' := Apply(p, TakeMsg).value;
    var (m, rest, front) := (p.outgoingQueue[0], p.outgoingQueue[1..], p.written + AtWriter(p.writer) + p.sendQueue);
    assert p.outgoingQueue == [m] + rest;
    if !p.waitOnSync {
      assert InOrder(p') == front + [m] + [] + rest == InOrder(p);
    } else {
      assert InOrder(p') == front + AtQueuer(p.queuer) + (p.pendingMsgs + [m]) + rest == InOrder(p);
    }
  }

  lemma TokenKeepsOrder<M>(p: Peer<M>)
    requires Inv(p) && Apply(p, TakeToken).Some? && p.pendingMsgs != []
    ensures var p' := Apply(p, TakeToken).value; p'.queued == InOrder(p')
  {
    var p' := Apply(p, TakeToken).value;
    var front := p.written + AtWriter(p.writer) + p.sendQueue;
    assert p.pendingMsgs == [p.pendingMsgs[0]] + p.pendingMsgs[1..];
    assert InOrder(p') == front + [p.pendingMsgs[0]] + p.pendingMsgs[1..] + p.outgoingQueue == InOrder(p);
  }

  lemma WritingKeepsOrder<M>(p: Peer<M>, a: Action<M>)
    requires Inv(p) && Apply(p, a).Some? && (a.Hand? || a.StartWrite? || a.Write? || a.GiveToken?)
    ensures var p' := Apply(p, a).value; p'.queued == InOrder(p')
  {
    var p' := Apply(p, a).value;
    if a.StartWrite? {
      assert p.sendQueue == [p.sendQueue[0]] + p.sendQueue[1..];
    }
    assert InOrder(p') == p'.queued;
  }

  lemma ApplyKeepsInv<M>(p: Peer<M>, a: Action<M>)
    requires Inv(p) && Apply(p, a).Some?
    ensures Inv(Apply(p, a).value)
  {
    ApplyKeepsToken(p, a);
    hide Apply, InOrder, Tokens;
    if a.QueueMsg? || a.TakeMsg? || a.TakeToken? {
      QueueingKeepsOrder(p, a);
    } else {
      WritingKeepsOrder(p, a);
    }
  }

  lemma {:induction false} RunKeepsInv<M(!new)>(run: seq<Peer<M>>, n: nat)
    requires IsRun(run) && n < |run|
    ensures Inv(run[n])
    decreases n
  {
    if n > 0 {
      RunKeepsInv(run, n - 1);
      assert 0 <= n - 1 && n == (n - 1) + 1;
      var a :| Apply(run[n - 1], a) == Some(run[n]);
      ApplyKeepsInv(run[n - 1], a);
    }
  }

  /* --- what holds in every interleaving ---------------------------------------------------- */

  /** Messages reach the wire in the order they were queued, none lost, none repeated. */
  lemma WrittenInOrder<M(!new)>(run: seq<Peer<M>>, n: nat)
    requires IsRun(run) && n < |run|
    ensures run[n].written <= run[n].queued
    ensures run[n].queued == InOrder(run[n])
  {
    RunKeepsInv(run, n);
  }

  /** There is always exactly one token, so neither goroutine ever blocks on a send. */
  lemma SendsNeverBlock<M(!new)>(run: seq<Peer<M>>, n: nat)
    requires IsRun(run) && n < |run|
    ensures Tokens(run[n]) == 1
    ensures run[n].queuer.Handing? ==> Apply(run[n], Hand).Some?
    ensures run[n].writer == Syncing ==> Apply(run[n], GiveToken).Some?
  {
    RunKeepsInv(run, n);
  }

  /** A bound on the steps the two goroutines can take without a new message. */
  function Work<M>(p: Peer<M>): nat {
    6 * |p.outgoingQueue| + 5 * |p.pendingMsgs| + (if p.queuer.Handing? then 5 else 0) + 4 * |p.sendQueue|
    + (match p.writer case Waiting => 0 case Writing(_) => 3 case Syncing => 2) + p.sendQueueSync
  }

  /** Without new messages the goroutines come to rest after finitely many steps, whatever
  the order, and they rest only when every queued message has been written. */
  lemma EverythingIsWritten<M(!new)>(run: seq<Peer<M>>, n: nat)
    requires IsRun(run) && n < |run|
    ensures forall a: Action<M> | !a.QueueMsg? && Apply(run[n], a).Some? :: Work(Apply(run[n], a).value) < Work(run[n])
    ensures (forall a: Action<M> | !a.QueueMsg? :: Apply(run[n], a).None?) ==> run[n].written == run[n].queued && !run[n].waitOnSync
  {
    RunKeepsInv(run, n);
    var p := run[n];
    if forall a: Action<M> | !a.QueueMsg? :: Apply(p, a).None? {
      assert Apply(p, TakeMsg).None? && Apply(p, TakeToken).None? && Apply(p, Hand).None?;
      assert Apply(p, StartWrite).None? && Apply(p, Write).None? && Apply(p, GiveToken).None?;
      assert InOrder(p) == p.written;
    }
  }
}
