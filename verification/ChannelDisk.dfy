/** What the database keeps of a channel with each accepted revocation, in one transaction: the
elkrem state and an entry of the revocation log.
 */
module ChannelDisk {
  import opened Primitives
  import opened Bytes
  import opened ChannelSpec
  import opened RevocationLog
  import Elk = ElkremSpec
  import opened Serdes = ElkremSerdes

  /* --- the elkrem state ------------------------------------------------------------------------ */

  /** The peer's current revocation, the root of our own tree and the peer's secrets. */
  datatype ElkremState = ElkremState(key: PubKey, hash: Hash, root: Hash, receiver: seq<Elk.Node>)

  const COMPRESSED_KEY_SIZE: nat := 33

  /** Nothing if the receiver refuses to be stored. */
  function StateBytes(st: ElkremState): Option<seq<byte>>
    requires |st.key| == COMPRESSED_KEY_SIZE
  {
    var receiver := Stored(st.receiver);
    if receiver.None? then None
    else Some(VarBytes(st.key) + st.hash + VarBytes(st.root) + VarBytes(receiver.value))
  }

  /** Four reads, three of them with a cap. */
  ghost function StateFrom(input: seq<byte>): Option<ElkremState> {
    var key := VarBytesFrom(input, READ_CAP);
    if key.None? then None else
    var hash := ReadInto(key.value.1, ZeroHash());
    if hash.None? then None else
    var root := VarBytesFrom(hash.value.1, READ_CAP);
    if root.None? || |root.value.0| != 32 then None else
    var stored := VarBytesFrom(root.value.1, READ_CAP);
    if stored.None? then None else
    var receiver := Decoded(stored.value.0);
    if receiver.None? then None else
    Some(ElkremState(key.value.0, hash.value.0, root.value.0, receiver.value))
  }

  /** A stored state with a sane receiver is read back, exactly, if and only if the receiver
  has at most 24 nodes. */
  lemma StateRoundTrip(st: ElkremState)
    requires |st.key| == COMPRESSED_KEY_SIZE && Sane(st.receiver)
    ensures StateBytes(st).Some?
    ensures StateFrom(StateBytes(st).value) == if |st.receiver| <= 24 then Some(st) else None
  {
    hide ReadInto, VarBytes, VarBytesFrom, Encoded, Decoded, NodeSane, ZeroHash;
    var stored := Encoded(st.receiver);
    assert |stored| == (if st.receiver == [] then 0 else 1 + NODE_SIZE * |st.receiver|) by {
      EncodedSize(st.receiver);
    }
    DecodedIffEncoded(stored, st.receiver);
    var d := VarBytes(stored);
    var c := VarBytes(st.root) + d;
    var b := st.hash + c;
    VarBytesRoundTrip(st.key, b, READ_CAP);
    ReadExactly(st.hash, c, ZeroHash());
    VarBytesRoundTrip(st.root, d, READ_CAP);
    VarBytesRoundTrip(stored, [], READ_CAP);
    assert d + [] == d;
    assert StateBytes(st).value == VarBytes(st.key) + b;
  }

  lemma EncodedSize(s: seq<Elk.Node>)
    requires |s| < 256
    ensures |Encoded(s)| == if s == [] then 0 else 1 + NODE_SIZE * |s|
  {
  }

  function OutpointBytes(o: OutPoint): seq<byte> {
    VarBytes(o.hash) + BigEndian(o.index % TWO32, 4)
  }

  /** The prefix "esk" and the channel's outpoint. */
  function ElkremKey(o: OutPoint): seq<byte> {
    [0x65, 0x73, 0x6b] + OutpointBytes(o)
  }

  lemma ElkremKeyInjective(o: OutPoint, o': OutPoint)
    requires o.index < TWO32 && o'.index < TWO32
    ensures ElkremKey(o) == ElkremKey(o') <==> o == o'
  {
    var x, y := ElkremKey(o), ElkremKey(o');
    hide BigEndian;
    assert x[4..36] == o.hash && x[36..] == BigEndian(o.index, 4);
    assert y[4..36] == o'.hash && y[36..] == BigEndian(o'.index, 4);
    hide ElkremKey;
    Word32Injective(o.index, o'.index);
  }

  /* --- the database ------------------------------------------------------------------------------ */

  /** The bucket of a peer, with the log bucket inside it. */
  datatype Disk = Disk(node: Bucket, log: Bucket)

  /** The disk after a revocation of channel `o` is recorded; the old one if that fails. */
  function Recorded(disk: Disk, o: OutPoint, st: ElkremState, d: Delta): Disk
    requires |st.key| == COMPRESSED_KEY_SIZE
  {
    if StateBytes(st).None? then disk
    else Disk(disk.node[ElkremKey(o) := StateBytes(st).value], disk.log[LogKey(o, d.updateNum) := DeltaBytes(d)])
  }

  /** The disk holds a channel's elkrem state and every entry of its log. */
  ghost predicate Keeps(disk: Disk, o: OutPoint, st: ElkremState, log: map<nat, Delta>)
    requires |st.key| == COMPRESSED_KEY_SIZE
  {
    && StateBytes(st).Some? && ElkremKey(o) in disk.node && disk.node[ElkremKey(o)] == StateBytes(st).value
    && Stores(disk.log, o, log)
  }

  lemma RecordedKeeps(disk: Disk, o: OutPoint, was: ElkremState, st: ElkremState, log: map<nat, Delta>, d: Delta)
    requires |was.key| == |st.key| == COMPRESSED_KEY_SIZE && Keeps(disk, o, was, log)
    requires DeltaFits(d) && StateBytes(st).Some?
    ensures Keeps(Recorded(disk, o, st, d), o, st, log[d.updateNum := d])
  {
    hide Stores, LogKey, DeltaBytes, ElkremKey, VarBytes, Encoded;
    assert o.index < TWO32 by {
      KnownChannel(disk.log, o, log);
    }
    AppendStores(disk.log, o, d, o, log);
  }

  lemma KnownChannel(bucket: Bucket, o: OutPoint, log: map<nat, Delta>)
    requires Stores(bucket, o, log)
    ensures o.index < TWO32
  {
  }

  lemma RecordedSpares(disk: Disk, o: OutPoint, st: ElkremState, d: Delta, o': OutPoint, st': ElkremState, log: map<nat, Delta>)
    requires |st.key| == |st'.key| == COMPRESSED_KEY_SIZE && o.index < TWO32 && o' != o && DeltaFits(d)
    requires Keeps(disk, o', st', log)
    ensures Keeps(Recorded(disk, o, st, d), o', st', log)
  {
    hide Stores, LogKey, DeltaBytes, ElkremKey, VarBytes, Encoded;
    KnownChannel(disk.log, o', log);
    AppendStores(disk.log, o, d, o', log);
    ElkremKeyInjective(o, o');
  }

  /** The database of the channels with one peer. */
  class ChannelDB {
    var node: Bucket
    var log: Bucket

    ghost function Contents(): Disk
      reads this
    {
      Disk(node, log)
    }

    constructor ()
      ensures Contents() == Disk(map[], map[])
    {
      node, log := map[], map[];
    }

    /** Records a revocation: the new elkrem state and the entry, in place of one with the same
    update number. Fails, and changes nothing, if the receiver refuses to be stored. What is
    kept of other channels stays. */
    method AppendToRevocationLog(o: OutPoint, st: ElkremState, d: Delta) returns (ok: bool)
      requires o.index < TWO32 && DeltaFits(d) && |st.key| == COMPRESSED_KEY_SIZE
      modifies this
      ensures ok <==> StateBytes(st).Some?
      ensures Contents() == Recorded(old(Contents()), o, st, d)
      ensures ok ==> forall was: ElkremState, entries |
                       |was.key| == COMPRESSED_KEY_SIZE && old(Keeps(Contents(), o, was, entries)) ::
                         Keeps(Contents(), o, st, entries[d.updateNum := d])
      ensures forall o', st': ElkremState, entries |
                o' != o && |st'.key| == COMPRESSED_KEY_SIZE && old(Keeps(Contents(), o', st', entries)) ::
                  Keeps(Contents(), o', st', entries)
    {
      hide Keeps, LogKey, DeltaBytes, ElkremKey, VarBytes;
      ghost var before := Contents();
      var receiver := ToBytes(st.receiver);
      if receiver.None? {
        return false;
      }
      var b := VarBytes(st.key) + st.hash + VarBytes(st.root) + VarBytes(receiver.value);
      var entry := SerializeChannelDelta(d);
      node := node[ElkremKey(o) := b];
      log := log[LogKey(o, d.updateNum) := entry];
      forall was: ElkremState, entries | |was.key| == COMPRESSED_KEY_SIZE && Keeps(before, o, was, entries)
        ensures Keeps(Contents(), o, st, entries[d.updateNum := d])
      {
        RecordedKeeps(before, o, was, st, entries, d);
      }
      forall o', st': ElkremState, entries | o' != o && |st'.key| == COMPRESSED_KEY_SIZE && Keeps(before, o', st', entries)
        ensures Keeps(Contents(), o', st', entries)
      {
        RecordedSpares(before, o, st, d, o', st', entries);
      }
      return true;
    }

    /** The stored state with that update number, whatever was appended since. */
    method FindPreviousState(o: OutPoint, updateNum: nat) returns (out: Option<Delta>)
      ensures out == Lookup(log, o, updateNum)
      ensures forall entries | Stores(log, o, entries) && updateNum % TWO32 in entries ::
                out == Some(entries[updateNum % TWO32])
    {
      hide DeltaFrom, LogKey;
      var key := LogKey(o, updateNum % TWO32);
      if key !in log {
        out := None;
      } else {
        out := DeserializeChannelDelta(log[key]);
      }
      forall entries | Stores(log, o, entries) && updateNum % TWO32 in entries
        ensures out == Some(entries[updateNum % TWO32])
      {
        assert StoresAt(log, o, updateNum % TWO32, entries[updateNum % TWO32]);
      }
    }
  }
}
