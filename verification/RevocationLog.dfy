/** The revocation log on disk: how HTLCs and channel deltas become bytes and back, the key
of a log entry, and the append and lookup operations on the log bucket.
 */
module RevocationLog {
  import opened Primitives
  import opened Bytes
  import opened ChannelSpec

  const HTLC_DISK_SIZE: nat := 49

  /** The values the fields of the source's structs can hold. */
  predicate HtlcFits(h: DiskHtlc) {
    IsInt64(h.amount) && h.timeout < TWO32 && h.delay < TWO32
  }

  predicate DeltaFits(d: Delta) {
    && IsInt64(d.localBalance) && IsInt64(d.remoteBalance) && d.updateNum < TWO32 && |d.htlcs| < TWO64
    && forall i | 0 <= i < |d.htlcs| :: HtlcFits(d.htlcs[i])
  }

  /* --- HTLCs ---------------------------------------------------------------------------------- */

  function HtlcBytes(h: DiskHtlc): (bs: seq<byte>)
    ensures |bs| == HTLC_DISK_SIZE
  {
    [if h.incoming then 1 else 0] + BigEndian(ToWord64(h.amount), 8) + h.rhash
    + BigEndian(h.timeout % TWO32, 4) + BigEndian(h.delay % TWO32, 4)
  }

  /** Five reads, all but the hash through one scratch buffer. */
  function HtlcFrom(input: seq<byte>): (r: Option<(DiskHtlc, seq<byte>)>)
    ensures r.Some? ==> |r.value.1| < |input|
  {
    var zero: seq<byte> := seq(8, _ => 0);
    var flag := ReadInto(input, zero[..1]);
    if flag.None? then None else
    var amount := ReadInto(flag.value.1, flag.value.0 + zero[1..]);
    if amount.None? then None else
    var rhash := ReadInto(amount.value.1, ZeroHash());
    if rhash.None? then None else
    var timeout := ReadInto(rhash.value.1, amount.value.0[..4]);
    if timeout.None? then None else
    var delay := ReadInto(timeout.value.1, timeout.value.0);
    if delay.None? then None else
    Some((DiskHtlc(flag.value.0[0] == 1, FromWord64(Value64(amount.value.0)), rhash.value.0,
                   BigEndianValue(timeout.value.0), BigEndianValue(delay.value.0)),
          delay.value.1))
  }

  function Value64(bs: seq<byte>): (v: nat)
    requires |bs| == 8
    ensures v < TWO64
  {
    Pow256Values();
    BigEndianExact(bs);
    BigEndianValue(bs)
  }

  lemma HtlcRoundTrip(h: DiskHtlc, rest: seq<byte>)
    requires HtlcFits(h)
    ensures HtlcFrom(HtlcBytes(h) + rest) == Some((h, rest))
  {
    hide ReadInto, BigEndian, BigEndianValue, Pow256, ToWord64, FromWord64, ZeroHash;
    var zero: seq<byte> := seq(8, _ => 0);
    var a: seq<byte> := [if h.incoming then 1 else 0];
    var b := BigEndian(ToWord64(h.amount), 8);
    var d := BigEndian(h.timeout, 4);
    var e := BigEndian(h.delay, 4);
    Pow256Values();
    BigEndianRoundTrip(ToWord64(h.amount), 8);
    BigEndianRoundTrip(h.timeout, 4);
    BigEndianRoundTrip(h.delay, 4);
    Int64RoundTrip(h.amount);
    ReadExactly(a, b + (h.rhash + (d + (e + rest))), zero[..1]);
    ReadExactly(b, h.rhash + (d + (e + rest)), a + zero[1..]);
    ReadExactly(h.rhash, d + (e + rest), ZeroHash());
    ReadExactly(d, e + rest, b[..4]);
    ReadExactly(e, rest, d);
    assert HtlcBytes(h) + rest == a + (b + (h.rhash + (d + (e + rest))));
  }

  function HtlcsBytes(hs: seq<DiskHtlc>): seq<byte> {
    if hs == [] then [] else HtlcBytes(hs[0]) + HtlcsBytes(hs[1..])
  }

  /** `n` HTLCs read one after the other. */
  function HtlcsFrom(input: seq<byte>, n: nat): Option<(seq<DiskHtlc>, seq<byte>)> {
    if n == 0 then Some(([], input))
    else
      var first := HtlcFrom(input);
      if first.None? then None
      else
        var others := HtlcsFrom(first.value.1, n - 1);
        if others.None? then None else Some(([first.value.0] + others.value.0, others.value.1))
  }

  lemma {:induction false} HtlcsRoundTrip(hs: seq<DiskHtlc>, rest: seq<byte>)
    requires forall i | 0 <= i < |hs| :: HtlcFits(hs[i])
    ensures HtlcsFrom(HtlcsBytes(hs) + rest, |hs|) == Some((hs, rest))
    decreases |hs|
  {
    hide HtlcBytes, HtlcFrom;
    if hs == [] {
      assert HtlcsBytes(hs) + rest == rest;
    } else {
      HtlcRoundTrip(hs[0], HtlcsBytes(hs[1..]) + rest);
      HtlcsRoundTrip(hs[1..], rest);
      assert HtlcsBytes(hs) + rest == HtlcBytes(hs[0]) + (HtlcsBytes(hs[1..]) + rest);
      assert [hs[0]] + hs[1..] == hs;
    }
  }

  /** HTLCs read until the input is used up. */
  function AllHtlcsFrom(input: seq<byte>): Option<seq<DiskHtlc>>
    decreases |input|
  {
    if input == [] then Some([])
    else
      var first := HtlcFrom(input);
      if first.None? then None
      else
        var others := AllHtlcsFrom(first.value.1);
        if others.None? then None else Some([first.value.0] + others.value)
  }

  lemma {:induction false} AllHtlcsRoundTrip(hs: seq<DiskHtlc>)
    requires forall i | 0 <= i < |hs| :: HtlcFits(hs[i])
    ensures AllHtlcsFrom(HtlcsBytes(hs)) == Some(hs)
    decreases |hs|
  {
    hide HtlcBytes, HtlcFrom;
    if hs != [] {
      HtlcRoundTrip(hs[0], HtlcsBytes(hs[1..]));
      AllHtlcsRoundTrip(hs[1..]);
      assert [hs[0]] + hs[1..] == hs;
    }
  }

  /* --- channel deltas -------------------------------------------------------------------------- */

  function DeltaHead(d: Delta): seq<byte> {
    BigEndian(ToWord64(d.localBalance), 8) + BigEndian(ToWord64(d.remoteBalance), 8) + BigEndian(d.updateNum % TWO32, 4)
  }

  function DeltaBytes(d: Delta): seq<byte> {
    DeltaHead(d) + VarInt(|d.htlcs| % TWO64) + HtlcsBytes(d.htlcs)
  }

  /** The two balances and the update number, read through one scratch buffer. */
  function HeadFrom(input: seq<byte>): Option<(int, int, nat, seq<byte>)> {
    var zero: seq<byte> := seq(8, _ => 0);
    var local := ReadInto(input, zero);
    if local.None? then None else
    var remote := ReadInto(local.value.1, local.value.0);
    if remote.None? then None else
    var update := ReadInto(remote.value.1, remote.value.0[..4]);
    if update.None? then None else
    Some((FromWord64(Value64(local.value.0)), FromWord64(Value64(remote.value.0)),
          BigEndianValue(update.value.0), update.value.1))
  }

  function DeltaFrom(input: seq<byte>): Option<Delta> {
    var head := HeadFrom(input);
    if head.None? then None else
    var count := VarIntFrom(head.value.3);
    if count.None? then None else
    var htlcs := HtlcsFrom(count.value.1, count.value.0);
    if htlcs.None? then None else
    Some(Delta(head.value.0, head.value.1, head.value.2, htlcs.value.0))
  }

  lemma HeadRoundTrip(d: Delta, rest: seq<byte>)
    requires DeltaFits(d)
    ensures HeadFrom(DeltaHead(d) + rest) == Some((d.localBalance, d.remoteBalance, d.updateNum, rest))
  {
    hide ReadInto, BigEndian, BigEndianValue, Pow256, ToWord64, FromWord64;
    var zero: seq<byte> := seq(8, _ => 0);
    var a := BigEndian(ToWord64(d.localBalance), 8);
    var b := BigEndian(ToWord64(d.remoteBalance), 8);
    var c := BigEndian(d.updateNum, 4);
    Pow256Values();
    BigEndianRoundTrip(ToWord64(d.localBalance), 8);
    BigEndianRoundTrip(ToWord64(d.remoteBalance), 8);
    BigEndianRoundTrip(d.updateNum, 4);
    Int64RoundTrip(d.localBalance);
    Int64RoundTrip(d.remoteBalance);
    ReadExactly(a, b + (c + rest), zero);
    ReadExactly(b, c + rest, a);
    ReadExactly(c, rest, b[..4]);
    assert DeltaHead(d) + rest == a + (b + (c + rest));
  }

  /** Every delta is read back exactly as written. */
  lemma DeltaRoundTrip(d: Delta)
    requires DeltaFits(d)
    ensures DeltaFrom(DeltaBytes(d)) == Some(d)
  {
    hide DeltaHead, HeadFrom, VarInt, VarIntFrom, HtlcsBytes, HtlcsFrom;
    var hs := HtlcsBytes(d.htlcs);
    HeadRoundTrip(d, VarInt(|d.htlcs|) + hs);
    VarIntRoundTrip(|d.htlcs|, hs);
    HtlcsRoundTrip(d.htlcs, []);
    assert hs + [] == hs;
    assert DeltaBytes(d) == DeltaHead(d) + (VarInt(|d.htlcs|) + hs);
  }

  method SerializeChannelDelta(d: Delta) returns (b: seq<byte>)
    ensures b == DeltaBytes(d)
  {
    hide DeltaHead, VarInt, HtlcBytes;
    b := DeltaHead(d);
    b := b + VarInt(|d.htlcs| % TWO64);
    for i := 0 to |d.htlcs|
      invariant b + HtlcsBytes(d.htlcs[i..]) == DeltaBytes(d)
    {
      assert d.htlcs[i..][1..] == d.htlcs[i + 1..];
      b := b + HtlcBytes(d.htlcs[i]);
    }
    assert b + HtlcsBytes([]) == b;
  }

  method DeserializeChannelDelta(input: seq<byte>) returns (out: Option<Delta>)
    ensures out == DeltaFrom(input)
  {
    hide HeadFrom, VarIntFrom, HtlcFrom;
    var head := HeadFrom(input);
    if head.None? {
      return None;
    }
    var count := VarIntFrom(head.value.3);
    if count.None? {
      return None;
    }
    var htlcs: seq<DiskHtlc>, r := [], count.value.1;
    ghost var all := HtlcsFrom(r, count.value.0);
    assert all.Some? ==> [] + all.value.0 == all.value.0;
    for i := 0 to count.value.0
      invariant var others := HtlcsFrom(r, count.value.0 - i);
                all == if others.None? then None else Some((htlcs + others.value.0, others.value.1))
    {
      var next := HtlcFrom(r);
      if next.None? {
        return None;
      }
      ghost var others := HtlcsFrom(next.value.1, count.value.0 - i - 1);
      assert others.Some? ==> htlcs + ([next.value.0] + others.value.0) == htlcs + [next.value.0] + others.value.0;
      htlcs, r := htlcs + [next.value.0], next.value.1;
    }
    assert htlcs + [] == htlcs;
    out := Some(Delta(head.value.0, head.value.1, head.value.2, htlcs));
  }

  method FetchCurrentHtlcs(stored: seq<byte>) returns (out: Option<seq<DiskHtlc>>)
    ensures out == AllHtlcsFrom(stored)
  {
    hide HtlcFrom;
    var htlcs: seq<DiskHtlc>, r := [], stored;
    ghost var all := AllHtlcsFrom(stored);
    assert all.Some? ==> [] + all.value == all.value;
    while |r| != 0
      invariant var others := AllHtlcsFrom(r); all == if others.None? then None else Some(htlcs + others.value)
      decreases |r|
    {
      var next := HtlcFrom(r);
      if next.None? {
        return None;
      }
      ghost var others := AllHtlcsFrom(next.value.1);
      assert others.Some? ==> htlcs + ([next.value.0] + others.value) == htlcs + [next.value.0] + others.value;
      htlcs, r := htlcs + [next.value.0], next.value.1;
    }
    assert htlcs + [] == htlcs;
    out := Some(htlcs);
  }

  /* --- the log bucket ---------------------------------------------------------------------------- */

  type Bucket = map<seq<byte>, seq<byte>>

  function LogKey(o: OutPoint, updateNum: nat): (key: seq<byte>)
    ensures |key| == 40
  {
    o.hash + BigEndian(o.index % TWO32, 4) + BigEndian(updateNum % TWO32, 4)
  }

  /** Entries of different channels or different update numbers never collide. */
  lemma LogKeyInjective(o: OutPoint, n: nat, o': OutPoint, n': nat)
    requires o.index < TWO32 && o'.index < TWO32 && n < TWO32 && n' < TWO32
    ensures LogKey(o, n) == LogKey(o', n') <==> o == o' && n == n'
  {
    hide BigEndian;
    var x, y := LogKey(o, n), LogKey(o', n');
    assert x[..32] == o.hash && x[32..36] == BigEndian(o.index, 4) && x[36..] == BigEndian(n, 4);
    assert y[..32] == o'.hash && y[32..36] == BigEndian(o'.index, 4) && y[36..] == BigEndian(n', 4);
    hide LogKey;
    Word32Injective(o.index, o'.index);
    Word32Injective(n, n');
  }

  lemma Word32Injective(x: nat, y: nat)
    requires x < TWO32 && y < TWO32
    ensures BigEndian(x, 4) == BigEndian(y, 4) <==> x == y
  {
    hide BigEndian, BigEndianValue;
    Pow256Values();
    BigEndianRoundTrip(x, 4);
    BigEndianRoundTrip(y, 4);
  }

  ghost predicate StoresAt(bucket: Bucket, o: OutPoint, n: nat, d: Delta) {
    LogKey(o, n) in bucket && DeltaFrom(bucket[LogKey(o, n)]) == Some(d)
  }

  /** The bucket holds every entry of a channel's log. */
  ghost predicate Stores(bucket: Bucket, o: OutPoint, log: map<nat, Delta>) {
    o.index < TWO32 && forall n | n in log :: n < TWO32 && StoresAt(bucket, o, n, log[n])
  }

  function Lookup(bucket: Bucket, o: OutPoint, updateNum: nat): Option<Delta> {
    var key := LogKey(o, updateNum % TWO32);
    if key in bucket then DeltaFrom(bucket[key]) else None
  }

  lemma AppendStores(bucket: Bucket, o: OutPoint, d: Delta, o': OutPoint, log: map<nat, Delta>)
    requires DeltaFits(d) && o.index < TWO32 && Stores(bucket, o', log)
    ensures Stores(bucket[LogKey(o, d.updateNum) := DeltaBytes(d)], o', if o == o' then log[d.updateNum := d] else log)
  {
    hide DeltaFrom, DeltaBytes, LogKey;
    var bucket' := bucket[LogKey(o, d.updateNum) := DeltaBytes(d)];
    var log' := if o == o' then log[d.updateNum := d] else log;
    DeltaRoundTrip(d);
    forall n | n in log' ensures n < TWO32 && StoresAt(bucket', o', n, log'[n]) {
      LogKeyInjective(o, d.updateNum, o', n);
      assert n in log ==> StoresAt(bucket, o', n, log[n]);
    }
  }
}
