/** Elkrem receivers on disk: one byte for the number of nodes, then 41 bytes a node. */
module ElkremSerdes {
  import opened Primitives
  import opened Bytes
  import opened ElkremSpec

  const NODE_SIZE: nat := 41

  /** The read cap the channel database puts on a stored receiver. */
  const READ_CAP: nat := 1000

  function NodeBytes(n: Node): (bs: seq<byte>)
    ensures |bs| == NODE_SIZE
  {
    [n.h % 256] + BigEndian(n.i % TWO64, 8) + n.sha
  }

  function NodesBytes(s: seq<Node>): (bs: seq<byte>)
    ensures |bs| == NODE_SIZE * |s|
  {
    if s == [] then [] else NodeBytes(s[0]) + NodesBytes(s[1..])
  }

  function Encoded(s: seq<Node>): seq<byte>
    requires |s| < 256
  {
    if s == [] then [] else [|s|] + NodesBytes(s)
  }

  /** The bytes of a receiver, or a refusal. The 8-bit count takes a multiple of 256 nodes for
  none. */
  function Stored(s: seq<Node>): Option<seq<byte>> {
    if |s| <= MAX_HEIGHT + 1 then Some(Encoded(s)) else if |s| % 256 == 0 then Some([]) else None
  }

  /** Nothing for an empty receiver; an error for one with too many nodes. */
  method ToBytes(s: seq<Node>) returns (out: Option<seq<byte>>)
    ensures out == Stored(s)
  {
    var numOfNodes := |s| % 256;
    if numOfNodes == 0 {
      return Some([]);
    }
    if numOfNodes > MAX_HEIGHT + 1 {
      return None;
    }
    var buf: seq<byte> := [numOfNodes];
    for j := 0 to |s|
      invariant buf + NodesBytes(s[j..]) == [numOfNodes] + NodesBytes(s)
    {
      assert s[j..][1..] == s[j + 1..];
      buf := buf + NodeBytes(s[j]);
    }
    assert NodesBytes(s[|s|..]) == [] && buf + [] == buf;
    if |buf| != numOfNodes * NODE_SIZE + 1 {
      return None;
    }
    return Some(buf);
  }

  function NodeFrom(bs: seq<byte>): Node
    requires |bs| == NODE_SIZE
  {
    Node(bs[0], BigEndianValue(bs[1..9]), bs[9..])
  }

  function NodesFrom(bs: seq<byte>, n: nat): seq<Node>
    requires |bs| == n * NODE_SIZE
  {
    if n == 0 then [] else [NodeFrom(bs[..NODE_SIZE])] + NodesFrom(bs[NODE_SIZE..], n - 1)
  }

  /** What the decoder checks of node `j` once it has read it. */
  predicate NodeSane(s: seq<Node>, j: nat)
    requires j < |s|
  {
    s[j].h <= MAX_HEIGHT && s[j].i <= MAX_INDEX && (j > 0 ==> s[j - 1].h >= s[j].h)
  }

  ghost predicate Sane(s: seq<Node>) {
    |s| <= MAX_HEIGHT + 1 && forall j | 0 <= j < |s| :: NodeSane(s, j)
  }

  lemma NodeRoundTrip(n: Node)
    requires n.h < 256 && n.i < TWO64
    ensures NodeFrom(NodeBytes(n)) == n
  {
    hide BigEndian, BigEndianValue;
    Pow256Values();
    BigEndianRoundTrip(n.i, 8);
    assert NodeBytes(n)[1..9] == BigEndian(n.i, 8);
    assert NodeBytes(n)[9..] == n.sha;
  }

  lemma NodeFromExact(bs: seq<byte>)
    requires |bs| == NODE_SIZE
    ensures NodeBytes(NodeFrom(bs)) == bs && NodeFrom(bs).h < 256 && NodeFrom(bs).i < TWO64
  {
    hide BigEndian, BigEndianValue, Pow256;
    Pow256Values();
    BigEndianExact(bs[1..9]);
    assert bs == [bs[0]] + bs[1..9] + bs[9..];
  }

  /** Encoding and decoding nodes are inverse to each other. */
  lemma {:induction false} NodesRoundTrip(s: seq<Node>)
    requires forall j | 0 <= j < |s| :: s[j].h < 256 && s[j].i < TWO64
    ensures NodesFrom(NodesBytes(s), |s|) == s
    decreases |s|
  {
    if s != [] {
      hide NodeBytes, NodeFrom;
      NodesRoundTrip(s[1..]);
      NodeRoundTrip(s[0]);
      assert NodesBytes(s)[..NODE_SIZE] == NodeBytes(s[0]);
      assert NodesBytes(s)[NODE_SIZE..] == NodesBytes(s[1..]);
    }
  }

  lemma {:induction false} NodesFromExact(bs: seq<byte>, n: nat)
    requires |bs| == n * NODE_SIZE
    ensures |NodesFrom(bs, n)| == n && NodesBytes(NodesFrom(bs, n)) == bs
    decreases n
  {
    if n > 0 {
      hide NodeBytes, NodeFrom;
      NodesFromExact(bs[NODE_SIZE..], n - 1);
      NodeFromExact(bs[..NODE_SIZE]);
      assert NodesFrom(bs, n)[1..] == NodesFrom(bs[NODE_SIZE..], n - 1);
      assert bs == bs[..NODE_SIZE] + bs[NODE_SIZE..];
    }
  }

  ghost function Decoded(b: seq<byte>): Option<seq<Node>> {
    if b == [] then Some([])
    else if b[0] < 1 || b[0] > MAX_HEIGHT + 1 || |b| != 1 + b[0] * NODE_SIZE then None
    else
      var s := NodesFrom(b[1..], b[0]);
      if Sane(s) then Some(s) else None
  }

  method FromBytes(b: seq<byte>) returns (out: Option<seq<Node>>)
    ensures out == Decoded(b)
  {
    if |b| == 0 {
      return Some([]);
    }
    var numOfNodes := b[0];
    if numOfNodes < 1 || numOfNodes > MAX_HEIGHT + 1 {
      return None;
    }
    var buf := b[1..];
    if |buf| != numOfNodes * NODE_SIZE {
      return None;
    }
    hide NodesFrom, Sane;
    out := ReadNodes(buf, numOfNodes);
  }

  /** The loop over the nodes, each checked as soon as it is read. */
  method ReadNodes(bytes: seq<byte>, n: nat) returns (out: Option<seq<Node>>)
    requires n <= MAX_HEIGHT + 1 && |bytes| == n * NODE_SIZE
    ensures out == var s := NodesFrom(bytes, n); if Sane(s) then Some(s) else None
  {
    ghost var all := NodesFrom(bytes, n);
    NodesFromExact(bytes, n);
    hide NodesFrom, NodeFrom, NodesBytes;
    var buf := bytes;
    var s: seq<Node> := [];
    for j := 0 to n
      invariant |s| == j && |buf| == (n - j) * NODE_SIZE
      invariant NodesFrom(buf, n - j) == all[j..]
      invariant forall k | 0 <= k < j :: s[k] == all[k] && NodeSane(all, k)
    {
      NodesFromStep(buf, n - j, all, j);
      s := s + [NodeFrom(buf[..NODE_SIZE])];
      buf := buf[NODE_SIZE..];
      if s[j].h > MAX_HEIGHT || s[j].i > MAX_INDEX || (j > 0 && s[j - 1].h < s[j].h) {
        assert !NodeSane(all, j);
        return None;
      }
    }
    assert s == all;
    return Some(s);
  }

  lemma NodesFromStep(bs: seq<byte>, n: nat, all: seq<Node>, j: nat)
    requires |bs| == n * NODE_SIZE && n > 0 && j < |all| && NodesFrom(bs, n) == all[j..]
    ensures all[j] == NodeFrom(bs[..NODE_SIZE]) && NodesFrom(bs[NODE_SIZE..], n - 1) == all[j + 1..]
  {
    hide NodeFrom;
    assert all[j..][0] == all[j] && all[j..][1..] == all[j + 1..];
  }

  /** The decoder accepts exactly the encodings of sane receivers, and gives back that
  receiver. */
  lemma DecodedIffEncoded(b: seq<byte>, s: seq<Node>)
    ensures Decoded(b) == Some(s) <==> Sane(s) && b == Encoded(s)
  {
    if Decoded(b) == Some(s) && b != [] {
      NodesFromExact(b[1..], b[0]);
      assert b == [b[0]] + b[1..];
    }
    if Sane(s) && b == Encoded(s) && s != [] {
      forall j | 0 <= j < |s| ensures s[j].h < 256 && s[j].i < TWO64 {
        assert NodeSane(s, j);
      }
      NodesRoundTrip(s);
      assert b[1..] == NodesBytes(s);
    }
  }

  /** The receiver read back from its stored bytes, through a read with the cap. */
  ghost function ReadBack(stored: seq<byte>): Option<seq<Node>> {
    if |stored| > READ_CAP then None else Decoded(stored)
  }

  /** Every receiver that can be reached within the tree is stored without refusal. It is read
  back, exactly, if and only if it has at most 24 nodes, as every one has that has taken
  fewer than 2^25 - 25 hashes. */
  lemma ReceiverSurvivesDisk(dsha: Hasher, list: seq<Hash>, s: seq<Node>)
    requires Feed(dsha, list) == Some(s) && |list| <= MAX_INDEX + 1
    ensures Sane(s) && Decoded(Encoded(s)) == Some(s)
    ensures |Encoded(s)| <= READ_CAP <==> |s| <= 24
    ensures ReadBack(Encoded(s)) == if |s| <= 24 then Some(s) else None
    ensures |list| < 0x200_0000 - 25 ==> |s| <= 24
  {
    FeedRepresents(dsha, list);
    StorageBound(dsha, s, list);
    hide NodesBytes, Represents, Feed;
    forall j | 0 <= j < |s| ensures NodeSane(s, j) {
      assert j > 0 ==> s[j - 1].h >= s[j].h;
    }
    DecodedIffEncoded(Encoded(s), s);
  }

  /** The number is tight: 2^25 - 25 secrets of any honest sender make 25 nodes, and these are
  not read back. */
  lemma ReadCapReached(dsha: Hasher, root: Hash)
    ensures var stack := Feed(dsha, Secrets(dsha, root, 0x200_0000 - 25));
            stack.Some? && |stack.value| == 25 && ReadBack(Encoded(stack.value)) == None
  {
    hide Feed, SecretAt, HonestStack, Encoded, Decoded, Pow2;
    Pow2Values();
    SenderFeedsReceiver(dsha, root, 0x200_0000 - 25);
    ShortestFor(dsha, 25, 0, MAX_HEIGHT, root);
    ReceiverSurvivesDisk(dsha, Secrets(dsha, root, 0x200_0000 - 25), HonestStack(dsha, 0x200_0000 - 25, 0, MAX_HEIGHT, root));
  }
}
