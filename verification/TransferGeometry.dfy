/** Where the K and V parts of every block lie in an agent's memory, which slice of them a rank
    reads, and the descriptor lists that the connector prepares for both sides of a READ. */
module TransferGeometry {
  import opened Grid
  import Exact

  /** A prepared descriptor: address, byte length, device. */
  datatype Desc = Desc(addr: nat, len: nat, device: nat)

  /** The caches an agent registered: one base address and block length per cache tensor. */
  datatype Caches = Caches(bases: seq<nat>, blockLens: seq<nat>, numBlocks: nat, device: nat, blockSize: nat)

  /** Facts that `register_kv_caches` leaves behind: a block is `blockSize` slots of equal size, and
      when K and V share a block (`joint`) every slot has an even size. */
  predicate Registered(c: Caches, joint: bool) {
    && |c.bases| == |c.blockLens|
    && c.numBlocks > 0 && c.blockSize > 0
    && forall i | 0 <= i < |c.blockLens| ::
         c.blockLens[i] % c.blockSize == 0 && (joint ==> (c.blockLens[i] / c.blockSize) % 2 == 0)
  }

  // ----- regions: a cache tensor, or its K or V half when both share a block -----

  function RegionCount(c: Caches, joint: bool): nat {
    if joint then 2 * |c.bases| else |c.bases|
  }

  function CacheOf(joint: bool, r: nat): nat {
    if joint then r / 2 else r
  }

  function PartLen(c: Caches, joint: bool, r: nat): nat
    requires |c.bases| == |c.blockLens| && r < RegionCount(c, joint)
  {
    var l := c.blockLens[CacheOf(joint, r)];
    if joint then l / 2 else l
  }

  /** First byte of block b in region r: the V part is the second half of a joint block. */
  function PartStart(c: Caches, joint: bool, r: nat, b: nat): nat
    requires |c.bases| == |c.blockLens| && r < RegionCount(c, joint)
  {
    var i := CacheOf(joint, r);
    c.bases[i] + b * c.blockLens[i] + (if joint && r % 2 == 1 then c.blockLens[i] / 2 else 0)
  }

  /** One of `ratio` equal pieces. */
  function Piece(l: nat, ratio: nat): nat
    requires ratio > 0
  {
    l / ratio
  }

  /** The same memory seen as `ratio` times as many blocks, each `ratio` times as small. */
  function Recut(c: Caches, ratio: nat): Caches
    requires ratio > 0
  {
    Caches(c.bases, seq(|c.blockLens|, i requires 0 <= i < |c.blockLens| => Piece(c.blockLens[i], ratio)),
           c.numBlocks * ratio, c.device, Piece(c.blockSize, ratio))
  }

  /** Descriptor of the whole part (r, b). */
  function WholePart(c: Caches, joint: bool): (nat, nat) --> Desc
    requires |c.bases| == |c.blockLens|
  {
    (r: nat, b: nat) requires r < RegionCount(c, joint) =>
      Desc(PartStart(c, joint, r, b), PartLen(c, joint, r), c.device)
  }

  /** All parts of all blocks, region by region. */
  function WholeParts(c: Caches, joint: bool): seq<Desc>
    requires |c.bases| == |c.blockLens|
  {
    Flat(RegionCount(c, joint), c.numBlocks, WholePart(c, joint))
  }

  /** Chunk i of t of a descriptor. */
  function Chunk(d: Desc, t: nat, i: nat): Desc
    requires t > 0
  {
    Desc(d.addr + i * (d.len / t), d.len / t, d.device)
  }

  function Chunks(ds: seq<Desc>, t: nat, i: nat): seq<Desc>
    requires t > 0
  {
    seq(|ds|, k requires 0 <= k < |ds| => Chunk(ds[k], t, i))
  }

  // ----- the two deployments of a transfer -----

  /** This worker. */
  datatype Local = Local(caches: Caches, joint: bool, mla: bool, tpRank: nat, tpSize: nat)

  /** One remote rank, as learnt in the handshake. */
  datatype Peer = Peer(caches: Caches, tpSize: nat, replicated: bool)

  /** `TpKVTopology.tp_ratio`, by contract: how many local ranks share a remote rank, or minus how
      many remote ranks one local rank covers. */
  function TpRatio(local: nat, remote: nat): int
    requires local > 0 && remote > 0
  {
    if local >= remote then local / remote else -(remote / local)
  }

  predicate Divides(a: nat, b: nat)
    requires a > 0
  {
    b % a == 0
  }

  predicate SizesAgree(w: Local, p: Peer) {
    && w.tpSize > 0 && p.tpSize > 0
    && (if w.tpSize >= p.tpSize then Divides(p.tpSize, w.tpSize) else Divides(w.tpSize, p.tpSize))
    && p.caches.blockSize > 0 && w.caches.blockSize > 0 && Divides(p.caches.blockSize, w.caches.blockSize)
  }

  function Ratio(w: Local, p: Peer): int
    requires w.tpSize > 0 && p.tpSize > 0
  {
    TpRatio(w.tpSize, p.tpSize)
  }

  function BlockRatio(w: Local, p: Peer): nat
    requires p.caches.blockSize > 0
  {
    w.caches.blockSize / p.caches.blockSize
  }

  /** `_validate_remote_agent_handshake`: the shapes that may exchange KV blocks. */
  predicate ShapesAgree(w: Local, p: Peer)
    requires SizesAgree(w, p) && Registered(w.caches, w.joint)
  {
    var t := Ratio(w, p);
    var ratio := BlockRatio(w, p);
    Exact.Quotient(p.caches.blockSize, ratio);
    && |p.caches.bases| == |p.caches.blockLens| == |w.caches.blockLens| > 0
    && !(t < 0 && p.replicated)
    && ratio > 0
    && (if w.mla || p.replicated then
          forall i | 0 <= i < |w.caches.blockLens| :: w.caches.blockLens[i] / ratio == p.caches.blockLens[i]
        else
          && (forall i | 0 <= i < |p.caches.blockLens| :: p.caches.blockLens[i] == p.caches.blockLens[0])
          && (if t > 0 then p.caches.blockLens[0] == (w.caches.blockLens[0] * t) / ratio
              else ratio == 1 && p.caches.blockLens[0] == w.caches.blockLens[0] / (-t)))
  }

  /** The caches are split over heads and the remote rank holds the heads of several local ranks. */
  predicate Indexes(w: Local, p: Peer)
    requires w.tpSize > 0 && p.tpSize > 0
  {
    !(w.mla || p.replicated) && Ratio(w, p) > 0
  }

  /** Several remote ranks together hold the heads of this rank. */
  predicate Gathers(w: Local, p: Peer)
    requires w.tpSize > 0 && p.tpSize > 0
  {
    !w.mla && Ratio(w, p) < 0
  }

  /** Into how many equal slices a remote part is cut, and which of them this rank reads. */
  function SliceCount(w: Local, p: Peer): nat
    requires w.tpSize > 0 && p.tpSize > 0
  {
    if Indexes(w, p) then Ratio(w, p) else 1
  }

  function SliceIndex(w: Local, p: Peer): nat
    requires w.tpSize > 0 && p.tpSize > 0
  {
    if Indexes(w, p) then w.tpRank % Ratio(w, p) else 0
  }

  /** Length of the slice that this rank reads of every remote part of region r. */
  function SliceLen(w: Local, p: Peer, r: nat): nat
    requires w.tpSize > 0 && p.tpSize > 0 && |p.caches.bases| == |p.caches.blockLens|
        && r < RegionCount(p.caches, w.joint)
  {
    PartLen(p.caches, w.joint, r) / SliceCount(w, p)
  }

  /** First byte of the slice of the remote part (r, b). */
  function SliceStart(w: Local, p: Peer, r: nat, b: nat): nat
    requires w.tpSize > 0 && p.tpSize > 0 && |p.caches.bases| == |p.caches.blockLens|
        && r < RegionCount(p.caches, w.joint)
  {
    PartStart(p.caches, w.joint, r, b) + SliceIndex(w, p) * SliceLen(w, p, r)
  }

  /** The slice of the remote part (r, b) that this rank reads. */
  function PeerSlice(w: Local, p: Peer): (nat, nat) --> Desc
    requires w.tpSize > 0 && p.tpSize > 0 && |p.caches.bases| == |p.caches.blockLens|
  {
    (r: nat, b: nat) requires r < RegionCount(p.caches, w.joint) =>
      Desc(SliceStart(w, p, r, b), SliceLen(w, p, r), p.caches.device)
  }

  function PeerRows(w: Local, p: Peer, regions: nat): seq<Desc>
    requires w.tpSize > 0 && p.tpSize > 0 && |p.caches.bases| == |p.caches.blockLens|
    requires regions <= RegionCount(p.caches, w.joint)
  {
    Flat(regions, p.caches.numBlocks, PeerSlice(w, p))
  }

  function PeerSlices(w: Local, p: Peer): seq<Desc>
    requires w.tpSize > 0 && p.tpSize > 0 && |p.caches.bases| == |p.caches.blockLens|
  {
    PeerRows(w, p, RegionCount(p.caches, w.joint))
  }

  // ----- building the lists, loop by loop -----

  lemma LocalParts(c: Caches, joint: bool, blockSize: nat, i: nat)
    requires Registered(c, joint) && blockSize > 0 && Divides(blockSize, c.blockSize) && i < |c.bases|
    ensures var ratio := c.blockSize / blockSize;
            && ratio > 0
            && Recut(c, ratio).blockLens[i] == c.blockLens[i] / ratio
            && c.blockLens[i] % ratio == 0
            && (joint ==> (c.blockLens[i] / 2) / ratio == (c.blockLens[i] / ratio) / 2)
            && (joint ==> (c.blockLens[i] / ratio) % 2 == 0 && c.blockLens[i] % 2 == 0)
  {
    var q := c.blockLens[i] / c.blockSize;
    Exact.RecutBlock(c.blockLens[i], c.blockSize, blockSize, q);
    if joint {
      Exact.RecutHalf(c.blockLens[i], c.blockSize, blockSize, q);
    }
  }

  /** One pass over the block ids of a tensor: equally spaced descriptors of one length. */
  method AppendBlocks(blocks: seq<Desc>, first: nat, stride: nat, numBlocks: nat, len: nat, device: nat)
    returns (out: seq<Desc>)
    ensures out == blocks + Spaced(first, stride, numBlocks, len, device)
  {
    out := blocks;
    for b := 0 to numBlocks
      invariant out == blocks + Spaced(first, stride, b, len, device)
    {
      out := out + [Desc(first + b * stride, len, device)];
    }
  }

  function Spaced(first: nat, stride: nat, numBlocks: nat, len: nat, device: nat): seq<Desc> {
    seq(numBlocks, b requires 0 <= b < numBlocks => Desc(first + b * stride, len, device))
  }

  /** The first `regions` rows of the local list. */
  function LocalRows(c: Caches, joint: bool, ratio: nat, regions: nat): seq<Desc>
    requires |c.bases| == |c.blockLens| && ratio > 0 && regions <= RegionCount(c, joint)
  {
    Flat(regions, c.numBlocks * ratio, WholePart(Recut(c, ratio), joint))
  }

  /** Length of the descriptors of local cache i. */
  function LocalUnit(c: Caches, joint: bool, ratio: nat, i: nat): nat
    requires i < |c.blockLens| && ratio > 0
  {
    Piece(if joint then c.blockLens[i] / 2 else c.blockLens[i], ratio)
  }

  predicate Cuts(c: Caches, joint: bool, blockSize: nat, ratio: nat) {
    Registered(c, joint) && blockSize > 0 && Divides(blockSize, c.blockSize) && ratio == c.blockSize / blockSize > 0
  }

  lemma LocalDesc(c: Caches, joint: bool, blockSize: nat, ratio: nat, r: nat, start: nat, stride: nat, b: nat)
    requires Cuts(c, joint, blockSize, ratio) && r < RegionCount(c, joint)
    requires var i := CacheOf(joint, r);
             && start == c.bases[i] + (if joint && r % 2 == 1 then LocalUnit(c, joint, ratio, i) else 0)
             && stride == Piece(c.blockLens[i], ratio)
    ensures WholePart(Recut(c, ratio), joint)(r, b)
            == Desc(start + b * stride, LocalUnit(c, joint, ratio, CacheOf(joint, r)), c.device)
  {
    LocalParts(c, joint, blockSize, CacheOf(joint, r));
    assert Recut(c, ratio).blockLens[CacheOf(joint, r)] == stride;
  }

  /** The row that the local list gets for one part of a cache tensor. */
  lemma LocalRow(c: Caches, joint: bool, blockSize: nat, ratio: nat, r: nat, start: nat)
    requires Cuts(c, joint, blockSize, ratio) && r < RegionCount(c, joint)
    requires var i := CacheOf(joint, r);
             start == c.bases[i] + (if joint && r % 2 == 1 then LocalUnit(c, joint, ratio, i) else 0)
    ensures var i := CacheOf(joint, r);
            LocalRows(c, joint, ratio, r)
            + Spaced(start, Piece(c.blockLens[i], ratio), c.numBlocks * ratio, LocalUnit(c, joint, ratio, i), c.device)
            == LocalRows(c, joint, ratio, r + 1)
  {
    var i := CacheOf(joint, r);
    var stride, numBlocks := Piece(c.blockLens[i], ratio), c.numBlocks * ratio;
    forall b: nat | b < numBlocks
      ensures Spaced(start, stride, numBlocks, LocalUnit(c, joint, ratio, i), c.device)[b]
           == Row(numBlocks, r, WholePart(Recut(c, ratio), joint))[b]
    {
      LocalDesc(c, joint, blockSize, ratio, r, start, stride, b);
    }
    assert Spaced(start, stride, numBlocks, LocalUnit(c, joint, ratio, i), c.device)
        == Row(numBlocks, r, WholePart(Recut(c, ratio), joint));
  }

  /** Cache i's descriptors: its K (or only) part, then its V part if K and V share a block. */
  method AppendLocal(c: Caches, joint: bool, blockSize: nat, ratio: nat, i: nat, blocks0: seq<Desc>)
    returns (blocks: seq<Desc>)
    requires Cuts(c, joint, blockSize, ratio)
    requires i < |c.bases| && blocks0 == LocalRows(c, joint, ratio, if joint then 2 * i else i)
    ensures blocks == LocalRows(c, joint, ratio, if joint then 2 * i + 2 else i + 1)
  {
    var kvBlockLen := LocalUnit(c, joint, ratio, i);
    LocalRow(c, joint, blockSize, ratio, if joint then 2 * i else i, c.bases[i]);
    blocks := AppendBlocks(blocks0, c.bases[i], Piece(c.blockLens[i], ratio), c.numBlocks * ratio, kvBlockLen,
                           c.device);
    if joint {
      LocalRow(c, joint, blockSize, ratio, 2 * i + 1, c.bases[i] + kvBlockLen);
      blocks := AppendBlocks(blocks, c.bases[i] + kvBlockLen, Piece(c.blockLens[i], ratio), c.numBlocks * ratio,
                             kvBlockLen, c.device);
    }
  }

  /** `register_local_xfer_handler`: cut the local caches at `blockSize` and list every part. */
  method RegisterLocalXferHandler(c: Caches, joint: bool, blockSize: nat) returns (blocks: seq<Desc>)
    requires Registered(c, joint) && blockSize > 0 && Divides(blockSize, c.blockSize)
    ensures c.blockSize / blockSize > 0
    ensures blocks == WholeParts(Recut(c, c.blockSize / blockSize), joint)
  {
    var ratio := c.blockSize / blockSize;
    Exact.RecutBlock(c.blockSize, c.blockSize, blockSize, 1);
    blocks := [];
    for i := 0 to |c.bases|
      invariant blocks == LocalRows(c, joint, ratio, if joint then 2 * i else i)
    {
      blocks := AppendLocal(c, joint, blockSize, ratio, i, blocks);
    }
  }

  /** Splitting the local descriptors into |tp_ratio| chunks, one list per remote rank. */
  method SplitLocalDescs(src: seq<Desc>, t: nat) returns (lists: seq<seq<Desc>>)
    requires t > 0
    ensures |lists| == t && forall i | 0 <= i < t :: lists[i] == Chunks(src, t, i)
  {
    lists := [];
    for i := 0 to t
      invariant |lists| == i && forall j | 0 <= j < i :: lists[j] == Chunks(src, t, j)
    {
      var blocks := [];
      for k := 0 to |src|
        invariant blocks == Chunks(src, t, i)[..k]
      {
        var remoteBlockLen := src[k].len / t;
        blocks := blocks + [Desc(src[k].addr + i * remoteBlockLen, remoteBlockLen, src[k].device)];
      }
      lists := lists + [blocks];
    }
  }

  /** What the handshake check says about one cache: its remote block holds SliceCount local blocks cut at
      the remote block size, or a |tp_ratio|-th of the local block. */
  lemma PeerBlock(w: Local, p: Peer, i: nat)
    requires SizesAgree(w, p) && Registered(w.caches, w.joint) && ShapesAgree(w, p)
    requires UniformUnlessMla(w) && i < |w.caches.blockLens|
    ensures Ratio(w, p) != 0 && SliceCount(w, p) > 0
    ensures !Gathers(w, p) ==> p.caches.blockLens[i] == (w.caches.blockLens[i] / BlockRatio(w, p)) * SliceCount(w, p)
    ensures Gathers(w, p) ==> BlockRatio(w, p) == 1 && p.caches.blockLens[i] == w.caches.blockLens[i] / (-Ratio(w, p))
  {
    RatioNonzero(w.tpSize, p.tpSize);
    if Indexes(w, p) {
      LocalParts(w.caches, w.joint, p.caches.blockSize, i);
      Exact.Scaled(w.caches.blockLens[i], BlockRatio(w, p), Ratio(w, p));
    }
  }

  /** The same for the parts of a region. */
  lemma PeerParts(w: Local, p: Peer, r: nat)
    requires SizesAgree(w, p) && Registered(w.caches, w.joint) && ShapesAgree(w, p)
    requires UniformUnlessMla(w)
    requires r < RegionCount(w.caches, w.joint)
    ensures RegionCount(p.caches, w.joint) == RegionCount(w.caches, w.joint)
    ensures Ratio(w, p) != 0 && SliceCount(w, p) > 0
    ensures !Gathers(w, p) ==> PartLen(p.caches, w.joint, r) == SliceCount(w, p) * SliceLen(w, p, r)
    ensures !Gathers(w, p) ==> PartLen(w.caches, w.joint, r) / BlockRatio(w, p) == SliceLen(w, p, r)
    ensures Gathers(w, p) ==>
              BlockRatio(w, p) == 1 && PartLen(p.caches, w.joint, r) == PartLen(w.caches, w.joint, r) / (-Ratio(w, p))
    ensures w.joint && !Gathers(w, p) ==> p.caches.blockLens[CacheOf(w.joint, r)] % 2 == 0
  {
    var i := CacheOf(w.joint, r);
    PeerBlock(w, p, i);
    if Gathers(w, p) {
      HalfThenSplit(w.caches.blockLens[i], -Ratio(w, p));
    } else {
      LocalParts(w.caches, w.joint, p.caches.blockSize, i);
      var n, unit := SliceCount(w, p), PartLen(w.caches, w.joint, r) / BlockRatio(w, p);
      if w.joint {
        Exact.HalfUnits(w.caches.blockLens[i] / BlockRatio(w, p), unit, n, p.caches.blockLens[i]);
      }
      Exact.Units(unit, n, PartLen(p.caches, w.joint, r));
    }
  }

  /** Length of a remote descriptor, as `add_remote_agent` computes it from the local part length. */
  function UnitLen(kvBlockLen: nat, ratio: nat, gather: nat): nat
    requires ratio > 0 && gather > 0
  {
    (if ratio > 1 then kvBlockLen / ratio else kvBlockLen) / gather
  }

  /** Over how many remote ranks a local part is spread. */
  function GatherCount(w: Local, p: Peer): (n: nat)
    requires w.tpSize > 0 && p.tpSize > 0
    ensures n > 0
  {
    if Gathers(w, p) then -Ratio(w, p) else 1
  }

  /** The length and the rank offset are those of the slice of each of the cache's parts. */
  lemma UnitIsSlice(w: Local, p: Peer, r: nat)
    requires SizesAgree(w, p) && Registered(w.caches, w.joint) && ShapesAgree(w, p)
    requires UniformUnlessMla(w)
    requires r < RegionCount(w.caches, w.joint)
    ensures RegionCount(p.caches, w.joint) == RegionCount(w.caches, w.joint) && SliceCount(w, p) > 0
    ensures var kv := PartLen(w.caches, w.joint, r);
            var len := SliceLen(w, p, r);
            && UnitLen(kv, BlockRatio(w, p), GatherCount(w, p)) == len
            && (Indexes(w, p) ==> kv / BlockRatio(w, p) == len)
  {
    PeerParts(w, p, r);
  }

  /** Without MLA every cache tensor has the same size, so every block has the same length. */
  predicate UniformUnlessMla(w: Local) {
    w.mla || forall i, j | 0 <= i < |w.caches.blockLens| && 0 <= j < |w.caches.blockLens| ::
               w.caches.blockLens[i] == w.caches.blockLens[j]
  }

  lemma RatioNonzero(local: nat, remote: nat)
    requires local > 0 && remote > 0
    ensures TpRatio(local, remote) != 0
    ensures TpRatio(local, remote) > 0 <==> local >= remote
  {}

  lemma HalfThenSplit(l: nat, t: nat)
    requires t > 0
    ensures (l / 2) / t == (l / t) / 2
  {
    Exact.Twice(l, 2, t, 2 * t);
    Exact.Twice(l, t, 2, 2 * t);
  }

  predicate Handshaken(w: Local, p: Peer) {
    SizesAgree(w, p) && Registered(w.caches, w.joint) && ShapesAgree(w, p) && UniformUnlessMla(w)
  }

  /** Length and rank offset of the descriptors of remote cache i. */
  function ReadUnit(w: Local, p: Peer, i: nat): (nat, nat)
    requires Handshaken(w, p) && i < |w.caches.blockLens|
  {
    UnitAndOffset(if w.joint then w.caches.blockLens[i] / 2 else w.caches.blockLens[i], BlockRatio(w, p),
                  GatherCount(w, p), SliceIndex(w, p))
  }

  function UnitAndOffset(kvBlockLen: nat, ratio: nat, gather: nat, index: nat): (nat, nat)
    requires ratio > 0 && gather > 0
  {
    (UnitLen(kvBlockLen, ratio, gather), index * (kvBlockLen / ratio))
  }

  /** The row that the remote list gets for one part of a cache tensor. */
  lemma PeerRow(w: Local, p: Peer, r: nat)
    requires Handshaken(w, p) && r < RegionCount(w.caches, w.joint)
    ensures var i := CacheOf(w.joint, r);
            var (len, offset) := ReadUnit(w, p, i);
            var half := if w.joint && r % 2 == 1 then p.caches.blockLens[i] / 2 else 0;
            && RegionCount(p.caches, w.joint) == RegionCount(w.caches, w.joint)
            && PeerRows(w, p, r)
               + Spaced(p.caches.bases[i] + offset + half, p.caches.blockLens[i], p.caches.numBlocks, len,
                        p.caches.device)
               == PeerRows(w, p, r + 1)
  {
    UnitIsSlice(w, p, r);
    var i := CacheOf(w.joint, r);
    var (len, offset) := ReadUnit(w, p, i);
    var half := if w.joint && r % 2 == 1 then p.caches.blockLens[i] / 2 else 0;
    assert Spaced(p.caches.bases[i] + offset + half, p.caches.blockLens[i], p.caches.numBlocks, len, p.caches.device)
        == Row(p.caches.numBlocks, r, PeerSlice(w, p));
  }

  /** Cache i's descriptors: its K (or only) part, then its V part if K and V share a block. */
  method AppendPeer(w: Local, p: Peer, i: nat, blocks0: seq<Desc>) returns (blocks: seq<Desc>)
    requires Handshaken(w, p) && i < |p.caches.bases| && blocks0 == PeerRows(w, p, if w.joint then 2 * i else i)
    ensures blocks == PeerRows(w, p, if w.joint then 2 * i + 2 else i + 1)
  {
    var m := p.caches;
    var (len, rankOffset) := ReadUnit(w, p, i);
    PeerRow(w, p, if w.joint then 2 * i else i);
    blocks := AppendBlocks(blocks0, m.bases[i] + rankOffset, m.blockLens[i], m.numBlocks, len, m.device);
    if w.joint {
      PeerRow(w, p, 2 * i + 1);
      blocks := AppendBlocks(blocks, m.bases[i] + rankOffset + m.blockLens[i] / 2, m.blockLens[i], m.numBlocks, len,
                             m.device);
    }
  }

  /** The remote half of `add_remote_agent`: for every remote block, the heads this rank reads. */
  method BuildRemoteDescs(w: Local, p: Peer) returns (blocks: seq<Desc>)
    requires Handshaken(w, p)
    ensures blocks == PeerSlices(w, p)
  {
    blocks := [];
    for i := 0 to |p.caches.bases|
      invariant blocks == PeerRows(w, p, if w.joint then 2 * i else i)
    {
      blocks := AppendPeer(w, p, i, blocks);
    }
  }
}
