/** D TP >= P TP: the slices that the consumer ranks take from one producer rank. And how blocks, sub-blocks
    and slices lie one after another in memory. */
module RankSlices {
  import opened Grid
  import opened TransferGeometry
  import BlockPairing
  import Exact

  /** `TpKVTopology.get_target_remote_ranks`, by contract: the producer ranks this rank reads from. */
  function TargetRanks(tpRank: nat, ratio: int): seq<nat>
    requires ratio != 0
  {
    if ratio > 0 then [tpRank / ratio] else seq(-ratio, i requires 0 <= i < -ratio => tpRank * (-ratio) + i)
  }

  /** Consumer rank j reads byte o of the parts of region r on its producer rank. */
  predicate ReadsByte(w: Local, p: Peer, j: nat, r: nat, o: nat)
    requires Handshaken(w, p) && r < RegionCount(p.caches, w.joint)
  {
    var wj := w.(tpRank := j);
    RatioNonzero(w.tpSize, p.tpSize);
    SliceIndex(wj, p) * SliceLen(wj, p, r) <= o < SliceIndex(wj, p) * SliceLen(wj, p, r) + SliceLen(wj, p, r)
  }

  /** For head-split caches every byte of every part of producer rank i is read by exactly one of the
      consumer ranks that target i: the slices are disjoint and cover the block. */
  lemma SlicesPartition(w: Local, p: Peer, i: nat, r: nat, o: nat) returns (j: nat)
    requires Handshaken(w, p) && Indexes(w, p) && i < p.tpSize
    requires r < RegionCount(w.caches, w.joint) == RegionCount(p.caches, w.joint) && o < PartLen(p.caches, w.joint, r)
    ensures Ratio(w, p) > 0
    ensures j < w.tpSize && TargetRanks(j, Ratio(w, p)) == [i] && ReadsByte(w, p, j, r, o)
    ensures forall k: nat | k < w.tpSize && TargetRanks(k, Ratio(w, p)) == [i] && ReadsByte(w, p, k, r, o) :: k == j
  {
    var t := Ratio(w, p);
    PeerParts(w, p, r);
    var len := SliceLen(w, p, r);
    var k, rest := Split(o, t, len);
    j := i * t + k;
    RanksOf(w, p, i, k);
    OneSlice(w, p, i, r, o, t, len, k, rest, j);
    forall j': nat | j' < w.tpSize && TargetRanks(j', t) == [i] && ReadsByte(w, p, j', r, o)
      ensures j' == j
    {
      SliceOwner(w, p, i, j', r, o, t, len, k, rest);
    }
  }

  /** Rank k of the group that shares producer rank i is a rank of the consumer. */
  lemma RanksOf(w: Local, p: Peer, i: nat, k: nat)
    requires SizesAgree(w, p) && Ratio(w, p) > 0 && i < p.tpSize && k < Ratio(w, p)
    ensures i * Ratio(w, p) + k < w.tpSize
  {
    RatioNonzero(w.tpSize, p.tpSize);
    Below(i, k, p.tpSize, Ratio(w, p));
  }

  lemma OneSlice(w: Local, p: Peer, i: nat, r: nat, o: nat, t: nat, len: nat, k: nat, rest: nat, j: nat)
    requires Handshaken(w, p) && Indexes(w, p) && t == Ratio(w, p) && r < RegionCount(p.caches, w.joint)
    requires len == SliceLen(w, p, r) && o == k * len + rest && rest < len && k < t
    requires j == i * t + k
    ensures TargetRanks(j, t) == [i] && ReadsByte(w, p, j, r, o)
  {
    Unique(i, k, j / t, j % t, t);
  }

  lemma SliceOwner(w: Local, p: Peer, i: nat, j: nat, r: nat, o: nat, t: nat, len: nat, k: nat, rest: nat)
    requires Handshaken(w, p) && Indexes(w, p) && t == Ratio(w, p) && r < RegionCount(p.caches, w.joint)
    requires len == SliceLen(w, p, r) && o == k * len + rest && rest < len
    requires TargetRanks(j, t) == [i] && ReadsByte(w, p, j, r, o)
    ensures j == i * t + k
  {
    Unique(k, rest, j % t, o - (j % t) * len, len);
  }

  lemma Halves(c: Caches, i: nat, b: nat)
    requires |c.bases| == |c.blockLens| && i < |c.bases| && c.blockLens[i] % 2 == 0
    ensures PartStart(c, true, 2 * i + 1, b) == PartStart(c, true, 2 * i, b) + PartLen(c, true, 2 * i)
    ensures PartLen(c, true, 2 * i) + PartLen(c, true, 2 * i + 1) == c.blockLens[i]
  {
    assert CacheOf(true, 2 * i + 1) == i && CacheOf(true, 2 * i) == i;
  }

  /** In the joint layout a block is its K part followed by its V part, with nothing between or after. */
  lemma JointHalves(w: Local, p: Peer, i: nat, b: nat)
    requires Handshaken(w, p) && w.joint && !Gathers(w, p) && i < |p.caches.bases|
    ensures RegionCount(p.caches, true) == 2 * |p.caches.bases|
    ensures PartStart(p.caches, true, 2 * i + 1, b)
            == PartStart(p.caches, true, 2 * i, b) + PartLen(p.caches, true, 2 * i)
    ensures PartLen(p.caches, true, 2 * i) + PartLen(p.caches, true, 2 * i + 1) == p.caches.blockLens[i]
  {
    PeerParts(w, p, 2 * i);
    Halves(p.caches, i, b);
  }

  // ----- order in memory -----

  lemma Successor(a: nat, b: nat, l: nat)
    ensures (a + b) * l == a * l + b * l && (a + 1) * l == a * l + l
  {}

  /** The blocks of a cache tensor follow each other from its base address on, and in the joint layout each is
      its K part followed by its V part. */
  lemma BlocksInOrder(c: Caches, joint: bool, r: nat, b: nat)
    requires |c.bases| == |c.blockLens| && r < RegionCount(c, joint)
    ensures PartStart(c, joint, r, b + 1) == PartStart(c, joint, r, b) + c.blockLens[if joint then r / 2 else r]
    ensures !joint ==> PartStart(c, joint, r, 0) == c.bases[r] && PartLen(c, joint, r) == c.blockLens[r]
    ensures joint && r % 2 == 0 ==> PartStart(c, joint, r, 0) == c.bases[r / 2]
    ensures joint && r % 2 == 1 ==>
              PartStart(c, joint, r, b) == PartStart(c, joint, r - 1, b) + PartLen(c, joint, r - 1)
  {
    Successor(b, 1, c.blockLens[CacheOf(joint, r)]);
  }

  lemma SubStart(b: nat, ratio: nat, o: nat, l: nat, piece: nat)
    requires l == ratio * piece
    ensures BlockPairing.Sub(b, ratio, o) * piece == b * l + o * piece
  {
    Successor(b * ratio, o, piece);
    Exact.Regroup(b, ratio, piece);
  }

  lemma PieceTimes(l: nat, ratio: nat)
    requires ratio > 0 && l % ratio == 0
    ensures l == ratio * (l / ratio)
  {}

  /** Cut at a smaller block size, a block's sub-blocks follow each other in it, in order: the first starts
      where the block does, and the last ends where the block ends. */
  lemma SubBlocksInOrder(c: Caches, joint: bool, blockSize: nat, ratio: nat, r: nat, b: nat, o: nat)
    requires Cuts(c, joint, blockSize, ratio) && r < RegionCount(c, joint) && (joint ==> r % 2 == 0) && o < ratio
    ensures var d, i := Recut(c, ratio), if joint then r / 2 else r;
            var start := PartStart(d, joint, r, BlockPairing.Sub(b, ratio, o));
            && (o == 0 ==> start == PartStart(c, joint, r, b))
            && start + d.blockLens[i] == if o + 1 < ratio then PartStart(d, joint, r, BlockPairing.Sub(b, ratio, o + 1))
                                         else PartStart(c, joint, r, b) + c.blockLens[i]
  {
    var i := CacheOf(joint, r);
    var l, piece := c.blockLens[i], Recut(c, ratio).blockLens[i];
    LocalParts(c, joint, blockSize, i);
    PieceTimes(l, ratio);
    SubStart(b, ratio, o, l, piece);
    SubStart(b, ratio, o + 1, l, piece);
    Successor(o, 1, piece);
    if o + 1 == ratio {
      assert (o + 1) * piece == l;
    }
  }

  /** The t consumer ranks that share a producer rank slice its parts in rank order: the first slice starts
      where the part does, each next one where the one before ends, and the last ends where the part ends. */
  lemma SlicesInOrder(w: Local, p: Peer, i: nat, k: nat, r: nat, b: nat)
    requires Handshaken(w, p) && Indexes(w, p) && k < Ratio(w, p) && r < RegionCount(w.caches, w.joint)
    ensures RegionCount(p.caches, w.joint) == RegionCount(w.caches, w.joint)
    ensures var t := Ratio(w, p);
            var start := SliceStart(w.(tpRank := i * t + k), p, r, b);
            && (k == 0 ==> start == PartStart(p.caches, w.joint, r, b))
            && start + SliceLen(w, p, r)
               == if k + 1 < t then SliceStart(w.(tpRank := i * t + (k + 1)), p, r, b)
                  else PartStart(p.caches, w.joint, r, b) + PartLen(p.caches, w.joint, r)
  {
    var t, len := Ratio(w, p), SliceLen(w, p, r);
    PeerParts(w, p, r);
    RankInGroup(w, p, i, k, t);
    if k + 1 < t {
      RankInGroup(w, p, i, k + 1, t);
    }
    Successor(k, 1, len);
    assert SliceLen(w.(tpRank := i * t + k), p, r) == len;
  }

  lemma RankInGroup(w: Local, p: Peer, i: nat, k: nat, t: nat)
    requires w.tpSize > 0 && p.tpSize > 0 && Indexes(w, p) && t == Ratio(w, p) && k < t
    ensures SliceIndex(w.(tpRank := i * t + k), p) == k
  {
    var j := i * t + k;
    Unique(i, k, j / t, j % t, t);
  }
}
