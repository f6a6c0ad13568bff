/** From descriptor lists to bytes: which copies one READ performs and what memory holds afterwards. */
module BlockRead {
  import opened Grid
  import opened RemoteRead
  import opened TransferGeometry
  import opened DescriptorIds
  import opened BlockPairing
  import Exact

  function CopyOf(rank: nat, l: Desc, s: Desc): Copy {
    Copy(rank, l.addr, s.addr, l.len)
  }

  /** `make_prepped_xfer("READ", ...)`: descriptor localIds[k] is filled from descriptor remoteIds[k]. */
  function Posted(rank: nat, locals: seq<Desc>, localIds: seq<nat>, remotes: seq<Desc>, remoteIds: seq<nat>): seq<Copy>
    requires |localIds| == |remoteIds| && BlockPairing.Below(localIds, |locals|)
        && BlockPairing.Below(remoteIds, |remotes|)
  {
    seq(|localIds|, k requires 0 <= k < |localIds| => CopyOf(rank, locals[localIds[k]], remotes[remoteIds[k]]))
  }

  /** Descriptors of the part (region, block) on one side of a READ. */
  type Parts = (nat, nat) --> Desc

  ghost predicate Covers(f: Parts, regions: nat) {
    forall r: nat, b: nat | r < regions :: f.requires(r, b)
  }

  function PairCopy(rank: nat, f: Parts, g: Parts, local: seq<nat>, remote: seq<nat>, r: nat, p: nat): Copy
    requires p < |local| == |remote| && f.requires(r, local[p]) && g.requires(r, remote[p])
  {
    CopyOf(rank, f(r, local[p]), g(r, remote[p]))
  }

  /** One copy for every selected (region, position). */
  ghost predicate CopiesPairs(cs: seq<Copy>, rank: nat, y: Layers, f: Parts, g: Parts, local: seq<nat>,
                              remote: seq<nat>)
    requires |local| == |remote| && Covers(f, y.numRegions) && Covers(g, y.numRegions)
  {
    && (forall c | c in cs :: FromPair(c, rank, y, f, g, local, remote))
    && (forall r: nat, p: nat {:trigger PairCopy(rank, f, g, local, remote, r, p)} | Selected(y, |local|, r, p) ::
          PairCopy(rank, f, g, local, remote, r, p) in cs)
  }

  ghost predicate FromPair(c: Copy, rank: nat, y: Layers, f: Parts, g: Parts, local: seq<nat>, remote: seq<nat>)
    requires |local| == |remote| && Covers(f, y.numRegions) && Covers(g, y.numRegions)
  {
    exists r: nat, p: nat | Selected(y, |local|, r, p) :: c == PairCopy(rank, f, g, local, remote, r, p)
  }

  /** The pair a copy comes from. */
  lemma PairOf(c: Copy, rank: nat, y: Layers, f: Parts, g: Parts, local: seq<nat>, remote: seq<nat>)
    returns (r: nat, p: nat)
    requires |local| == |remote| && Covers(f, y.numRegions) && Covers(g, y.numRegions)
    requires FromPair(c, rank, y, f, g, local, remote)
    ensures Selected(y, |local|, r, p) && c == PairCopy(rank, f, g, local, remote, r, p)
  {
    r, p :| Selected(y, |local|, r, p) && c == PairCopy(rank, f, g, local, remote, r, p);
  }

  lemma NumbersInBounds(ids: seq<nat>, y: Layers, numBlocks: nat, blocks: seq<nat>)
    requires LayersOk(y) && Numbers(ids, Pairs(y, |blocks|), numBlocks, blocks) && BlockPairing.Below(blocks, numBlocks)
    ensures BlockPairing.Below(ids, y.numRegions * numBlocks)
  {
    var pairs := Pairs(y, |blocks|);
    forall k | 0 <= k < |ids|
      ensures ids[k] < y.numRegions * numBlocks
    {
      assert pairs[k] in pairs;
      PairsAreSelected(y, |blocks|, pairs[k].0, pairs[k].1);
      NumberingInjective(y.numRegions, numBlocks, pairs[k].0, blocks[pairs[k].1], 0, 0);
    }
  }

  /** The numbering agrees with the construction of both lists: the posted copies are exactly the
      copies of the selected pairs. */
  lemma PostedCopiesPairs(rank: nat, y: Layers, f: Parts, g: Parts, localBlocks: nat, remoteBlocks: nat,
                          local: seq<nat>, remote: seq<nat>, localIds: seq<nat>, remoteIds: seq<nat>)
    requires LayersOk(y) && |local| == |remote| && Covers(f, y.numRegions) && Covers(g, y.numRegions)
    requires Numbers(localIds, Pairs(y, |local|), localBlocks, local)
        && Numbers(remoteIds, Pairs(y, |local|), remoteBlocks, remote)
    requires BlockPairing.Below(local, localBlocks) && BlockPairing.Below(remote, remoteBlocks)
    ensures var locals, remotes := Flat(y.numRegions, localBlocks, f), Flat(y.numRegions, remoteBlocks, g);
            && BlockPairing.Below(localIds, |locals|) && BlockPairing.Below(remoteIds, |remotes|)
            && CopiesPairs(Posted(rank, locals, localIds, remotes, remoteIds), rank, y, f, g, local, remote)
  {
    var locals, remotes := Flat(y.numRegions, localBlocks, f), Flat(y.numRegions, remoteBlocks, g);
    var pairs := Pairs(y, |local|);
    FlatLength(y.numRegions, localBlocks, f);
    FlatLength(y.numRegions, remoteBlocks, g);
    NumbersInBounds(localIds, y, localBlocks, local);
    NumbersInBounds(remoteIds, y, remoteBlocks, remote);
    var cs := Posted(rank, locals, localIds, remotes, remoteIds);
    forall k | 0 <= k < |cs|
      ensures Selected(y, |local|, pairs[k].0, pairs[k].1)
              && cs[k] == PairCopy(rank, f, g, local, remote, pairs[k].0, pairs[k].1)
    {
      var (r, p) := pairs[k];
      assert (r, p) in pairs;
      PairsAreSelected(y, |local|, r, p);
      FlatAt(y.numRegions, localBlocks, f, r, local[p]);
      FlatAt(y.numRegions, remoteBlocks, g, r, remote[p]);
    }
    forall r: nat, p: nat | Selected(y, |local|, r, p)
      ensures PairCopy(rank, f, g, local, remote, r, p) in cs
    {
      PairsAreSelected(y, |local|, r, p);
      var k :| 0 <= k < |pairs| && pairs[k] == (r, p);
      assert cs[k] in cs;
    }
  }

  /** Selects the descriptor ids on both sides and posts the READ over the two prepared lists. */
  method PostSelected(rank: nat, y: Layers, locals: seq<Desc>, remotes: seq<Desc>, localBlocks: nat, remoteBlocks: nat,
                      local: seq<nat>, remote: seq<nat>, ghost f: Parts, ghost g: Parts) returns (copies: seq<Copy>)
    requires LayersOk(y) && |local| == |remote| && Covers(f, y.numRegions) && Covers(g, y.numRegions)
    requires locals == Flat(y.numRegions, localBlocks, f) && remotes == Flat(y.numRegions, remoteBlocks, g)
    requires BlockPairing.Below(local, localBlocks) && BlockPairing.Below(remote, remoteBlocks)
    ensures CopiesPairs(copies, rank, y, f, g, local, remote)
  {
    var localIds, remoteIds := SelectDescIds(y, localBlocks, remoteBlocks, local, remote);
    PostedCopiesPairs(rank, y, f, g, localBlocks, remoteBlocks, local, remote, localIds, remoteIds);
    copies := Posted(rank, locals, localIds, remotes, remoteIds);
  }

  // ----- parts do not overlap -----

  /** Different cache tensors occupy different memory. */
  predicate Separate(c: Caches)
    requires |c.bases| == |c.blockLens|
  {
    forall i, j | 0 <= i < j < |c.bases| ::
      c.bases[i] + Span(c, i) <= c.bases[j] || c.bases[j] + Span(c, j) <= c.bases[i]
  }

  /** Length of cache tensor i. */
  function Span(c: Caches, i: nat): nat
    requires i < |c.blockLens|
  {
    c.numBlocks * c.blockLens[i]
  }

  /** Offset within its block of byte o of a part of region r. */
  function InBlock(c: Caches, joint: bool, r: nat, o: nat): nat
    requires |c.bases| == |c.blockLens| && r < RegionCount(c, joint)
  {
    (if joint && r % 2 == 1 then c.blockLens[CacheOf(joint, r)] / 2 else 0) + o
  }

  /** Byte o of a part lies within its cache tensor. */
  lemma PartWithin(c: Caches, joint: bool, r: nat, b: nat, o: nat)
    requires |c.bases| == |c.blockLens| && r < RegionCount(c, joint) && b < c.numBlocks && o < PartLen(c, joint, r)
    ensures var i := CacheOf(joint, r);
            var x := InBlock(c, joint, r, o);
            && x < c.blockLens[i]
            && PartStart(c, joint, r, b) + o == c.bases[i] + (b * c.blockLens[i] + x)
            && b * c.blockLens[i] + x < Span(c, i)
  {
    Grid.Below(b, InBlock(c, joint, r, o), c.numBlocks, c.blockLens[CacheOf(joint, r)]);
  }

  lemma SamePart(c: Caches, joint: bool, r: nat, o: nat, r': nat, o': nat)
    requires |c.bases| == |c.blockLens| && r < RegionCount(c, joint) && r' < RegionCount(c, joint)
    requires CacheOf(joint, r) == CacheOf(joint, r') && o < PartLen(c, joint, r) && o' < PartLen(c, joint, r')
    requires InBlock(c, joint, r, o) == InBlock(c, joint, r', o')
    ensures r == r' && o == o'
  {}

  lemma PartInTensor(c: Caches, joint: bool, r: nat, b: nat, o: nat)
    requires |c.bases| == |c.blockLens| && r < RegionCount(c, joint) && b < c.numBlocks && o < PartLen(c, joint, r)
    ensures var i := CacheOf(joint, r);
            c.bases[i] <= PartStart(c, joint, r, b) + o < c.bases[i] + Span(c, i)
  {
    PartWithin(c, joint, r, b, o);
  }

  lemma TensorsApart(c: Caches, joint: bool, r: nat, b: nat, o: nat, r': nat, b': nat, o': nat)
    requires |c.bases| == |c.blockLens| && Separate(c)
    requires r < RegionCount(c, joint) && b < c.numBlocks && o < PartLen(c, joint, r)
    requires r' < RegionCount(c, joint) && b' < c.numBlocks && o' < PartLen(c, joint, r')
    requires PartStart(c, joint, r, b) + o == PartStart(c, joint, r', b') + o'
    ensures CacheOf(joint, r) == CacheOf(joint, r')
  {
    PartInTensor(c, joint, r, b, o);
    PartInTensor(c, joint, r', b', o');
  }

  lemma BlocksApart(c: Caches, joint: bool, r: nat, b: nat, o: nat, r': nat, b': nat, o': nat)
    requires |c.bases| == |c.blockLens| && CacheOf(joint, r) == CacheOf(joint, r')
    requires r < RegionCount(c, joint) && b < c.numBlocks && o < PartLen(c, joint, r)
    requires r' < RegionCount(c, joint) && b' < c.numBlocks && o' < PartLen(c, joint, r')
    requires PartStart(c, joint, r, b) + o == PartStart(c, joint, r', b') + o'
    ensures b == b' && InBlock(c, joint, r, o) == InBlock(c, joint, r', o')
  {
    PartWithin(c, joint, r, b, o);
    PartWithin(c, joint, r', b', o');
    Unique(b, InBlock(c, joint, r, o), b', InBlock(c, joint, r', o'), c.blockLens[CacheOf(joint, r)]);
  }

  /** An address lies in at most one part of one block. */
  lemma PartsDisjoint(c: Caches, joint: bool, r: nat, b: nat, o: nat, r': nat, b': nat, o': nat)
    requires |c.bases| == |c.blockLens| && Separate(c)
    requires r < RegionCount(c, joint) && b < c.numBlocks && o < PartLen(c, joint, r)
    requires r' < RegionCount(c, joint) && b' < c.numBlocks && o' < PartLen(c, joint, r')
    requires PartStart(c, joint, r, b) + o == PartStart(c, joint, r', b') + o'
    ensures r == r' && b == b' && o == o'
  {
    TensorsApart(c, joint, r, b, o, r', b', o');
    BlocksApart(c, joint, r, b, o, r', b', o');
    SamePart(c, joint, r, o, r', o');
  }

  lemma RecutSpan(c: Caches, ratio: nat, i: nat)
    requires ratio > 0 && i < |c.blockLens|
    ensures Span(Recut(c, ratio), i) <= Span(c, i)
  {
    Exact.RecutFits(c.numBlocks, ratio, c.blockLens[i], c.blockLens[i] / ratio);
  }

  /** Cutting blocks smaller keeps the tensors apart. */
  lemma RecutSeparate(c: Caches, ratio: nat)
    requires |c.bases| == |c.blockLens| && Separate(c) && ratio > 0
    ensures Separate(Recut(c, ratio))
  {
    forall i | 0 <= i < |c.bases| ensures Span(Recut(c, ratio), i) <= Span(c, i) {
      RecutSpan(c, ratio, i);
    }
  }

  // ----- one read per request: D TP >= P TP, or replicated caches -----

  /** A READ of distinct local blocks of this worker from one rank, over layers that match its regions. */
  predicate SingleRead(w: Local, p: Peer, y: Layers, local: seq<nat>, remote: seq<nat>) {
    && Handshaken(w, p) && !Gathers(w, p) && Separate(w.caches)
    && LayersOk(y) && y.numRegions == RegionCount(w.caches, w.joint)
    && |local| == |remote| && Distinct(local)
    && BlockPairing.Below(local, w.caches.numBlocks * BlockRatio(w, p))
    && BlockPairing.Below(remote, p.caches.numBlocks)
  }

  /** The local caches cut at the remote block size. */
  function Cut(w: Local, p: Peer): Caches
    requires Handshaken(w, p)
  {
    Recut(w.caches, BlockRatio(w, p))
  }

  /** A local sub-block part is as long as one slice of the remote part. */
  lemma SliceFits(w: Local, p: Peer, r: nat)
    requires Handshaken(w, p) && !Gathers(w, p) && r < RegionCount(w.caches, w.joint)
    ensures RegionCount(Cut(w, p), w.joint) == RegionCount(p.caches, w.joint) == RegionCount(w.caches, w.joint)
    ensures SliceCount(w, p) > 0 && PartLen(Cut(w, p), w.joint, r) == SliceLen(w, p, r)
    ensures PartLen(p.caches, w.joint, r) == SliceCount(w, p) * SliceLen(w, p, r)
  {
    PeerParts(w, p, r);
    LocalParts(w.caches, w.joint, p.caches.blockSize, CacheOf(w.joint, r));
  }

  /** Address a is byte o of the local part that pair (r, q) fills. */
  ghost predicate FillsByte(w: Local, p: Peer, local: seq<nat>, r: nat, q: nat, o: nat, a: int)
    requires Handshaken(w, p) && r < RegionCount(Cut(w, p), w.joint) && q < |local|
  {
    o < PartLen(Cut(w, p), w.joint, r) && a == PartStart(Cut(w, p), w.joint, r, local[q]) + o
  }

  /** The copy by which a READ fills the part (r, q). */
  function SliceCopy(w: Local, p: Peer, rank: nat, local: seq<nat>, remote: seq<nat>, r: nat, q: nat): Copy
    requires Handshaken(w, p) && q < |local| == |remote|
    requires r < RegionCount(Cut(w, p), w.joint) == RegionCount(p.caches, w.joint)
  {
    PairCopy(rank, WholePart(Cut(w, p), w.joint), PeerSlice(w, p), local, remote, r, q)
  }

  /** What a READ posts. */
  ghost predicate Reads(w: Local, p: Peer, y: Layers, local: seq<nat>, remote: seq<nat>, rank: nat, cs: seq<Copy>) {
    && SingleRead(w, p, y, local, remote)
    && RegionCount(Cut(w, p), w.joint) == RegionCount(p.caches, w.joint) == y.numRegions
    && CopiesPairs(cs, rank, y, WholePart(Cut(w, p), w.joint), PeerSlice(w, p), local, remote)
  }

  /** Two copies of a READ that write the same address fill the same part. */
  lemma SameTarget(w: Local, p: Peer, y: Layers, local: seq<nat>, remote: seq<nat>,
                   r: nat, q: nat, o: nat, r': nat, q': nat, o': nat)
    requires SingleRead(w, p, y, local, remote)
    requires r < RegionCount(Cut(w, p), w.joint) && q < |local| && o < PartLen(Cut(w, p), w.joint, r)
    requires r' < RegionCount(Cut(w, p), w.joint) && q' < |local| && o' < PartLen(Cut(w, p), w.joint, r')
    requires PartStart(Cut(w, p), w.joint, r, local[q]) + o == PartStart(Cut(w, p), w.joint, r', local[q']) + o'
    ensures r == r' && q == q' && o == o'
  {
    RecutSeparate(w.caches, BlockRatio(w, p));
    PartsDisjoint(Cut(w, p), w.joint, r, local[q], o, r', local[q'], o');
  }

  /** The only copy of a READ that writes a selected part's bytes is that part's copy. */
  lemma OnlyWriter(w: Local, p: Peer, y: Layers, local: seq<nat>, remote: seq<nat>, rank: nat, cs: seq<Copy>,
                   r: nat, q: nat, o: nat, c: Copy)
    requires Reads(w, p, y, local, remote, rank, cs) && Selected(y, |local|, r, q) && o < PartLen(Cut(w, p), w.joint, r)
    requires c in cs && Writes(c, PartStart(Cut(w, p), w.joint, r, local[q]) + o)
    ensures c == SliceCopy(w, p, rank, local, remote, r, q)
  {
    var r', q' := PairOf(c, rank, y, WholePart(Cut(w, p), w.joint), PeerSlice(w, p), local, remote);
    var o' := PartStart(Cut(w, p), w.joint, r, local[q]) + o - c.dst;
    SameTarget(w, p, y, local, remote, r, q, o, r', q', o');
  }

  lemma SliceCopyByte(w: Local, p: Peer, y: Layers, local: seq<nat>, remote: seq<nat>, rank: nat, r: nat, q: nat,
                      o: nat)
    requires SingleRead(w, p, y, local, remote) && q < |local|
    requires r < RegionCount(Cut(w, p), w.joint) == RegionCount(p.caches, w.joint) && o < PartLen(Cut(w, p), w.joint, r)
    ensures var c, a := SliceCopy(w, p, rank, local, remote, r, q), PartStart(Cut(w, p), w.joint, r, local[q]) + o;
            Writes(c, a) && c.rank == rank && c.src + (a - c.dst) == SliceStart(w, p, r, remote[q]) + o
  {}

  /** Every selected sub-block ends up holding this rank's slice of its paired remote block, byte for byte. */
  lemma ReadIsByteExact(w: Local, p: Peer, y: Layers, local: seq<nat>, remote: seq<nat>, rank: nat, cs: seq<Copy>,
                        remotes: nat -> Memory, before: Memory, r: nat, q: nat, o: nat)
    requires Reads(w, p, y, local, remote, rank, cs) && Selected(y, |local|, r, q) && o < PartLen(Cut(w, p), w.joint, r)
    ensures o < SliceLen(w, p, r)
    ensures PerformAll(cs, remotes, before)(PartStart(Cut(w, p), w.joint, r, local[q]) + o)
         == remotes(rank)(SliceStart(w, p, r, remote[q]) + o)
  {
    SliceFits(w, p, r);
    var c, a := SliceCopy(w, p, rank, local, remote, r, q), PartStart(Cut(w, p), w.joint, r, local[q]) + o;
    SliceCopyByte(w, p, y, local, remote, rank, r, q, o);
    forall d | d in cs && Writes(d, a)
      ensures d == c
    {
      OnlyWriter(w, p, y, local, remote, rank, cs, r, q, o, d);
    }
    Written(cs, remotes, before, c, a);
  }

  /** No address is written by two copies of a READ, so the order in which they complete does not matter. */
  lemma ReadIsCompatible(w: Local, p: Peer, y: Layers, local: seq<nat>, remote: seq<nat>, rank: nat, cs: seq<Copy>)
    requires Reads(w, p, y, local, remote, rank, cs)
    ensures Compatible(cs)
  {
    forall c, d, a {:trigger Writes(c, a), Writes(d, a)} | c in cs && d in cs && Writes(c, a) && Writes(d, a)
      ensures c == d
    {
      var r, q := PairOf(c, rank, y, WholePart(Cut(w, p), w.joint), PeerSlice(w, p), local, remote);
      OnlyWriter(w, p, y, local, remote, rank, cs, r, q, a - c.dst, d);
    }
  }

  lemma AnyOrder(w: Local, p: Peer, y: Layers, local: seq<nat>, remote: seq<nat>, rank: nat, cs: seq<Copy>,
                 done: seq<Copy>, remotes: nat -> Memory, before: Memory, a: int)
    requires Reads(w, p, y, local, remote, rank, cs) && forall c :: c in cs <==> c in done
    ensures PerformAll(done, remotes, before)(a) == PerformAll(cs, remotes, before)(a)
  {
    ReadIsCompatible(w, p, y, local, remote, rank, cs);
    OrderIrrelevant(cs, done, remotes, before, a);
  }

  /** Bytes outside the selected parts keep their value. */
  lemma ReadFrame(w: Local, p: Peer, y: Layers, local: seq<nat>, remote: seq<nat>, rank: nat, cs: seq<Copy>,
                  remotes: nat -> Memory, before: Memory, a: int)
    requires Reads(w, p, y, local, remote, rank, cs)
    requires forall r: nat, q: nat, o: nat | Selected(y, |local|, r, q) :: !FillsByte(w, p, local, r, q, o, a)
    ensures PerformAll(cs, remotes, before)(a) == before(a)
  {
    var f, g := WholePart(Cut(w, p), w.joint), PeerSlice(w, p);
    forall c | c in cs
      ensures !Writes(c, a)
    {
      var r, q := PairOf(c, rank, y, f, g, local, remote);
      if Writes(c, a) {
        assert FillsByte(w, p, local, r, q, a - c.dst, a);
      }
    }
    Untouched(cs, remotes, before, a);
  }
}
