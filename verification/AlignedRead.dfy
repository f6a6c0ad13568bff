/** Selection and copy together: when the selection starts both sides at the same token, each uncached
    position of the request ends up holding the remote block of that same position. */
module AlignedRead {
  import opened RemoteRead
  import opened TransferGeometry
  import opened BlockPairing
  import opened DescriptorIds
  import opened BlockRead
  import opened GatherRead

  /** A request with |remote| blocks on the remote and `blocks` here, the first `cached` of them cached. */
  ghost predicate Request(w: Local, p: Peer, y: Layers, blocks: seq<nat>, remote: seq<nat>, cached: nat) {
    && Handshaken(w, p) && !Gathers(w, p) && Separate(w.caches)
    && LayersOk(y) && y.numRegions == RegionCount(w.caches, w.joint)
    && SameRequest(blocks, remote, BlockRatio(w, p)) && cached < |blocks|
    && Distinct(blocks) && BlockPairing.Below(blocks, w.caches.numBlocks)
    && BlockPairing.Below(remote, p.caches.numBlocks)
  }

  /** What `_read_blocks` selects for the uncached suffix. */
  function Uncached(w: Local, p: Peer, blocks: seq<nat>, remote: seq<nat>, cached: nat): Selection
    requires p.caches.blockSize > 0 && BlockRatio(w, p) > 0 && cached <= |blocks|
  {
    SelectBlocks(blocks[cached..], remote, BlockRatio(w, p))
  }

  lemma UncachedIsRead(w: Local, p: Peer, y: Layers, blocks: seq<nat>, remote: seq<nat>, cached: nat)
    requires Request(w, p, y, blocks, remote, cached)
    ensures var s := Uncached(w, p, blocks, remote, cached); s.Read? && SingleRead(w, p, y, s.local, s.remote)
  {
    SelectionAt(blocks, remote, BlockRatio(w, p), cached, 0);
    SelectionWellFormed(blocks[cached..], remote, BlockRatio(w, p), w.caches.numBlocks, p.caches.numBlocks);
  }

  /** A pair of the selection at position `at` of the request: the local block holds the remote one's slice. */
  lemma PairedByte(w: Local, p: Peer, y: Layers, blocks: seq<nat>, remote: seq<nat>, s: Selection, rank: nat,
                   cs: seq<Copy>, remotes: nat -> Memory, before: Memory, r: nat, q: nat, o: nat, at: nat)
    requires s.Read? && |s.local| == |s.remote| && Reads(w, p, y, s.local, s.remote, rank, cs)
    requires Selected(y, |s.local|, r, q) && o < PartLen(Cut(w, p), w.joint, r)
    requires BlockRatio(w, p) > 0 && PairedAt(s, blocks, remote, BlockRatio(w, p), q, at)
    ensures PerformAll(cs, remotes, before)(PartStart(Cut(w, p), w.joint, r,
                                                      SubBlockAt(blocks, BlockRatio(w, p), at)) + o)
         == remotes(rank)(SliceStart(w, p, r, remote[at]) + o)
  {
    ReadIsByteExact(w, p, y, s.local, s.remote, rank, cs, remotes, before, r, q, o);
  }

  /** The block at position `at` of the local request, counted in remote blocks, holds this rank's slice of
      the remote block at that position, byte for byte. */
  lemma TokensArriveInPlace(w: Local, p: Peer, y: Layers, blocks: seq<nat>, remote: seq<nat>, cached: nat, rank: nat,
                            cs: seq<Copy>, remotes: nat -> Memory, before: Memory, r: nat, q: nat, o: nat, at: nat)
    requires Request(w, p, y, blocks, remote, cached)
    requires (cached == 0 || |remote| % BlockRatio(w, p) == 0) && at == cached * BlockRatio(w, p) + q
    requires var s := Uncached(w, p, blocks, remote, cached);
             && s.Read? && |s.local| == |s.remote| && Reads(w, p, y, s.local, s.remote, rank, cs)
             && Selected(y, |s.local|, r, q) && o < PartLen(Cut(w, p), w.joint, r)
    ensures at / BlockRatio(w, p) < |blocks| && at < |remote|
    ensures PerformAll(cs, remotes, before)(PartStart(Cut(w, p), w.joint, r,
                                                      SubBlockAt(blocks, BlockRatio(w, p), at)) + o)
         == remotes(rank)(SliceStart(w, p, r, remote[at]) + o)
  {
    var s := Uncached(w, p, blocks, remote, cached);
    StartsTogether(blocks, remote, BlockRatio(w, p), cached, q);
    PairedByte(w, p, y, blocks, remote, s, rank, cs, remotes, before, r, q, o, at);
  }

  /** In whatever order the copies complete. */
  lemma TokensArriveInAnyOrder(w: Local, p: Peer, y: Layers, blocks: seq<nat>, remote: seq<nat>, cached: nat,
                               s: Selection,
                               rank: nat, cs: seq<Copy>, done: seq<Copy>, remotes: nat -> Memory, before: Memory,
                               r: nat, q: nat, o: nat, at: nat)
    requires Request(w, p, y, blocks, remote, cached) && s == Uncached(w, p, blocks, remote, cached)
    requires (cached == 0 || |remote| % BlockRatio(w, p) == 0) && at == cached * BlockRatio(w, p) + q
    requires s.Read? && |s.local| == |s.remote| && Reads(w, p, y, s.local, s.remote, rank, cs)
    requires (forall c :: c in cs <==> c in done) && Selected(y, |s.local|, r, q) && o < PartLen(Cut(w, p), w.joint, r)
    ensures at / BlockRatio(w, p) < |blocks| && at < |remote|
    ensures PerformAll(done, remotes, before)(PartStart(Cut(w, p), w.joint, r,
                                                        SubBlockAt(blocks, BlockRatio(w, p), at)) + o)
         == remotes(rank)(SliceStart(w, p, r, remote[at]) + o)
  {
    TokensArriveInPlace(w, p, y, blocks, remote, cached, rank, cs, remotes, before, r, q, o, at);
    var a := PartStart(Cut(w, p), w.joint, r, SubBlockAt(blocks, BlockRatio(w, p), at)) + o;
    AnyOrder(w, p, y, s.local, s.remote, rank, cs, done, remotes, before, a);
  }

  // ----- several producer ranks, at equal block sizes -----

  lemma UnitSub(blocks: seq<nat>, at: nat)
    requires at / 1 < |blocks|
    ensures at < |blocks| && SubBlockAt(blocks, 1, at) == blocks[at]
  {}

  /** Index q of the selection is position cached + q on both sides. */
  lemma SelectedAt(blocks: seq<nat>, remote: seq<nat>, cached: nat, q: nat)
    requires SameRequest(blocks, remote, 1) && cached < |blocks|
    ensures |blocks| == |remote|
    ensures var s := SelectBlocks(blocks[cached..], remote, 1);
            && s.Read? && |s.local| == |s.remote|
            && (q < |s.local| ==>
                  cached + q < |blocks| && s.local[q] == blocks[cached + q] && s.remote[q] == remote[cached + q])
  {
    StartsTogether(blocks, remote, 1, cached, q);
    if q < |SelectBlocks(blocks[cached..], remote, 1).local| {
      UnitSub(blocks, cached * 1 + q);
    }
  }

  lemma SameAssembly(w: Local, peers: seq<Peer>, local: seq<nat>, remote: seq<nat>, q: nat,
                     local': seq<nat>, remote': seq<nat>, q': nat,
                     posts: seq<Post>, after: Memory, remotes: nat -> Memory, r: nat)
    requires |w.caches.bases| == |w.caches.blockLens| && r < RegionCount(w.caches, w.joint) && 0 < |peers| == |posts|
    requires forall p | p in peers :: |p.caches.bases| == |p.caches.blockLens| && r < RegionCount(p.caches, w.joint)
    requires q < |local| == |remote| && q' < |local'| == |remote'| && local[q] == local'[q'] && remote[q] == remote'[q']
    ensures AllAssembled(w, peers, local, remote, posts, after, remotes, r, q)
            <==> AllAssembled(w, peers, local', remote', posts, after, remotes, r, q')
  {
    assert forall x: nat :: Assembled(w, peers, local, remote, posts, after, remotes, r, q, x)
                            == Assembled(w, peers, local', remote', posts, after, remotes, r, q', x);
  }

  /** When several producer ranks hold this rank's heads, the block at each uncached position is the
      rank-ordered assembly of their blocks at that position, exactly when their number divides the part. */
  lemma GatheredTokensArriveInPlace(w: Local, peers: seq<Peer>, y: Layers, blocks: seq<nat>, remote: seq<nat>,
                                    cached: nat, posts: seq<Post>, done: seq<Copy>,
                                    remotes: nat -> Memory, before: Memory, r: nat, q: nat)
    requires SameRequest(blocks, remote, 1) && cached < |blocks|
    requires var s := SelectBlocks(blocks[cached..], remote, 1);
             && s.Read? && |s.local| == |s.remote| && Gathered(w, peers, y, s.local, s.remote, posts, done)
             && Selected(y, |s.local|, r, q)
    ensures cached + q < |blocks| == |remote| && |peers| == |posts| > 0 && r < RegionCount(w.caches, w.joint)
    ensures forall p | p in peers :: |p.caches.bases| == |p.caches.blockLens| && r < RegionCount(p.caches, w.joint)
    ensures AllAssembled(w, peers, blocks, remote, posts, PerformAll(done, remotes, before), remotes, r, cached + q)
            <==> PartLen(w.caches, w.joint, r) % |posts| == 0
  {
    var s := SelectBlocks(blocks[cached..], remote, 1);
    SelectedAt(blocks, remote, cached, q);
    GatherIsWhole(w, peers, y, s.local, s.remote, posts, done, remotes, before, r, q);
    SameAssembly(w, peers, s.local, s.remote, q, blocks, remote, cached + q, posts, PerformAll(done, remotes, before),
                 remotes, r);
  }
}
