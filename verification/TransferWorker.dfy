/** The descriptor lists a worker accumulates over any sequence of handshakes, and the READs it posts
    with them. */
module TransferWorker {
  import opened Grid
  import opened RemoteRead
  import opened TransferGeometry
  import opened DescriptorIds
  import opened BlockPairing
  import opened BlockRead
  import opened GatherRead
  import opened RankSlices
  import AlignedRead
  import Exact

  type EngineId = string

  /** A remote rank of a remote engine. */
  datatype Remote = Remote(engine: EngineId, rank: nat)

  ghost predicate Configured(w: Local, y: Layers) {
    && Registered(w.caches, w.joint) && UniformUnlessMla(w) && Separate(w.caches) && w.tpSize > 0
    && LayersOk(y) && y.numRegions == RegionCount(w.caches, w.joint)
  }

  ghost predicate SourceOk(w: Local, blockSize: nat, list: seq<Desc>)
    requires Registered(w.caches, w.joint)
  {
    && blockSize > 0 && Divides(blockSize, w.caches.blockSize) && w.caches.blockSize / blockSize > 0
    && list == WholeParts(Recut(w.caches, w.caches.blockSize / blockSize), w.joint)
  }

  ghost predicate ChunksOk(w: Local, ratio: int, lists: seq<seq<Desc>>)
    requires Registered(w.caches, w.joint)
  {
    && ratio < 0 && |lists| == -ratio
    && forall i | 0 <= i < |lists| :: lists[i] == Chunks(WholeParts(w.caches, w.joint), -ratio, i)
  }

  /** The prepared list of a remote rank lists its slices. */
  ghost predicate PreparedOk(w: Local, p: Peer, list: seq<Desc>) {
    Handshaken(w, p) && list == PeerSlices(w, p)
  }

  lemma WholeCache(c: Caches)
    requires c.blockSize > 0
    ensures Divides(c.blockSize, c.blockSize) && c.blockSize / c.blockSize == 1 && Recut(c, 1) == c
  {
    assert Recut(c, 1).blockLens == c.blockLens;
  }

  lemma SameSize(a: nat, b: nat)
    requires b > 0 && a % b == 0 && a / b == 1
    ensures a == b
  {}

  /** The checks of `_validate_remote_agent_handshake` and of the topology, on the recorded sizes. */
  predicate Accepts(w: Local, p: Peer, remoteTp: nat, layoutOk: bool, blocks: nat)
    requires Registered(w.caches, w.joint)
  {
    p.tpSize == remoteTp && SizesAgree(w, p) && layoutOk && ShapesAgree(w, p) && blocks == p.caches.numBlocks
  }

  lemma SharedSizes(w: Local, p: Peer, t: nat, ratio: nat)
    requires p.tpSize > 0 && t > 0 && w.tpSize == t * p.tpSize
    requires p.caches.blockSize > 0 && ratio > 0 && w.caches.blockSize == ratio * p.caches.blockSize
    ensures SizesAgree(w, p) && Ratio(w, p) == t && BlockRatio(w, p) == ratio
  {
    Exact.Quotient(p.tpSize, t);
    Exact.Quotient(p.caches.blockSize, ratio);
    LaterRow(1, t, p.tpSize);
    LaterRow(1, ratio, p.caches.blockSize);
  }

  lemma SplitSizes(w: Local, p: Peer, t: nat, ratio: nat)
    requires w.tpSize > 0 && t > 1 && p.tpSize == t * w.tpSize
    requires p.caches.blockSize > 0 && ratio > 0 && w.caches.blockSize == ratio * p.caches.blockSize
    ensures SizesAgree(w, p) && Ratio(w, p) == -(t as int) && BlockRatio(w, p) == ratio
  {
    Exact.Quotient(w.tpSize, t);
    Exact.Quotient(p.caches.blockSize, ratio);
    LaterRow(2, t, w.tpSize);
    LaterRow(1, ratio, p.caches.blockSize);
  }

  /** A peer with fewer ranks, or as many: each of its ranks serves t local ones. It is accepted exactly if its
      recorded sizes hold, the layouts fit, and every layer's blocks are as long as t slices of the local ones
      at its block size, or as long as one if the cache is replicated. */
  lemma AcceptsShared(w: Local, p: Peer, remoteTp: nat, layoutOk: bool, blocks: nat, t: nat, ratio: nat)
    requires Registered(w.caches, w.joint) && p.tpSize > 0 && t > 0 && w.tpSize == t * p.tpSize
    requires p.caches.blockSize > 0 && ratio > 0 && w.caches.blockSize == ratio * p.caches.blockSize
    ensures Accepts(w, p, remoteTp, layoutOk, blocks)
       <==> && p.tpSize == remoteTp && layoutOk && blocks == p.caches.numBlocks
            && |p.caches.bases| == |p.caches.blockLens| == |w.caches.blockLens| > 0
            && forall i | 0 <= i < |p.caches.blockLens| ::
                 p.caches.blockLens[i] == if w.mla || p.replicated then w.caches.blockLens[i] / ratio
                                          else (w.caches.blockLens[0] * t) / ratio
  {
    SharedSizes(w, p, t, ratio);
  }

  /** A peer with t times as many ranks, t > 1, which together hold the heads of one local rank: it is accepted
      only at the same block size, unless MLA, and never with replicated heads. */
  lemma AcceptsSplit(w: Local, p: Peer, remoteTp: nat, layoutOk: bool, blocks: nat, t: nat, ratio: nat)
    requires Registered(w.caches, w.joint) && w.tpSize > 0 && t > 1 && p.tpSize == t * w.tpSize
    requires p.caches.blockSize > 0 && ratio > 0 && w.caches.blockSize == ratio * p.caches.blockSize
    ensures Accepts(w, p, remoteTp, layoutOk, blocks)
       <==> && p.tpSize == remoteTp && layoutOk && blocks == p.caches.numBlocks && !p.replicated
            && |p.caches.bases| == |p.caches.blockLens| == |w.caches.blockLens| > 0 && (w.mla || ratio == 1)
            && forall i | 0 <= i < |p.caches.blockLens| ::
                 p.caches.blockLens[i] == w.caches.blockLens[if w.mla then i else 0] / if w.mla then ratio else t
  {
    SplitSizes(w, p, t, ratio);
  }

  /** Only sizes of which one divides the other are accepted. */
  lemma AcceptsDivides(w: Local, p: Peer, remoteTp: nat, layoutOk: bool, blocks: nat)
    requires Registered(w.caches, w.joint) && Accepts(w, p, remoteTp, layoutOk, blocks)
    ensures w.tpSize > 0 && p.tpSize > 0 && p.caches.blockSize > 0
    ensures w.tpSize % p.tpSize == 0 || p.tpSize % w.tpSize == 0
    ensures w.caches.blockSize % p.caches.blockSize == 0
  {}

  class Worker {
    const w: Local
    const y: Layers
    const replicated: nat -> bool                     // is_kv_replicated, by remote TP size
    const layout: string                              // of the local caches, or of the host buffer if there is one
    const mayPermute: bool                            // enable_permute_local_kv in the configuration

    var tpSizes: map<EngineId, nat>
    var blockSizes: map<EngineId, nat>
    var dstNumBlocks: map<EngineId, nat>
    var remoteAgents: set<Remote>                     // ranks of completed handshakes
    var srcByBlockSize: map<nat, seq<Desc>>
    var srcByRatio: map<int, seq<seq<Desc>>>
    var dst: map<Remote, seq<Desc>>
    var peers: map<Remote, Peer>                      // handshake metadata each prepared list was built from
    var permutes: bool                                // received blocks are permuted from HND to the local layout

    /** The sizes recorded for its engine are the peer's. */
    ghost predicate SizesRecorded(k: Remote, p: Peer)
      reads this`tpSizes, this`blockSizes, this`dstNumBlocks
    {
      && k.engine in tpSizes && tpSizes[k.engine] == p.tpSize
      && k.engine in blockSizes && blockSizes[k.engine] == p.caches.blockSize
      && k.engine in dstNumBlocks && dstNumBlocks[k.engine] == p.caches.numBlocks
      && p.replicated == replicated(p.tpSize)
    }

    /** The chunk lists to read this peer into are prepared, if it takes chunk lists. */
    ghost predicate Readable(p: Peer)
      reads this`srcByRatio
    {
      p.tpSize > 0 && w.tpSize > 0 && (Gathers(w, p) ==> Ratio(w, p) in srcByRatio)
    }

    /** The local list at the peer's block size is prepared. */
    ghost predicate SourceReady(p: Peer)
      reads this`srcByBlockSize
    {
      p.caches.blockSize in srcByBlockSize
    }

    ghost predicate SourcesValid()
      reads this`srcByBlockSize
    {
      && Configured(w, y) && w.caches.blockSize in srcByBlockSize
      && forall s {:trigger SourceOk(w, s, srcByBlockSize[s])} | s in srcByBlockSize ::
           SourceOk(w, s, srcByBlockSize[s])
    }

    ghost predicate ChunksValid()
      reads this`srcByRatio
    {
      && Configured(w, y)
      && forall t {:trigger ChunksOk(w, t, srcByRatio[t])} | t in srcByRatio :: ChunksOk(w, t, srcByRatio[t])
    }

    ghost predicate EntriesValid()
      reads this`dst, this`peers, this`remoteAgents
    {
      && dst.Keys == peers.Keys && remoteAgents <= dst.Keys
      && forall k {:trigger PreparedOk(w, peers[k], dst[k])} | k in dst :: PreparedOk(w, peers[k], dst[k])
    }

    ghost predicate SizesValid()
      reads this`tpSizes, this`blockSizes, this`dstNumBlocks, this`peers
    {
      forall k {:trigger peers[k]} | k in peers :: SizesRecorded(k, peers[k])
    }

    ghost predicate ReadableValid()
      reads this`srcByRatio, this`peers
    {
      forall k {:trigger peers[k]} | k in peers :: Readable(peers[k])
    }

    ghost predicate Valid()
      reads this
    {
      SourcesValid() && ChunksValid() && EntriesValid() && SizesValid() && ReadableValid()
    }

    constructor (w: Local, y: Layers, replicated: nat -> bool, layout: string, mayPermute: bool)
      requires Configured(w, y)
      ensures Valid() && this.w == w && this.y == y && this.replicated == replicated
      ensures this.layout == layout && this.mayPermute == mayPermute && !permutes
      ensures dst == map[] && srcByRatio == map[] && srcByBlockSize.Keys == {w.caches.blockSize}
    {
      this.w, this.y, this.replicated, this.layout, this.mayPermute := w, y, replicated, layout, mayPermute;
      tpSizes, blockSizes, dstNumBlocks, remoteAgents := map[], map[], map[], {};
      srcByRatio, dst, peers, permutes := map[], map[], map[], false;
      var whole := RegisterLocalXferHandler(w.caches, w.joint, w.caches.blockSize);
      srcByBlockSize := map[w.caches.blockSize := whole];
      new;
      WholeCache(w.caches);
    }

    /** Prepare the chunk lists for a ratio, once per ratio. */
    method PrepareChunks(t: int)
      requires Valid() && t < 0
      modifies this`srcByRatio
      ensures Valid() && srcByRatio.Keys == old(srcByRatio.Keys) + {t}
    {
      if t !in srcByRatio {
        WholeCache(w.caches);
        assert SourceOk(w, w.caches.blockSize, srcByBlockSize[w.caches.blockSize]);
        var lists := SplitLocalDescs(srcByBlockSize[w.caches.blockSize], -t);
        assert ChunksOk(w, t, lists);
        srcByRatio := srcByRatio[t := lists];
      }
    }

    /** Prepare the local list cut at a smaller remote block size. */
    method PrepareSource(blockSize: nat)
      requires Valid() && blockSize > 0 && Divides(blockSize, w.caches.blockSize)
      modifies this`srcByBlockSize
      ensures Valid() && srcByBlockSize.Keys == old(srcByBlockSize.Keys) + {blockSize}
    {
      var local := RegisterLocalXferHandler(w.caches, w.joint, blockSize);
      assert SourceOk(w, blockSize, local);
      srcByBlockSize := srcByBlockSize[blockSize := local];
    }

    /** The local caches can be cut at the block size that this rank announced, if they are cut at all. */
    predicate Cuttable(p: Peer, announced: nat)
      requires Handshaken(w, p)
    {
      BlockRatio(w, p) == 1 || (announced > 0 && Divides(announced, w.caches.blockSize))
    }

    /** The lists that a validated peer needs: chunk lists once per ratio, the remote slices, and the local
        list at the block size that this rank announced; `ok` is false when that cannot be cut. */
    method PrepareLists(k: Remote, p: Peer, announced: nat) returns (ok: bool)
      requires Valid() && Handshaken(w, p) && SizesRecorded(k, p)
      modifies this`srcByRatio, this`srcByBlockSize, this`dst, this`peers
      ensures Valid() && peers == old(peers)[k := p] && dst == old(dst)[k := PeerSlices(w, p)]
      ensures ok == Cuttable(p, announced)
      ensures srcByBlockSize.Keys == old(srcByBlockSize.Keys) + if ok && BlockRatio(w, p) > 1 then {announced} else {}
      ensures SourceReady(p) <==> p.caches.blockSize in old(srcByBlockSize) || announced == p.caches.blockSize
    {
      ok := true;
      if Gathers(w, p) {
        PrepareChunks(Ratio(w, p));
      }
      var remote := BuildRemoteDescs(w, p);
      Install(k, p, remote);
      if BlockRatio(w, p) > 1 {
        if announced == 0 || w.caches.blockSize % announced != 0 {
          return false;
        }
        PrepareSource(announced);
      } else {
        SameSize(w.caches.blockSize, p.caches.blockSize);
      }
    }

    method Install(k: Remote, p: Peer, remote: seq<Desc>)
      requires Valid() && PreparedOk(w, p, remote) && SizesRecorded(k, p) && Readable(p)
      modifies this`dst, this`peers
      ensures Valid() && peers == old(peers)[k := p] && dst == old(dst)[k := remote]
    {
      dst, peers := dst[k := remote], peers[k := p];
    }

    /** Every accepted peer is handshaken, at a block size that divides the local one. */
    lemma AcceptedShape(p: Peer, remoteTp: nat, layoutOk: bool, blocks: nat)
      requires Configured(w, y) && Accepts(w, p, remoteTp, layoutOk, blocks)
      ensures Handshaken(w, p)
    {}

    ghost function RecordedTp(e: EngineId, remoteTp: nat): nat
      reads this
    {
      if e in tpSizes then tpSizes[e] else remoteTp
    }

    ghost function RecordedBlockSize(e: EngineId, blockSize: nat): nat
      reads this
    {
      if e in blockSizes then blockSizes[e] else blockSize
    }

    ghost function RecordedBlocks(e: EngineId, blocks: nat): nat
      reads this
    {
      if e in dstNumBlocks then dstNumBlocks[e] else blocks
    }

    /** The engine-wide sizes are those of the first rank that was seen. */
    method RecordSizes(e: EngineId, remoteTp: nat, blockSize: nat)
      requires Valid()
      modifies this`tpSizes, this`blockSizes
      ensures Valid() && e in tpSizes && tpSizes[e] == old(RecordedTp(e, remoteTp))
      ensures e in blockSizes && blockSizes[e] == old(RecordedBlockSize(e, blockSize))
    {
      if e !in tpSizes {
        tpSizes := tpSizes[e := remoteTp];
      }
      if e !in blockSizes {
        blockSizes := blockSizes[e := blockSize];
      }
    }

    method RecordBlocks(e: EngineId, numBlocks: nat)
      requires Valid()
      modifies this`dstNumBlocks
      ensures Valid() && e in dstNumBlocks && dstNumBlocks[e] == old(RecordedBlocks(e, numBlocks))
    {
      if e !in dstNumBlocks {
        dstNumBlocks := dstNumBlocks[e := numBlocks];
      }
    }

    /** What a handshake with this peer leaves: its slices are listed if the checks pass, and then its blocks
        can be read exactly if a local list at its block size was there or is the one just cut. */
    twostate predicate Prepared(k: Remote, p: Peer, announced: nat, accepted: bool)
      reads this
    {
      if accepted then
        && Handshaken(w, p) && peers == old(peers)[k := p] && dst == old(dst)[k := PeerSlices(w, p)]
        && (SourceReady(p) <==> p.caches.blockSize in old(srcByBlockSize) || announced == p.caches.blockSize)
      else peers == old(peers) && dst == old(dst) && srcByBlockSize == old(srcByBlockSize)
    }

    /** The layout check: MLA caches have no layout, and HND blocks can be permuted where that is enabled. */
    predicate Fits(remoteLayout: string) {
      w.mla || remoteLayout == layout || (mayPermute && remoteLayout == "HND")
    }

    /** The sizes of both sides pass the checks that come before the layout is compared. */
    predicate SizesPass(p: Peer, remoteTp: nat) {
      p.tpSize == remoteTp && SizesAgree(w, p) && !(Ratio(w, p) < 0 && p.replicated)
    }

    /** The checks on a peer whose sizes are recorded, and its lists if they pass. */
    method ValidateAndPrepare(k: Remote, p: Peer, remoteTp: nat, remoteLayout: string, announced: nat)
      returns (ok: bool)
      requires Valid() && k.engine in dstNumBlocks && k.engine in tpSizes && k.engine in blockSizes
      requires p.tpSize == tpSizes[k.engine] && p.caches.blockSize == blockSizes[k.engine]
          && p.replicated == replicated(p.tpSize)
      modifies this`srcByRatio, this`srcByBlockSize, this`dst, this`peers, this`permutes
      ensures Valid() && old(srcByBlockSize.Keys) <= srcByBlockSize.Keys
      ensures Prepared(k, p, announced, Accepts(w, p, remoteTp, Fits(remoteLayout), dstNumBlocks[k.engine]))
      ensures ok <==> Accepts(w, p, remoteTp, Fits(remoteLayout), dstNumBlocks[k.engine]) && Cuttable(p, announced)
      ensures permutes
         <==> old(permutes)
              || (SizesPass(p, remoteTp) && !w.mla && remoteLayout != layout && mayPermute && remoteLayout == "HND")
    {
      if SizesPass(p, remoteTp) && !w.mla && remoteLayout != layout && mayPermute && remoteLayout == "HND" {
        permutes := true;
      }
      ok := Accepts(w, p, remoteTp, Fits(remoteLayout), dstNumBlocks[k.engine]);
      if ok {
        AcceptedShape(p, remoteTp, Fits(remoteLayout), dstNumBlocks[k.engine]);
        ok := PrepareLists(k, p, announced);
      }
    }

    /** `add_remote_agent`. The engine's block size is the one its first rank announced; a later rank may
        announce another one, which nothing checks. A peer with another layout is refused, unless that is HND and
        permuting is enabled, and then received blocks are permuted. A failed check may leave sizes recorded. */
    method AddRemoteAgent(k: Remote, m: Caches, remoteTp: nat, remoteLayout: string) returns (ok: bool)
      requires Valid()
      modifies this
      ensures Valid() && remoteAgents == old(remoteAgents) && old(srcByBlockSize.Keys) <= srcByBlockSize.Keys
      ensures k in old(remoteAgents) ==> ok && unchanged(this)
      ensures k !in old(remoteAgents) ==>
                var tp := old(RecordedTp(k.engine, remoteTp));
                var p := Peer(m.(blockSize := old(RecordedBlockSize(k.engine, m.blockSize))), tp, replicated(tp));
                var fits := w.mla || remoteLayout == layout || (mayPermute && remoteLayout == "HND");
                var accepted := Accepts(w, p, remoteTp, fits, old(RecordedBlocks(k.engine, m.numBlocks)));
                && Prepared(k, p, m.blockSize, accepted) && (ok <==> accepted && Cuttable(p, m.blockSize))
                && (ok && !w.mla && remoteLayout != layout ==> permutes)
                && (permutes && !old(permutes) ==> !w.mla && mayPermute && remoteLayout == "HND" && layout != "HND")
    {
      if k in remoteAgents {
        return true;
      }
      RecordSizes(k.engine, remoteTp, m.blockSize);
      var size := blockSizes[k.engine];
      var p := Peer(m.(blockSize := size), tpSizes[k.engine], replicated(tpSizes[k.engine]));
      if size == 0 || w.caches.blockSize % size != 0 {
        return false;
      }
      RecordBlocks(k.engine, m.numBlocks);
      ok := ValidateAndPrepare(k, p, remoteTp, remoteLayout, m.blockSize);
    }

    /** The handshake future's first callback: the engine's agents become known. */
    method HandshakeDone(ks: set<Remote>)
      requires Valid() && ks <= dst.Keys
      modifies this`remoteAgents
      ensures Valid() && remoteAgents == old(remoteAgents) + ks
    {
      remoteAgents := remoteAgents + ks;
    }

    /** What a READ from this peer may be asked to copy. */
    ghost predicate Selectable(p: Peer, local: seq<nat>, remote: seq<nat>)
      requires Handshaken(w, p)
    {
      && |local| == |remote| && Distinct(local)
      && BlockPairing.Below(local, w.caches.numBlocks * BlockRatio(w, p))
      && BlockPairing.Below(remote, p.caches.numBlocks)
    }

    /** The entry that a handshaken rank left behind. */
    lemma Entry(k: Remote)
      requires Valid() && k in dst
      ensures k in peers && PreparedOk(w, peers[k], dst[k]) && SizesRecorded(k, peers[k]) && Readable(peers[k])
    {}

    /** The prepared local list for a recorded remote block size. */
    lemma Source(p: Peer)
      requires Valid() && SourceReady(p) && Handshaken(w, p)
      ensures srcByBlockSize[p.caches.blockSize] == WholeParts(Cut(w, p), w.joint)
    {
      assert SourceOk(w, p.caches.blockSize, srcByBlockSize[p.caches.blockSize]);
    }

    lemma Sources(p: Peer, i: nat)
      requires Valid() && Readable(p) && Handshaken(w, p) && Gathers(w, p) && i < -Ratio(w, p)
      ensures |srcByRatio[Ratio(w, p)]| == -Ratio(w, p)
      ensures srcByRatio[Ratio(w, p)][i] == Flat(RegionCount(w.caches, w.joint), w.caches.numBlocks,
                                                 ChunkPart(w.caches, w.joint, -Ratio(w, p), i))
    {
      assert ChunksOk(w, Ratio(w, p), srcByRatio[Ratio(w, p)]);
      ChunkList(w.caches, w.joint, -Ratio(w, p), i);
    }

    lemma PeerCovers(p: Peer)
      requires Handshaken(w, p) && Configured(w, y)
      ensures RegionCount(p.caches, w.joint) == y.numRegions && Covers(PeerSlice(w, p), y.numRegions)
      ensures RegionCount(Cut(w, p), w.joint) == y.numRegions && Covers(WholePart(Cut(w, p), w.joint), y.numRegions)
    {}

    /** `_read_blocks` for the single rank a request reads from. */
    method PostRead(k: Remote, local: seq<nat>, remote: seq<nat>) returns (post: Post)
      requires Valid() && k in dst && SourceReady(peers[k])
      requires PreparedOk(w, peers[k], dst[k]) && !Gathers(w, peers[k]) && Selectable(peers[k], local, remote)
      ensures var p := peers[k];
              && post.rank == k.rank && post.parts == PeerSlice(w, p)
              && Reads(w, p, y, local, remote, k.rank, post.copies)
    {
      var p := peers[k];
      Entry(k);
      Source(p);
      PeerCovers(p);
      var ratio := w.caches.blockSize / blockSizes[k.engine];
      var copies := PostSelected(k.rank, y, srcByBlockSize[blockSizes[k.engine]], dst[k], w.caches.numBlocks * ratio,
                                 dstNumBlocks[k.engine], local, remote, WholePart(Cut(w, p), w.joint), PeerSlice(w, p));
      post := Post(k.rank, PeerSlice(w, p), copies);
    }

    /** What a gathering rank's READ needs: its blocks are shared, and its part of the local blocks is prepared. */
    lemma ChunkReady(k: Remote, i: nat, local: seq<nat>, remote: seq<nat>)
      requires Valid() && k in dst
      requires PreparedOk(w, peers[k], dst[k]) && Gathers(w, peers[k]) && i < -Ratio(w, peers[k])
          && Selectable(peers[k], local, remote)
      ensures Shared(w.caches, w.joint, y, local, remote) && SizesRecorded(k, peers[k]) && BlockRatio(w, peers[k]) == 1
      ensures var p, f := peers[k], ChunkPart(w.caches, w.joint, -Ratio(w, peers[k]), i);
              && Covers(f, y.numRegions) && Covers(PeerSlice(w, p), y.numRegions)
              && Ratio(w, p) in srcByRatio && i < |srcByRatio[Ratio(w, p)]|
              && srcByRatio[Ratio(w, p)][i] == Flat(y.numRegions, w.caches.numBlocks, f)
              && dst[k] == Flat(y.numRegions, p.caches.numBlocks, PeerSlice(w, p))
    {
      var p := peers[k];
      Entry(k);
      Sources(p, i);
      PeerCovers(p);
      PeerParts(w, p, 0);
    }

    /** `_read_blocks` for rank i of the several ranks a request reads from. */
    method PostChunk(k: Remote, i: nat, local: seq<nat>, remote: seq<nat>) returns (post: Post)
      requires Valid() && k in dst
      requires PreparedOk(w, peers[k], dst[k]) && Gathers(w, peers[k]) && i < -Ratio(w, peers[k])
          && Selectable(peers[k], local, remote)
      ensures var p := peers[k];
              && Shared(w.caches, w.joint, y, local, remote)
              && post.rank == k.rank && post.parts == PeerSlice(w, p)
              && FillsChunk(w.caches, w.joint, y, local, remote, -Ratio(w, p), i, post)
    {
      var p := peers[k];
      ChunkReady(k, i, local, remote);
      var ratio := w.caches.blockSize / blockSizes[k.engine];
      var copies := PostSelected(k.rank, y, srcByRatio[Ratio(w, p)][i], dst[k], w.caches.numBlocks * ratio,
                                 dstNumBlocks[k.engine], local, remote,
                                 ChunkPart(w.caches, w.joint, -Ratio(w, p), i), PeerSlice(w, p));
      post := Post(k.rank, PeerSlice(w, p), copies);
    }

    /** The consumer knows engine e: all ranks it targets completed their handshake. */
    ghost predicate Knows(e: EngineId)
      reads this
    {
      && Valid() && e in tpSizes && e in blockSizes && e in dstNumBlocks && tpSizes[e] > 0 && blockSizes[e] > 0
      && forall r | r in TargetRanksOf(e) :: Remote(e, r) in remoteAgents
    }

    function RatioOf(e: EngineId): int
      reads this
      requires e in tpSizes && tpSizes[e] > 0 && w.tpSize > 0
      ensures RatioOf(e) != 0
    {
      RatioNonzero(w.tpSize, tpSizes[e]);
      TpRatio(w.tpSize, tpSizes[e])
    }

    function TargetRanksOf(e: EngineId): seq<nat>
      reads this
    {
      if e in tpSizes && tpSizes[e] > 0 && w.tpSize > 0 then TargetRanks(w.tpRank, RatioOf(e)) else []
    }

    /** Rank i of the t producer ranks that hold this rank's heads. */
    function Target(e: EngineId, t: nat, i: nat): Remote {
      Remote(e, w.tpRank * t + i)
    }

    /** A known engine's peers agree on everything the choice of mode depends on. */
    lemma KnownPeer(e: EngineId, r: nat)
      requires Knows(e) && r in TargetRanksOf(e)
      ensures var k := Remote(e, r);
              && k in dst && k in peers && PreparedOk(w, peers[k], dst[k])
              && Ratio(w, peers[k]) == RatioOf(e) && (Gathers(w, peers[k]) <==> !w.mla && RatioOf(e) < 0)
              && peers[k].caches.numBlocks == dstNumBlocks[e] && peers[k].caches.blockSize == blockSizes[e]
              && BlockRatio(w, peers[k]) == w.caches.blockSize / blockSizes[e] > 0
    {
      Entry(Remote(e, r));
    }

    /** The blocks the scheduler names for a request are distinct blocks of the two caches. */
    ghost predicate Addressable(e: EngineId, local: seq<nat>, remote: seq<nat>)
      reads this
    {
      e in dstNumBlocks && Distinct(local) && BlockPairing.Below(local, w.caches.numBlocks)
        && BlockPairing.Below(remote, dstNumBlocks[e])
    }

    /** Several reads only happen at equal block sizes, into whole local blocks. */
    lemma ChunksShare(p: Peer, local: seq<nat>, remote: seq<nat>)
      requires Configured(w, y) && Handshaken(w, p) && Gathers(w, p) && Selectable(p, local, remote)
      ensures Shared(w.caches, w.joint, y, local, remote)
    {
      PeerParts(w, p, 0);
    }

    /** Rank r of engine e can serve these blocks. */
    ghost predicate Serves(e: EngineId, local: seq<nat>, remote: seq<nat>, r: nat)
      reads this
    {
      Remote(e, r) in peers && Handshaken(w, peers[Remote(e, r)]) && Selectable(peers[Remote(e, r)], local, remote)
    }

    /** Post i, of t in all, was posted to the right rank and fills chunk i. */
    ghost predicate PostedChunk(e: EngineId, local: seq<nat>, remote: seq<nat>, t: nat, i: nat, post: Post)
      reads this
    {
      && t > 0 && Shared(w.caches, w.joint, y, local, remote)
      && FillsChunk(w.caches, w.joint, y, local, remote, t, i, post)
      && PostedFrom(Target(e, t, i), post)
    }

    /** Every rank that this rank targets can serve these blocks. */
    ghost predicate AllServe(e: EngineId, local: seq<nat>, remote: seq<nat>)
      reads this
    {
      forall i {:trigger TargetRanksOf(e)[i]} | 0 <= i < |TargetRanksOf(e)| ::
        Serves(e, local, remote, TargetRanksOf(e)[i])
    }

    lemma PeerGathers(e: EngineId, i: nat, local: seq<nat>, remote: seq<nat>)
      requires Knows(e) && !w.mla && RatioOf(e) < 0 && i < -RatioOf(e) && Serves(e, local, remote, TargetRanksOf(e)[i])
      ensures var k := Target(e, -RatioOf(e), i);
              && TargetRanksOf(e)[i] == k.rank && k in dst && k in peers && PreparedOk(w, peers[k], dst[k])
              && Gathers(w, peers[k])
              && Ratio(w, peers[k]) == RatioOf(e) && Selectable(peers[k], local, remote)
    {
      KnownPeer(e, TargetRanksOf(e)[i]);
    }

    lemma ChunkIsPosted(e: EngineId, k: Remote, t: nat, i: nat, local: seq<nat>, remote: seq<nat>, post: Post)
      requires k == Target(e, t, i) && k in peers && Handshaken(w, peers[k]) && Gathers(w, peers[k])
      requires post.rank == k.rank && post.parts == PeerSlice(w, peers[k]) && t > 0
      requires Shared(w.caches, w.joint, y, local, remote)
          && FillsChunk(w.caches, w.joint, y, local, remote, t, i, post)
      ensures PostedChunk(e, local, remote, t, i, post)
    {}

    /** One round of the loop over the producer ranks that together hold this rank's heads. */
    method PostFrom(e: EngineId, t: nat, i: nat, local: seq<nat>, remote: seq<nat>) returns (post: Post)
      requires Knows(e) && !w.mla && RatioOf(e) < 0 && i < t == -RatioOf(e)
      requires Shared(w.caches, w.joint, y, local, remote) && Serves(e, local, remote, TargetRanksOf(e)[i])
      ensures PostedChunk(e, local, remote, t, i, post)
    {
      var k := Remote(e, TargetRanksOf(e)[i]);
      PeerGathers(e, i, local, remote);
      post := PostChunk(k, i, local, remote);
      ChunkIsPosted(e, k, t, i, local, remote, post);
    }

    method PostChunks(e: EngineId, local: seq<nat>, remote: seq<nat>) returns (posts: seq<Post>)
      requires Knows(e) && !w.mla && RatioOf(e) < 0
      requires Shared(w.caches, w.joint, y, local, remote) && AllServe(e, local, remote)
      ensures |posts| == -RatioOf(e)
      ensures forall i | 0 <= i < |posts| :: PostedChunk(e, local, remote, |posts|, i, posts[i])
    {
      var t := -RatioOf(e);
      posts := [];
      for i := 0 to t
        invariant |posts| == i
        invariant forall j | 0 <= j < i :: PostedChunk(e, local, remote, t, j, posts[j])
      {
        var post := PostFrom(e, t, i, local, remote);
        posts := posts + [post];
      }
    }

    lemma AllFilled(e: EngineId, local: seq<nat>, remote: seq<nat>, posts: seq<Post>)
      requires posts != [] && Shared(w.caches, w.joint, y, local, remote)
      requires forall i | 0 <= i < |posts| :: PostedChunk(e, local, remote, |posts|, i, posts[i])
      ensures FillChunks(w.caches, w.joint, y, local, remote, posts)
      ensures forall i | 0 <= i < |posts| :: PostedFrom(Target(e, |posts|, i), posts[i])
    {}

    /** Every rank that a known engine targets can serve the selected blocks. */
    lemma SelectionReadable(e: EngineId, local: seq<nat>, remote: seq<nat>, r: nat)
      requires Knows(e) && Addressable(e, local, remote) && r in TargetRanksOf(e)
      requires SelectBlocks(local, remote, w.caches.blockSize / blockSizes[e]).Read?
      ensures var s := SelectBlocks(local, remote, w.caches.blockSize / blockSizes[e]);
              Serves(e, s.local, s.remote, r)
    {
      KnownPeer(e, r);
      SelectionWellFormed(local, remote, w.caches.blockSize / blockSizes[e], w.caches.numBlocks, dstNumBlocks[e]);
    }

    /** One READ of the selected blocks, or one from each rank that holds a part of this rank's heads. */
    ghost predicate PostedAll(e: EngineId, s: Selection, posts: seq<Post>)
      reads this
      requires s.Read? && Knows(e)
    {
      if w.mla || RatioOf(e) > 0 then |posts| == 1 && ReadsOne(Remote(e, TargetRanksOf(e)[0]), s, posts[0])
      else
        && |posts| == -RatioOf(e) && Shared(w.caches, w.joint, y, s.local, s.remote)
        && FillChunks(w.caches, w.joint, y, s.local, s.remote, posts)
        && forall i | 0 <= i < |posts| :: PostedFrom(Target(e, |posts|, i), posts[i])
    }

    method PostOne(e: EngineId, s: Selection) returns (posts: seq<Post>)
      requires Knows(e) && blockSizes[e] in srcByBlockSize && s.Read? && AllServe(e, s.local, s.remote)
          && (w.mla || RatioOf(e) > 0)
      ensures PostedAll(e, s, posts)
    {
      var k := Remote(e, TargetRanksOf(e)[0]);
      KnownPeer(e, k.rank);
      var post := PostRead(k, s.local, s.remote);
      posts := [post];
    }

    method PostMany(e: EngineId, s: Selection) returns (posts: seq<Post>)
      requires Knows(e) && s.Read? && AllServe(e, s.local, s.remote) && !w.mla && RatioOf(e) < 0
      ensures PostedAll(e, s, posts)
    {
      KnownPeer(e, TargetRanksOf(e)[0]);
      ChunksShare(peers[Remote(e, TargetRanksOf(e)[0])], s.local, s.remote);
      posts := PostChunks(e, s.local, s.remote);
      AllFilled(e, s.local, s.remote, posts);
    }

    lemma SelectionServed(e: EngineId, local: seq<nat>, remote: seq<nat>)
      requires Knows(e) && Addressable(e, local, remote)
      requires SelectBlocks(local, remote, w.caches.blockSize / blockSizes[e]).Read?
      ensures var s := SelectBlocks(local, remote, w.caches.blockSize / blockSizes[e]);
              AllServe(e, s.local, s.remote)
    {
      var s := SelectBlocks(local, remote, w.caches.blockSize / blockSizes[e]);
      forall i | 0 <= i < |TargetRanksOf(e)|
        ensures Serves(e, s.local, s.remote, TargetRanksOf(e)[i])
      {
        SelectionReadable(e, local, remote, TargetRanksOf(e)[i]);
      }
    }

    /** The loop over the engine's agents that tells the ranks not read from that the blocks are here. */
    method NotifyOthers(e: EngineId, rank: nat) returns (notified: set<nat>)
      ensures forall r: nat :: r in notified <==> r != rank && Remote(e, r) in remoteAgents
    {
      notified := {};
      var todo := remoteAgents;
      while todo != {}
        invariant todo <= remoteAgents
        invariant notified == set k | k in remoteAgents - todo && k.engine == e && k.rank != rank :: k.rank
      {
        var k :| k in todo;
        if k.engine == e && k.rank != rank {
          notified := notified + {k.rank};
        }
        todo := todo - {k};
      }
      forall r: nat ensures r in notified <==> r != rank && Remote(e, r) in remoteAgents {
        assert Remote(e, r).engine == e && Remote(e, r).rank == r;
      }
    }

    /** A single READ goes into the local list at the engine's block size. */
    predicate NeedsSource(e: EngineId)
      reads this
      requires e in tpSizes && tpSizes[e] > 0 && w.tpSize > 0
    {
      w.mla || RatioOf(e) > 0
    }

    /** `_read_blocks_for_req`: one READ, or one per producer rank when several hold this rank's heads; with
        MLA the other ranks are told. `ok` is false when there is no local list at the engine's block size. */
    method ReadBlocksForReq(e: EngineId, local: seq<nat>, remote: seq<nat>)
      returns (ok: bool, selection: Selection, posts: seq<Post>, notified: set<nat>)
      requires Knows(e) && Addressable(e, local, remote)
      ensures ok <==> (NeedsSource(e) ==> blockSizes[e] in srcByBlockSize)
      ensures selection == SelectBlocks(local, remote, w.caches.blockSize / blockSizes[e])
      ensures if ok && selection.Read? then PostedAll(e, selection, posts) else posts == []
      ensures forall r: nat :: r in notified
                <==> ok && !selection.AssertionFails? && w.mla && RatioOf(e) < 0
                     && r != TargetRanksOf(e)[0] && Remote(e, r) in remoteAgents
    {
      selection := SelectBlocks(local, remote, w.caches.blockSize / blockSizes[e]);
      posts, notified, ok := [], {}, true;
      if NeedsSource(e) && blockSizes[e] !in srcByBlockSize {
        return false, selection, posts, notified;
      }
      if selection.Read? {
        SelectionServed(e, local, remote);
        if NeedsSource(e) {
          posts := PostOne(e, selection);
        } else {
          posts := PostMany(e, selection);
        }
      }
      if !selection.AssertionFails? && w.mla && RatioOf(e) < 0 {
        notified := NotifyOthers(e, TargetRanksOf(e)[0]);
      }
    }

    ghost predicate PostedFrom(k: Remote, post: Post)
      reads this
    {
      && k in peers && Handshaken(w, peers[k]) && Gathers(w, peers[k])
      && post.rank == k.rank && post.parts == PeerSlice(w, peers[k])
    }

    ghost predicate ReadsOne(k: Remote, s: Selection, post: Post)
      reads this
      requires s.Read? && Valid()
    {
      && k in peers && post.rank == k.rank
      && Reads(w, peers[k], y, s.local, s.remote, k.rank, post.copies)
    }

    // ----- from the posts to the bytes -----

    ghost predicate AllRecorded(e: EngineId, t: nat)
      reads this`peers
    {
      forall i: nat | i < t :: Target(e, t, i) in peers
    }

    /** The recorded peers that a request of several reads is read from, in rank order. */
    ghost function ReadPeers(e: EngineId, t: nat): (ps: seq<Peer>)
      reads this`peers
      requires AllRecorded(e, t)
      ensures |ps| == t && forall i | 0 <= i < t :: ps[i] == peers[Target(e, t, i)]
    {
      var known := peers;
      seq(t, i requires 0 <= i < t && Target(e, t, i) in known => known[Target(e, t, i)])
    }

    lemma TargetPeer(e: EngineId, t: nat, i: nat)
      requires Knows(e) && !w.mla && RatioOf(e) < 0 && i < t == -RatioOf(e)
      ensures Target(e, t, i) in peers
      ensures var p := peers[Target(e, t, i)];
              && Handshaken(w, p) && Gathers(w, p) && -Ratio(w, p) == t
              && BlockRatio(w, p) == 1 == w.caches.blockSize / blockSizes[e]
    {
      assert TargetRanksOf(e)[i] == Target(e, t, i).rank;
      KnownPeer(e, Target(e, t, i).rank);
      var p := peers[Target(e, t, i)];
      PeerParts(w, p, 0);
    }

    lemma TargetsRecorded(e: EngineId, t: nat)
      requires Knows(e) && !w.mla && RatioOf(e) < 0 && t == -RatioOf(e)
      ensures AllRecorded(e, t) && w.caches.blockSize / blockSizes[e] == 1
    {
      forall i: nat | i < t ensures Target(e, t, i) in peers {
        TargetPeer(e, t, i);
      }
      TargetPeer(e, t, 0);
    }

    lemma PostIsTo(e: EngineId, posts: seq<Post>, t: nat, i: nat)
      requires Knows(e) && !w.mla && RatioOf(e) < 0 && i < t == -RatioOf(e) == |posts| && AllRecorded(e, t)
      requires PostedFrom(Target(e, t, i), posts[i])
      ensures PostedTo(w, ReadPeers(e, t), posts, i)
    {
      TargetPeer(e, t, i);
    }

    /** The several READs of a request are the posts that the gathering results are about. */
    lemma PostsGather(e: EngineId, s: Selection, posts: seq<Post>, done: seq<Copy>)
      requires Knows(e) && !w.mla && RatioOf(e) < 0 && s.Read? && PostedAll(e, s, posts) && AllDone(posts, done)
      ensures AllRecorded(e, |posts|) && |s.local| == |s.remote| && w.caches.blockSize / blockSizes[e] == 1
      ensures Gathered(w, ReadPeers(e, |posts|), y, s.local, s.remote, posts, done)
    {
      TargetsRecorded(e, |posts|);
      forall i | 0 <= i < |posts| ensures PostedTo(w, ReadPeers(e, |posts|), posts, i) {
        PostIsTo(e, posts, |posts|, i);
      }
    }

    /** What `_read_blocks_for_req` posts for the uncached blocks of a request, once complete in any order: the
        block at each uncached position is the rank-ordered assembly of the blocks at that position in the
        target ranks, exactly when their number divides the part. */
    lemma RequestArrives(e: EngineId, blocks: seq<nat>, remote: seq<nat>, cached: nat, s: Selection, posts: seq<Post>,
                         done: seq<Copy>, remotes: nat -> Memory, before: Memory, r: nat, q: nat)
      requires Knows(e) && !w.mla && RatioOf(e) < 0 && SameRequest(blocks, remote, 1) && cached < |blocks|
      requires s == SelectBlocks(blocks[cached..], remote, w.caches.blockSize / blockSizes[e]) && s.Read?
      requires PostedAll(e, s, posts) && AllDone(posts, done) && Selected(y, |s.local|, r, q)
      ensures AllRecorded(e, |posts|) && 0 < |posts|
      ensures cached + q < |blocks| == |remote| && r < RegionCount(w.caches, w.joint)
      ensures forall p | p in ReadPeers(e, |posts|) ::
                |p.caches.bases| == |p.caches.blockLens| && r < RegionCount(p.caches, w.joint)
      ensures AllAssembled(w, ReadPeers(e, |posts|), blocks, remote, posts, PerformAll(done, remotes, before),
                           remotes, r,
                           cached + q)
              <==> PartLen(w.caches, w.joint, r) % |posts| == 0
    {
      PostsGather(e, s, posts, done);
      AlignedRead.GatheredTokensArriveInPlace(w, ReadPeers(e, |posts|), y, blocks, remote, cached, posts, done,
                                              remotes, before, r, q);
    }

    /** The peer that a request of one read is read from. */
    lemma SinglePeer(e: EngineId, s: Selection, posts: seq<Post>)
      requires Knows(e) && s.Read? && NeedsSource(e) && PostedAll(e, s, posts)
      ensures TargetRanksOf(e) != [] && Remote(e, TargetRanksOf(e)[0]) in peers && |posts| == 1
              && |s.local| == |s.remote|
      ensures var k := Remote(e, TargetRanksOf(e)[0]);
              && Reads(w, peers[k], y, s.local, s.remote, k.rank, posts[0].copies) && !Gathers(w, peers[k])
              && BlockRatio(w, peers[k]) == w.caches.blockSize / blockSizes[e] > 0
              && peers[k].caches.numBlocks == dstNumBlocks[e]
    {
      KnownPeer(e, TargetRanksOf(e)[0]);
    }

    /** The request is one that the alignment results are about. */
    lemma SingleRequest(e: EngineId, blocks: seq<nat>, remote: seq<nat>, cached: nat, s: Selection, posts: seq<Post>)
      requires Knows(e) && NeedsSource(e) && Addressable(e, blocks, remote) && cached < |blocks|
      requires SameRequest(blocks, remote, w.caches.blockSize / blockSizes[e])
      requires s == SelectBlocks(blocks[cached..], remote, w.caches.blockSize / blockSizes[e]) && s.Read?
      requires PostedAll(e, s, posts)
      ensures TargetRanksOf(e) != [] && Remote(e, TargetRanksOf(e)[0]) in peers && |posts| == 1
              && |s.local| == |s.remote|
      ensures var k := Remote(e, TargetRanksOf(e)[0]);
              && Handshaken(w, peers[k]) && BlockRatio(w, peers[k]) == w.caches.blockSize / blockSizes[e] > 0
              && Reads(w, peers[k], y, s.local, s.remote, k.rank, posts[0].copies)
              && AlignedRead.Request(w, peers[k], y, blocks, remote, cached)
              && s == AlignedRead.Uncached(w, peers[k], blocks, remote, cached)
    {
      SinglePeer(e, s, posts);
    }

    /** The same for a single READ, at any block-size ratio: in the aligned cases each uncached position holds
        this rank's slice of the remote block at that position. */
    lemma SingleRequestArrives(e: EngineId, blocks: seq<nat>, remote: seq<nat>, cached: nat, s: Selection,
                               posts: seq<Post>, done: seq<Copy>, remotes: nat -> Memory, before: Memory,
                               r: nat, q: nat, o: nat, at: nat, k: Remote)
      requires Knows(e) && NeedsSource(e) && Addressable(e, blocks, remote) && cached < |blocks|
      requires SameRequest(blocks, remote, w.caches.blockSize / blockSizes[e])
      requires s == SelectBlocks(blocks[cached..], remote, w.caches.blockSize / blockSizes[e]) && s.Read?
      requires PostedAll(e, s, posts) && forall c :: c in posts[0].copies <==> c in done
      requires cached == 0 || |remote| % (w.caches.blockSize / blockSizes[e]) == 0
      requires at == cached * (w.caches.blockSize / blockSizes[e]) + q && Selected(y, |s.local|, r, q)
      requires TargetRanksOf(e) != [] ==> k == Remote(e, TargetRanksOf(e)[0])
      ensures TargetRanksOf(e) != [] && k in peers && Handshaken(w, peers[k])
      ensures r < RegionCount(Cut(w, peers[k]), w.joint) == RegionCount(peers[k].caches, w.joint)
      ensures o < PartLen(Cut(w, peers[k]), w.joint, r) ==>
                && BlockRatio(w, peers[k]) > 0 && at / BlockRatio(w, peers[k]) < |blocks| && at < |remote|
                && PerformAll(done, remotes, before)(
                     PartStart(Cut(w, peers[k]), w.joint, r, SubBlockAt(blocks, BlockRatio(w, peers[k]), at)) + o)
                   == remotes(k.rank)(SliceStart(w, peers[k], r, remote[at]) + o)
    {
      SingleRequest(e, blocks, remote, cached, s, posts);
      if o < PartLen(Cut(w, peers[k]), w.joint, r) {
        AlignedRead.TokensArriveInAnyOrder(w, peers[k], y, blocks, remote, cached, s, k.rank, posts[0].copies, done,
                                           remotes, before, r, q, o, at);
      }
    }
  }
}
