/** P TP > D TP: one request reads from several producer ranks, each filling one chunk of every
    selected local part. */
module GatherRead {
  import opened Grid
  import opened RemoteRead
  import opened TransferGeometry
  import opened DescriptorIds
  import opened BlockPairing
  import opened BlockRead

  /** Length of one of t chunks of a part. */
  function ChunkLen(c: Caches, joint: bool, t: nat, r: nat): nat
    requires |c.bases| == |c.blockLens| && r < RegionCount(c, joint) && t > 0
  {
    PartLen(c, joint, r) / t
  }

  /** First byte of chunk i of a part. */
  function ChunkStart(c: Caches, joint: bool, t: nat, r: nat, b: nat, i: nat): nat
    requires |c.bases| == |c.blockLens| && r < RegionCount(c, joint) && t > 0
  {
    PartStart(c, joint, r, b) + i * ChunkLen(c, joint, t, r)
  }

  /** Byte x of a part of `len` bytes is byte o of chunk i of t. */
  predicate ChunkByte(x: nat, len: nat, t: nat, i: nat, o: nat)
    requires t > 0
  {
    i < t && o < len / t && x == i * (len / t) + o
  }

  lemma ChunkByteWithin(x: nat, len: nat, t: nat, i: nat, o: nat)
    requires t > 0 && ChunkByte(x, len, t, i, o)
    ensures x < t * (len / t) <= len
  {
    Grid.Below(i, o, t, len / t);
  }

  lemma ChunkByteUnique(x: nat, len: nat, t: nat, i: nat, o: nat, i': nat, o': nat)
    requires t > 0 && ChunkByte(x, len, t, i, o) && ChunkByte(x, len, t, i', o')
    ensures i == i' && o == o'
  {
    Unique(i, o, i', o', len / t);
  }

  /** Chunk i of t of every local part. */
  function ChunkPart(c: Caches, joint: bool, t: nat, i: nat): Parts
    requires |c.bases| == |c.blockLens| && t > 0
  {
    (r: nat, b: nat) requires r < RegionCount(c, joint) =>
      Desc(ChunkStart(c, joint, t, r, b, i), ChunkLen(c, joint, t, r), c.device)
  }

  lemma {:induction false} ChunksOfFlat(rows: nat, cols: nat, f: Parts, g: Parts, t: nat, i: nat)
    requires t > 0
    requires forall r: nat, b: nat | r < rows && b < cols ::
               f.requires(r, b) && g.requires(r, b) && g(r, b) == Chunk(f(r, b), t, i)
    ensures Chunks(Flat(rows, cols, f), t, i) == Flat(rows, cols, g)
  {
    if rows > 0 {
      ChunksOfFlat(rows - 1, cols, f, g, t, i);
      assert Chunks(Row(cols, rows - 1, f), t, i) == Row(cols, rows - 1, g);
      assert Chunks(Flat(rows - 1, cols, f) + Row(cols, rows - 1, f), t, i)
          == Chunks(Flat(rows - 1, cols, f), t, i) + Chunks(Row(cols, rows - 1, f), t, i);
    }
  }

  /** The split local list is the list of chunk parts. */
  lemma ChunkList(c: Caches, joint: bool, t: nat, i: nat)
    requires |c.bases| == |c.blockLens| && t > 0
    ensures Chunks(WholeParts(c, joint), t, i) == Flat(RegionCount(c, joint), c.numBlocks, ChunkPart(c, joint, t, i))
  {
    ChunksOfFlat(RegionCount(c, joint), c.numBlocks, WholePart(c, joint), ChunkPart(c, joint, t, i), t, i);
  }

  /** One posted READ: the producer rank, its parts, and the copies. */
  datatype Post = Post(rank: nat, parts: Parts, copies: seq<Copy>)

  /** What the posts of one request share. */
  ghost predicate Shared(c: Caches, joint: bool, y: Layers, local: seq<nat>, remote: seq<nat>) {
    && |c.bases| == |c.blockLens| && Separate(c)
    && y.numRegions == RegionCount(c, joint)
    && |local| == |remote| && Distinct(local) && BlockPairing.Below(local, c.numBlocks)
  }

  /** Post i of t fills chunk i of every selected part. */
  ghost predicate FillsChunk(c: Caches, joint: bool, y: Layers, local: seq<nat>, remote: seq<nat>, t: nat, i: nat,
                             post: Post)
    requires Shared(c, joint, y, local, remote) && t > 0
  {
    && Covers(post.parts, y.numRegions)
    && CopiesPairs(post.copies, post.rank, y, ChunkPart(c, joint, t, i), post.parts, local, remote)
  }

  ghost predicate FillChunks(c: Caches, joint: bool, y: Layers, local: seq<nat>, remote: seq<nat>, posts: seq<Post>)
    requires Shared(c, joint, y, local, remote)
  {
    && |posts| > 0
    && forall i {:trigger FillsChunk(c, joint, y, local, remote, |posts|, i, posts[i])} | 0 <= i < |posts| ::
         FillsChunk(c, joint, y, local, remote, |posts|, i, posts[i])
  }

  /** The copies completed so far are exactly those of all posts, in any order. */
  ghost predicate AllDone(posts: seq<Post>, done: seq<Copy>) {
    forall c :: c in done <==> InSome(posts, c)
  }

  ghost predicate InSome(posts: seq<Post>, c: Copy) {
    exists i :: 0 <= i < |posts| && c in posts[i].copies
  }

  /** A byte of a chunk of a block belongs to no other chunk of any block. */
  lemma ChunksDisjoint(c: Caches, joint: bool, t: nat, r: nat, b: nat, i: nat, o: nat, x: nat,
                       r': nat, b': nat, i': nat, o': nat, x': nat)
    requires |c.bases| == |c.blockLens| && Separate(c) && t > 0
    requires r < RegionCount(c, joint) && b < c.numBlocks && ChunkByte(x, PartLen(c, joint, r), t, i, o)
    requires r' < RegionCount(c, joint) && b' < c.numBlocks && ChunkByte(x', PartLen(c, joint, r'), t, i', o')
    requires PartStart(c, joint, r, b) + x == PartStart(c, joint, r', b') + x'
    ensures r == r' && b == b' && i == i' && o == o'
  {
    ChunkByteWithin(x, PartLen(c, joint, r), t, i, o);
    ChunkByteWithin(x', PartLen(c, joint, r'), t, i', o');
    PartsDisjoint(c, joint, r, b, x, r', b', x');
    ChunkByteUnique(x, PartLen(c, joint, r), t, i, o, i', o');
  }

  /** The copy by which a post fills chunk i of the part (r, q). */
  function ChunkCopy(c: Caches, joint: bool, t: nat, local: seq<nat>, remote: seq<nat>, post: Post, r: nat, q: nat,
                     i: nat): Copy
    requires |c.bases| == |c.blockLens| && t > 0 && r < RegionCount(c, joint) && q < |local| == |remote|
    requires post.parts.requires(r, remote[q])
  {
    PairCopy(post.rank, ChunkPart(c, joint, t, i), post.parts, local, remote, r, q)
  }

  /** The byte of its part that a chunk's copy writes at address a. */
  lemma ChunkCopyByte(c: Caches, joint: bool, t: nat, local: seq<nat>, remote: seq<nat>, post: Post, r: nat, q: nat,
                      i: nat, a: int)
    returns (o: nat, x: nat)
    requires |c.bases| == |c.blockLens| && t > 0 && i < t && r < RegionCount(c, joint) && q < |local| == |remote|
    requires post.parts.requires(r, remote[q]) && Writes(ChunkCopy(c, joint, t, local, remote, post, r, q, i), a)
    ensures ChunkByte(x, PartLen(c, joint, r), t, i, o) && a == PartStart(c, joint, r, local[q]) + x
  {
    o := a - ChunkStart(c, joint, t, r, local[q], i);
    x := i * ChunkLen(c, joint, t, r) + o;
  }

  /** A chunk's copy writes its bytes, from the post's rank. */
  lemma ChunkCopyWrites(c: Caches, joint: bool, t: nat, local: seq<nat>, remote: seq<nat>, post: Post,
                        r: nat, q: nat, i: nat, o: nat, x: nat)
    requires |c.bases| == |c.blockLens| && t > 0 && r < RegionCount(c, joint) && q < |local| == |remote|
    requires post.parts.requires(r, remote[q]) && ChunkByte(x, PartLen(c, joint, r), t, i, o)
    ensures var d, a := ChunkCopy(c, joint, t, local, remote, post, r, q, i), PartStart(c, joint, r, local[q]) + x;
            Writes(d, a) && d.rank == post.rank && d.src + (a - d.dst) == post.parts(r, remote[q]).addr + o
  {}

  /** The chunk that one of the posted copies fills. */
  lemma ChunkOf(c: Caches, joint: bool, y: Layers, local: seq<nat>, remote: seq<nat>, posts: seq<Post>, d: Copy)
    returns (r: nat, q: nat, i: nat)
    requires Shared(c, joint, y, local, remote) && FillChunks(c, joint, y, local, remote, posts) && InSome(posts, d)
    ensures i < |posts| && Selected(y, |local|, r, q) && posts[i].parts.requires(r, remote[q])
    ensures d == ChunkCopy(c, joint, |posts|, local, remote, posts[i], r, q, i)
  {
    i :| 0 <= i < |posts| && d in posts[i].copies;
    assert FillsChunk(c, joint, y, local, remote, |posts|, i, posts[i]);
    r, q := PairOf(d, posts[i].rank, y, ChunkPart(c, joint, |posts|, i), posts[i].parts, local, remote);
  }

  /** Two of the posted copies that write the same address are the same copy. */
  lemma OneWriter(c: Caches, joint: bool, y: Layers, local: seq<nat>, remote: seq<nat>, posts: seq<Post>, d: Copy,
                  e: Copy, a: int)
    requires Shared(c, joint, y, local, remote) && FillChunks(c, joint, y, local, remote, posts)
    requires InSome(posts, d) && InSome(posts, e) && Writes(d, a) && Writes(e, a)
    ensures d == e
  {
    var t := |posts|;
    var r, q, i := ChunkOf(c, joint, y, local, remote, posts, d);
    var r', q', i' := ChunkOf(c, joint, y, local, remote, posts, e);
    var o, x := ChunkCopyByte(c, joint, t, local, remote, posts[i], r, q, i, a);
    var o', x' := ChunkCopyByte(c, joint, t, local, remote, posts[i'], r', q', i', a);
    ChunksDisjoint(c, joint, t, r, local[q], i, o, x, r', local[q'], i', o', x');
  }

  /** The reads of one request never write an address twice: they may complete in any order. */
  lemma GatherIsCompatible(c: Caches, joint: bool, y: Layers, local: seq<nat>, remote: seq<nat>, posts: seq<Post>,
                           done: seq<Copy>)
    requires Shared(c, joint, y, local, remote) && FillChunks(c, joint, y, local, remote, posts) && AllDone(posts, done)
    ensures Compatible(done)
  {
    forall d, e, a {:trigger Writes(d, a), Writes(e, a)} | d in done && e in done && Writes(d, a) && Writes(e, a)
      ensures d == e
    {
      OneWriter(c, joint, y, local, remote, posts, d, e, a);
    }
  }

  lemma ChunkPosted(c: Caches, joint: bool, y: Layers, local: seq<nat>, remote: seq<nat>, posts: seq<Post>, r: nat,
                    q: nat, i: nat)
    requires Shared(c, joint, y, local, remote) && FillChunks(c, joint, y, local, remote, posts)
    requires Selected(y, |local|, r, q) && i < |posts| && posts[i].parts.requires(r, remote[q])
    ensures InSome(posts, ChunkCopy(c, joint, |posts|, local, remote, posts[i], r, q, i))
  {
    assert FillsChunk(c, joint, y, local, remote, |posts|, i, posts[i]);
    assert ChunkCopy(c, joint, |posts|, local, remote, posts[i], r, q, i) in posts[i].copies;
  }

  /** Whatever order the reads complete in, chunk i of every selected part ends up with the bytes of the
      paired part of post i's rank. */
  lemma ChunkWritten(c: Caches, joint: bool, y: Layers, local: seq<nat>, remote: seq<nat>, posts: seq<Post>,
                     done: seq<Copy>, remotes: nat -> Memory, before: Memory, r: nat, q: nat, i: nat, o: nat, x: nat)
    requires Shared(c, joint, y, local, remote) && FillChunks(c, joint, y, local, remote, posts) && AllDone(posts, done)
    requires Selected(y, |local|, r, q) && ChunkByte(x, PartLen(c, joint, r), |posts|, i, o)
    requires posts[i].parts.requires(r, remote[q])
    ensures PerformAll(done, remotes, before)(PartStart(c, joint, r, local[q]) + x)
         == remotes(posts[i].rank)(posts[i].parts(r, remote[q]).addr + o)
  {
    var d, a := ChunkCopy(c, joint, |posts|, local, remote, posts[i], r, q, i), PartStart(c, joint, r, local[q]) + x;
    ChunkPosted(c, joint, y, local, remote, posts, r, q, i);
    ChunkCopyWrites(c, joint, |posts|, local, remote, posts[i], r, q, i, o, x);
    forall e | e in done && Writes(e, a)
      ensures e == d
    {
      OneWriter(c, joint, y, local, remote, posts, e, d, a);
    }
    Written(done, remotes, before, d, a);
  }

  /** Byte x of the part (r, q) lies in one of the chunks. */
  ghost predicate InAChunk(x: nat, len: nat, t: nat)
    requires t > 0
  {
    exists i: nat, o: nat :: ChunkByte(x, len, t, i, o)
  }

  /** Address a is a byte of the part (r, q) that lies in a chunk. */
  ghost predicate Filled(c: Caches, joint: bool, t: nat, local: seq<nat>, r: nat, q: nat, a: int)
    requires |c.bases| == |c.blockLens| && r < RegionCount(c, joint) && q < |local| && t > 0
  {
    var x := a - PartStart(c, joint, r, local[q]);
    x >= 0 && InAChunk(x, PartLen(c, joint, r), t)
  }

  /** Bytes outside the chunks of the selected parts keep their value. */
  lemma GatherFrame(c: Caches, joint: bool, y: Layers, local: seq<nat>, remote: seq<nat>, posts: seq<Post>,
                    done: seq<Copy>, remotes: nat -> Memory, before: Memory, a: int)
    requires Shared(c, joint, y, local, remote) && FillChunks(c, joint, y, local, remote, posts) && AllDone(posts, done)
    requires forall r: nat, q: nat | Selected(y, |local|, r, q) :: !Filled(c, joint, |posts|, local, r, q, a)
    ensures PerformAll(done, remotes, before)(a) == before(a)
  {
    forall d | d in done
      ensures !Writes(d, a)
    {
      var r, q, i := ChunkOf(c, joint, y, local, remote, posts, d);
      if Writes(d, a) {
        var o, x := ChunkCopyByte(c, joint, |posts|, local, remote, posts[i], r, q, i, a);
      }
    }
    Untouched(done, remotes, before, a);
  }

  // ----- the whole part -----

  /** The chunk that producer rank i fills is exactly as long as that rank's part of the block. */
  lemma ChunkIsRankPart(w: Local, p: Peer, r: nat, b: nat)
    requires Handshaken(w, p) && Gathers(w, p) && r < RegionCount(w.caches, w.joint)
    ensures RegionCount(p.caches, w.joint) == RegionCount(w.caches, w.joint) && -Ratio(w, p) > 0
    ensures PartLen(p.caches, w.joint, r) == ChunkLen(w.caches, w.joint, -Ratio(w, p), r)
    ensures PeerSlice(w, p)(r, b) == WholePart(p.caches, w.joint)(r, b)
  {
    PeerParts(w, p, r);
    assert SliceCount(w, p) == 1 && SliceIndex(w, p) == 0;
    assert PartLen(p.caches, w.joint, r) / 1 == PartLen(p.caches, w.joint, r);
  }

  /** Post i reads from peer i, one of |peers| that together hold this rank's heads. */
  ghost predicate PostedTo(w: Local, peers: seq<Peer>, posts: seq<Post>, i: nat)
    requires i < |peers| == |posts|
  {
    Handshaken(w, peers[i]) && Gathers(w, peers[i]) && -Ratio(w, peers[i]) == |peers|
      && posts[i].parts == PeerSlice(w, peers[i])
  }

  /** All reads of a request over these peers have completed, in some order. */
  ghost predicate Gathered(w: Local, peers: seq<Peer>, y: Layers, local: seq<nat>, remote: seq<nat>,
                           posts: seq<Post>, done: seq<Copy>) {
    && Shared(w.caches, w.joint, y, local, remote) && FillChunks(w.caches, w.joint, y, local, remote, posts)
    && AllDone(posts, done)
    && |peers| == |posts| && forall i | 0 <= i < |peers| :: PostedTo(w, peers, posts, i)
  }

  /** Chunk i holds producer rank i's part of the paired block. */
  lemma GatherIsByteExact(w: Local, peers: seq<Peer>, y: Layers, local: seq<nat>, remote: seq<nat>, posts: seq<Post>,
                          done: seq<Copy>, remotes: nat -> Memory, before: Memory,
                          r: nat, q: nat, i: nat, o: nat, x: nat)
    requires Gathered(w, peers, y, local, remote, posts, done) && i < |posts| && PostedTo(w, peers, posts, i)
    requires Selected(y, |local|, r, q) && ChunkByte(x, PartLen(w.caches, w.joint, r), |posts|, i, o)
    ensures RegionCount(peers[i].caches, w.joint) == RegionCount(w.caches, w.joint)
            && o < PartLen(peers[i].caches, w.joint, r)
    ensures PerformAll(done, remotes, before)(PartStart(w.caches, w.joint, r, local[q]) + x)
         == remotes(posts[i].rank)(PartStart(peers[i].caches, w.joint, r, remote[q]) + o)
  {
    ChunkIsRankPart(w, peers[i], r, remote[q]);
    ChunkWritten(w.caches, w.joint, y, local, remote, posts, done, remotes, before, r, q, i, o, x);
  }

  /** Byte x of a chunked part is byte x % chunk of chunk x / chunk. */
  lemma ChunkByteAt(x: nat, len: nat, t: nat, chunk: nat)
    requires t > 0 && chunk == len / t && chunk > 0
    ensures x / chunk < t ==> ChunkByte(x, len, t, x / chunk, x % chunk)
    ensures InAChunk(x, len, t) ==> x / chunk < t
  {
    assert x == (x / chunk) * chunk + x % chunk;
    if i: nat, o: nat :| ChunkByte(x, len, t, i, o) {
      Unique(i, o, x / chunk, x % chunk, chunk);
    }
  }

  /** The chunks cover every byte of a part iff the number of ranks divides its length. */
  lemma ChunksCover(len: nat, t: nat)
    requires t > 0
    ensures (forall x: nat | x < len :: InAChunk(x, len, t)) <==> len % t == 0
  {
    var chunk := len / t;
    assert len == t * chunk + len % t;
    if len % t == 0 {
      forall x: nat | x < len
        ensures InAChunk(x, len, t)
      {
        var i, o := Split(x, t, chunk);
        assert ChunkByte(x, len, t, i, o);
      }
    } else {
      var x := t * chunk;
      forall i: nat, o: nat
        ensures !ChunkByte(x, len, t, i, o)
      {
        if ChunkByte(x, len, t, i, o) {
          ChunkByteWithin(x, len, t, i, o);
        }
      }
      assert x < len && !InAChunk(x, len, t);
    }
  }

  /** Byte x of the part (r, q) is the byte of the rank whose turn it is, in rank order. */
  ghost predicate Assembled(w: Local, peers: seq<Peer>, local: seq<nat>, remote: seq<nat>, posts: seq<Post>,
                            after: Memory, remotes: nat -> Memory, r: nat, q: nat, x: nat)
    requires |w.caches.bases| == |w.caches.blockLens| && r < RegionCount(w.caches, w.joint) && q < |local| == |remote|
    requires 0 < |peers| == |posts|
    requires forall p | p in peers :: |p.caches.bases| == |p.caches.blockLens| && r < RegionCount(p.caches, w.joint)
  {
    var chunk := ChunkLen(w.caches, w.joint, |posts|, r);
    && chunk > 0 && x / chunk < |posts|
    && after(PartStart(w.caches, w.joint, r, local[q]) + x)
       == remotes(posts[x / chunk].rank)(PartStart(peers[x / chunk].caches, w.joint, r, remote[q]) + x % chunk)
  }

  lemma PeersHaveRegion(w: Local, peers: seq<Peer>, posts: seq<Post>, r: nat)
    requires |peers| == |posts| && (forall i | 0 <= i < |peers| :: PostedTo(w, peers, posts, i))
        && r < RegionCount(w.caches, w.joint)
    ensures forall p | p in peers :: |p.caches.bases| == |p.caches.blockLens| && r < RegionCount(p.caches, w.joint)
  {
    forall i | 0 <= i < |peers|
      ensures |peers[i].caches.bases| == |peers[i].caches.blockLens| && r < RegionCount(peers[i].caches, w.joint)
    {
      assert PostedTo(w, peers, posts, i);
      PeerParts(w, peers[i], r);
    }
  }

  lemma AssembledByte(w: Local, peers: seq<Peer>, y: Layers, local: seq<nat>, remote: seq<nat>, posts: seq<Post>,
                      done: seq<Copy>, remotes: nat -> Memory, before: Memory, r: nat, q: nat, x: nat, chunk: nat)
    requires Gathered(w, peers, y, local, remote, posts, done) && Selected(y, |local|, r, q)
    requires forall p | p in peers :: |p.caches.bases| == |p.caches.blockLens| && r < RegionCount(p.caches, w.joint)
    requires chunk == ChunkLen(w.caches, w.joint, |posts|, r) > 0 && x / chunk < |posts|
    requires ChunkByte(x, PartLen(w.caches, w.joint, r), |posts|, x / chunk, x % chunk)
    ensures Assembled(w, peers, local, remote, posts, PerformAll(done, remotes, before), remotes, r, q, x)
  {
    assert PostedTo(w, peers, posts, x / chunk);
    GatherIsByteExact(w, peers, y, local, remote, posts, done, remotes, before, r, q, x / chunk, x % chunk, x);
  }

  /** A byte is assembled exactly if it lies in a chunk. */
  lemma GatheredByte(w: Local, peers: seq<Peer>, y: Layers, local: seq<nat>, remote: seq<nat>, posts: seq<Post>,
                     done: seq<Copy>, remotes: nat -> Memory, before: Memory, r: nat, q: nat, x: nat, chunk: nat)
    requires Gathered(w, peers, y, local, remote, posts, done) && Selected(y, |local|, r, q)
    requires forall p | p in peers :: |p.caches.bases| == |p.caches.blockLens| && r < RegionCount(p.caches, w.joint)
    requires chunk == ChunkLen(w.caches, w.joint, |posts|, r)
    ensures InAChunk(x, PartLen(w.caches, w.joint, r), |posts|)
            <==> Assembled(w, peers, local, remote, posts, PerformAll(done, remotes, before), remotes, r, q, x)
  {
    if chunk > 0 {
      ChunkByteAt(x, PartLen(w.caches, w.joint, r), |posts|, chunk);
      if x / chunk < |posts| {
        AssembledByte(w, peers, y, local, remote, posts, done, remotes, before, r, q, x, chunk);
      }
    }
  }

  ghost predicate AllAssembled(w: Local, peers: seq<Peer>, local: seq<nat>, remote: seq<nat>, posts: seq<Post>,
                               after: Memory, remotes: nat -> Memory, r: nat, q: nat)
    requires |w.caches.bases| == |w.caches.blockLens| && r < RegionCount(w.caches, w.joint) && q < |local| == |remote|
    requires 0 < |peers| == |posts|
    requires forall p | p in peers :: |p.caches.bases| == |p.caches.blockLens| && r < RegionCount(p.caches, w.joint)
  {
    forall x: nat | x < PartLen(w.caches, w.joint, r) ::
      Assembled(w, peers, local, remote, posts, after, remotes, r, q, x)
  }

  lemma AssembledIff(w: Local, peers: seq<Peer>, y: Layers, local: seq<nat>, remote: seq<nat>, posts: seq<Post>,
                     done: seq<Copy>, remotes: nat -> Memory, before: Memory, r: nat, q: nat)
    requires Gathered(w, peers, y, local, remote, posts, done) && Selected(y, |local|, r, q)
    requires forall p | p in peers :: |p.caches.bases| == |p.caches.blockLens| && r < RegionCount(p.caches, w.joint)
    ensures AllAssembled(w, peers, local, remote, posts, PerformAll(done, remotes, before), remotes, r, q)
            <==> PartLen(w.caches, w.joint, r) % |posts| == 0
  {
    var after, len, t := PerformAll(done, remotes, before), PartLen(w.caches, w.joint, r), |posts|;
    ChunksCover(len, t);
    forall x: nat | x < len
      ensures InAChunk(x, len, t) <==> Assembled(w, peers, local, remote, posts, after, remotes, r, q, x)
    {
      GatheredByte(w, peers, y, local, remote, posts, done, remotes, before, r, q, x,
                   ChunkLen(w.caches, w.joint, t, r));
    }
    if len % t != 0 {
      var x: nat :| x < len && !InAChunk(x, len, t);
      assert !Assembled(w, peers, local, remote, posts, after, remotes, r, q, x);
    } else {
      forall x: nat | x < len ensures Assembled(w, peers, local, remote, posts, after, remotes, r, q, x) {
        assert InAChunk(x, len, t);
      }
    }
  }

  predicate Kept(c: Caches, joint: bool, local: seq<nat>, after: Memory, before: Memory, r: nat, q: nat, x: nat)
    requires |c.bases| == |c.blockLens| && r < RegionCount(c, joint) && q < |local|
  {
    after(PartStart(c, joint, r, local[q]) + x) == before(PartStart(c, joint, r, local[q]) + x)
  }

  lemma TrailingByte(c: Caches, joint: bool, y: Layers, local: seq<nat>, remote: seq<nat>, posts: seq<Post>,
                     done: seq<Copy>, remotes: nat -> Memory, before: Memory, r: nat, q: nat, x: nat)
    requires Shared(c, joint, y, local, remote) && FillChunks(c, joint, y, local, remote, posts) && AllDone(posts, done)
    requires Selected(y, |local|, r, q) && |posts| * (PartLen(c, joint, r) / |posts|) <= x < PartLen(c, joint, r)
    ensures Kept(c, joint, local, PerformAll(done, remotes, before), before, r, q, x)
  {
    var a := PartStart(c, joint, r, local[q]) + x;
    forall r': nat, q': nat | Selected(y, |local|, r', q')
      ensures !Filled(c, joint, |posts|, local, r', q', a)
    {
      if Filled(c, joint, |posts|, local, r', q', a) {
        var x' := a - PartStart(c, joint, r', local[q']);
        var i: nat, o: nat :| ChunkByte(x', PartLen(c, joint, r'), |posts|, i, o);
        ChunkByteWithin(x', PartLen(c, joint, r'), |posts|, i, o);
        PartsDisjoint(c, joint, r, local[q], x, r', local[q'], x');
      }
    }
    GatherFrame(c, joint, y, local, remote, posts, done, remotes, before, a);
  }

  /** Final memory is the rank-ordered assembly of the paired remote blocks, for every byte of every
      selected part, exactly when the number of ranks divides the part's length; otherwise the bytes
      after the last chunk are not written at all. The handshake accepts both. */
  lemma GatherIsWhole(w: Local, peers: seq<Peer>, y: Layers, local: seq<nat>, remote: seq<nat>, posts: seq<Post>,
                      done: seq<Copy>, remotes: nat -> Memory, before: Memory, r: nat, q: nat)
    requires Gathered(w, peers, y, local, remote, posts, done) && Selected(y, |local|, r, q)
    ensures forall p | p in peers :: |p.caches.bases| == |p.caches.blockLens| && r < RegionCount(p.caches, w.joint)
    ensures var after, len := PerformAll(done, remotes, before), PartLen(w.caches, w.joint, r);
            && (AllAssembled(w, peers, local, remote, posts, after, remotes, r, q) <==> len % |posts| == 0)
            && (forall x: nat | |posts| * (len / |posts|) <= x < len ::
                  Kept(w.caches, w.joint, local, after, before, r, q, x))
  {
    PeersHaveRegion(w, peers, posts, r);
    AssembledIff(w, peers, y, local, remote, posts, done, remotes, before, r, q);
    var len, t := PartLen(w.caches, w.joint, r), |posts|;
    forall x: nat | t * (len / t) <= x < len
      ensures Kept(w.caches, w.joint, local, PerformAll(done, remotes, before), before, r, q, x)
    {
      TrailingByte(w.caches, w.joint, y, local, remote, posts, done, remotes, before, r, q, x);
    }
  }
}
