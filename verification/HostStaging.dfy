/** Chunked prefill and the copies of its blocks to the host buffer: each chunk copies only the blocks that
    became allocated with it. Positions are tokens; token t of a request is in slot t % blockSize of its
    block number t / blockSize. */
module HostStaging {
  import opened Wrappers
  import opened BlockPairing

  /** A KV cache: the value at a block id and a slot. */
  type Cache = (nat, nat) -> int

  /** A request's prefill: its blocks, the tokens already computed, and where each chunk ends. */
  datatype Prefill = Prefill(blockSize: nat, blocks: seq<nat>, computed: nat, ends: seq<nat>)

  function Ceil(x: nat, blockSize: nat): nat
    requires blockSize > 0
  {
    (x + blockSize - 1) / blockSize
  }

  function Prompt(p: Prefill): nat
    requires p.ends != []
  {
    p.ends[|p.ends| - 1]
  }

  ghost predicate Valid(p: Prefill) {
    && p.blockSize > 0 && p.ends != [] && Distinct(p.blocks)
    && p.computed < p.ends[0] && (forall i, j | 0 <= i < j < |p.ends| :: p.ends[i] < p.ends[j])
    && |p.blocks| == Ceil(Prompt(p), p.blockSize)
  }

  /** Every chunk but the last ends on a block boundary. */
  ghost predicate Aligned(p: Prefill)
    requires p.blockSize > 0
  {
    forall k | 0 <= k < |p.ends| - 1 :: p.ends[k] % p.blockSize == 0
  }

  function ChunkStart(p: Prefill, k: nat): nat
    requires k < |p.ends|
  {
    if k == 0 then p.computed else p.ends[k - 1]
  }

  /** Number of the request's first block that is new in chunk k; the first chunk brings the cached
      blocks along. */
  function FirstNew(p: Prefill, k: nat): nat
    requires p.blockSize > 0 && k < |p.ends|
  {
    if k == 0 then 0 else Ceil(p.ends[k - 1], p.blockSize)
  }

  /** The block ids the scheduler output reports as new, None when a later chunk needs no new block. */
  function NewBlocks(p: Prefill, k: nat): Option<seq<nat>>
    requires Valid(p) && k < |p.ends|
  {
    NewBlocksInRange(p, k);
    var ids := p.blocks[FirstNew(p, k)..Ceil(p.ends[k], p.blockSize)];
    if k > 0 && ids == [] then None else Some(ids)
  }

  lemma InCeil(i: nat, x: nat, blockSize: nat)
    requires blockSize > 0
    ensures i < Ceil(x, blockSize) <==> i * blockSize < x
  {
    var c := Ceil(x, blockSize);
    if i < c {
      Grid.LaterRow(i + 1, c, blockSize);
      assert c * blockSize <= x + blockSize - 1;
    } else {
      Grid.LaterRow(c, i, blockSize);
      assert c * blockSize >= x;
    }
  }

  lemma CeilMonotone(x: nat, y: nat, blockSize: nat)
    requires blockSize > 0 && x <= y
    ensures Ceil(x, blockSize) <= Ceil(y, blockSize)
  {
    var c := Ceil(x, blockSize);
    if c > 0 {
      InCeil(c - 1, x, blockSize);
      InCeil(c - 1, y, blockSize);
    }
  }

  lemma NewBlocksInRange(p: Prefill, k: nat)
    requires Valid(p) && k < |p.ends|
    ensures FirstNew(p, k) <= Ceil(p.ends[k], p.blockSize) <= |p.blocks|
  {
    CeilMonotone(p.ends[k], Prompt(p), p.blockSize);
    if k > 0 { CeilMonotone(p.ends[k - 1], p.ends[k], p.blockSize); }
  }

  // ----- one chunk -----

  function PositionOf(blocks: seq<nat>, b: nat): Option<nat> {
    if blocks == [] then None
    else if blocks[|blocks| - 1] == b then Some(|blocks| - 1)
    else PositionOf(blocks[..|blocks| - 1], b)
  }

  /** The forward pass writes the KV of tokens a, ..., b - 1. */
  function Compute(p: Prefill, d: Cache, kv: nat -> int, a: nat, b: nat): Cache {
    (id: nat, slot: nat) =>
      match PositionOf(p.blocks, id)
      case Some(i) =>
        if slot < p.blockSize && a <= i * p.blockSize + slot < b then kv(i * p.blockSize + slot) else d(id, slot)
      case None => d(id, slot)
  }

  /** `copy_blocks(..., "d2h")`. */
  function CopyToHost(d: Cache, h: Cache, ids: seq<nat>): Cache {
    (id: nat, slot: nat) => if id in ids then d(id, slot) else h(id, slot)
  }

  /** The caches, and whether the request is still in `_reqs_need_save`. */
  datatype Staging = Staging(device: Cache, host: Cache, needSave: bool)

  /** Chunk k: compute, then save the new blocks; the save of the last chunk removes the request. */
  function ChunkDone(p: Prefill, s: Staging, kv: nat -> int, k: nat): Staging
    requires Valid(p) && k < |p.ends|
  {
    var d := Compute(p, s.device, kv, ChunkStart(p, k), p.ends[k]);
    if !s.needSave || NewBlocks(p, k).None? then s.(device := d)
    else Staging(d, CopyToHost(d, s.host, NewBlocks(p, k).value), p.ends[k] < Prompt(p))
  }

  function After(p: Prefill, device: Cache, host: Cache, kv: nat -> int, k: nat): Staging
    requires Valid(p) && k <= |p.ends|
  {
    if k == 0 then Staging(device, host, true) else ChunkDone(p, After(p, device, host, kv, k - 1), kv, k - 1)
  }

  /** The host buffer agrees with the device on the first n blocks of the request. */
  ghost predicate Agree(p: Prefill, s: Staging, n: nat)
    requires n <= |p.blocks|
  {
    forall i, slot: nat | 0 <= i < n :: s.host(p.blocks[i], slot) == s.device(p.blocks[i], slot)
  }

  /** After the last chunk the request was removed and the host holds all its blocks. */
  ghost predicate Complete(p: Prefill, device: Cache, host: Cache, kv: nat -> int)
    requires Valid(p)
  {
    var s := After(p, device, host, kv, |p.ends|);
    !s.needSave && Agree(p, s, |p.blocks|)
  }

  // ----- proofs -----

  lemma {:induction false} PositionIs(blocks: seq<nat>, i: nat)
    requires Distinct(blocks) && i < |blocks|
    ensures PositionOf(blocks, blocks[i]) == Some(i)
  {
    if i < |blocks| - 1 {
      PositionIs(blocks[..|blocks| - 1], i);
    }
  }

  lemma SavedIffInRange(p: Prefill, k: nat, i: nat)
    requires Valid(p) && k < |p.ends| && i < |p.blocks|
    ensures NewBlocks(p, k).Some? ==>
              (p.blocks[i] in NewBlocks(p, k).value <==> FirstNew(p, k) <= i < Ceil(p.ends[k], p.blockSize))
  {
    NewBlocksInRange(p, k);
    var lo, hi := FirstNew(p, k), Ceil(p.ends[k], p.blockSize);
    if lo <= i < hi {
      assert p.blocks[lo..hi][i - lo] == p.blocks[i];
    }
  }

  lemma OnBoundary(x: nat, blockSize: nat)
    requires blockSize > 0 && x % blockSize == 0
    ensures Ceil(x, blockSize) * blockSize == x
  {
    var q := x / blockSize;
    assert q * blockSize == x;
    InCeil(q, x, blockSize);
    if q > 0 {
      Grid.LaterRow(q - 1, q, blockSize);
      InCeil(q - 1, x, blockSize);
    }
  }

  lemma BeyondBoundary(x: nat, y: nat, blockSize: nat)
    requires blockSize > 0 && x % blockSize == 0 && x < y
    ensures Ceil(x, blockSize) < Ceil(y, blockSize)
  {
    OnBoundary(x, blockSize);
    InCeil(Ceil(x, blockSize), y, blockSize);
  }

  /** A chunk that starts on a block boundary leaves the earlier blocks alone and needs a new one. */
  lemma AlignedChunk(p: Prefill, k: nat)
    requires Valid(p) && Aligned(p) && k < |p.ends|
    ensures FirstNew(p, k) < Ceil(p.ends[k], p.blockSize) && NewBlocks(p, k).Some?
    ensures k > 0 ==> FirstNew(p, k) * p.blockSize == ChunkStart(p, k)
  {
    NewBlocksInRange(p, k);
    if k == 0 {
      InCeil(0, p.ends[0], p.blockSize);
    } else {
      OnBoundary(p.ends[k - 1], p.blockSize);
      BeyondBoundary(p.ends[k - 1], p.ends[k], p.blockSize);
    }
  }

  /** The tokens of a chunk that starts on a block boundary are in new blocks only. */
  lemma OldBlockKept(p: Prefill, d: Cache, kv: nat -> int, k: nat, i: nat, slot: nat)
    requires Valid(p) && Aligned(p) && k < |p.ends| && i < FirstNew(p, k) && i < |p.blocks|
    ensures Compute(p, d, kv, ChunkStart(p, k), p.ends[k])(p.blocks[i], slot) == d(p.blocks[i], slot)
  {
    PositionIs(p.blocks, i);
    if slot < p.blockSize {
      AlignedChunk(p, k);
      Grid.Below(i, slot, FirstNew(p, k), p.blockSize);
    }
  }

  /** Chunk k keeps the blocks of before in agreement and brings its new ones into agreement. */
  lemma BlockAgrees(p: Prefill, s: Staging, kv: nat -> int, k: nat, i: nat, slot: nat)
    requires Valid(p) && Aligned(p) && k < |p.ends| && s.needSave
    requires i < Ceil(p.ends[k], p.blockSize) <= |p.blocks|
    requires i < FirstNew(p, k) ==> s.host(p.blocks[i], slot) == s.device(p.blocks[i], slot)
    ensures ChunkDone(p, s, kv, k).host(p.blocks[i], slot) == ChunkDone(p, s, kv, k).device(p.blocks[i], slot)
  {
    AlignedChunk(p, k);
    SavedIffInRange(p, k, i);
    if i < FirstNew(p, k) { OldBlockKept(p, s.device, kv, k, i, slot); }
  }

  lemma ChunkAgrees(p: Prefill, s: Staging, kv: nat -> int, k: nat)
    requires Valid(p) && Aligned(p) && k < |p.ends| && s.needSave && Ceil(p.ends[k], p.blockSize) <= |p.blocks|
    requires FirstNew(p, k) <= |p.blocks| && Agree(p, s, FirstNew(p, k))
    ensures Agree(p, ChunkDone(p, s, kv, k), Ceil(p.ends[k], p.blockSize))
  {
    var s' := ChunkDone(p, s, kv, k);
    forall i: nat, slot: nat | i < Ceil(p.ends[k], p.blockSize)
      ensures s'.host(p.blocks[i], slot) == s'.device(p.blocks[i], slot)
    {
      BlockAgrees(p, s, kv, k, i, slot);
    }
  }

  lemma {:induction false} AlignedAgrees(p: Prefill, device: Cache, host: Cache, kv: nat -> int, k: nat)
    requires Valid(p) && Aligned(p) && 0 < k <= |p.ends|
    ensures Ceil(p.ends[k - 1], p.blockSize) <= |p.blocks|
    ensures var s := After(p, device, host, kv, k);
            s.needSave == (k < |p.ends|) && Agree(p, s, Ceil(p.ends[k - 1], p.blockSize))
  {
    NewBlocksInRange(p, k - 1);
    AlignedChunk(p, k - 1);
    if k > 1 { AlignedAgrees(p, device, host, kv, k - 1); }
    ChunkAgrees(p, After(p, device, host, kv, k - 1), kv, k - 1);
  }

  /** Token t is in slot `slot` of block i. */
  predicate TokenAt(p: Prefill, t: nat, i: nat, slot: nat) {
    i < |p.blocks| && slot < p.blockSize && t == i * p.blockSize + slot
  }

  lemma {:induction false} DeviceHolds(p: Prefill, device: Cache, host: Cache, kv: nat -> int, k: nat, i: nat,
                                       slot: nat, t: nat)
    requires Valid(p) && 0 < k <= |p.ends| && TokenAt(p, t, i, slot) && p.computed <= t < p.ends[k - 1]
    ensures After(p, device, host, kv, k).device(p.blocks[i], slot) == kv(t)
  {
    PositionIs(p.blocks, i);
    if t < ChunkStart(p, k - 1) {
      DeviceHolds(p, device, host, kv, k - 1, i, slot, t);
    }
  }

  /** A slot whose token is not computed yet holds what it held before, and so does its host copy. */
  lemma {:induction false} NotYet(p: Prefill, device: Cache, host: Cache, kv: nat -> int, k: nat, i: nat, slot: nat,
                                  t: nat)
    requires Valid(p) && k <= |p.ends| && TokenAt(p, t, i, slot) && (k > 0 ==> p.ends[k - 1] <= t)
    requires device(p.blocks[i], slot) == host(p.blocks[i], slot)
    ensures var s := After(p, device, host, kv, k);
            s.device(p.blocks[i], slot) == s.host(p.blocks[i], slot) == host(p.blocks[i], slot)
  {
    if k > 0 {
      PositionIs(p.blocks, i);
      NotYet(p, device, host, kv, k - 1, i, slot, t);
    }
  }

  /** A block allocated with chunk m or before is not copied again later. */
  lemma {:induction false} NotCopiedAgain(p: Prefill, device: Cache, host: Cache, kv: nat -> int, m: nat, k: nat,
                                          i: nat, slot: nat)
    requires Valid(p) && m < k <= |p.ends| && i < |p.blocks| && i < Ceil(p.ends[m], p.blockSize)
    ensures After(p, device, host, kv, k).host(p.blocks[i], slot)
            == After(p, device, host, kv, m + 1).host(p.blocks[i], slot)
  {
    if k > m + 1 {
      NotCopiedAgain(p, device, host, kv, m, k - 1, i, slot);
      SavedIffInRange(p, k - 1, i);
      CeilMonotone(p.ends[m], p.ends[k - 2], p.blockSize);
    }
  }

  lemma EndsInside(p: Prefill, k: nat, i: nat, slot: nat)
    requires Valid(p) && k < |p.ends| - 1 && slot > 0
    requires i == p.ends[k] / p.blockSize && slot == p.ends[k] % p.blockSize
    ensures i < Ceil(p.ends[k], p.blockSize) && TokenAt(p, p.ends[k], i, slot)
  {
    assert p.ends[k] == i * p.blockSize + slot;
    InCeil(i, p.ends[k], p.blockSize);
    CeilMonotone(p.ends[k], Prompt(p), p.blockSize);
  }

  /** The slot after such a chunk's last token is computed later, but never copied again. */
  lemma StaysStale(p: Prefill, zero: Cache, kv: nat -> int, k: nat, i: nat, slot: nat)
    requires Valid(p) && k < |p.ends| - 1 && i < Ceil(p.ends[k], p.blockSize) && TokenAt(p, p.ends[k], i, slot)
    ensures var s := After(p, zero, zero, kv, |p.ends|);
            s.host(p.blocks[i], slot) == zero(p.blocks[i], slot) && s.device(p.blocks[i], slot) == kv(p.ends[k])
  {
    NotYet(p, zero, zero, kv, k + 1, i, slot, p.ends[k]);
    NotCopiedAgain(p, zero, zero, kv, k, |p.ends|, i, slot);
    DeviceHolds(p, zero, zero, kv, |p.ends|, i, slot, p.ends[k]);
  }

  /** A chunk that ends inside a block leaves the rest of that block stale in the host buffer. */
  lemma UnalignedIsIncomplete(p: Prefill, k: nat)
    requires Valid(p) && k < |p.ends| - 1 && p.ends[k] % p.blockSize != 0
    ensures !Complete(p, (id: nat, slot: nat) => 0, (id: nat, slot: nat) => 0, (t: nat) => 1)
  {
    var i, slot := p.ends[k] / p.blockSize, p.ends[k] % p.blockSize;
    EndsInside(p, k, i, slot);
    StaysStale(p, (id: nat, slot: nat) => 0, (t: nat) => 1, k, i, slot);
  }

  /** Whatever the KV values and the caches' contents: the request is removed by its last chunk and the host
      buffer then agrees with the device on all its blocks, exactly when every chunk but the last ends on
      a block boundary. */
  lemma StagingCompleteIffAligned(p: Prefill)
    requires Valid(p)
    ensures (forall device: Cache, host: Cache, kv: nat -> int :: Complete(p, device, host, kv)) <==> Aligned(p)
  {
    if Aligned(p) {
      forall device: Cache, host: Cache, kv: nat -> int ensures Complete(p, device, host, kv) {
        AlignedAgrees(p, device, host, kv, |p.ends|);
      }
    } else {
      var k :| 0 <= k < |p.ends| - 1 && p.ends[k] % p.blockSize != 0;
      UnalignedIsIncomplete(p, k);
    }
  }
}
