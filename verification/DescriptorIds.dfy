/** Numbers of the descriptors that a READ selects: region by region (or layer by layer when layers
    have attention windows), block by block. */
module DescriptorIds {
  import opened Grid
  import opened Wrappers

  /** How the regions are grouped into layers, and each layer's window in blocks (empty: no windows). */
  datatype Layers = Layers(numRegions: nat, numLayers: nat, windows: seq<Option<nat>>)

  /** What the assertions of `_get_block_descs_ids` and `register_kv_caches` require of windowed layers. */
  predicate LayersOk(y: Layers) {
    y.windows == [] || (|y.windows| == y.numLayers && (y.numLayers == y.numRegions || 2 * y.numLayers == y.numRegions))
  }

  /** Regions of one layer: its K and its V region, or its only region. */
  function PerLayer(y: Layers): nat {
    if y.numLayers < y.numRegions then 2 else 1
  }

  /** Number of the descriptor of block b in region r. */
  function DescId(r: nat, numBlocks: nat, b: nat): nat {
    r * numBlocks + b
  }

  function IdAt(lo: nat, numBlocks: nat, blocks: seq<nat>): (nat, nat) --> nat {
    (r: nat, p: nat) requires p < |blocks| => DescId(lo + r, numBlocks, blocks[p])
  }

  /** `_get_block_descs_ids` for the regions lo, ..., hi - 1. */
  function GetBlockDescsIds(lo: nat, hi: nat, numBlocks: nat, blocks: seq<nat>): seq<nat>
    requires lo <= hi
  {
    Flat(hi - lo, |blocks|, IdAt(lo, numBlocks, blocks))
  }

  // ----- which (region, position) pairs are read, and in what order -----

  /** Start of the Python slice [-window:] of a list of m entries. */
  function FirstOf(window: Option<nat>, m: nat): nat {
    match window
    case None => 0
    case Some(w) => if w == 0 || w >= m then 0 else m - w
  }

  function PairAt(lo: nat, first: nat): (nat, nat) -> (nat, nat) {
    (r: nat, p: nat) => (lo + r, first + p)
  }

  function PairsOf(lo: nat, hi: nat, first: nat, m: nat): seq<(nat, nat)>
    requires lo <= hi && first <= m
  {
    Flat(hi - lo, m - first, PairAt(lo, first))
  }

  function LayerPairs(y: Layers, m: nat, l: nat): seq<(nat, nat)>
    requires l < |y.windows|
  {
    PairsOf(PerLayer(y) * l, PerLayer(y) * (l + 1), FirstOf(y.windows[l], m), m)
  }

  function PairsUpTo(y: Layers, m: nat, l: nat): seq<(nat, nat)>
    requires l <= |y.windows|
  {
    if l == 0 then [] else PairsUpTo(y, m, l - 1) + LayerPairs(y, m, l - 1)
  }

  /** All pairs of one READ of m block pairs. */
  function Pairs(y: Layers, m: nat): seq<(nat, nat)> {
    if y.windows == [] then PairsOf(0, y.numRegions, 0, m) else PairsUpTo(y, m, |y.windows|)
  }

  /** The layer of region r, where a layer is one region or a K region followed by a V region. */
  function LayerAt(y: Layers, r: nat): nat {
    if y.numLayers == y.numRegions then r else r / 2
  }

  /** Position p is one of the last positions that the window keeps; an empty window keeps them all. */
  predicate InWindow(window: Option<nat>, m: nat, p: nat) {
    match window
    case None => true
    case Some(w) => w == 0 || m <= p + w
  }

  /** The pair (region, position) takes part in the READ. */
  predicate Selected(y: Layers, m: nat, r: nat, p: nat) {
    && r < y.numRegions && p < m
    && (y.windows != [] ==> LayerAt(y, r) < |y.windows| && InWindow(y.windows[LayerAt(y, r)], m, p))
  }

  lemma PairsOfMember(lo: nat, hi: nat, first: nat, m: nat, r: nat, p: nat)
    requires lo <= hi && first <= m
    ensures (r, p) in PairsOf(lo, hi, first, m) <==> lo <= r < hi && first <= p < m
  {
    if lo <= r < hi && first <= p < m {
      FlatHas(hi - lo, m - first, PairAt(lo, first), r - lo, p - first);
    }
    if (r, p) in PairsOf(lo, hi, first, m) {
      var r', p' := FlatFrom(hi - lo, m - first, PairAt(lo, first), (r, p));
    }
  }

  /** With one or two regions per layer, region r belongs to layer r / n. */
  lemma LayerOf(r: nat, n: nat, l: nat)
    requires 1 <= n <= 2
    ensures n * l <= r < n * (l + 1) <==> r / n == l
    ensures n * l <= n * (l + 1)
  {
    if n == 1 {
      assert r / n == r;
    }
  }

  lemma LayerPairsMember(y: Layers, m: nat, l: nat, r: nat, p: nat)
    requires l < |y.windows|
    ensures (r, p) in LayerPairs(y, m, l) <==> r / PerLayer(y) == l && FirstOf(y.windows[l], m) <= p < m
  {
    LayerOf(r, PerLayer(y), l);
    PairsOfMember(PerLayer(y) * l, PerLayer(y) * (l + 1), FirstOf(y.windows[l], m), m, r, p);
  }

  lemma {:induction false} PairsUpToMember(y: Layers, m: nat, l: nat, r: nat, p: nat)
    requires l <= |y.windows|
    ensures (r, p) in PairsUpTo(y, m, l) <==> r / PerLayer(y) < l && FirstOf(y.windows[r / PerLayer(y)], m) <= p < m
  {
    if l > 0 {
      PairsUpToMember(y, m, l - 1, r, p);
      LayerPairsMember(y, m, l - 1, r, p);
    }
  }

  lemma FirstInWindow(window: Option<nat>, m: nat, p: nat)
    requires p < m
    ensures FirstOf(window, m) <= p <==> InWindow(window, m, p)
  {}

  /** A READ touches exactly the selected pairs. */
  lemma PairsAreSelected(y: Layers, m: nat, r: nat, p: nat)
    requires LayersOk(y)
    ensures (r, p) in Pairs(y, m) <==> Selected(y, m, r, p)
  {
    if y.windows == [] {
      PairsOfMember(0, y.numRegions, 0, m, r, p);
    } else {
      PairsUpToMember(y, m, |y.windows|, r, p);
      if r < y.numRegions && p < m {
        FirstInWindow(y.windows[LayerAt(y, r)], m, p);
      }
    }
  }

  /** What a READ of m block pairs touches: in a region whose layer has no window, or an empty one, every
      position; in a region whose layer has a window of w > 0 blocks, the last w positions. */
  lemma WindowIs(y: Layers, m: nat, r: nat, p: nat)
    requires LayersOk(y)
    ensures var l := if y.numLayers == y.numRegions then r else r / 2;
            (r, p) in Pairs(y, m)
            <==> && r < y.numRegions && p < m
                 && (y.windows == [] || y.windows[l] == None || y.windows[l] == Some(0)
                     || m - y.windows[l].value <= p)
  {
    PairsAreSelected(y, m, r, p);
  }

  function Last(w: nat, m: nat): (s: set<nat>)
    ensures |s| == (if w <= m then w else m) && forall p: nat :: p in s <==> p < m && m <= p + w
    decreases w
  {
    if w == 0 then {} else if w > m then Last(w - 1, m) else Last(w - 1, m) + {m - w}
  }

  /** A layer with a window of w > 0 blocks selects min(w, m) positions in each of its regions. */
  lemma WindowKeeps(y: Layers, m: nat, r: nat, w: nat)
    requires LayersOk(y) && y.windows != [] && r < y.numRegions && w > 0
    requires y.windows[if y.numLayers == y.numRegions then r else r / 2] == Some(w)
    ensures |set p: nat | p < m && (r, p) in Pairs(y, m)| == if w <= m then w else m
  {
    forall p: nat | p < m
      ensures (r, p) in Pairs(y, m) <==> m <= p + w
    {
      WindowIs(y, m, r, p);
    }
    assert (set p: nat | p < m && (r, p) in Pairs(y, m)) == Last(w, m);
  }

  lemma {:induction false} FlatSplit<T>(a: nat, b: nat, cols: nat, f: (nat, nat) -> T, g: (nat, nat) -> T)
    requires forall r: nat, c: nat | r < b && c < cols :: g(r, c) == f(a + r, c)
    ensures Flat(a, cols, f) + Flat(b, cols, g) == Flat(a + b, cols, f)
  {
    if b > 0 {
      FlatSplit(a, b - 1, cols, f, g);
      assert Row(cols, b - 1, g) == Row(cols, a + b - 1, f);
    }
  }

  lemma {:induction false} UnwindowedUpTo(y: Layers, m: nat, l: nat)
    requires l <= |y.windows| && forall i | 0 <= i < |y.windows| :: y.windows[i] == None
    ensures PairsUpTo(y, m, l) == PairsOf(0, PerLayer(y) * l, 0, m)
  {
    if l > 0 {
      UnwindowedUpTo(y, m, l - 1);
      FlatSplit(PerLayer(y) * (l - 1), PerLayer(y), m, PairAt(0, 0), PairAt(PerLayer(y) * (l - 1), 0));
    }
  }

  /** When no layer has a window, going layer by layer selects the very same list. */
  lemma LayerwiseIsGlobal(y: Layers, m: nat)
    requires LayersOk(y) && forall i | 0 <= i < |y.windows| :: y.windows[i] == None
    ensures Pairs(y, m) == Pairs(y.(windows := []), m)
  {
    UnwindowedUpTo(y, m, |y.windows|);
  }

  // ----- numbering -----

  /** The ids of a list of pairs: DescId(region, numBlocks, blocks[position]). */
  ghost predicate Numbers(ids: seq<nat>, pairs: seq<(nat, nat)>, numBlocks: nat, blocks: seq<nat>) {
    && |ids| == |pairs|
    && forall k | 0 <= k < |ids| :: pairs[k].1 < |blocks| && ids[k] == DescId(pairs[k].0, numBlocks, blocks[pairs[k].1])
  }

  lemma IdsNumberPairs(lo: nat, hi: nat, first: nat, numBlocks: nat, blocks: seq<nat>)
    requires lo <= hi && first <= |blocks|
    ensures Numbers(GetBlockDescsIds(lo, hi, numBlocks, blocks[first..]), PairsOf(lo, hi, first, |blocks|),
                    numBlocks, blocks)
  {
    var rest := blocks[first..];
    var ids, pairs := GetBlockDescsIds(lo, hi, numBlocks, rest), PairsOf(lo, hi, first, |blocks|);
    FlatLength(hi - lo, |rest|, IdAt(lo, numBlocks, rest));
    FlatLength(hi - lo, |rest|, PairAt(lo, first));
    forall k | 0 <= k < |ids|
      ensures pairs[k].1 < |blocks| && ids[k] == DescId(pairs[k].0, numBlocks, blocks[pairs[k].1])
    {
      var r, p := Split(k, hi - lo, |rest|);
      FlatAt(hi - lo, |rest|, IdAt(lo, numBlocks, rest), r, p);
      FlatAt(hi - lo, |rest|, PairAt(lo, first), r, p);
    }
  }

  /** In bounds, and different (region, block) pairs have different numbers. */
  lemma NumberingInjective(regions: nat, numBlocks: nat, r: nat, b: nat, r': nat, b': nat)
    requires r < regions && b < numBlocks && b' < numBlocks
    ensures DescId(r, numBlocks, b) < regions * numBlocks
    ensures DescId(r, numBlocks, b) == DescId(r', numBlocks, b') ==> r == r' && b == b'
  {
    Below(r, b, regions, numBlocks);
    if DescId(r, numBlocks, b) == DescId(r', numBlocks, b') {
      Unique(r, b, r', b', numBlocks);
    }
  }

  /** The numbers for one layer: its window's blocks in its regions. */
  method SelectLayer(y: Layers, l: nat, localBlocks: nat, remoteBlocks: nat, local: seq<nat>, remote: seq<nat>)
    returns (localIds: seq<nat>, remoteIds: seq<nat>)
    requires l < |y.windows| && |local| == |remote|
    ensures Numbers(localIds, LayerPairs(y, |local|, l), localBlocks, local)
    ensures Numbers(remoteIds, LayerPairs(y, |local|, l), remoteBlocks, remote)
  {
    var first := FirstOf(y.windows[l], |local|);
    LayerOf(0, PerLayer(y), l);
    var lo, hi := PerLayer(y) * l, PerLayer(y) * (l + 1);
    localIds := GetBlockDescsIds(lo, hi, localBlocks, local[first..]);
    remoteIds := GetBlockDescsIds(lo, hi, remoteBlocks, remote[first..]);
    IdsNumberPairs(lo, hi, first, localBlocks, local);
    IdsNumberPairs(lo, hi, first, remoteBlocks, remote);
  }

  /** The descriptor numbers that `_read_blocks` passes for both sides. */
  method SelectDescIds(y: Layers, localBlocks: nat, remoteBlocks: nat, local: seq<nat>, remote: seq<nat>)
    returns (localIds: seq<nat>, remoteIds: seq<nat>)
    requires LayersOk(y) && |local| == |remote|
    ensures Numbers(localIds, Pairs(y, |local|), localBlocks, local)
    ensures Numbers(remoteIds, Pairs(y, |local|), remoteBlocks, remote)
  {
    if y.windows == [] {
      remoteIds := GetBlockDescsIds(0, y.numRegions, remoteBlocks, remote);
      localIds := GetBlockDescsIds(0, y.numRegions, localBlocks, local);
      assert local[0..] == local && remote[0..] == remote;
      IdsNumberPairs(0, y.numRegions, 0, remoteBlocks, remote);
      IdsNumberPairs(0, y.numRegions, 0, localBlocks, local);
    } else {
      localIds, remoteIds := [], [];
      for l := 0 to |y.windows|
        invariant Numbers(localIds, PairsUpTo(y, |local|, l), localBlocks, local)
        invariant Numbers(remoteIds, PairsUpTo(y, |local|, l), remoteBlocks, remote)
      {
        var localLayer, remoteLayer := SelectLayer(y, l, localBlocks, remoteBlocks, local, remote);
        localIds, remoteIds := localIds + localLayer, remoteIds + remoteLayer;
      }
    }
  }
}
