/** Which local blocks are filled from which remote blocks: expansion to the remote block size,
    clipping, and the remote suffix after a partial prefix hit. */
module BlockPairing {
  import opened Grid
  import Exact

  /** Sub-block o of block b, when every block is cut into `ratio` sub-blocks. */
  function Sub(b: nat, ratio: nat, o: nat): nat {
    b * ratio + o
  }

  lemma SubUnique(b: nat, o: nat, b': nat, o': nat, ratio: nat)
    requires o < ratio && o' < ratio && Sub(b, ratio, o) == Sub(b', ratio, o')
    ensures b == b' && o == o'
  {
    Unique(b, o, b', o', ratio);
  }

  lemma SubParts(q: nat, ratio: nat)
    requires ratio > 0
    ensures q == Sub(q / ratio, ratio, q % ratio) && q % ratio < ratio
  {}

  lemma SameParts(q: nat, q': nat, ratio: nat)
    requires ratio > 0 && q / ratio == q' / ratio && q % ratio == q' % ratio
    ensures q == q'
  {
    SubParts(q, ratio);
    SubParts(q', ratio);
  }

  /** `get_mapped_blocks`: the ids of the sub-blocks of every block. */
  function MappedId(ids: seq<nat>, ratio: nat): (nat, nat) --> nat {
    (p: nat, o: nat) requires p < |ids| => Sub(ids[p], ratio, o)
  }

  function GetMappedBlocks(ids: seq<nat>, ratio: nat): seq<nat> {
    Flat(|ids|, ratio, MappedId(ids, ratio))
  }

  /** What `_read_blocks` decides before it builds descriptor ids. */
  datatype Selection =
    | Notify                                       // nothing to read: only tell the producer
    | AssertionFails                               // more local than remote blocks
    | Read(local: seq<nat>, remote: seq<nat>)      // paired by position

  /** Local ids at the remote block size. */
  function Expanded(local: seq<nat>, ratio: nat): seq<nat> {
    if ratio > 1 then GetMappedBlocks(local, ratio) else local
  }

  function SelectBlocks(local: seq<nat>, remote: seq<nat>, ratio: nat): Selection {
    var expanded := Expanded(local, ratio);
    var clipped := if ratio > 1 && |expanded| > |remote| then expanded[..|remote|] else expanded;
    if |clipped| == 0 then Notify
    else if |clipped| > |remote| then AssertionFails
    else Read(clipped, remote[|remote| - |clipped|..])
  }

  predicate Distinct(ids: seq<nat>) {
    forall i, j | 0 <= i < j < |ids| :: ids[i] != ids[j]
  }

  predicate Below(ids: seq<nat>, n: nat) {
    forall i | 0 <= i < |ids| :: ids[i] < n
  }

  /** The sub-block that holds position q (counted in sub-blocks) of the blocks. */
  function SubBlockAt(blocks: seq<nat>, ratio: nat, q: nat): nat
    requires ratio > 0 && q / ratio < |blocks|
  {
    Sub(blocks[q / ratio], ratio, q % ratio)
  }

  /** Entry q of the mapped ids is the sub-block at position q. */
  lemma MappedAt(ids: seq<nat>, ratio: nat, q: nat)
    requires ratio > 0 && q < |ids| * ratio
    ensures |GetMappedBlocks(ids, ratio)| == |ids| * ratio
    ensures q / ratio < |ids| && GetMappedBlocks(ids, ratio)[q] == SubBlockAt(ids, ratio, q)
  {
    FlatLength(|ids|, ratio, MappedId(ids, ratio));
    var p, o := Split(q, |ids|, ratio);
    SubParts(q, ratio);
    SubUnique(p, o, q / ratio, q % ratio, ratio);
    FlatAt(|ids|, ratio, MappedId(ids, ratio), p, o);
  }

  lemma SameSub(b: nat, b': nat, q: nat, q': nat, ratio: nat)
    requires ratio > 0 && Sub(b, ratio, q % ratio) == Sub(b', ratio, q' % ratio)
    ensures b == b' && q % ratio == q' % ratio
  {
    SubUnique(b, q % ratio, b', q' % ratio, ratio);
  }

  lemma SameBlock(blocks: seq<nat>, p: nat, p': nat)
    requires Distinct(blocks) && p < |blocks| && p' < |blocks| && blocks[p] == blocks[p']
    ensures p == p'
  {}

  /** A sub-block of distinct blocks has one position. */
  lemma PositionUnique(blocks: seq<nat>, ratio: nat, q: nat, q': nat)
    requires ratio > 0 && Distinct(blocks) && q / ratio < |blocks| && q' / ratio < |blocks|
    requires SubBlockAt(blocks, ratio, q) == SubBlockAt(blocks, ratio, q')
    ensures q == q'
  {
    SameSub(blocks[q / ratio], blocks[q' / ratio], q, q', ratio);
    SameBlock(blocks, q / ratio, q' / ratio);
    SameParts(q, q', ratio);
  }

  /** Distinct blocks of a cache of n blocks have distinct sub-blocks among its n * ratio. */
  lemma MappedDistinct(ids: seq<nat>, ratio: nat, n: nat)
    requires ratio > 0 && Distinct(ids) && Below(ids, n)
    ensures Distinct(GetMappedBlocks(ids, ratio)) && Below(GetMappedBlocks(ids, ratio), n * ratio)
  {
    var m := GetMappedBlocks(ids, ratio);
    FlatLength(|ids|, ratio, MappedId(ids, ratio));
    forall i | 0 <= i < |m|
      ensures i / ratio < |ids| && m[i] == SubBlockAt(ids, ratio, i) && m[i] < n * ratio
    {
      MappedAt(ids, ratio, i);
      Grid.Below(ids[i / ratio], i % ratio, n, ratio);
    }
    forall i, j | 0 <= i < j < |m|
      ensures m[i] != m[j]
    {
      if m[i] == m[j] {
        PositionUnique(ids, ratio, i, j);
      }
    }
  }

  // ----- token alignment -----

  /** Pair p of the selection sits at token position q of the request on both sides. */
  predicate PairedAt(s: Selection, blocks: seq<nat>, remote: seq<nat>, ratio: nat, p: nat, q: nat)
    requires ratio > 0 && s.Read? && |s.local| == |s.remote| && p < |s.local|
  {
    && q < |remote| && q / ratio < |blocks|
    && s.local[p] == SubBlockAt(blocks, ratio, q) && s.remote[p] == remote[q]
  }

  ghost predicate OneToken(s: Selection, blocks: seq<nat>, remote: seq<nat>, ratio: nat, p: nat)
    requires ratio > 0 && s.Read? && |s.local| == |s.remote| && p < |s.local|
  {
    exists q: nat :: PairedAt(s, blocks, remote, ratio, p, q)
  }

  /** Every pair of the selection sits at one and the same token position of the request. */
  ghost predicate Aligned(s: Selection, blocks: seq<nat>, remote: seq<nat>, ratio: nat)
    requires ratio > 0 && s.Read? && |s.local| == |s.remote|
  {
    forall p: nat | p < |s.local| :: OneToken(s, blocks, remote, ratio, p)
  }

  /** The request has |remote| remote blocks, hence this many local blocks. */
  predicate SameRequest(blocks: seq<nat>, remote: seq<nat>, ratio: nat) {
    && ratio > 0 && 0 < |blocks|
    && (|blocks| - 1) * ratio < |remote| <= |blocks| * ratio
  }

  lemma ExpandedLength(local: seq<nat>, ratio: nat)
    requires ratio > 0
    ensures |Expanded(local, ratio)| == |local| * ratio
  {
    FlatLength(|local|, ratio, MappedId(local, ratio));
  }

  lemma ExpandedAt(local: seq<nat>, ratio: nat, q: nat)
    requires ratio > 0 && q < |local| * ratio
    ensures q / ratio < |local| && q < |Expanded(local, ratio)|
    ensures Expanded(local, ratio)[q] == SubBlockAt(local, ratio, q)
  {
    MappedAt(local, ratio, q);
  }

  lemma SelectionFrom(local: seq<nat>, remote: seq<nat>, ratio: nat, n: nat)
    requires n == |Expanded(local, ratio)| && 0 < n && 0 < |remote| && (ratio <= 1 ==> n <= |remote|)
    ensures var len := if n > |remote| then |remote| else n;
            SelectBlocks(local, remote, ratio) == Read(Expanded(local, ratio)[..len], remote[|remote| - len..])
  {
    assert Expanded(local, ratio)[..n] == Expanded(local, ratio);
  }

  /** What is selected when there is something to read. */
  lemma SelectionIs(local: seq<nat>, remote: seq<nat>, ratio: nat)
    requires ratio > 0 && 0 < |local| && 0 < |remote| && (ratio == 1 ==> |local| <= |remote|)
    ensures var e, len := Expanded(local, ratio), if |local| * ratio > |remote| then |remote| else |local| * ratio;
            |e| == |local| * ratio && SelectBlocks(local, remote, ratio) == Read(e[..len], remote[|remote| - len..])
  {
    ExpandedLength(local, ratio);
    LaterRow(1, |local|, ratio);
    SelectionFrom(local, remote, ratio, |local| * ratio);
  }

  lemma ExpandedDistinct(local: seq<nat>, ratio: nat, n: nat)
    requires ratio > 0 && Distinct(local) && Below(local, n)
    ensures Distinct(Expanded(local, ratio)) && Below(Expanded(local, ratio), n * ratio)
  {
    MappedDistinct(local, ratio, n);
  }

  lemma PrefixDistinct(ids: seq<nat>, len: nat, n: nat)
    requires len <= |ids| && Distinct(ids) && Below(ids, n)
    ensures Distinct(ids[..len]) && Below(ids[..len], n)
  {}

  /** The worker only notifies exactly if there is nothing to fill or nothing to read from. */
  lemma NotifiesIff(local: seq<nat>, remote: seq<nat>, ratio: nat)
    requires ratio > 0
    ensures SelectBlocks(local, remote, ratio).Notify? <==> local == [] || (ratio > 1 && remote == [])
  {
    ExpandedLength(local, ratio);
    if |local| > 0 {
      LaterRow(1, |local|, ratio);
    }
  }

  /** A selection pairs equally many distinct ids, all within the two caches. */
  lemma SelectionWellFormed(local: seq<nat>, remote: seq<nat>, ratio: nat, localBlocks: nat, remoteBlocks: nat)
    requires ratio > 0
    requires Distinct(local) && Below(local, localBlocks) && Below(remote, remoteBlocks)
    ensures var s := SelectBlocks(local, remote, ratio);
            && (s.Read? ==>
                  && 0 < |s.local| == |s.remote| <= |remote|
                  && Distinct(s.local) && Below(s.local, localBlocks * ratio) && Below(s.remote, remoteBlocks))
            && (s.AssertionFails? <==> ratio == 1 && |local| > |remote|)
            && (s.Notify? <==> |local| == 0 || (ratio > 1 && |remote| == 0))
  {
    ExpandedLength(local, ratio);
    ExpandedDistinct(local, ratio, localBlocks);
    var e := Expanded(local, ratio);
    PrefixDistinct(e, if ratio > 1 && |e| > |remote| then |remote| else |e|, localBlocks * ratio);
    assert e[..|e|] == e;
    if |local| > 0 {
      LaterRow(1, |local|, ratio);
    }
  }

  /** A position of the uncached blocks, as a position q of all blocks. */
  lemma ShiftedSub(blocks: seq<nat>, ratio: nat, cached: nat, p: nat, q: nat)
    requires ratio > 0 && cached <= |blocks| && p / ratio < |blocks[cached..]|
    requires q / ratio == cached + p / ratio && q % ratio == p % ratio
    ensures q / ratio < |blocks| && SubBlockAt(blocks[cached..], ratio, p) == SubBlockAt(blocks, ratio, q)
  {
    assert blocks[cached..][p / ratio] == blocks[q / ratio];
  }

  lemma FitsUnexpanded(blocks: seq<nat>, remote: seq<nat>, ratio: nat, cached: nat)
    requires SameRequest(blocks, remote, ratio) && cached < |blocks|
    ensures |remote| > 0 && (ratio == 1 ==> |blocks| - cached <= |remote|)
  {}

  /** Index p of the selection is position cached * ratio + p on the local side and
      |remote| - |selection| + p on the remote side. */
  lemma SelectionAt(blocks: seq<nat>, remote: seq<nat>, ratio: nat, cached: nat, p: nat)
    requires SameRequest(blocks, remote, ratio) && cached < |blocks|
    ensures var s := SelectBlocks(blocks[cached..], remote, ratio);
            && s.Read? && |s.local| == |s.remote| == SelectionLength(|blocks|, |remote|, ratio, cached)
            && (p < |s.local| ==>
                  && (cached * ratio + p) / ratio < |blocks|
                  && s.local[p] == SubBlockAt(blocks, ratio, cached * ratio + p)
                  && s.remote[p] == remote[|remote| - |s.local| + p])
  {
    var rest := blocks[cached..];
    FitsUnexpanded(blocks, remote, ratio, cached);
    SelectionIs(rest, remote, ratio);
    if p < |rest| * ratio {
      ExpandedAt(rest, ratio, p);
      Shifted(cached, p, ratio);
      ShiftedSub(blocks, ratio, cached, p, cached * ratio + p);
    }
  }

  lemma Shifted(cached: nat, p: nat, ratio: nat)
    requires ratio > 0
    ensures (cached * ratio + p) / ratio == cached + p / ratio && (cached * ratio + p) % ratio == p % ratio
  {
    var q := cached * ratio + p;
    SubParts(p, ratio);
    SubParts(q, ratio);
    SubUnique(cached + p / ratio, p % ratio, q / ratio, q % ratio, ratio);
  }

  function SelectionLength(n: nat, m: nat, ratio: nat, cached: nat): nat
    requires cached <= n
  {
    if (n - cached) * ratio > m then m else (n - cached) * ratio
  }

  /** The remote suffix starts at the first uncached position exactly in these cases. */
  lemma SuffixStart(n: nat, m: nat, ratio: nat, cached: nat)
    requires ratio > 0 && cached < n && (n - 1) * ratio < m <= n * ratio
    ensures var len := SelectionLength(n, m, ratio, cached);
            0 < len <= m && (m - len == cached * ratio <==> cached == 0 || m % ratio == 0)
  {
    var all, skipped := n * ratio, cached * ratio;
    assert (n - cached) * ratio == all - skipped;
    assert (n - 1) * ratio == all - ratio;
    LaterRow(1, n - cached, ratio);
    LaterRow(1, cached, ratio);
    Multiple(m, n, ratio);
  }

  lemma Squeezed(q: nat, n: nat, ratio: nat)
    requires n > 0 && (n - 1) * ratio < q * ratio <= n * ratio
    ensures q == n
  {
    LaterRow(q, n - 1, ratio);
    LaterRow(n, q, ratio);
  }

  lemma Multiple(m: nat, n: nat, ratio: nat)
    requires ratio > 0 && n > 0 && (n - 1) * ratio < m <= n * ratio
    ensures m % ratio == 0 <==> m == n * ratio
  {
    var q := m / ratio;
    if m % ratio == 0 {
      assert m == q * ratio;
      Squeezed(q, n, ratio);
    } else {
      Exact.Quotient(ratio, n);
    }
  }

  /** When both sides start at the same position, pair p is at position cached * ratio + p. */
  lemma StartsTogether(blocks: seq<nat>, remote: seq<nat>, ratio: nat, cached: nat, p: nat)
    requires SameRequest(blocks, remote, ratio) && cached < |blocks|
    requires cached == 0 || |remote| % ratio == 0
    ensures var s := SelectBlocks(blocks[cached..], remote, ratio);
            && s.Read? && |s.local| == |s.remote|
            && (p < |s.local| ==> PairedAt(s, blocks, remote, ratio, p, cached * ratio + p))
  {
    SuffixStart(|blocks|, |remote|, ratio, cached);
    SelectionAt(blocks, remote, ratio, cached, p);
  }

  /** Otherwise already the first pair is at two different positions. */
  lemma StartsApart(blocks: seq<nat>, remote: seq<nat>, ratio: nat, cached: nat)
    requires SameRequest(blocks, remote, ratio) && Distinct(blocks) && Distinct(remote) && cached < |blocks|
    requires cached != 0 && |remote| % ratio != 0
    ensures var s := SelectBlocks(blocks[cached..], remote, ratio);
            s.Read? && |s.local| == |s.remote| > 0 && !OneToken(s, blocks, remote, ratio, 0)
  {
    SuffixStart(|blocks|, |remote|, ratio, cached);
    SelectionAt(blocks, remote, ratio, cached, 0);
    var s := SelectBlocks(blocks[cached..], remote, ratio);
    if q: nat :| PairedAt(s, blocks, remote, ratio, 0, q) {
      PositionUnique(blocks, ratio, q, cached * ratio);
    }
  }

  /** Blocks are paired at equal token positions iff nothing was cached locally or the remote block
      count is a multiple of the block-size ratio. */
  lemma TokenAlignment(blocks: seq<nat>, remote: seq<nat>, ratio: nat, cached: nat)
    requires SameRequest(blocks, remote, ratio) && Distinct(blocks) && Distinct(remote) && cached < |blocks|
    ensures var s := SelectBlocks(blocks[cached..], remote, ratio);
            && s.Read? && |s.local| == |s.remote| > 0
            && (Aligned(s, blocks, remote, ratio) <==> cached == 0 || |remote| % ratio == 0)
  {
    SuffixStart(|blocks|, |remote|, ratio, cached);
    SelectionAt(blocks, remote, ratio, cached, 0);
    if cached == 0 || |remote| % ratio == 0 {
      forall p: nat
        ensures var s := SelectBlocks(blocks[cached..], remote, ratio);
                p < |s.local| ==> OneToken(s, blocks, remote, ratio, p)
      {
        StartsTogether(blocks, remote, ratio, cached, p);
      }
    } else {
      StartsApart(blocks, remote, ratio, cached);
    }
  }

  /** The same block size on both sides is always aligned. */
  lemma EqualBlockSizesAlign(blocks: seq<nat>, remote: seq<nat>, cached: nat)
    requires |blocks| == |remote| && Distinct(blocks) && Distinct(remote) && cached < |blocks|
    ensures var s := SelectBlocks(blocks[cached..], remote, 1);
            s.Read? && |s.local| == |s.remote| && Aligned(s, blocks, remote, 1)
  {
    TokenAlignment(blocks, remote, 1, cached);
  }

  /** Three remote blocks, two local ones, the first cached: the sub-block at position 2 is filled
      from the remote block at position 1. */
  lemma MisalignedExample()
    ensures var s := SelectBlocks([7, 8][1..], [20, 21, 22], 2);
            s == Read([16, 17], [21, 22]) && SubBlockAt([7, 8], 2, 2) == 16
  {
    assert [7, 8][1..] == [8];
    MappedAt([8], 2, 0);
    MappedAt([8], 2, 1);
    assert GetMappedBlocks([8], 2) == [16, 17];
  }
}
