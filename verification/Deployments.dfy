/** Concrete deployments that meet the conditions of the byte-exactness results. */
module Deployments {
  import opened TransferGeometry
  import opened BlockPairing
  import opened DescriptorIds
  import opened BlockRead
  import opened GatherRead
  import opened AlignedRead

  /** Two consumer ranks share one producer rank, whose blocks are half as long: rank 1 reads the second
      half of the heads of the uncached half of a four-block request. */
  lemma TwoConsumersOneProducer()
    ensures var w := Local(Caches([0], [8], 2, 0, 4), false, false, 1, 2);
            var p := Peer(Caches([100], [8], 4, 0, 2), 1, false);
            var y := Layers(1, 1, []);
            && Handshaken(w, p) && Indexes(w, p) && BlockRatio(w, p) == 2 && Ratio(w, p) == 2
            && Request(w, p, y, [0, 1], [0, 1, 2, 3], 1)
            && Uncached(w, p, [0, 1], [0, 1, 2, 3], 1) == Read([2, 3], [2, 3])
  {
    var w := Local(Caches([0], [8], 2, 0, 4), false, false, 1, 2);
    var p := Peer(Caches([100], [8], 4, 0, 2), 1, false);
    assert Registered(w.caches, false);
    assert ShapesAgree(w, p);
    assert [0, 1][1..] == [1];
    MappedAt([1], 2, 0);
    MappedAt([1], 2, 1);
    assert GetMappedBlocks([1], 2) == [2, 3];
  }

  /** One consumer rank gathers from two producer ranks, K and V sharing a block on both sides. */
  lemma OneConsumerTwoProducers()
    ensures var w := Local(Caches([0], [16], 2, 0, 4), true, false, 0, 1);
            var p := Peer(Caches([100], [8], 3, 0, 4), 2, false);
            && Handshaken(w, p) && Gathers(w, p) && Ratio(w, p) == -2
            && Shared(w.caches, w.joint, Layers(2, 1, []), [1, 0], [2, 1])
  {
    var w := Local(Caches([0], [16], 2, 0, 4), true, false, 0, 1);
    var p := Peer(Caches([100], [8], 3, 0, 4), 2, false);
    assert Registered(w.caches, true);
    assert ShapesAgree(w, p);
  }

  /** Three producer ranks, and a part of ten bytes: the handshake passes, and the tenth byte is never read. */
  lemma ThreeProducersUneven()
    ensures var w := Local(Caches([0], [10], 2, 0, 2), false, false, 0, 1);
            var p := Peer(Caches([100], [3], 3, 0, 2), 3, false);
            && Handshaken(w, p) && Gathers(w, p) && Ratio(w, p) == -3
            && Shared(w.caches, w.joint, Layers(1, 1, []), [1, 0], [2, 1])
            && PartLen(w.caches, w.joint, 0) % 3 == 1
  {
    var w := Local(Caches([0], [10], 2, 0, 2), false, false, 0, 1);
    var p := Peer(Caches([100], [3], 3, 0, 2), 3, false);
    assert Registered(w.caches, false);
    assert ShapesAgree(w, p);
  }
}
