/** Whole runs of the chunk-ready channel. */
module ChunkTheorems {
  import opened Wrappers
  import opened ChunkState
  import opened ChunkProtocol

  // ----- the channel -----

  ghost predicate Conserved(y: System) {
    ChanOk(y.chan) && ChanHolds(y.chan, y.staged) && y.issued == y.staged + Queued(y.queue)
  }

  lemma StepConserved(y: System, e: Event)
    requires Conserved(y) && Allowed(y, e)
    ensures Conserved(Step(y, e))
  {
    match e
    case Build(items, gs) => QueuedAppends(y.queue, Meta(gs, Issue(y.labels, items)));
    case SaveKv =>
      var m := y.queue[0];
      RegisterConsumersKeeps(y.chan, m.registrations, y.staged);
      NotifyAllKeeps(RegisterConsumers(y.chan, m.registrations), m.chunks, y.staged);
    case _ =>
  }

  lemma {:induction false} RunConserved(ys: seq<System>, i: nat)
    requires Run(ys) && i < |ys|
    ensures Conserved(ys[i])
  {
    if i > 0 {
      RunConserved(ys, i - 1);
      assert Next(ys[i - 1], ys[i]);
      var e :| Allowed(ys[i - 1], e) && ys[i] == Step(ys[i - 1], e);
      StepConserved(ys[i - 1], e);
    }
  }

  /** Once any consumer is registered nothing stays buffered. */
  lemma NothingWaitsOnceRegistered(ys: seq<System>, i: nat)
    requires Run(ys) && i < |ys| && ys[i].chan.agents != []
    ensures ys[i].chan.pending == []
  {
    RunConserved(ys, i);
  }

  /** Per request and in order: the chunks sent, then those buffered, then those still in the metadata
      queue are exactly the chunks labelled, each once. */
  lemma ChunksAreConserved(ys: seq<System>, i: nat, r: ReqId)
    requires Run(ys) && i < |ys|
    ensures Of(ys[i].issued, r) == SentOf(ys[i].chan.sent, r) + PendingOf(ys[i].chan.pending, r)
            + Of(Queued(ys[i].queue), r)
  {
    RunConserved(ys, i);
    OfAppends(ys[i].staged, Queued(ys[i].queue), r);
  }

  // ----- numbering -----

  /** The counter of `r` exists, and is positive, exactly while its latest chunk was not its last. */
  ghost predicate CounterOk(l: Labels, issued: seq<Chunk>, r: ReqId) {
    var cs := Of(issued, r);
    && (r in l.counter <==> cs != [] && !cs[|cs| - 1].last)
    && (r in l.counter ==> l.counter[r] > 0)
  }

  lemma LabelOneCounter(l: Labels, issued: seq<Chunk>, i: Item, r: ReqId)
    requires CounterOk(l, issued, r)
    ensures CounterOk(LabelOne(l, i), issued + if Saves(l, i) then [ChunkOf(l, i)] else [], r)
  {
    if Saves(l, i) {
      OfGrows(issued, ChunkOf(l, i), r);
    } else {
      assert issued + [] == issued;
    }
  }

  lemma {:induction false} LabelAllCounter(l: Labels, issued: seq<Chunk>, items: seq<Item>, r: ReqId)
    requires CounterOk(l, issued, r)
    ensures CounterOk(LabelAll(l, items), issued + Issue(l, items), r)
  {
    if items == [] {
      assert issued + Issue(l, items) == issued;
    } else {
      var front, i := items[..|items| - 1], items[|items| - 1];
      LabelAllCounter(l, issued, front, r);
      LabelOneCounter(LabelAll(l, front), issued + Issue(l, front), i, r);
      var one := if Saves(LabelAll(l, front), i) then [ChunkOf(LabelAll(l, front), i)] else [];
      assert issued + Issue(l, items) == issued + Issue(l, front) + one;
    }
  }

  lemma {:induction false} RunCounter(ys: seq<System>, i: nat, r: ReqId)
    requires Run(ys) && i < |ys|
    ensures CounterOk(ys[i].labels, ys[i].issued, r)
  {
    if i > 0 {
      RunCounter(ys, i - 1, r);
      var y := ys[i - 1];
      assert Next(y, ys[i]);
      var e :| Allowed(y, e) && ys[i] == Step(y, e);
      match e
      case Build(items, gs) => LabelAllCounter(y.labels, y.issued, items, r);
      case _ =>
    }
  }

  /** In every run, reused ids included: the next chunk of `r` is numbered 0 exactly when `r` had no chunk
      yet or its latest chunk was marked last. */
  lemma NumberingRestartsIff(ys: seq<System>, i: nat, r: ReqId)
    requires Run(ys) && i < |ys|
    ensures NextIdx(ys[i].labels, r) == 0
            <==> Of(ys[i].issued, r) == [] || Of(ys[i].issued, r)[|Of(ys[i].issued, r)| - 1].last
  {
    RunCounter(ys, i, r);
  }

  /** The chunks of `r` are numbered 0, 1, 2, ...; only the final one may be last, and it is last exactly
      when `r` is no longer to be saved and was not aborted. */
  ghost predicate Numbered(cs: seq<Chunk>, finished: bool) {
    forall k | 0 <= k < |cs| :: cs[k].idx == k && (cs[k].last <==> k == |cs| - 1 && finished)
  }

  ghost predicate NumbersOk(l: Labels, aborted: set<ReqId>, issued: seq<Chunk>, r: ReqId) {
    && Numbered(Of(issued, r), r !in l.needSave && r !in aborted)
    && (r in l.needSave ==> r !in aborted && NextIdx(l, r) == |Of(issued, r)|)
  }

  lemma OfOne(c: Chunk, r: ReqId)
    ensures Of([c], r) == if c.req == r then [c] else []
  {
    assert [c][..0] == [];
  }

  /** The chunks of `r` after one more chunk. */
  lemma OfGrows(issued: seq<Chunk>, c: Chunk, r: ReqId)
    ensures c.req == r ==> Of(issued + [c], r) == Of(issued, r) + [c]
    ensures c.req != r ==> Of(issued + [c], r) == Of(issued, r)
  {
    OfAppends(issued, [c], r);
    OfOne(c, r);
  }

  lemma NumberedGrows(cs: seq<Chunk>, c: Chunk)
    requires Numbered(cs, false) && c.idx == |cs|
    ensures Numbered(cs + [c], c.last)
  {}

  lemma LabelOneNumbers(l: Labels, aborted: set<ReqId>, issued: seq<Chunk>, i: Item, r: ReqId)
    requires NumbersOk(l, aborted, issued, r)
    ensures NumbersOk(LabelOne(l, i), aborted, issued + if Saves(l, i) then [ChunkOf(l, i)] else [], r)
  {
    if Saves(l, i) {
      OfGrows(issued, ChunkOf(l, i), r);
      if i.req == r {
        NumberedGrows(Of(issued, r), ChunkOf(l, i));
      }
    } else {
      assert issued + [] == issued;
    }
  }

  lemma {:induction false} LabelAllNumbers(l: Labels, aborted: set<ReqId>, issued: seq<Chunk>, items: seq<Item>,
                                           r: ReqId)
    requires NumbersOk(l, aborted, issued, r)
    ensures NumbersOk(LabelAll(l, items), aborted, issued + Issue(l, items), r)
  {
    if items == [] {
      assert issued + Issue(l, items) == issued;
    } else {
      var front, i := items[..|items| - 1], items[|items| - 1];
      LabelAllNumbers(l, aborted, issued, front, r);
      LabelOneNumbers(LabelAll(l, front), aborted, issued + Issue(l, front), i, r);
      var one := if Saves(LabelAll(l, front), i) then [ChunkOf(LabelAll(l, front), i)] else [];
      assert issued + Issue(l, items) == issued + Issue(l, front) + one;
    }
  }

  lemma FreshIsRun(ys: seq<System>)
    requires FreshRun(ys)
    ensures Run(ys)
  {
    forall i | 0 < i < |ys| ensures Next(ys[i - 1], ys[i]) {
      assert FreshNext(ys[i - 1], ys[i]);
    }
  }

  lemma StepNumbers(y: System, e: Event, r: ReqId)
    requires NumbersOk(y.labels, y.aborted, y.issued, r) && CounterOk(y.labels, y.issued, r)
    requires Allowed(y, e) && Fresh(y, e)
    ensures NumbersOk(Step(y, e).labels, Step(y, e).aborted, Step(y, e).issued, r)
  {
    match e
    case Build(items, gs) => LabelAllNumbers(y.labels, y.aborted, y.issued, items, r);
    case _ =>
  }

  lemma {:induction false} RunNumbers(ys: seq<System>, i: nat, r: ReqId)
    requires FreshRun(ys) && i < |ys|
    ensures NumbersOk(ys[i].labels, ys[i].aborted, ys[i].issued, r)
  {
    if i > 0 {
      FreshIsRun(ys);
      RunNumbers(ys, i - 1, r);
      RunCounter(ys, i - 1, r);
      assert FreshNext(ys[i - 1], ys[i]);
      var e :| Allowed(ys[i - 1], e) && Fresh(ys[i - 1], e) && ys[i] == Step(ys[i - 1], e);
      StepNumbers(ys[i - 1], e, r);
    }
  }

  /** Ids not reused: the chunks of a request handed to the send routine are its first ones, numbered
      0, 1, 2, ...; none but its final chunk is marked last, and that one is as soon as the request has
      left `_reqs_need_save` other than by an abort. */
  lemma SentChunksAreNumbered(ys: seq<System>, i: nat, r: ReqId)
    requires FreshRun(ys) && i < |ys|
    ensures SentOf(ys[i].chan.sent, r) <= Of(ys[i].issued, r)
    ensures Numbered(Of(ys[i].issued, r), r !in ys[i].labels.needSave && r !in ys[i].aborted)
    ensures forall k | 0 <= k < |SentOf(ys[i].chan.sent, r)| :: SentOf(ys[i].chan.sent, r)[k].idx == k
  {
    FreshIsRun(ys);
    ChunksAreConserved(ys, i, r);
    RunNumbers(ys, i, r);
  }

  /** An id reused after an abort in mid-prefill: its first chunk is numbered 1. */
  lemma ReuseAfterAbort() returns (ys: seq<System>)
    ensures Run(ys)
    ensures var y := ys[|ys| - 1]; "r" in y.labels.needSave && NextIdx(y.labels, "r") == 1
  {
    var item := Item("r", Some([5]), 0, 16, 64);
    var y0 := Init();
    var y1 := Step(y0, Alloc("r"));
    var y2 := Step(y1, Build([item], []));
    var y3 := Step(y2, Abort("r"));
    var y4 := Step(y3, Alloc("r"));
    assert Allowed(y0, Alloc("r")) && Next(y0, y1);
    assert Allowed(y1, Build([item], [])) && Next(y1, y2);
    assert Allowed(y2, Abort("r")) && Next(y2, y3);
    assert Allowed(y3, Alloc("r")) && Next(y3, y4);
    assert [item][..0] == [];
    assert LabelAll(y1.labels, [item]) == LabelOne(y1.labels, item);
    ys := [y0, y1, y2, y3, y4];
  }

  // ----- where chunks go, and what they carry -----

  lemma {:induction false} MappedTo(m: map<ReqId, EngineId>, rs: seq<ReqId>, e: EngineId, r: ReqId)
    ensures r in rs ==> r in MapAll(m, rs, e) && MapAll(m, rs, e)[r] == e
    ensures r !in rs ==> (r in MapAll(m, rs, e) <==> r in m) && (r in m ==> MapAll(m, rs, e)[r] == m[r])
  {
    if rs != [] {
      MappedTo(m, rs[..|rs| - 1], e, r);
      assert rs == rs[..|rs| - 1] + [rs[|rs| - 1]];
    }
  }

  /** A consumer that registers anew gets the chunks of the requests it names and of those nobody named;
      the chunks of a request named by another consumer stay with that one. */
  lemma RegistrationRoutes(ch: Chan, g: Registration, r: ReqId)
    requires Routed(ch) && g.engine.Some? && g.hasMetadata && g.added.Some? && AgentOf(ch.agents, g.engine.value).None?
    ensures r in g.reqs || r !in ch.engineByReq ==> Resolve(Register(ch, g), r) == g.added
    ensures r !in g.reqs && r in ch.engineByReq ==> Resolve(Register(ch, g), r) == Resolve(ch, r)
  {
    MappedTo(ch.engineByReq, g.reqs, g.engine.value, r);
    var k := Known(g.engine.value, g.added.value);
    AgentOfAppends(ch.agents, k, g.engine.value);
    if r in ch.engineByReq { AgentOfAppends(ch.agents, k, ch.engineByReq[r]); }
  }

  /** A consumer that registers again gets the chunks of the requests it names; nothing else changes. */
  lemma RegisteringAgainRoutes(ch: Chan, g: Registration, r: ReqId)
    requires Routed(ch) && g.engine.Some? && g.hasMetadata && AgentOf(ch.agents, g.engine.value).Some?
    ensures Register(ch, g).agents == ch.agents
    ensures Resolve(Register(ch, g), r) == if r in g.reqs then AgentOf(ch.agents, g.engine.value) else Resolve(ch, r)
  {
    MappedTo(ch.engineByReq, g.reqs, g.engine.value, r);
  }

  /** A registration without an engine or its metadata, or whose agent cannot be added, changes nothing. */
  lemma FailedRegistrationsChangeNothing(ch: Chan, g: Registration)
    requires g.engine.None? || !g.hasMetadata || (g.added.None? && AgentOf(ch.agents, g.engine.value).None?)
    ensures Register(ch, g) == ch
  {}

  /** Each of these chunks was sent to the consumer of its request. */
  ghost predicate SentToOwn(ch: Chan, ds: seq<Delivery>) {
    forall d | d in ds :: Resolve(ch, d.chunk.req) == Some(d.agent)
  }

  lemma {:induction false} DeliverAllRoutes(ch: Chan, a: Agent, cs: seq<Chunk>)
    requires forall c | c in cs :: Resolve(ch, c.req) == Some(a)
    ensures SentToOwn(ch, DeliverAll(a, cs))
  {
    if cs != [] {
      assert forall c | c in cs[..|cs| - 1] :: c in cs;
      DeliverAllRoutes(ch, a, cs[..|cs| - 1]);
    }
  }

  lemma {:induction false} FlushRoutes(ch: Chan, ps: seq<Buffer>)
    requires forall b | b in ps :: OwnChunks(b)
    ensures ch.sent <= FlushLog(ch, ps) && SentToOwn(ch, FlushLog(ch, ps)[|ch.sent|..])
  {
    if ps != [] {
      var front, b := ps[..|ps| - 1], ps[|ps| - 1];
      assert forall x | x in front :: x in ps;
      assert b in ps && OwnChunks(b);
      FlushRoutes(ch, front);
      if Resolve(ch, b.req).Some? {
        DeliverAllRoutes(ch, Resolve(ch, b.req).value, b.chunks);
      }
    }
  }

  lemma {:induction false} NotifyAllRoutes(ch: Chan, cs: seq<Chunk>)
    ensures var ch' := NotifyAll(ch, cs);
            && ch'.agents == ch.agents && ch'.engineByReq == ch.engineByReq
            && ch.sent <= ch'.sent && SentToOwn(ch, ch'.sent[|ch.sent|..])
  {
    if cs != [] {
      NotifyAllRoutes(ch, cs[..|cs| - 1]);
    }
  }

  lemma SameRoutes(a: Chan, b: Chan, ds: seq<Delivery>)
    requires a.agents == b.agents && a.engineByReq == b.engineByReq && SentToOwn(a, ds)
    ensures SentToOwn(b, ds)
  {
    forall d | d in ds ensures Resolve(b, d.chunk.req) == Some(d.agent) {
      assert Resolve(a, d.chunk.req) == Some(d.agent);
    }
  }

  /** What one save sends, buffered chunks included, goes to the consumers that its registrations name. */
  lemma SavesRoute(y: System)
    requires Conserved(y) && y.queue != []
    ensures var known, after := RegisterAll(y.chan, y.queue[0].registrations), Step(y, SaveKv).chan;
            y.chan.sent <= after.sent && SentToOwn(known, after.sent[|y.chan.sent|..])
  {
    var m := y.queue[0];
    var known, flushed := RegisterAll(y.chan, m.registrations), RegisterConsumers(y.chan, m.registrations);
    RegisterAllRoutes(y.chan, m.registrations);
    forall b | b in known.pending ensures OwnChunks(b) {
      var k :| 0 <= k < |known.pending| && known.pending[k] == b;
    }
    FlushRoutes(known, known.pending);
    NotifyAllRoutes(flushed, m.chunks);
    var after := NotifyAll(flushed, m.chunks);
    SameRoutes(flushed, known, after.sent[|flushed.sent|..]);
    assert after.sent[|y.chan.sent|..] == flushed.sent[|y.chan.sent|..] + after.sent[|flushed.sent|..];
  }

  /** In every run, each save sends chunks only to the consumer of their request at that time. */
  lemma ChunksReachTheirConsumer(ys: seq<System>, i: nat)
    requires Run(ys) && i < |ys| && ys[i].queue != []
    ensures var known, after := RegisterAll(ys[i].chan, ys[i].queue[0].registrations), Step(ys[i], SaveKv).chan;
            ys[i].chan.sent <= after.sent && SentToOwn(known, after.sent[|ys[i].chan.sent|..])
  {
    RunConserved(ys, i);
    SavesRoute(ys[i]);
  }

  /** `c` is the chunk of one scheduled request: it is still to be saved and has new blocks; the chunk carries
      those blocks and the request's next number, and is marked last exactly if it ends the prompt. */
  ghost predicate IsChunkOf(l: Labels, item: Item, c: Chunk) {
    && item.req in l.needSave && c.req == item.req && item.newBlocks == Some(c.blocks)
    && (c.last <==> item.prompt <= item.computed + item.scheduled)
    && (if c.req in l.counter then c.idx == l.counter[c.req] else c.idx == 0)
  }

  lemma IsChunkOfIs(l: Labels, item: Item, c: Chunk)
    ensures IsChunkOf(l, item, c)
       <==> item.req in l.needSave && item.newBlocks.Some?
            && c == Chunk(item.req, NextIdx(l, item.req), IsLast(item), item.newBlocks.value)
  {}

  /** The chunks issued for a scheduler output are those of its items. */
  lemma ChunksMatchItems(l: Labels, items: seq<Item>, c: Chunk)
    requires DistinctItems(items)
    ensures c in Issue(l, items) <==> exists i :: 0 <= i < |items| && IsChunkOf(l, items[i], c)
  {
    ChunksOfItems(l, items, c);
    forall i | 0 <= i < |items|
      ensures IsChunkOf(l, items[i], c)
         <==> items[i].req in l.needSave && items[i].newBlocks.Some?
              && c == Chunk(items[i].req, NextIdx(l, items[i].req), IsLast(items[i]), items[i].newBlocks.value)
    {
      IsChunkOfIs(l, items[i], c);
    }
  }

  lemma {:induction false} ChunksOfItems(l: Labels, items: seq<Item>, c: Chunk)
    requires DistinctItems(items)
    ensures c in Issue(l, items) <==>
              exists i :: 0 <= i < |items| && items[i].req in l.needSave && items[i].newBlocks.Some?
                          && c == Chunk(items[i].req, NextIdx(l, items[i].req), IsLast(items[i]),
                                        items[i].newBlocks.value)
  {
    if items != [] {
      var n := |items| - 1;
      var front, last := items[..n], items[n];
      ChunksOfItems(l, front, c);
      LabelsKept(l, front, last.req);
      if i :| 0 <= i < |front| && front[i].req in l.needSave && front[i].newBlocks.Some?
              && c == Chunk(front[i].req, NextIdx(l, front[i].req), IsLast(front[i]), front[i].newBlocks.value) {
        assert items[i] == front[i];
      }
      if i :| 0 <= i < |items| && items[i].req in l.needSave && items[i].newBlocks.Some?
              && c == Chunk(items[i].req, NextIdx(l, items[i].req), IsLast(items[i]), items[i].newBlocks.value) {
        if i < n { assert front[i] == items[i]; }
      }
      if c in Issue(l, items) && c !in Issue(l, front) {
        assert items[n] == last;
      }
    }
  }

  /** Labelling other requests leaves `r` as it was. */
  lemma {:induction false} LabelsKept(l: Labels, items: seq<Item>, r: ReqId)
    requires forall i | 0 <= i < |items| :: items[i].req != r
    ensures r in LabelAll(l, items).needSave <==> r in l.needSave
    ensures NextIdx(LabelAll(l, items), r) == NextIdx(l, r)
  {
    if items != [] {
      LabelsKept(l, items[..|items| - 1], r);
    }
  }
}
