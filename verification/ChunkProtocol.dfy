/** Scheduler, metadata queue and worker of the chunk-ready channel together, and what every step keeps. */
module ChunkProtocol {
  import opened Wrappers
  import opened ChunkState

  datatype Meta = Meta(registrations: seq<Registration>, chunks: seq<Chunk>)

  /** State, plus history: every chunk labelled, every chunk staged by the worker, and the requests aborted
      while still to be saved. */
  datatype System = System(labels: Labels, queue: seq<Meta>, chan: Chan, issued: seq<Chunk>, staged: seq<Chunk>,
                           aborted: set<ReqId>)

  function Init(): System {
    System(Labels({}, map[]), [], Chan([], map[], [], []), [], [], {})
  }

  datatype Event =
    | Alloc(req: ReqId)                                       // update_state_after_alloc, with a host buffer
    | Abort(req: ReqId)                                       // request_finished, not length-capped
    | Build(items: seq<Item>, registrations: seq<Registration>)
    | SaveKv                                                  // the worker handles the oldest metadata

  predicate DistinctItems(items: seq<Item>) {
    forall i, j | 0 <= i < j < |items| :: items[i].req != items[j].req
  }

  ghost predicate Allowed(y: System, e: Event) {
    match e
    case Build(items, _) => DistinctItems(items)
    case SaveKv => y.queue != []
    case _ => true
  }

  function Step(y: System, e: Event): System
    requires e.SaveKv? ==> y.queue != []
  {
    match e
    case Alloc(r) => y.(labels := y.labels.(needSave := y.labels.needSave + {r}), aborted := y.aborted - {r})
    case Abort(r) =>
      y.(labels := y.labels.(needSave := y.labels.needSave - {r}),
         aborted := if r in y.labels.needSave then y.aborted + {r} else y.aborted)
    case Build(items, gs) =>
      var cs := Issue(y.labels, items);
      y.(labels := LabelAll(y.labels, items), queue := y.queue + [Meta(gs, cs)], issued := y.issued + cs)
    case SaveKv =>
      y.(queue := y.queue[1..], chan := Save(y.chan, y.queue[0].registrations, y.queue[0].chunks),
         staged := y.staged + y.queue[0].chunks)
  }

  ghost predicate Next(y: System, y': System) {
    exists e :: Allowed(y, e) && y' == Step(y, e)
  }

  ghost predicate Run(ys: seq<System>) {
    && |ys| > 0 && ys[0] == Init()
    && forall i | 0 < i < |ys| :: Next(ys[i - 1], ys[i])
  }

  /** Request ids are not reused: once a chunk of `r` was labelled and `r` is no longer to be saved, `r` is
      not allocated again. */
  ghost predicate Fresh(y: System, e: Event) {
    e.Alloc? ==> e.req in y.labels.needSave || Of(y.issued, e.req) == []
  }

  ghost predicate FreshNext(y: System, y': System) {
    exists e :: Allowed(y, e) && Fresh(y, e) && y' == Step(y, e)
  }

  ghost predicate FreshRun(ys: seq<System>) {
    && |ys| > 0 && ys[0] == Init()
    && forall i | 0 < i < |ys| :: FreshNext(ys[i - 1], ys[i])
  }

  // ----- chunks of one request, in order -----

  function Of(cs: seq<Chunk>, r: ReqId): seq<Chunk> {
    if cs == [] then [] else Of(cs[..|cs| - 1], r) + if cs[|cs| - 1].req == r then [cs[|cs| - 1]] else []
  }

  function SentOf(ds: seq<Delivery>, r: ReqId): seq<Chunk> {
    if ds == [] then []
    else SentOf(ds[..|ds| - 1], r) + if ds[|ds| - 1].chunk.req == r then [ds[|ds| - 1].chunk] else []
  }

  function PendingOf(ps: seq<Buffer>, r: ReqId): seq<Chunk> {
    if ps == [] then [] else (if ps[0].req == r then ps[0].chunks else []) + PendingOf(ps[1..], r)
  }

  function Queued(q: seq<Meta>): seq<Chunk> {
    if q == [] then [] else q[0].chunks + Queued(q[1..])
  }

  lemma {:induction false} OfAppends(a: seq<Chunk>, b: seq<Chunk>, r: ReqId)
    ensures Of(a + b, r) == Of(a, r) + Of(b, r)
  {
    if b == [] {
      assert a + b == a;
    } else {
      OfAppends(a, b[..|b| - 1], r);
      assert (a + b)[..|a + b| - 1] == a + b[..|b| - 1];
    }
  }

  lemma {:induction false} SentAppends(a: seq<Delivery>, b: seq<Delivery>, r: ReqId)
    ensures SentOf(a + b, r) == SentOf(a, r) + SentOf(b, r)
  {
    if b == [] {
      assert a + b == a;
    } else {
      SentAppends(a, b[..|b| - 1], r);
      assert (a + b)[..|a + b| - 1] == a + b[..|b| - 1];
    }
  }

  lemma {:induction false} QueuedAppends(q: seq<Meta>, m: Meta)
    ensures Queued(q + [m]) == Queued(q) + m.chunks
  {
    if q == [] {
      assert q + [m] == [m] && [m][1..] == [];
    } else {
      QueuedAppends(q[1..], m);
      assert (q + [m])[1..] == q[1..] + [m];
    }
  }

  // ----- the worker's channel -----

  /** One buffer per request, holding only that request's chunks. */
  ghost predicate BuffersOk(ps: seq<Buffer>) {
    && (forall i, j | 0 <= i < j < |ps| :: ps[i].req != ps[j].req)
    && forall i, k | 0 <= i < |ps| && 0 <= k < |ps[i].chunks| :: ps[i].chunks[k].req == ps[i].req
  }

  /** Requests are mapped only to registered engines, and nothing waits once any consumer is registered. */
  ghost predicate ChanOk(ch: Chan) {
    && (forall r | r in ch.engineByReq :: AgentOf(ch.agents, ch.engineByReq[r]).Some?)
    && BuffersOk(ch.pending)
    && (ch.agents != [] ==> ch.pending == [])
  }

  /** Sent, then buffered: together the chunks staged, per request and in order. */
  ghost predicate ChanHolds(ch: Chan, staged: seq<Chunk>) {
    forall r :: SentOf(ch.sent, r) + PendingOf(ch.pending, r) == Of(staged, r)
  }

  lemma {:induction false} AgentOfAppends(agents: seq<Known>, k: Known, e: EngineId)
    ensures AgentOf(agents + [k], e)
            == if AgentOf(agents, e).Some? then AgentOf(agents, e) else if k.engine == e then Some(k.agent) else None
  {
    if agents != [] {
      AgentOfAppends(agents[1..], k, e);
      assert (agents + [k])[1..] == agents[1..] + [k];
    }
  }

  lemma {:induction false} MapAllKeys(m: map<ReqId, EngineId>, rs: seq<ReqId>, e: EngineId, r: ReqId)
    requires r in MapAll(m, rs, e)
    ensures MapAll(m, rs, e)[r] == e || (r in m && MapAll(m, rs, e)[r] == m[r])
  {
    if rs != [] && r != rs[|rs| - 1] {
      MapAllKeys(m, rs[..|rs| - 1], e, r);
    }
  }

  /** Registrations keep requests mapped to registered engines. */
  ghost predicate Routed(ch: Chan) {
    forall r | r in ch.engineByReq :: AgentOf(ch.agents, ch.engineByReq[r]).Some?
  }

  lemma RegisterRoutes(ch: Chan, g: Registration)
    requires Routed(ch)
    ensures Routed(Register(ch, g)) && Register(ch, g).pending == ch.pending && Register(ch, g).sent == ch.sent
  {
    var ch' := Register(ch, g);
    forall r | r in ch'.engineByReq ensures AgentOf(ch'.agents, ch'.engineByReq[r]).Some? {
      if ch' != ch {
        MapAllKeys(ch.engineByReq, g.reqs, g.engine.value, r);
        if ch'.agents != ch.agents {
          AgentOfAppends(ch.agents, Known(g.engine.value, g.added.value), ch'.engineByReq[r]);
        }
      }
    }
  }

  lemma {:induction false} RegisterAllRoutes(ch: Chan, gs: seq<Registration>)
    requires Routed(ch)
    ensures Routed(RegisterAll(ch, gs)) && RegisterAll(ch, gs).pending == ch.pending
            && RegisterAll(ch, gs).sent == ch.sent
  {
    if gs != [] {
      RegisterAllRoutes(ch, gs[..|gs| - 1]);
      RegisterRoutes(RegisterAll(ch, gs[..|gs| - 1]), gs[|gs| - 1]);
    }
  }

  /** A consumer resolves exactly when any is registered. */
  lemma ResolvesOnceRegistered(ch: Chan, r: ReqId)
    requires Routed(ch)
    ensures Resolve(ch, r).Some? <==> ch.agents != []
  {}

  /** A buffer's chunks, delivered, are that request's. */
  lemma {:induction false} OwnSent(a: Agent, cs: seq<Chunk>, q: ReqId)
    requires forall k | 0 <= k < |cs| :: cs[k].req == q
    ensures SentOf(DeliverAll(a, cs), q) == cs
  {
    if cs != [] {
      var front, c := cs[..|cs| - 1], cs[|cs| - 1];
      calc {
        SentOf(DeliverAll(a, cs), q);
        SentOf(DeliverAll(a, front) + [Delivery(a, c)], q);
        { SentAppends(DeliverAll(a, front), [Delivery(a, c)], q); }
        SentOf(DeliverAll(a, front), q) + SentOf([Delivery(a, c)], q);
        { OwnSent(a, front, q); SentOfOne(Delivery(a, c), q); }
        front + [c];
        cs;
      }
    }
  }

  lemma {:induction false} OthersUnsent(a: Agent, cs: seq<Chunk>, q: ReqId, r: ReqId)
    requires q != r && forall k | 0 <= k < |cs| :: cs[k].req == q
    ensures SentOf(DeliverAll(a, cs), r) == []
  {
    if cs != [] {
      var front, c := cs[..|cs| - 1], cs[|cs| - 1];
      OthersUnsent(a, front, q, r);
      SentAppends(DeliverAll(a, front), [Delivery(a, c)], r);
      SentOfOne(Delivery(a, c), r);
    }
  }

  lemma SentOfOne(d: Delivery, r: ReqId)
    ensures SentOf([d], r) == if d.chunk.req == r then [d.chunk] else []
  {
    assert [d][..0] == [];
  }

  lemma {:induction false} PendingSnoc(ps: seq<Buffer>, b: Buffer, r: ReqId)
    ensures PendingOf(ps + [b], r) == PendingOf(ps, r) + if b.req == r then b.chunks else []
  {
    if ps == [] {
      assert ps + [b] == [b] && [b][1..] == [];
    } else {
      PendingSnoc(ps[1..], b, r);
      assert (ps + [b])[1..] == ps[1..] + [b];
    }
  }

  lemma {:induction false} FlushKeepsNone(ch: Chan, ps: seq<Buffer>)
    requires Routed(ch) && ch.agents != []
    ensures FlushKeeps(ch, ps) == []
  {
    if ps != [] {
      FlushKeepsNone(ch, ps[..|ps| - 1]);
      ResolvesOnceRegistered(ch, ps[|ps| - 1].req);
    }
  }

  ghost predicate OwnChunks(b: Buffer) {
    forall k | 0 <= k < |b.chunks| :: b.chunks[k].req == b.req
  }

  lemma SeqAssoc(a: seq<Chunk>, b: seq<Chunk>, c: seq<Chunk>)
    ensures (a + b) + c == a + (b + c)
  {}

  lemma BufferSent(ch: Chan, front: seq<Buffer>, b: Buffer, a: Agent, r: ReqId)
    requires OwnChunks(b) && Resolve(ch, b.req) == Some(a)
    ensures SentOf(FlushLog(ch, front + [b]), r) == SentOf(FlushLog(ch, front), r) + if b.req == r then b.chunks else []
  {
    var log := FlushLog(ch, front);
    assert (front + [b])[..|front|] == front;
    assert FlushLog(ch, front + [b]) == log + DeliverAll(a, b.chunks);
    SentAppends(log, DeliverAll(a, b.chunks), r);
    if b.req == r { OwnSent(a, b.chunks, r); } else { OthersUnsent(a, b.chunks, b.req, r); }
  }

  /** With a consumer registered, a flush sends every buffered chunk. */
  lemma {:induction false} FlushSendsAll(ch: Chan, ps: seq<Buffer>, r: ReqId)
    requires Routed(ch) && ch.agents != [] && forall b | b in ps :: OwnChunks(b)
    ensures SentOf(FlushLog(ch, ps), r) == SentOf(ch.sent, r) + PendingOf(ps, r)
  {
    if ps != [] {
      var front, b := ps[..|ps| - 1], ps[|ps| - 1];
      var own := if b.req == r then b.chunks else [];
      ResolvesOnceRegistered(ch, b.req);
      assert ps == front + [b] && OwnChunks(b);
      calc {
        SentOf(FlushLog(ch, front + [b]), r);
        { BufferSent(ch, front, b, Resolve(ch, b.req).value, r); }
        SentOf(FlushLog(ch, front), r) + own;
        { FlushSendsAll(ch, front, r); }
        (SentOf(ch.sent, r) + PendingOf(front, r)) + own;
        { SeqAssoc(SentOf(ch.sent, r), PendingOf(front, r), own); }
        SentOf(ch.sent, r) + (PendingOf(front, r) + own);
        { PendingSnoc(front, b, r); }
        SentOf(ch.sent, r) + PendingOf(front + [b], r);
      }
    }
  }

  lemma RegisterConsumersKeeps(ch: Chan, gs: seq<Registration>, staged: seq<Chunk>)
    requires ChanOk(ch) && ChanHolds(ch, staged)
    ensures ChanOk(RegisterConsumers(ch, gs)) && ChanHolds(RegisterConsumers(ch, gs), staged)
  {
    RegisterAllRoutes(ch, gs);
    var ch', ch'' := RegisterAll(ch, gs), RegisterConsumers(ch, gs);
    if ch'.agents != [] {
      FlushKeepsNone(ch', ch'.pending);
      forall b | b in ch'.pending ensures OwnChunks(b) {
        var k :| 0 <= k < |ch'.pending| && ch'.pending[k] == b;
      }
      forall r ensures SentOf(ch''.sent, r) + PendingOf(ch''.pending, r) == Of(staged, r) {
        FlushSendsAll(ch', ch'.pending, r);
      }
    }
  }

  lemma {:induction false} BufferedHolds(ps: seq<Buffer>, c: Chunk, r: ReqId)
    requires BuffersOk(ps)
    ensures PendingOf(Buffered(ps, c), r) == PendingOf(ps, r) + if c.req == r then [c] else []
  {
    if ps == [] {
      assert Buffered(ps, c)[1..] == [];
    } else if ps[0].req == c.req {
      assert Buffered(ps, c)[1..] == ps[1..];
      NoBuffer(ps[1..], c.req);
    } else {
      BufferedHolds(ps[1..], c, r);
      assert Buffered(ps, c)[1..] == Buffered(ps[1..], c);
    }
  }

  lemma {:induction false} NoBuffer(ps: seq<Buffer>, r: ReqId)
    requires forall i | 0 <= i < |ps| :: ps[i].req != r
    ensures PendingOf(ps, r) == []
  {
    if ps != [] { NoBuffer(ps[1..], r); }
  }

  lemma {:induction false} BufferedOk(ps: seq<Buffer>, c: Chunk)
    requires BuffersOk(ps)
    ensures BuffersOk(Buffered(ps, c))
    ensures forall i | 0 <= i < |Buffered(ps, c)| ::
              Buffered(ps, c)[i].req == c.req || exists j :: 0 <= j < |ps| && ps[j].req == Buffered(ps, c)[i].req
  {
    if ps != [] {
      var bs := Buffered(ps, c);
      if ps[0].req == c.req {
        assert forall i | 0 < i < |bs| :: bs[i] == ps[i];
      } else {
        BufferedOk(ps[1..], c);
        var rest := Buffered(ps[1..], c);
        forall i | 0 <= i < |bs| ensures bs[i].req == c.req || exists j :: 0 <= j < |ps| && ps[j].req == bs[i].req {
          if i > 0 && rest[i - 1].req != c.req {
            var j :| 0 <= j < |ps[1..]| && ps[1..][j].req == rest[i - 1].req;
            assert ps[j + 1].req == bs[i].req;
          }
        }
        forall i | 0 <= i < |rest| ensures rest[i].req != ps[0].req {
          if rest[i].req != c.req {
            var j :| 0 <= j < |ps[1..]| && ps[1..][j].req == rest[i].req;
            assert ps[j + 1].req == rest[i].req;
          }
        }
      }
    }
  }

  lemma NotifyKeeps(ch: Chan, c: Chunk, staged: seq<Chunk>)
    requires ChanOk(ch) && ChanHolds(ch, staged)
    ensures ChanOk(Notify(ch, c)) && ChanHolds(Notify(ch, c), staged + [c])
  {
    var ch' := Notify(ch, c);
    ResolvesOnceRegistered(ch, c.req);
    BufferedOk(ch.pending, c);
    forall r ensures SentOf(ch'.sent, r) + PendingOf(ch'.pending, r) == Of(staged + [c], r) {
      OfAppends(staged, [c], r);
      BufferedHolds(ch.pending, c, r);
      if ch.agents != [] { SentAppends(ch.sent, [Delivery(Resolve(ch, c.req).value, c)], r); }
    }
  }

  lemma {:induction false} NotifyAllKeeps(ch: Chan, cs: seq<Chunk>, staged: seq<Chunk>)
    requires ChanOk(ch) && ChanHolds(ch, staged)
    ensures ChanOk(NotifyAll(ch, cs)) && ChanHolds(NotifyAll(ch, cs), staged + cs)
  {
    if cs == [] {
      assert staged + cs == staged;
    } else {
      NotifyAllKeeps(ch, cs[..|cs| - 1], staged);
      NotifyKeeps(NotifyAll(ch, cs[..|cs| - 1]), cs[|cs| - 1], staged + cs[..|cs| - 1]);
      assert staged + cs == staged + cs[..|cs| - 1] + [cs[|cs| - 1]];
    }
  }
}
