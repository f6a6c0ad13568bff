/** The worker methods of the chunk-ready channel, against ChunkState. */
module ChunkWorker {
  import opened Wrappers
  import opened ChunkState
  import HostStaging

  type Cache = HostStaging.Cache

  /** The chunk's blocks are in the host buffer. */
  ghost predicate Staged(c: Chunk, device: Cache, host: Cache) {
    forall b, slot: nat | b in c.blocks :: host(b, slot) == device(b, slot)
  }

  ghost predicate AllStaged(cs: seq<Chunk>, device: Cache, host: Cache) {
    forall c | c in cs :: Staged(c, device, host)
  }

  /** Blocks that are in none of the chunks. */
  ghost predicate SameElsewhere(cs: seq<Chunk>, before: Cache, after: Cache) {
    forall b: nat, slot: nat | (forall c | c in cs :: b !in c.blocks) :: after(b, slot) == before(b, slot)
  }

  /** Copying one more chunk keeps the earlier ones staged. */
  lemma StagesOneMore(cs: seq<Chunk>, c: Chunk, device: Cache, before: Cache, host: Cache)
    requires AllStaged(cs, device, host) && SameElsewhere(cs, before, host)
    ensures var host' := HostStaging.CopyToHost(device, host, c.blocks);
            AllStaged(cs + [c], device, host') && SameElsewhere(cs + [c], before, host')
  {
    var host' := HostStaging.CopyToHost(device, host, c.blocks);
    forall d | d in cs + [c] ensures Staged(d, device, host') {
      if d in cs { assert Staged(d, device, host); }
    }
    assert c in cs + [c] && forall d | d in cs :: d in cs + [c];
  }

  lemma {:induction false} BufferedAt(ps: seq<Buffer>, c: Chunk, i: nat)
    requires i <= |ps| && forall k | 0 <= k < i :: ps[k].req != c.req
    requires i < |ps| ==> ps[i].req == c.req
    ensures Buffered(ps, c)
            == if i < |ps| then ps[i := Buffer(c.req, ps[i].chunks + [c])] else ps + [Buffer(c.req, [c])]
  {
    if i > 0 {
      BufferedAt(ps[1..], c, i - 1);
    }
  }

  /** What a flush sends from one buffer. */
  function SentFrom(ch: Chan, b: Buffer): seq<Delivery> {
    match Resolve(ch, b.req)
    case Some(a) => DeliverAll(a, b.chunks)
    case None => []
  }

  function StillPending(ch: Chan, b: Buffer): seq<Chunk> {
    if Resolve(ch, b.req).None? then b.chunks else []
  }

  lemma FlushGrows(ch: Chan, ps: seq<Buffer>, i: nat)
    requires i < |ps|
    ensures FlushLog(ch, ps[..i + 1]) == FlushLog(ch, ps[..i]) + SentFrom(ch, ps[i])
    ensures var still := StillPending(ch, ps[i]);
            FlushKeeps(ch, ps[..i + 1])
            == if still == [] then FlushKeeps(ch, ps[..i]) else FlushKeeps(ch, ps[..i]) + [Buffer(ps[i].req, still)]
  {
    assert ps[..i + 1][..i] == ps[..i];
  }

  /** Only the registrations decide what a flush of one buffer does. */
  lemma SameRoute(a: Chan, b: Chan, x: Buffer)
    requires a.agents == b.agents && a.engineByReq == b.engineByReq
    ensures SentFrom(a, x) == SentFrom(b, x) && StillPending(a, x) == StillPending(b, x)
  {}

  class Worker {
    var agents: seq<Known>
    var engineByReq: map<ReqId, EngineId>
    var pending: seq<Buffer>
    var sent: seq<Delivery>
    var device: Cache                       // written by the forward passes between two saves
    var host: Cache                         // `host_xfer_buffers`

    function State(): Chan
      reads this`agents, this`engineByReq, this`pending, this`sent
    {
      Chan(agents, engineByReq, pending, sent)
    }

    constructor (device: Cache, host: Cache)
      ensures State() == Chan([], map[], [], []) && this.device == device && this.host == host
    {
      agents, engineByReq, pending, sent := [], map[], [], [];
      this.device, this.host := device, host;
    }

    method ResolveConsumerAgent(r: ReqId) returns (agent: Option<Agent>)
      ensures agent == Resolve(State(), r)
      ensures (forall q | q in engineByReq :: AgentOf(agents, engineByReq[q]).Some?) ==> (agent.None? <==> agents == [])
    {
      if r in engineByReq {
        return AgentOf(agents, engineByReq[r]);
      }
      if agents != [] {
        return Some(agents[|agents| - 1].agent);
      }
      return None;
    }

    /** False when no consumer is known for `r`; a send that keeps failing is dropped, not retried later. */
    method SendChunkReady(r: ReqId, c: Chunk) returns (ok: bool)
      modifies this`sent
      ensures ok == Resolve(State(), r).Some?
      ensures sent == old(sent) + if ok then [Delivery(Resolve(State(), r).value, c)] else []
    {
      var agent := ResolveConsumerAgent(r);
      ok := agent.Some?;
      if ok {
        sent := sent + [Delivery(agent.value, c)];
      }
    }

    /** Announces a chunk, which must be staged by then. */
    method NotifyChunkReady(c: Chunk)
      requires Staged(c, device, host)
      modifies this`sent, this`pending
      ensures State() == Notify(old(State()), c)
    {
      var ok := SendChunkReady(c.req, c);
      if ok { return; }
      var i := 0;
      while i < |pending| && pending[i].req != c.req
        invariant i <= |pending| && pending == old(pending) && sent == old(sent)
        invariant forall k | 0 <= k < i :: pending[k].req != c.req
      {
        i := i + 1;
      }
      BufferedAt(pending, c, i);
      if i < |pending| {
        pending := pending[i := Buffer(c.req, pending[i].chunks + [c])];
      } else {
        pending := pending + [Buffer(c.req, [c])];
      }
    }

    /** The try block of one registration. */
    method RegisterConsumer(g: Registration)
      modifies this`agents, this`engineByReq
      ensures State() == Register(old(State()), g)
    {
      if g.engine.None? || !g.hasMetadata { return; }
      if AgentOf(agents, g.engine.value).None? {
        if g.added.None? { return; }
        agents := agents + [Known(g.engine.value, g.added.value)];
      }
      var i := 0;
      while i < |g.reqs|
        invariant 0 <= i <= |g.reqs|
        invariant agents == Register(old(State()), g).agents
        invariant engineByReq == MapAll(old(engineByReq), g.reqs[..i], g.engine.value)
      {
        assert g.reqs[..i + 1][..i] == g.reqs[..i];
        engineByReq := engineByReq[g.reqs[i] := g.engine.value];
        i := i + 1;
      }
      assert g.reqs[..|g.reqs|] == g.reqs;
    }

    /** Send one buffer; what no consumer is known for stays. */
    method FlushBuffer(b: Buffer) returns (still: seq<Chunk>)
      modifies this`sent
      ensures sent == old(sent) + SentFrom(State(), b)
      ensures still == StillPending(State(), b)
    {
      still := [];
      var agent := ResolveConsumerAgent(b.req);
      var j := 0;
      while j < |b.chunks|
        invariant 0 <= j <= |b.chunks|
        invariant still == if agent.None? then b.chunks[..j] else []
        invariant sent == old(sent) + if agent.Some? then DeliverAll(agent.value, b.chunks[..j]) else []
      {
        assert b.chunks[..j + 1][..j] == b.chunks[..j];
        var ok := SendChunkReady(b.req, b.chunks[j]);
        if !ok { still := still + [b.chunks[j]]; }
        j := j + 1;
      }
      assert b.chunks[..|b.chunks|] == b.chunks;
    }

    /** Buffers that are still without a consumer stay, in order; the others are deleted. */
    method FlushPending()
      modifies this`sent, this`pending
      ensures sent == FlushLog(old(State()), old(pending))
      ensures pending == FlushKeeps(old(State()), old(pending))
    {
      var items, kept: seq<Buffer> := pending, [];
      var i := 0;
      ghost var ch := State();
      while i < |items|
        invariant i <= |items| && pending == kept + items[i..]
        invariant kept == FlushKeeps(ch, items[..i])
        invariant sent == FlushLog(ch, items[..i])
      {
        FlushGrows(ch, items, i);
        SameRoute(State(), ch, items[i]);
        var still := FlushBuffer(items[i]);
        if still != [] {
          kept := kept + [Buffer(items[i].req, still)];
        }
        i := i + 1;
        pending := kept + items[i..];
      }
      assert items[..|items|] == items;
    }

    method RegisterConsumers(gs: seq<Registration>)
      modifies this`agents, this`engineByReq, this`pending, this`sent
      ensures State() == ChunkState.RegisterConsumers(old(State()), gs)
    {
      var i := 0;
      while i < |gs|
        invariant 0 <= i <= |gs|
        invariant State() == RegisterAll(old(State()), gs[..i])
      {
        assert gs[..i + 1][..i] == gs[..i];
        RegisterConsumer(gs[i]);
        i := i + 1;
      }
      assert gs[..|gs|] == gs;
      if pending != [] && agents != [] {
        FlushPending();
      }
    }

    /** One round of the save loop: the blocking copy, then the announcement. */
    method SaveChunk(c: Chunk)
      modifies this`host, this`pending, this`sent
      ensures State() == Notify(old(State()), c) && host == HostStaging.CopyToHost(device, old(host), c.blocks)
    {
      host := HostStaging.CopyToHost(device, host, c.blocks);
      NotifyChunkReady(c);
    }

    /** `save_kv_to_host`. */
    method SaveKvToHost(gs: seq<Registration>, chunks: seq<Chunk>)
      modifies this`agents, this`engineByReq, this`pending, this`sent, this`host
      ensures State() == Save(old(State()), gs, chunks)
      ensures AllStaged(chunks, device, host) && SameElsewhere(chunks, old(host), host)
    {
      RegisterConsumers(gs);
      ghost var registered := State();
      var i := 0;
      while i < |chunks|
        invariant 0 <= i <= |chunks|
        invariant State() == NotifyAll(registered, chunks[..i])
        invariant AllStaged(chunks[..i], device, host) && SameElsewhere(chunks[..i], old(host), host)
      {
        assert chunks[..i + 1][..i] == chunks[..i];
        assert chunks[..i + 1] == chunks[..i] + [chunks[i]];
        StagesOneMore(chunks[..i], chunks[i], device, old(host), host);
        SaveChunk(chunks[i]);
        i := i + 1;
      }
      assert chunks[..|chunks|] == chunks;
    }
  }
}
