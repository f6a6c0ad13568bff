/** The chunk-ready channel: the scheduler labels each staged prefill chunk, the worker sends or buffers a
    notification for it. */
module ChunkState {
  import opened Wrappers

  type ReqId = string
  type EngineId = string
  type Agent = string

  datatype Chunk = Chunk(req: ReqId, idx: nat, last: bool, blocks: seq<nat>)

  // ----- scheduler -----

  /** What the scheduler output says of one scheduled request. */
  datatype Item = Item(req: ReqId, newBlocks: Option<seq<nat>>, computed: nat, scheduled: nat, prompt: nat)

  /** `_reqs_need_save` and `_save_chunk_counter`. */
  datatype Labels = Labels(needSave: set<ReqId>, counter: map<ReqId, nat>)

  function NextIdx(l: Labels, r: ReqId): nat {
    if r in l.counter then l.counter[r] else 0
  }

  predicate IsLast(i: Item) {
    i.computed + i.scheduled >= i.prompt
  }

  predicate Saves(l: Labels, i: Item) {
    i.req in l.needSave && i.newBlocks.Some?
  }

  function ChunkOf(l: Labels, i: Item): Chunk
    requires Saves(l, i)
  {
    Chunk(i.req, NextIdx(l, i.req), IsLast(i), i.newBlocks.value)
  }

  /** The body of the save loop of `build_connector_meta`. */
  function LabelOne(l: Labels, i: Item): Labels {
    if !Saves(l, i) then l
    else if IsLast(i) then Labels(l.needSave - {i.req}, l.counter - {i.req})
    else l.(counter := l.counter[i.req := NextIdx(l, i.req) + 1])
  }

  function LabelAll(l: Labels, items: seq<Item>): Labels {
    if items == [] then l else LabelOne(LabelAll(l, items[..|items| - 1]), items[|items| - 1])
  }

  function Issue(l: Labels, items: seq<Item>): seq<Chunk> {
    if items == [] then []
    else
      var before, i := LabelAll(l, items[..|items| - 1]), items[|items| - 1];
      Issue(l, items[..|items| - 1]) + if Saves(before, i) then [ChunkOf(before, i)] else []
  }

  // ----- worker -----

  /** A consumer's registration; `added` is what NIXL's add_remote_agent answers, None when it raises. */
  datatype Registration = Registration(engine: Option<EngineId>, hasMetadata: bool, added: Option<Agent>,
                                       reqs: seq<ReqId>)

  datatype Known = Known(engine: EngineId, agent: Agent)

  /** An entry of `_pending_chunk_notifs`. */
  datatype Buffer = Buffer(req: ReqId, chunks: seq<Chunk>)

  datatype Delivery = Delivery(agent: Agent, chunk: Chunk)

  /** The worker's channel fields, and the log of chunks handed to `send_notif`. */
  datatype Chan = Chan(agents: seq<Known>, engineByReq: map<ReqId, EngineId>, pending: seq<Buffer>, sent: seq<Delivery>)

  function AgentOf(agents: seq<Known>, e: EngineId): Option<Agent> {
    if agents == [] then None else if agents[0].engine == e then Some(agents[0].agent) else AgentOf(agents[1..], e)
  }

  /** `_resolve_consumer_agent`: the request's own engine, else the newest registration. */
  function Resolve(ch: Chan, r: ReqId): Option<Agent> {
    if r in ch.engineByReq then AgentOf(ch.agents, ch.engineByReq[r])
    else if ch.agents != [] then Some(ch.agents[|ch.agents| - 1].agent)
    else None
  }

  function Buffered(ps: seq<Buffer>, c: Chunk): seq<Buffer> {
    if ps == [] then [Buffer(c.req, [c])]
    else if ps[0].req == c.req then [Buffer(c.req, ps[0].chunks + [c])] + ps[1..]
    else [ps[0]] + Buffered(ps[1..], c)
  }

  /** `_notify_chunk_ready`: send, or buffer while the consumer is unknown. */
  function Notify(ch: Chan, c: Chunk): Chan {
    match Resolve(ch, c.req)
    case Some(a) => ch.(sent := ch.sent + [Delivery(a, c)])
    case None => ch.(pending := Buffered(ch.pending, c))
  }

  function NotifyAll(ch: Chan, cs: seq<Chunk>): Chan {
    if cs == [] then ch else Notify(NotifyAll(ch, cs[..|cs| - 1]), cs[|cs| - 1])
  }

  function MapAll(m: map<ReqId, EngineId>, rs: seq<ReqId>, e: EngineId): map<ReqId, EngineId> {
    if rs == [] then m else MapAll(m, rs[..|rs| - 1], e)[rs[|rs| - 1] := e]
  }

  /** One registration; a failing add_remote_agent leaves everything as it was. */
  function Register(ch: Chan, g: Registration): Chan {
    if g.engine.None? || !g.hasMetadata then ch
    else if AgentOf(ch.agents, g.engine.value).Some? then
      ch.(engineByReq := MapAll(ch.engineByReq, g.reqs, g.engine.value))
    else if g.added.None? then ch
    else ch.(agents := ch.agents + [Known(g.engine.value, g.added.value)],
             engineByReq := MapAll(ch.engineByReq, g.reqs, g.engine.value))
  }

  function RegisterAll(ch: Chan, gs: seq<Registration>): Chan {
    if gs == [] then ch else Register(RegisterAll(ch, gs[..|gs| - 1]), gs[|gs| - 1])
  }

  function DeliverAll(a: Agent, cs: seq<Chunk>): seq<Delivery> {
    if cs == [] then [] else DeliverAll(a, cs[..|cs| - 1]) + [Delivery(a, cs[|cs| - 1])]
  }

  /** The log of sends after flushing the buffers `ps` in order, and the buffers that stay. */
  function FlushLog(ch: Chan, ps: seq<Buffer>): seq<Delivery> {
    if ps == [] then ch.sent
    else
      match Resolve(ch, ps[|ps| - 1].req)
      case Some(a) => FlushLog(ch, ps[..|ps| - 1]) + DeliverAll(a, ps[|ps| - 1].chunks)
      case None => FlushLog(ch, ps[..|ps| - 1])
  }

  function FlushKeeps(ch: Chan, ps: seq<Buffer>): seq<Buffer> {
    if ps == [] then []
    else
      FlushKeeps(ch, ps[..|ps| - 1])
      + if Resolve(ch, ps[|ps| - 1].req).None? && ps[|ps| - 1].chunks != [] then [ps[|ps| - 1]] else []
  }

  /** `_register_consumers`: register, then flush the buffers once any consumer is known. */
  function RegisterConsumers(ch: Chan, gs: seq<Registration>): Chan {
    var ch' := RegisterAll(ch, gs);
    if ch'.agents == [] then ch'
    else ch'.(sent := FlushLog(ch', ch'.pending), pending := FlushKeeps(ch', ch'.pending))
  }

  /** The channel's part of `save_kv_to_host`. */
  function Save(ch: Chan, gs: seq<Registration>, cs: seq<Chunk>): Chan {
    NotifyAll(RegisterConsumers(ch, gs), cs)
  }
}
