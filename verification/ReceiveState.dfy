/** The consumer's bookkeeping of requests whose KV blocks it receives: waiting for a handshake, queued
    ready, in transfer, failed. NIXL is an oracle: set-up and polling results are parameters. */
module ReceiveState {
  import opened Wrappers

  type ReqId = string
  type EngineId = string

  /** What a request receives: from which engine, into which (logical) local blocks. */
  datatype Incoming = Incoming(engine: EngineId, blocks: seq<nat>)

  /** An entry of `_recving_transfers`. */
  datatype Xfer = Xfer(req: ReqId, handles: seq<nat>)

  /** An entry of `_handshake_futures` with the requests whose callbacks wait on it. */
  datatype Pending = Pending(engine: EngineId, waiting: seq<ReqId>)

  /** How one `_read_blocks` call ends. */
  datatype Outcome =
    | Notified                   // nothing to read: the producer is only notified
    | MakeFails                  // no handle was made
    | StartFails                 // a handle was made but the transfer did not start
    | Started

  datatype PollResult = Done | Proc | Broken

  /** The worker's fields, plus the handles NIXL made (0, 1, ..., nextHandle - 1) and those released. */
  datatype Recv = Recv(
    metas: map<ReqId, Incoming>,
    transfers: seq<Xfer>,
    failed: set<ReqId>,
    invalid: set<nat>,
    ready: seq<ReqId>,
    futures: seq<Pending>,
    agents: set<EngineId>,
    nextHandle: nat,
    released: multiset<nat>)

  function Blocks(metas: map<ReqId, Incoming>, r: ReqId): set<nat> {
    if r in metas then set b | b in metas[r].blocks else {}
  }

  // ----- posting the reads of a request -----

  /** Append a handle to a request's list, creating the list on first use. */
  function AddHandle(ts: seq<Xfer>, r: ReqId, h: nat): seq<Xfer> {
    if ts == [] then [Xfer(r, [h])]
    else if ts[0].req == r then [Xfer(r, ts[0].handles + [h])] + ts[1..]
    else [ts[0]] + AddHandle(ts[1..], r, h)
  }

  function ReadOne(s: Recv, r: ReqId, o: Outcome): Recv {
    match o
    case Notified => s
    case Started => s.(transfers := AddHandle(s.transfers, r, s.nextHandle), nextHandle := s.nextHandle + 1)
    case MakeFails => s.(invalid := s.invalid + Blocks(s.metas, r), failed := s.failed + {r})
    case StartFails =>
      s.(invalid := s.invalid + Blocks(s.metas, r), failed := s.failed + {r},
         released := s.released + multiset{s.nextHandle}, nextHandle := s.nextHandle + 1)
  }

  /** `_read_blocks_for_req`: one read per target rank. */
  function ReadAll(s: Recv, r: ReqId, os: seq<Outcome>): Recv {
    if os == [] then s else ReadOne(ReadAll(s, r, os[..|os| - 1]), r, os[|os| - 1])
  }

  // ----- handshakes -----

  /** Wait on the engine's pending handshake, submitting one if there is none. */
  function Await(fs: seq<Pending>, e: EngineId, r: ReqId): seq<Pending> {
    if fs == [] then [Pending(e, [r])]
    else if fs[0].engine == e then [Pending(e, fs[0].waiting + [r])] + fs[1..]
    else [fs[0]] + Await(fs[1..], e, r)
  }

  function WaitingOn(fs: seq<Pending>, e: EngineId): seq<ReqId> {
    if fs == [] then [] else if fs[0].engine == e then fs[0].waiting else WaitingOn(fs[1..], e)
  }

  function Completed(fs: seq<Pending>, e: EngineId): seq<Pending> {
    if fs == [] then [] else if fs[0].engine == e then fs[1..] else [fs[0]] + Completed(fs[1..], e)
  }

  function AllBlocks(metas: map<ReqId, Incoming>, rs: seq<ReqId>): set<nat> {
    if rs == [] then {} else AllBlocks(metas, rs[..|rs| - 1]) + Blocks(metas, rs[|rs| - 1])
  }

  function Members(rs: seq<ReqId>): set<ReqId> {
    set r | r in rs
  }

  /** The callbacks of a completed handshake: first the engine's own, then one per waiting request. */
  function FinishHandshake(s: Recv, e: EngineId, ok: bool): Recv {
    var rs := WaitingOn(s.futures, e);
    if ok then s.(futures := Completed(s.futures, e), agents := s.agents + {e}, ready := s.ready + rs)
    else
      s.(futures := Completed(s.futures, e), invalid := s.invalid + AllBlocks(s.metas, rs),
         failed := s.failed + Members(rs))
  }

  /** `start_load_kv` for one request: remember it; read if its engine is known, wait otherwise. */
  function Accept(s: Recv, r: ReqId, m: Incoming, os: seq<Outcome>): Recv {
    var s' := s.(metas := s.metas[r := m]);
    if m.engine in s.agents then ReadAll(s', r, os) else s'.(futures := Await(s.futures, m.engine, r))
  }

  /** `start_load_kv` for the head of the ready queue. */
  function DrainOne(s: Recv, os: seq<Outcome>): Recv
    requires s.ready != []
  {
    ReadAll(s.(ready := s.ready[1..]), s.ready[0], os)
  }

  // ----- polling -----

  function StillRunning(hs: seq<nat>, poll: nat -> PollResult): seq<nat> {
    if hs == [] then [] else (if poll(hs[0]) == Proc then [hs[0]] else []) + StillRunning(hs[1..], poll)
  }

  function Ended(hs: seq<nat>, poll: nat -> PollResult): multiset<nat> {
    if hs == [] then multiset{}
    else (if poll(hs[0]) == Proc then multiset{} else multiset{hs[0]}) + Ended(hs[1..], poll)
  }

  predicate AnyBroken(hs: seq<nat>, poll: nat -> PollResult) {
    exists i :: 0 <= i < |hs| && poll(hs[i]) == Broken
  }

  function StillIn(t: Xfer, poll: nat -> PollResult): seq<Xfer> {
    if StillRunning(t.handles, poll) == [] then [] else [Xfer(t.req, StillRunning(t.handles, poll))]
  }

  function Running(ts: seq<Xfer>, poll: nat -> PollResult): seq<Xfer> {
    if ts == [] then [] else StillIn(ts[0], poll) + Running(ts[1..], poll)
  }

  function EndedReqs(ts: seq<Xfer>, poll: nat -> PollResult): set<ReqId> {
    set t | t in ts && StillRunning(t.handles, poll) == [] :: t.req
  }

  function BrokenReqs(ts: seq<Xfer>, poll: nat -> PollResult): set<ReqId> {
    set t | t in ts && AnyBroken(t.handles, poll) :: t.req
  }

  function EndedHandles(ts: seq<Xfer>, poll: nat -> PollResult): multiset<nat> {
    if ts == [] then multiset{} else Ended(ts[0].handles, poll) + EndedHandles(ts[1..], poll)
  }

  /** One copy of `r` for each of its handles that completed. */
  function LandedOf(t: Xfer, poll: nat -> PollResult): multiset<ReqId>
    decreases |t.handles|
  {
    if t.handles == [] then multiset{}
    else
      (if poll(t.handles[0]) == Done then multiset{t.req} else multiset{})
      + LandedOf(Xfer(t.req, t.handles[1..]), poll)
  }

  function Landed(ts: seq<Xfer>, poll: nat -> PollResult): multiset<ReqId> {
    if ts == [] then multiset{} else LandedOf(ts[0], poll) + Landed(ts[1..], poll)
  }

  function BlocksOf(metas: map<ReqId, Incoming>, rs: set<ReqId>): set<nat> {
    set r, b | r in rs && r in metas && b in metas[r].blocks :: b
  }

  /** `_pop_done_transfers`: release every handle that ended, keep the rest. */
  function PopDone(s: Recv, poll: nat -> PollResult): Recv {
    s.(transfers := Running(s.transfers, poll), released := s.released + EndedHandles(s.transfers, poll),
       invalid := s.invalid + BlocksOf(s.metas, BrokenReqs(s.transfers, poll)))
  }

  /** What `get_finished` reports as received. */
  function Reported(s: Recv, poll: nat -> PollResult): set<ReqId> {
    EndedReqs(s.transfers, poll) + s.failed
  }

  /** `get_finished` asserts that a reported request still has its metadata. */
  predicate MetasPresent(s: Recv, poll: nat -> PollResult) {
    Reported(s, poll) <= s.metas.Keys
  }

  function Finish(s: Recv, poll: nat -> PollResult): Recv {
    PopDone(s, poll).(failed := {}, metas := s.metas - Reported(s, poll))
  }

  // ----- shutdown -----

  lemma Assoc(a: multiset<nat>, b: multiset<nat>, c: multiset<nat>)
    ensures (a + b) + c == a + (b + c) == (a + c) + b
  {}

  function Outstanding(ts: seq<Xfer>): multiset<nat> {
    if ts == [] then multiset{} else multiset(ts[0].handles) + Outstanding(ts[1..])
  }

  function Shutdown(s: Recv): Recv {
    s.(transfers := [], released := s.released + Outstanding(s.transfers), agents := {})
  }
}
