/** The receive side as a transition system: requests arrive, handshakes complete, reads are set up,
    polled and reported in any interleaving. */
module ReceiveProtocol {
  import opened ReceiveState

  /** How many reads one request takes from an engine: one per target rank (one with MLA). */
  datatype Config = Config(perRequest: EngineId -> nat)

  ghost predicate ConfigOk(c: Config) {
    forall e :: c.perRequest(e) > 0
  }

  /** State and history: every request received; those dispatched to `_read_blocks_for_req`; those whose
      handshake failed; those that had nothing to read; those broken in any way; how often each was
      reported; how many reads of each completed; the block ids handed to the scheduler as invalid;
      whether the connector was shut down, and whether an assertion failed. */
  datatype System = System(s: Recv, incoming: map<ReqId, Incoming>, dispatched: seq<ReqId>, unshaken: seq<ReqId>,
                           skipped: set<ReqId>, broken: set<ReqId>, reported: multiset<ReqId>, landed: multiset<ReqId>,
                           taken: set<nat>, closed: bool, crashed: bool)

  function Init(): System {
    System(Recv(map[], [], {}, {}, [], [], {}, 0, multiset{}), map[], [], [], {}, {}, multiset{}, multiset{}, {},
           false, false)
  }

  datatype Event =
    | Receive(req: ReqId, meta: Incoming, outcomes: seq<Outcome>)
    | Drain(outcomes: seq<Outcome>)
    | Handshake(engine: EngineId, ok: bool)
    | Poll(poll: nat -> PollResult)
    | TakeErrors                                   // get_block_ids_with_load_errors
    | Close                                        // shutdown

  predicate Fails(os: seq<Outcome>) {
    exists i :: 0 <= i < |os| && (os[i].MakeFails? || os[i].StartFails?)
  }

  /** The reads of one request select the same blocks: all of them only notify, or none does. */
  predicate Shaped(os: seq<Outcome>, n: nat) {
    |os| == n && ((forall i | 0 <= i < n :: os[i].Notified?) || (forall i | 0 <= i < n :: !os[i].Notified?))
  }

  predicate AllNotified(os: seq<Outcome>) {
    forall i | 0 <= i < |os| :: os[i].Notified?
  }

  predicate AnyStarted(os: seq<Outcome>) {
    exists i :: 0 <= i < |os| && os[i].Started?
  }

  /** One read of the request started and another could not be set up. */
  predicate Mixed(os: seq<Outcome>) {
    AnyStarted(os) && Fails(os)
  }

  /** Each request arrives once; after shutdown nothing new is read, but handshakes may still complete. */
  ghost predicate Allowed(c: Config, y: System, e: Event) {
    match e
    case Receive(r, m, os) => !y.closed && r !in y.incoming && Shaped(os, c.perRequest(m.engine))
    case Drain(os) =>
      && !y.closed && y.s.ready != [] && y.s.ready[0] in y.incoming
      && Shaped(os, c.perRequest(y.incoming[y.s.ready[0]].engine))
    case Handshake(e, ok) => exists p | p in y.s.futures :: p.engine == e
    case Poll(_) => true
    case TakeErrors => true
    case Close => true
  }

  /** The bookkeeping of a dispatch of `r` on top of the worker state `s`. */
  function Dispatch(y: System, s: Recv, r: ReqId, os: seq<Outcome>): System {
    y.(s := s, dispatched := y.dispatched + [r],
       skipped := if AllNotified(os) then y.skipped + {r} else y.skipped,
       broken := if Fails(os) then y.broken + {r} else y.broken)
  }

  function Step(y: System, e: Event): System
    requires e.Drain? ==> y.s.ready != []
  {
    match e
    case Receive(r, m, os) =>
      var s' := Accept(y.s, r, m, os);
      var y' := y.(incoming := y.incoming[r := m]);
      if m.engine in y.s.agents then Dispatch(y', s', r, os) else y'.(s := s')
    case Drain(os) => Dispatch(y, DrainOne(y.s, os), y.s.ready[0], os)
    case Handshake(e, ok) =>
      var rs := WaitingOn(y.s.futures, e);
      var s' := FinishHandshake(y.s, e, ok);
      if ok then y.(s := s') else y.(s := s', unshaken := y.unshaken + rs, broken := y.broken + Members(rs))
    case Poll(poll) =>
      y.(s := Finish(y.s, poll), broken := y.broken + BrokenReqs(y.s.transfers, poll),
         reported := y.reported + multiset(Reported(y.s, poll)), landed := y.landed + Landed(y.s.transfers, poll),
         crashed := y.crashed || !MetasPresent(y.s, poll))
    case TakeErrors => y.(s := y.s.(invalid := {}), taken := y.taken + y.s.invalid)
    case Close => y.(s := Shutdown(y.s), closed := true)
  }

  ghost predicate Next(c: Config, y: System, y': System) {
    exists e :: Allowed(c, y, e) && y' == Step(y, e)
  }

  ghost predicate Run(c: Config, ys: seq<System>) {
    && |ys| > 0 && ys[0] == Init()
    && forall i | 0 < i < |ys| :: Next(c, ys[i - 1], ys[i])
  }

  /** No dispatch of this event mixes started reads with failed ones. */
  predicate Whole(e: Event) {
    match e
    case Receive(_, _, os) => !Mixed(os)
    case Drain(os) => !Mixed(os)
    case _ => true
  }

  ghost predicate WholeNext(c: Config, y: System, y': System) {
    exists e :: Allowed(c, y, e) && Whole(e) && y' == Step(y, e)
  }

  ghost predicate WholeRun(c: Config, ys: seq<System>) {
    && |ys| > 0 && ys[0] == Init()
    && forall i | 0 < i < |ys| :: WholeNext(c, ys[i - 1], ys[i])
  }
}
