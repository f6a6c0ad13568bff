/** The producer's scheduler and worker as one transition system: metadata in flight between them,
    notifications in flight from the consumers, and a clock. */
module ProducerProtocol {
  import opened Wrappers
  import opened ProducerState

  /** How a request ended. */
  datatype Fate = Delayed(expires: real) | Freed

  /** A completion notification: the id form it carries, the request and consumer rank it is about. */
  datatype Note = Note(tag: string, req: ReqId, reader: nat)

  datatype Report = Report(req: ReqId, byExpiry: bool, at: real)

  /** When a consumer may notify about a request: only after it ended with delayed free; at any time after
      its last batch entry reached the worker; or even before it is scheduled once more. */
  datatype Timing = AfterFinish | AfterBatch | Anytime

  /** `ids` are the request ids that the deployment ever schedules. */
  datatype Config = Config(timeout: real, world: nat, rank: nat, consumers: ReqId -> nat, ids: ReqId -> bool,
                           timing: Timing)

  ghost predicate ConfigOk(c: Config) {
    c.timeout >= 0.0 && c.rank < c.world && forall r :: TpSizesDivide(c.consumers(r), c.world)
  }

  /** No two ids share a UUID. */
  ghost predicate Apart(c: Config) {
    forall a, b | c.ids(a) && c.ids(b) && SharesUuid(a, b) :: a == b
  }

  /** What the deployment has to guarantee. */
  ghost predicate Clean(c: Config) {
    ConfigOk(c) && Apart(c) && !c.timing.Anytime?
  }

  /** Consumer ranks that read request r from this producer rank. */
  function ReadersOf(c: Config, r: ReqId): set<nat>
    requires c.consumers(r) > 0 && c.world > 0
  {
    Readers(c.consumers(r), c.world, c.rank)
  }

  datatype System = System(
    needSend: seq<Entry>, inBatch: set<ReqId>, notProcessed: set<ReqId>,     // scheduler
    queue: seq<Meta>,                                                       // metadata not yet consumed
    work: Work,                                                             // worker
    now: real,
    scheduled: set<ReqId>, fates: map<ReqId, Fate>,                         // what happened to requests
    sent: set<(ReqId, nat)>, inflight: set<Note>, counted: set<(ReqId, nat)>, // notifications by (request, reader)
    reports: seq<Report>)                                                   // everything ever put in done_sending

  function Init(): System {
    System([], {}, {}, [], Work({}, [], map[]), 0.0, {}, map[], {}, {}, {}, [])
  }

  datatype Event =
    | Schedule(req: ReqId)                               // update_state_after_alloc of a remote-decode request
    | Finish(req: ReqId, capped: bool, blocks: nat)      // request_finished
    | Build                                              // build_connector_meta
    | LoadMeta                                           // start_load_kv
    | Tick(d: real)
    | Send(note: Note)                                   // a consumer rank finished reading
    | Deliver(note: Note, pick: Option<ReqId>)           // _get_new_notifs handles one notification
    | ExpireDue                                          // the expiry loop of get_finished

  /** Batch entries the worker has not consumed yet. */
  function PendingBatch(queue: seq<Meta>, inBatch: set<ReqId>): set<ReqId> {
    if queue == [] then inBatch else queue[0].inBatch + PendingBatch(queue[1..], inBatch)
  }

  predicate Reported(s: System, r: ReqId) {
    exists i :: 0 <= i < |s.reports| && s.reports[i].req == r
  }

  /** A consumer may name a request by another id form that embeds the same UUID. */
  predicate TagOf(tag: string, r: ReqId) {
    tag == r || (FindUuid(tag).Some? && Contains(r, FindUuid(tag).value))
  }

  predicate DelayedIn(s: System, r: ReqId) {
    r in s.fates && s.fates[r].Delayed?
  }

  predicate Notified(s: System, r: ReqId) {
    exists p :: p in s.sent && p.0 == r
  }

  /** What may happen: a request is scheduled only before it ends and, unless anything goes, before anyone
      notifies about it; it ends once; a capped request was scheduled; a consumer rank notifies once, about
      a request it reads, after the worker consumed that request's batch entries. */
  ghost predicate Allowed(c: Config, s: System, e: Event)
    requires ConfigOk(c)
  {
    match e
    case Schedule(r) => r !in s.fates && c.ids(r) && (c.timing.Anytime? || !Notified(s, r))
    case Finish(r, capped, blocks) => r !in s.fates && (capped ==> r in s.scheduled)
    case Build => true
    case LoadMeta => s.queue != []
    case Tick(d) => d >= 0.0
    case Send(n) =>
      && n.req in s.scheduled && n.req !in PendingBatch(s.queue, s.inBatch)
      && (c.timing.AfterFinish? ==> DelayedIn(s, n.req))
      && n.reader in ReadersOf(c, n.req) && TagOf(n.tag, n.req) && (n.req, n.reader) !in s.sent
    case Deliver(n, pick) => n in s.inflight && Resolves(s.work, n.tag, pick)
    case ExpireDue => true
  }

  function Fated(s: System, r: ReqId, capped: bool, blocks: nat, timeout: real): System {
    if !capped then s.(notProcessed := s.notProcessed + {r}, fates := s.fates[r := Freed])
    else if blocks > 0 then
      s.(needSend := Put(s.needSend, r, s.now + timeout), fates := s.fates[r := Delayed(s.now + timeout)])
    else s.(fates := s.fates[r := Freed])
  }

  function NeededFor(c: Config, r: ReqId): nat
    requires c.consumers(r) > 0 && c.world > 0
  {
    Required(c.consumers(r), c.world)
  }

  function Delivered(c: Config, s: System, n: Note, pick: Option<ReqId>): System
    requires c.consumers(n.req) > 0 && c.world > 0
  {
    var s' := s.(inflight := s.inflight - {n});
    match pick
    case None => s'
    case Some(r) =>
      s'.(work := Credit(s.work, r, NeededFor(c, n.req)), counted := s.counted + {(r, n.reader)},
          reports := s.reports + if Releases(s.work, r, NeededFor(c, n.req)) then [Report(r, false, s.now)] else [])
  }

  function ExpiryReports(d: seq<Entry>, now: real): (rs: seq<Report>)
    ensures |rs| == |d| && forall i | 0 <= i < |d| :: rs[i] == Report(d[i].req, true, now)
  {
    seq(|d|, i requires 0 <= i < |d| => Report(d[i].req, true, now))
  }

  function Step(c: Config, s: System, e: Event): System
    requires forall r :: c.consumers(r) > 0
    requires c.world > 0 && (e.LoadMeta? ==> s.queue != [])
  {
    match e
    case Schedule(r) => s.(inBatch := s.inBatch + {r}, scheduled := s.scheduled + {r})
    case Finish(r, capped, blocks) => Fated(s, r, capped, blocks, c.timeout)
    case Build =>
      s.(needSend := [], inBatch := {}, notProcessed := {},
         queue := s.queue + [Meta(s.needSend, s.inBatch, s.notProcessed)])
    case LoadMeta => s.(queue := s.queue[1..], work := Load(s.work, s.queue[0]))
    case Tick(d) => s.(now := s.now + d)
    case Send(n) => s.(sent := s.sent + {(n.req, n.reader)}, inflight := s.inflight + {n})
    case Deliver(n, pick) => Delivered(c, s, n, pick)
    case ExpireDue =>
      s.(work := Expire(s.work, s.now),
         reports := s.reports + ExpiryReports(s.work.toSend[..DueCount(s.work.toSend, s.now)], s.now))
  }

  ghost predicate Next(c: Config, s: System, s': System)
    requires ConfigOk(c)
  {
    exists e :: Allowed(c, s, e) && s' == Step(c, s, e)
  }
}
