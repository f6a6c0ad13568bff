/** Notifications and reports, as long as no two ids share a UUID: nothing is released early, and a late
    notification changes nothing. When consumers notify, and whether a request is scheduled again after
    that, does not matter. */
module ProducerSafety {
  import opened Wrappers
  import opened ProducerState
  import opened ProducerProtocol
  import opened ProducerCore

  ghost predicate ProcessedOk(c: Config, s: System) {
    && s.work.toProcess <= s.scheduled && PendingBatch(s.queue, s.inBatch) <= s.scheduled
    && forall r | r in s.scheduled :: c.ids(r)
  }

  // ----- notifications -----

  function CountedBy(s: System, r: ReqId): set<nat> {
    set p | p in s.counted && p.0 == r :: p.1
  }

  ghost predicate SentFor(c: Config, s: System, r: ReqId, j: nat)
    requires ConfigOk(c)
  {
    r in s.scheduled && j in ReadersOf(c, r)
  }

  ghost predicate FlightOk(c: Config, s: System)
    requires ConfigOk(c)
  {
    && (forall n | n in s.inflight ::
          (n.req, n.reader) in s.sent && (n.req, n.reader) !in s.counted && TagOf(n.tag, n.req))
    && (forall n, m | n in s.inflight && m in s.inflight && n.req == m.req && n.reader == m.reader :: n == m)
    && s.counted <= s.sent && forall p | p in s.sent :: SentFor(c, s, p.0, p.1)
  }

  /** No count exceeds the readers that were counted. */
  ghost predicate TallyOk(s: System) {
    forall r :: CountOf(s.work, r) <= |CountedBy(s, r)|
  }

  // ----- reports -----

  ghost predicate AllCounted(c: Config, s: System, r: ReqId)
    requires ConfigOk(c)
  {
    forall j | j in ReadersOf(c, r) :: (r, j) in s.counted
  }

  /** The worker has dropped r and is not going to take it up again. */
  ghost predicate Gone(s: System, r: ReqId) {
    r !in s.work.toProcess && r !in PendingBatch(s.queue, s.inBatch)
  }

  ghost predicate ReportOk(c: Config, s: System, p: Report)
    requires ConfigOk(c)
  {
    && p.at <= s.now
    && (if p.byExpiry then DelayedIn(s, p.req) && s.fates[p.req].expires <= p.at && Gone(s, p.req)
        else AllCounted(c, s, p.req))
  }

  ghost predicate ReportedOk(c: Config, s: System)
    requires ConfigOk(c)
  {
    forall i | 0 <= i < |s.reports| :: ReportOk(c, s, s.reports[i])
  }

  ghost predicate Safe(c: Config, s: System)
    requires ConfigOk(c)
  {
    Core(c, s) && ProcessedOk(c, s) && FlightOk(c, s) && TallyOk(s) && ReportedOk(c, s)
  }

  lemma InitSafe(c: Config)
    requires ConfigOk(c)
    ensures Safe(c, Init())
  {
    InitCore(c);
  }

  // ----- what a step does not touch -----

  /** Fates are final, and time passes. */
  ghost predicate Later(s: System, s': System) {
    s.now <= s'.now && s.counted <= s'.counted && forall r | r in s.fates :: r in s'.fates && s'.fates[r] == s.fates[r]
  }

  /** A request that ended is not taken up again. */
  ghost predicate StaysGone(s: System, s': System) {
    forall r | r in s.fates && Gone(s, r) :: Gone(s', r)
  }

  lemma ReportStays(c: Config, s: System, s': System, p: Report)
    requires ConfigOk(c) && ReportOk(c, s, p) && Later(s, s') && StaysGone(s, s')
    ensures ReportOk(c, s', p)
  {}

  lemma ReportedStays(c: Config, s: System, s': System)
    requires ConfigOk(c) && ReportedOk(c, s) && Later(s, s') && StaysGone(s, s') && s'.reports == s.reports
    ensures ReportedOk(c, s')
  {
    forall i | 0 <= i < |s'.reports| ensures ReportOk(c, s', s'.reports[i]) {
      ReportStays(c, s, s', s.reports[i]);
    }
  }

  lemma FlightStays(c: Config, s: System, s': System)
    requires ConfigOk(c) && FlightOk(c, s) && s.scheduled <= s'.scheduled
    requires s'.inflight == s.inflight && s'.sent == s.sent && s'.counted == s.counted
    ensures FlightOk(c, s')
  {
    forall p | p in s'.sent ensures SentFor(c, s', p.0, p.1) {
      assert SentFor(c, s, p.0, p.1);
    }
  }

  lemma TallyStays(s: System, s': System)
    requires TallyOk(s) && s'.work.counts == s.work.counts && s'.counted == s.counted
    ensures TallyOk(s')
  {
    assert forall r :: CountedBy(s', r) == CountedBy(s, r) && CountOf(s'.work, r) == CountOf(s.work, r);
  }

  /** A step that neither sends, delivers nor releases. */
  lemma QuietStep(c: Config, s: System, s': System)
    requires ConfigOk(c) && Safe(c, s) && Later(s, s') && StaysGone(s, s') && s.scheduled <= s'.scheduled
    requires Core(c, s') && ProcessedOk(c, s')
    requires s'.inflight == s.inflight && s'.sent == s.sent && s'.counted == s.counted
    requires s'.work.counts == s.work.counts && s'.reports == s.reports
    ensures Safe(c, s')
  {
    FlightStays(c, s, s');
    TallyStays(s, s');
    ReportedStays(c, s, s');
  }

  // ----- scheduler, worker and clock -----

  lemma ScheduleSafe(c: Config, s: System, r: ReqId)
    requires ConfigOk(c) && Safe(c, s) && Allowed(c, s, Schedule(r))
    ensures Safe(c, Step(c, s, Schedule(r)))
  {
    var s' := Step(c, s, Schedule(r));
    ScheduleCore(c, s, r);
    BatchAdd(s.queue, s.inBatch, r);
    QuietStep(c, s, s');
  }

  lemma FinishSafe(c: Config, s: System, r: ReqId, capped: bool, blocks: nat)
    requires ConfigOk(c) && Safe(c, s) && Allowed(c, s, Finish(r, capped, blocks))
    ensures Safe(c, Step(c, s, Finish(r, capped, blocks)))
  {
    FinishCore(c, s, r, capped, blocks);
    QuietStep(c, s, Step(c, s, Finish(r, capped, blocks)));
  }

  lemma BuildSafe(c: Config, s: System)
    requires ConfigOk(c) && Safe(c, s)
    ensures Safe(c, Step(c, s, Build))
  {
    BuildCore(c, s);
    Enqueue(s.queue, Meta(s.needSend, s.inBatch, s.notProcessed));
    QuietStep(c, s, Step(c, s, Build));
  }

  lemma LoadSafe(c: Config, s: System)
    requires ConfigOk(c) && Safe(c, s) && s.queue != []
    ensures Safe(c, Step(c, s, LoadMeta))
  {
    LoadCore(c, s);
    QuietStep(c, s, Step(c, s, LoadMeta));
  }

  lemma TickSafe(c: Config, s: System, d: real)
    requires ConfigOk(c) && Safe(c, s) && d >= 0.0
    ensures Safe(c, Step(c, s, Tick(d)))
  {
    StepCore(c, s, Tick(d));
    QuietStep(c, s, Step(c, s, Tick(d)));
  }

  lemma ExpireTally(c: Config, s: System)
    requires ConfigOk(c) && TallyOk(s)
    ensures TallyOk(Step(c, s, ExpireDue))
  {
    var s' := Step(c, s, ExpireDue);
    assert forall r :: CountedBy(s', r) == CountedBy(s, r) && CountOf(s'.work, r) <= CountOf(s.work, r);
  }

  /** A due entry is that of a delayed request that no batch entry follows. */
  lemma DueIsDelayed(c: Config, s: System, e: Entry)
    requires ConfigOk(c) && Core(c, s) && e in Due(s)
    ensures DelayedIn(s, e.req) && s.fates[e.req].expires <= s.now
    ensures e.req in s.work.toProcess && Gone(Step(c, s, ExpireDue), e.req)
  {
    ExpireShape(c, s);
    assert e in s.work.toSend && e.req in Keys(s.work.toSend) && e.req in Keys(Due(s));
  }

  lemma ExpireReports(c: Config, s: System)
    requires ConfigOk(c) && Core(c, s) && ReportedOk(c, s)
    ensures ReportedOk(c, Step(c, s, ExpireDue))
  {
    var s' := Step(c, s, ExpireDue);
    forall i | 0 <= i < |s'.reports| ensures ReportOk(c, s', s'.reports[i]) {
      if i < |s.reports| {
        ReportStays(c, s, s', s.reports[i]);
      } else {
        DueIsDelayed(c, s, Due(s)[i - |s.reports|]);
      }
    }
  }

  lemma ExpireSafe(c: Config, s: System)
    requires ConfigOk(c) && Safe(c, s)
    ensures Safe(c, Step(c, s, ExpireDue))
  {
    ExpireCore(c, s);
    FlightStays(c, s, Step(c, s, ExpireDue));
    ExpireTally(c, s);
    ExpireReports(c, s);
  }

  // ----- sending and delivering -----

  lemma SendSafe(c: Config, s: System, n: Note)
    requires ConfigOk(c) && Safe(c, s) && Allowed(c, s, Send(n))
    ensures Safe(c, Step(c, s, Send(n)))
  {
    var s' := Step(c, s, Send(n));
    StepCore(c, s, Send(n));
    forall p | p in s'.sent ensures SentFor(c, s', p.0, p.1) {
      if p in s.sent { assert SentFor(c, s, p.0, p.1); }
    }
    TallyStays(s, s');
    ReportedStays(c, s, s');
  }

  lemma LiveIsProcessed(c: Config, s: System, r: ReqId)
    requires ConfigOk(c) && Core(c, s)
    ensures Live(s.work, r) <==> r in s.work.toProcess
  {}

  /** A live request whose id contains the UUID of a note's tag is the note's own request. */
  lemma OnlyOwnMatches(c: Config, s: System, n: Note, x: ReqId)
    requires ConfigOk(c) && Apart(c) && Safe(c, s) && n in s.inflight && Live(s.work, x)
    requires FindUuid(n.tag).Some? && Contains(x, FindUuid(n.tag).value)
    ensures x == n.req
  {
    FoundIsContained(n.tag);
    LiveIsProcessed(c, s, x);
    assert SentFor(c, s, n.req, n.reader);
    assert IsUuid(FindUuid(n.tag).value);
    assert SharesUuid(x, n.req);
  }

  /** A notification is credited to its own request while that is processed, else to nobody. */
  lemma ResolvesToOwn(c: Config, s: System, n: Note, pick: Option<ReqId>)
    requires ConfigOk(c) && Apart(c) && Safe(c, s) && n in s.inflight && Resolves(s.work, n.tag, pick)
    ensures pick == if n.req in s.work.toProcess then Some(n.req) else None
  {
    FoundIsContained(n.tag);
    LiveIsProcessed(c, s, n.tag);
    if Live(s.work, n.tag) {
      if n.tag != n.req {
        OnlyOwnMatches(c, s, n, n.tag);
      }
    } else if FindUuid(n.tag).Some? {
      var u := FindUuid(n.tag).value;
      assert Contains(n.req, u);
      forall x | x in Matches(s.work, u)
        ensures x == n.req
      {
        OnlyOwnMatches(c, s, n, x);
      }
      if n.req in s.work.toProcess {
        assert n.req in Matches(s.work, u);
      }
    }
  }

  /** Counting a note adds its reader to the counted readers of its request only. */
  lemma CountedGrows(s: System, s': System, n: Note)
    requires s'.counted == s.counted + {(n.req, n.reader)} && (n.req, n.reader) !in s.counted
    ensures |CountedBy(s', n.req)| == |CountedBy(s, n.req)| + 1
    ensures forall x | x != n.req :: CountedBy(s', x) == CountedBy(s, x)
  {
    assert CountedBy(s', n.req) == CountedBy(s, n.req) + {n.reader};
  }

  lemma CreditTally(c: Config, s: System, n: Note)
    requires ConfigOk(c) && FlightOk(c, s) && TallyOk(s) && n in s.inflight
    ensures TallyOk(Delivered(c, s, n, Some(n.req)))
  {
    CountedGrows(s, Delivered(c, s, n, Some(n.req)), n);
  }

  lemma SubsetOfSameSize(a: set<nat>, b: set<nat>)
    requires a <= b && |a| == |b|
    ensures a == b
  {
    if x :| x in b && x !in a {
      SetSizes(a, b - {x});
    }
  }

  lemma {:induction false} SetSizes(a: set<nat>, b: set<nat>)
    requires a <= b
    ensures |a| <= |b|
  {
    if x :| x in a {
      SetSizes(a - {x}, b - {x});
    }
  }

  /** As many counted readers as are waited for are all the readers. */
  lemma EnoughIsAll(c: Config, s: System, r: ReqId)
    requires ConfigOk(c) && (forall p | p in s.counted :: SentFor(c, s, p.0, p.1))
    ensures |CountedBy(s, r)| >= NeededFor(c, r) <==> AllCounted(c, s, r)
    ensures |CountedBy(s, r)| <= NeededFor(c, r)
  {
    WaitsForEveryReader(c.consumers(r), c.world, c.rank);
    forall j | j in CountedBy(s, r) ensures j in ReadersOf(c, r) {
      assert SentFor(c, s, r, j);
    }
    SetSizes(CountedBy(s, r), ReadersOf(c, r));
    if |CountedBy(s, r)| >= NeededFor(c, r) {
      SubsetOfSameSize(CountedBy(s, r), ReadersOf(c, r));
    }
    if AllCounted(c, s, r) {
      assert CountedBy(s, r) == ReadersOf(c, r);
    }
  }

  lemma DeliveredFlight(c: Config, s: System, n: Note, pick: Option<ReqId>)
    requires ConfigOk(c) && FlightOk(c, s) && n in s.inflight && (pick == None || pick == Some(n.req))
    ensures FlightOk(c, Delivered(c, s, n, pick))
  {
    var s' := Delivered(c, s, n, pick);
    forall p | p in s'.sent ensures SentFor(c, s', p.0, p.1) {
      assert SentFor(c, s, p.0, p.1);
    }
  }

  /** Released by a notification: every reader is counted by then. */
  lemma ReleasedIsCounted(c: Config, s: System, n: Note)
    requires ConfigOk(c) && FlightOk(c, s) && TallyOk(s) && n in s.inflight
    requires Releases(s.work, n.req, NeededFor(c, n.req))
    ensures AllCounted(c, Delivered(c, s, n, Some(n.req)), n.req)
  {
    var s' := Delivered(c, s, n, Some(n.req));
    CountedGrows(s, s', n);
    DeliveredFlight(c, s, n, Some(n.req));
    EnoughIsAll(c, s', n.req);
  }

  lemma CreditReports(c: Config, s: System, n: Note)
    requires ConfigOk(c) && FlightOk(c, s) && TallyOk(s) && ReportedOk(c, s) && n in s.inflight
    ensures ReportedOk(c, Delivered(c, s, n, Some(n.req)))
  {
    var s' := Delivered(c, s, n, Some(n.req));
    if Releases(s.work, n.req, NeededFor(c, n.req)) { ReleasedIsCounted(c, s, n); }
    forall i | 0 <= i < |s'.reports| ensures ReportOk(c, s', s'.reports[i]) {
      if i < |s.reports| { ReportStays(c, s, s', s.reports[i]); }
    }
  }

  lemma DeliverSafe(c: Config, s: System, n: Note, pick: Option<ReqId>)
    requires ConfigOk(c) && Apart(c) && Safe(c, s) && Allowed(c, s, Deliver(n, pick))
    ensures Safe(c, Step(c, s, Deliver(n, pick)))
  {
    DeliverCore(c, s, n, pick);
    ResolvesToOwn(c, s, n, pick);
    DeliveredFlight(c, s, n, pick);
    if pick.Some? {
      CreditTally(c, s, n);
      CreditReports(c, s, n);
    } else {
      TallyStays(s, Step(c, s, Deliver(n, pick)));
      ReportedStays(c, s, Step(c, s, Deliver(n, pick)));
    }
  }

  /** Every event keeps it. */
  lemma StepSafe(c: Config, s: System, e: Event)
    requires ConfigOk(c) && Apart(c) && Safe(c, s) && Allowed(c, s, e)
    ensures Safe(c, Step(c, s, e))
  {
    match e
    case Schedule(r) => ScheduleSafe(c, s, r);
    case Finish(r, capped, blocks) => FinishSafe(c, s, r, capped, blocks);
    case Build => BuildSafe(c, s);
    case LoadMeta => LoadSafe(c, s);
    case Tick(d) => TickSafe(c, s, d);
    case Send(n) => SendSafe(c, s, n);
    case Deliver(n, pick) => DeliverSafe(c, s, n, pick);
    case ExpireDue => ExpireSafe(c, s);
  }
}
