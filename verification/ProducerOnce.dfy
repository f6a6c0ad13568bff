/** Exactly one release: with ids that share no UUID, and no request scheduled again after a notification,
    every request is reported at most once, and by notifications exactly when all its readers are counted. */
module ProducerOnce {
  import opened Wrappers
  import opened ProducerState
  import opened ProducerProtocol
  import opened ProducerCore
  import opened ProducerSafety

  ghost predicate DistinctReports(rs: seq<Report>) {
    forall i, j | 0 <= i < j < |rs| :: rs[i].req != rs[j].req
  }

  /** Reported because of notifications. */
  predicate Noted(s: System, r: ReqId) {
    exists i :: 0 <= i < |s.reports| && s.reports[i].req == r && !s.reports[i].byExpiry
  }

  ghost predicate SentLate(c: Config, s: System, r: ReqId) {
    r !in PendingBatch(s.queue, s.inBatch) && (c.timing.AfterFinish? ==> DelayedIn(s, r))
  }

  /** The counts are exact, and a request whose readers are all counted was released. */
  ghost predicate CountsOk(c: Config, s: System)
    requires ConfigOk(c)
  {
    && (forall r | r in s.work.counts :: CountedBy(s, r) != {})
    && (forall r | r in s.work.toProcess :: CountOf(s.work, r) == |CountedBy(s, r)|)
    && (forall r :: Noted(s, r) || |CountedBy(s, r)| < NeededFor(c, r))
  }

  ghost predicate Once(c: Config, s: System)
    requires ConfigOk(c)
  {
    && DistinctReports(s.reports) && (forall r | Reported(s, r) :: Gone(s, r))
    && (forall p | p in s.sent :: SentLate(c, s, p.0)) && CountsOk(c, s)
  }

  ghost predicate Inv(c: Config, s: System)
    requires ConfigOk(c)
  {
    Safe(c, s) && Once(c, s)
  }

  lemma InitInv(c: Config)
    requires ConfigOk(c)
    ensures Inv(c, Init())
  {
    InitSafe(c);
    forall r ensures |CountedBy(Init(), r)| < NeededFor(c, r) {
      WaitsForEveryReader(c.consumers(r), c.world, c.rank);
      assert CountedBy(Init(), r) == {};
    }
  }

  // ----- what a step does not touch -----

  lemma CountsStay(c: Config, s: System, s': System)
    requires ConfigOk(c) && CountsOk(c, s) && s'.reports == s.reports && s'.counted == s.counted
    requires s'.work.counts == s.work.counts && s'.work.toProcess <= s.work.toProcess
    ensures CountsOk(c, s')
  {
    forall r
      ensures CountedBy(s', r) == CountedBy(s, r) && CountOf(s'.work, r) == CountOf(s.work, r)
              && Noted(s', r) == Noted(s, r)
    {}
  }

  lemma SentStays(c: Config, s: System, s': System)
    requires (forall p | p in s.sent :: SentLate(c, s, p.0)) && s'.sent == s.sent
    requires PendingBatch(s'.queue, s'.inBatch) <= PendingBatch(s.queue, s.inBatch)
    requires forall r | r in s.fates :: r in s'.fates && s'.fates[r] == s.fates[r]
    ensures forall p | p in s'.sent :: SentLate(c, s', p.0)
  {
    forall p | p in s'.sent ensures SentLate(c, s', p.0) {
      assert SentLate(c, s, p.0);
    }
  }

  /** A step that takes nothing up, counts nothing and reports nothing. */
  lemma QuietOnce(c: Config, s: System, s': System)
    requires ConfigOk(c) && Once(c, s) && Later(s, s')
    requires s'.work.toProcess <= s.work.toProcess
    requires PendingBatch(s'.queue, s'.inBatch) <= PendingBatch(s.queue, s.inBatch)
    requires s'.sent == s.sent && s'.counted == s.counted && s'.work.counts == s.work.counts && s'.reports == s.reports
    ensures Once(c, s')
  {
    SentStays(c, s, s');
    CountsStay(c, s, s');
    assert forall r :: Reported(s', r) == Reported(s, r);
  }

  // ----- scheduler and worker -----

  /** A reported request ended with delayed free, or was notified about. */
  lemma ReportedIsOver(c: Config, s: System, r: ReqId)
    requires ConfigOk(c) && FlightOk(c, s) && ReportedOk(c, s) && Reported(s, r)
    ensures DelayedIn(s, r) || Notified(s, r)
  {
    var i :| 0 <= i < |s.reports| && s.reports[i].req == r;
    assert ReportOk(c, s, s.reports[i]);
    if !s.reports[i].byExpiry {
      WaitsForEveryReader(c.consumers(r), c.world, c.rank);
      var j :| j in ReadersOf(c, r);
      assert (r, j) in s.sent;
    }
  }

  lemma ScheduleOnce(c: Config, s: System, r: ReqId)
    requires Clean(c) && Inv(c, s) && Allowed(c, s, Schedule(r))
    ensures Once(c, Step(c, s, Schedule(r)))
  {
    var s' := Step(c, s, Schedule(r));
    BatchAdd(s.queue, s.inBatch, r);
    if Reported(s, r) { ReportedIsOver(c, s, r); }
    CountsStay(c, s, s');
    assert forall x :: Reported(s', x) == Reported(s, x);
    forall p | p in s'.sent ensures SentLate(c, s', p.0) {
      assert SentLate(c, s, p.0);
    }
  }

  lemma FinishOnce(c: Config, s: System, r: ReqId, capped: bool, blocks: nat)
    requires ConfigOk(c) && Once(c, s) && r !in s.fates
    ensures Once(c, Step(c, s, Finish(r, capped, blocks)))
  {
    QuietOnce(c, s, Step(c, s, Finish(r, capped, blocks)));
  }

  lemma TickOnce(c: Config, s: System, d: real)
    requires ConfigOk(c) && Once(c, s) && d >= 0.0
    ensures Once(c, Step(c, s, Tick(d)))
  {
    QuietOnce(c, s, Step(c, s, Tick(d)));
  }

  lemma BuildOnce(c: Config, s: System)
    requires ConfigOk(c) && Once(c, s)
    ensures Once(c, Step(c, s, Build))
  {
    Enqueue(s.queue, Meta(s.needSend, s.inBatch, s.notProcessed));
    QuietOnce(c, s, Step(c, s, Build));
  }

  /** A request that only now enters processing has no notification counted. */
  lemma NewcomerUncounted(c: Config, s: System, r: ReqId)
    requires ConfigOk(c) && FlightOk(c, s) && Once(c, s) && r in PendingBatch(s.queue, s.inBatch)
    ensures CountOf(s.work, r) == 0 && CountedBy(s, r) == {}
  {
    forall p | p in s.counted ensures p.0 != r {
      assert SentLate(c, s, p.0);
    }
  }

  lemma LoadCounts(c: Config, s: System)
    requires ConfigOk(c) && FlightOk(c, s) && Once(c, s) && s.queue != []
    ensures CountsOk(c, Step(c, s, LoadMeta))
  {
    var s' := Step(c, s, LoadMeta);
    forall r
      ensures CountedBy(s', r) == CountedBy(s, r) && CountOf(s'.work, r) == CountOf(s.work, r)
              && Noted(s', r) == Noted(s, r)
    {}
    forall r | r in s'.work.toProcess ensures CountOf(s'.work, r) == |CountedBy(s', r)| {
      if r !in s.work.toProcess { NewcomerUncounted(c, s, r); }
    }
  }

  lemma LoadOnce(c: Config, s: System)
    requires ConfigOk(c) && FlightOk(c, s) && Once(c, s) && s.queue != []
    ensures Once(c, Step(c, s, LoadMeta))
  {
    var s' := Step(c, s, LoadMeta);
    LoadCounts(c, s);
    SentStays(c, s, s');
    assert forall r :: Reported(s', r) == Reported(s, r);
  }

  lemma DistinctAppend(rs: seq<Report>, due: seq<Entry>, now: real)
    requires DistinctReports(rs) && NoDup(due)
    requires forall i, k | 0 <= i < |rs| && 0 <= k < |due| :: rs[i].req != due[k].req
    ensures DistinctReports(rs + ExpiryReports(due, now))
  {
    var all := rs + ExpiryReports(due, now);
    forall i, j | 0 <= i < j < |all|
      ensures all[i].req != all[j].req
    {
      if j >= |rs| {
        assert all[j].req == due[j - |rs|].req;
        if i >= |rs| {
          assert all[i].req == due[i - |rs|].req;
        }
      }
    }
  }

  lemma ExpireDistinct(c: Config, s: System)
    requires ConfigOk(c) && Core(c, s) && Once(c, s)
    ensures DistinctReports(Step(c, s, ExpireDue).reports)
  {
    var due := Due(s);
    WorkTimeline(s);
    forall i, k | 0 <= i < |s.reports| && 0 <= k < |due|
      ensures s.reports[i].req != due[k].req
    {
      DueIsDelayed(c, s, due[k]);
      assert Reported(s, s.reports[i].req);
    }
    DistinctAppend(s.reports, due, s.now);
  }

  lemma NotedGrows(s: System, s': System)
    requires s.reports <= s'.reports
    ensures forall r | Noted(s, r) :: Noted(s', r)
  {
    forall r | Noted(s, r) ensures Noted(s', r) {
      var i :| 0 <= i < |s.reports| && s.reports[i].req == r && !s.reports[i].byExpiry;
      assert s'.reports[i] == s.reports[i];
    }
  }

  lemma ExpireCounts(c: Config, s: System)
    requires ConfigOk(c) && CountsOk(c, s)
    ensures CountsOk(c, Step(c, s, ExpireDue))
  {
    var s' := Step(c, s, ExpireDue);
    NotedGrows(s, s');
    assert forall r :: CountedBy(s', r) == CountedBy(s, r);
  }

  lemma ExpireGone(c: Config, s: System)
    requires ConfigOk(c) && Core(c, s) && Once(c, s)
    ensures forall r | Reported(Step(c, s, ExpireDue), r) :: Gone(Step(c, s, ExpireDue), r)
  {
    var s' := Step(c, s, ExpireDue);
    ExpireReported(c, s);
    forall r | Reported(s', r) ensures Gone(s', r) {
      if r in Keys(Due(s)) {
        var e :| e in Due(s) && e.req == r;
        DueIsDelayed(c, s, e);
      }
    }
  }

  lemma ExpireOnce(c: Config, s: System)
    requires ConfigOk(c) && Core(c, s) && Once(c, s)
    ensures Once(c, Step(c, s, ExpireDue))
  {
    ExpireDistinct(c, s);
    ExpireGone(c, s);
    ExpireCounts(c, s);
    SentStays(c, s, Step(c, s, ExpireDue));
  }

  // ----- notifications -----

  lemma SendOnce(c: Config, s: System, n: Note)
    requires ConfigOk(c) && Once(c, s) && Allowed(c, s, Send(n))
    ensures Once(c, Step(c, s, Send(n)))
  {
    var s' := Step(c, s, Send(n));
    CountsStay(c, s, s');
    assert forall r :: Reported(s', r) == Reported(s, r);
    forall p | p in s'.sent ensures SentLate(c, s', p.0) {
      if p in s.sent { assert SentLate(c, s, p.0); }
    }
  }

  lemma NotedIsReported(s: System, r: ReqId)
    ensures Noted(s, r) ==> Reported(s, r)
  {}

  lemma CountedBelow(c: Config, s: System, n: Note, r: ReqId)
    requires ConfigOk(c) && CountsOk(c, s) && (n.req, n.reader) !in s.counted && n.req in s.work.toProcess
    requires !Noted(s, n.req) && !Releases(s.work, n.req, NeededFor(c, n.req))
    ensures Noted(s, r) || |CountedBy(Delivered(c, s, n, Some(n.req)), r)| < NeededFor(c, r)
  {
    CountedGrows(s, Delivered(c, s, n, Some(n.req)), n);
    assert Noted(s, r) || |CountedBy(s, r)| < NeededFor(c, r);
  }

  lemma CountedCounts(c: Config, s: System, n: Note)
    requires ConfigOk(c) && CountsOk(c, s) && (n.req, n.reader) !in s.counted && n.req in s.work.toProcess
    requires !Noted(s, n.req) && !Releases(s.work, n.req, NeededFor(c, n.req))
    ensures CountsOk(c, Delivered(c, s, n, Some(n.req)))
  {
    var s' := Delivered(c, s, n, Some(n.req));
    CountedGrows(s, s', n);
    assert s'.reports == s.reports;
    NotedGrows(s, s');
    forall r ensures Noted(s', r) || |CountedBy(s', r)| < NeededFor(c, r) {
      CountedBelow(c, s, n, r);
    }
  }

  lemma CountedOnce(c: Config, s: System, n: Note)
    requires ConfigOk(c) && FlightOk(c, s) && Once(c, s) && n in s.inflight && n.req in s.work.toProcess
    requires !Releases(s.work, n.req, NeededFor(c, n.req))
    ensures Once(c, Delivered(c, s, n, Some(n.req)))
  {
    var s' := Delivered(c, s, n, Some(n.req));
    NotedIsReported(s, n.req);
    assert Reported(s, n.req) ==> Gone(s, n.req);
    CountedCounts(c, s, n);
    SentStays(c, s, s');
    assert s'.reports == s.reports;
    assert forall r :: Reported(s', r) == Reported(s, r);
  }

  lemma ReleasedCounts(c: Config, s: System, n: Note)
    requires ConfigOk(c) && FlightOk(c, s) && CountsOk(c, s) && n in s.inflight
    requires Releases(s.work, n.req, NeededFor(c, n.req))
    ensures CountsOk(c, Delivered(c, s, n, Some(n.req)))
  {
    var s' := Delivered(c, s, n, Some(n.req));
    CountedGrows(s, s', n);
    NotedGrows(s, s');
    assert s'.reports[|s.reports|].req == n.req && Noted(s', n.req);
    forall r ensures Noted(s', r) || |CountedBy(s', r)| < NeededFor(c, r) {
      assert Noted(s, r) || |CountedBy(s, r)| < NeededFor(c, r);
    }
  }

  lemma ReleasedOnce(c: Config, s: System, n: Note)
    requires ConfigOk(c) && FlightOk(c, s) && Once(c, s) && n in s.inflight && n.req in s.work.toProcess
    requires Releases(s.work, n.req, NeededFor(c, n.req))
    ensures Once(c, Delivered(c, s, n, Some(n.req)))
  {
    var s' := Delivered(c, s, n, Some(n.req));
    ReleasedCounts(c, s, n);
    SentStays(c, s, s');
    OneMoreReport(s, s', Report(n.req, false, s.now));
    assert !Reported(s, n.req);
    assert (n.req, n.reader) in s.sent && SentLate(c, s, n.req);
  }

  lemma DeliverOnce(c: Config, s: System, n: Note, pick: Option<ReqId>)
    requires Clean(c) && Inv(c, s) && Allowed(c, s, Deliver(n, pick))
    ensures Once(c, Step(c, s, Deliver(n, pick)))
  {
    var s' := Step(c, s, Deliver(n, pick));
    ResolvesToOwn(c, s, n, pick);
    if pick == None {
      QuietOnce(c, s, s');
    } else if Releases(s.work, n.req, NeededFor(c, n.req)) {
      ReleasedOnce(c, s, n);
    } else {
      CountedOnce(c, s, n);
    }
  }

  lemma StepOnce(c: Config, s: System, e: Event)
    requires Clean(c) && Inv(c, s) && Allowed(c, s, e)
    ensures Once(c, Step(c, s, e))
  {
    match e
    case Schedule(r) => ScheduleOnce(c, s, r);
    case Finish(r, capped, blocks) => FinishOnce(c, s, r, capped, blocks);
    case Build => BuildOnce(c, s);
    case LoadMeta => LoadOnce(c, s);
    case Tick(d) => TickOnce(c, s, d);
    case Send(n) => SendOnce(c, s, n);
    case Deliver(n, pick) => DeliverOnce(c, s, n, pick);
    case ExpireDue => ExpireOnce(c, s);
  }

  /** Every event keeps the invariant. */
  lemma StepKeeps(c: Config, s: System, e: Event)
    requires Clean(c) && Inv(c, s) && Allowed(c, s, e)
    ensures Inv(c, Step(c, s, e))
  {
    StepSafe(c, s, e);
    StepOnce(c, s, e);
  }
}
