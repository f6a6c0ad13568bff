/** What holds over every run of the producer protocol. */
module ProducerTheorems {
  import opened Wrappers
  import opened ProducerState
  import opened ProducerProtocol
  import opened ProducerCore
  import opened ProducerSafety
  import opened ProducerOnce

  ghost predicate Run(c: Config, states: seq<System>)
    requires ConfigOk(c)
  {
    && |states| > 0 && states[0] == Init()
    && forall i | 0 < i < |states| :: Next(c, states[i - 1], states[i])
  }

  /** Some run ends in `s`. */
  ghost predicate Reachable(c: Config, s: System)
    requires ConfigOk(c)
  {
    exists states :: Run(c, states) && states[|states| - 1] == s
  }

  lemma {:induction false} RunKeepsCore(c: Config, states: seq<System>, i: nat)
    requires ConfigOk(c) && Run(c, states) && i < |states|
    ensures Core(c, states[i])
  {
    if i == 0 {
      InitCore(c);
    } else {
      RunKeepsCore(c, states, i - 1);
      var e :| Allowed(c, states[i - 1], e) && states[i] == Step(c, states[i - 1], e);
      StepCore(c, states[i - 1], e);
    }
  }

  lemma {:induction false} RunIsSafe(c: Config, states: seq<System>, i: nat)
    requires ConfigOk(c) && Apart(c) && Run(c, states) && i < |states|
    ensures Safe(c, states[i])
  {
    if i == 0 {
      InitSafe(c);
    } else {
      RunIsSafe(c, states, i - 1);
      var e :| Allowed(c, states[i - 1], e) && states[i] == Step(c, states[i - 1], e);
      StepSafe(c, states[i - 1], e);
    }
  }

  lemma {:induction false} RunKeeps(c: Config, states: seq<System>, i: nat)
    requires Clean(c) && Run(c, states) && i < |states|
    ensures Inv(c, states[i])
  {
    if i == 0 {
      InitInv(c);
    } else {
      RunKeeps(c, states, i - 1);
      var e :| Allowed(c, states[i - 1], e) && states[i] == Step(c, states[i - 1], e);
      StepKeeps(c, states[i - 1], e);
    }
  }

  lemma ReachableCore(c: Config, s: System)
    requires ConfigOk(c) && Reachable(c, s)
    ensures Core(c, s)
  {
    var states :| Run(c, states) && states[|states| - 1] == s;
    RunKeepsCore(c, states, |states| - 1);
  }

  lemma ReachableIsSafe(c: Config, s: System)
    requires ConfigOk(c) && Apart(c) && Reachable(c, s)
    ensures Safe(c, s)
  {
    var states :| Run(c, states) && states[|states| - 1] == s;
    RunIsSafe(c, states, |states| - 1);
  }

  lemma ReachableInv(c: Config, s: System)
    requires Clean(c) && Reachable(c, s)
    ensures Inv(c, s)
  {
    var states :| Run(c, states) && states[|states| - 1] == s;
    RunKeeps(c, states, |states| - 1);
  }

  // ----- whatever ids share, and whenever consumers notify -----

  /** The request's expiration entry is still somewhere between scheduler and worker. */
  ghost predicate Held(s: System, r: ReqId) {
    || r in Keys(s.needSend)
    || (exists m | m in s.queue :: r in Keys(m.toSend))
    || r in Keys(s.work.toSend)
  }

  lemma {:induction false} QueuedSomewhere(queue: seq<Meta>, r: ReqId)
    requires r in Keys(QueueSends(queue))
    ensures exists m | m in queue :: r in Keys(m.toSend)
  {
    KeysOfConcat(queue[0].toSend, QueueSends(queue[1..]));
    if r in Keys(queue[0].toSend) {
      assert queue[0] in queue;
    } else {
      QueuedSomewhere(queue[1..], r);
      var m :| m in queue[1..] && r in Keys(m.toSend);
      assert m in queue;
    }
  }

  /** Producer conservation: a request whose blocks are freed late is always already reported or still held
      by scheduler, queue or worker. */
  lemma DelayedRequestsAreConserved(c: Config, s: System)
    requires ConfigOk(c) && Reachable(c, s)
    ensures forall r | DelayedIn(s, r) :: Reported(s, r) || Held(s, r)
  {
    ReachableCore(c, s);
    forall r | DelayedIn(s, r) && !Reported(s, r) ensures Held(s, r) {
      LineKeys(s);
      if r in Keys(QueueSends(s.queue)) {
        QueuedSomewhere(s.queue, r);
      }
    }
  }

  /** In every reachable state the `remove` calls find their element and the abort assertion holds. */
  lemma ChecksNeverFail(c: Config, s: System)
    requires ConfigOk(c) && Reachable(c, s)
    ensures Keys(Due(s)) <= s.work.toProcess
    ensures s.queue != [] ==> AbortsBeforeTimer(s.work, s.queue[0])
    ensures forall n, pick | n in s.inflight && Resolves(s.work, n.tag, pick) && pick.Some? ::
              pick.value in s.work.toProcess
  {
    ReachableCore(c, s);
    assert forall e | e in Due(s) :: e in s.work.toSend;
    if s.queue != [] {
      LoadCore(c, s);
    }
  }

  lemma ExactExpiry(w: Work, now: real)
    requires Timeline(w.toSend) && Keys(w.toSend) <= w.toProcess
    ensures Expire(w, now).toSend == NotDue(w.toSend, now)
    ensures forall e | e in w.toSend :: e.req in Expire(w, now).toProcess <==> now < e.expires
  {
    var d := w.toSend;
    var n := DueCount(d, now);
    EarlyExitIsFullScan(d, now);
    forall e | e in d
      ensures e.req in Expire(w, now).toProcess <==> now < e.expires
    {
      assert e.req in Keys(d);
      var a :| 0 <= a < |d| && d[a] == e;
      if a < n {
        assert d[..n][a] == e;
      }
    }
  }

  /** The expiry loop's early exit releases exactly the due requests in every reachable state. */
  lemma ExpiryIsExact(c: Config, s: System)
    requires ConfigOk(c) && Reachable(c, s)
    ensures var s' := Step(c, s, ExpireDue);
            && s'.work.toSend == NotDue(s.work.toSend, s.now)
            && (forall e | e in s.work.toSend :: e.req in s'.work.toProcess <==> s.now < e.expires)
  {
    ReachableCore(c, s);
    WorkTimeline(s);
    ExactExpiry(s.work, s.now);
  }

  /** No block is stranded: once the scheduler's entries have reached the worker, expiring at a time
      when every timer has run out reports every delayed request. */
  lemma NothingIsStranded(c: Config, s: System, r: ReqId)
    requires ConfigOk(c) && Reachable(c, s) && s.queue == [] && s.needSend == [] && DelayedIn(s, r)
    requires forall x | DelayedIn(s, x) :: s.fates[x].expires <= s.now
    ensures Reported(Step(c, s, ExpireDue), r)
  {
    ReachableCore(c, s);
    ExpireCore(c, s);
    var s' := Step(c, s, ExpireDue);
    forall e | e in s.work.toSend
      ensures e.expires <= s.now
    {
      assert e in Line(s);
    }
    AllDue(s.work.toSend, s.now);
    assert Line(s') == [];
  }

  lemma {:induction false} AllDue(d: seq<Entry>, now: real)
    requires forall e | e in d :: e.expires <= now
    ensures DueCount(d, now) == |d|
  {
    if d != [] {
      assert d[0] in d;
      AllDue(d[1..], now);
    }
  }

  // ----- with ids that share no UUID -----

  /** Released by notifications: every consumer rank that targets this producer rank has notified about
      this request. Released by the clock: it ended with delayed free and was due. */
  ghost predicate InTime(c: Config, s: System, p: Report)
    requires ConfigOk(c)
  {
    if p.byExpiry then DelayedIn(s, p.req) && s.fates[p.req].expires <= p.at
    else
      forall j: nat | j < c.consumers(p.req) && Targets(c.consumers(p.req), c.world, j, c.rank) :: (p.req, j) in s.sent
  }

  ghost predicate AllInTime(c: Config, s: System)
    requires ConfigOk(c)
  {
    forall i | 0 <= i < |s.reports| :: InTime(c, s, s.reports[i])
  }

  /** No early free, whenever consumers notify. */
  lemma NoEarlyFree(c: Config, s: System)
    requires ConfigOk(c) && Apart(c) && Reachable(c, s)
    ensures AllInTime(c, s)
  {
    ReachableIsSafe(c, s);
    forall i | 0 <= i < |s.reports| ensures InTime(c, s, s.reports[i]) {
      assert ReportOk(c, s, s.reports[i]);
    }
  }

  /** A notification that arrives after its request was reported changes nothing. */
  ghost predicate LateIsHarmless(c: Config, s: System)
    requires ConfigOk(c)
  {
    forall n, pick | Allowed(c, s, Deliver(n, pick)) && Reported(s, n.req) :: Unmoved(c, s, n, pick)
  }

  predicate Unmoved(c: Config, s: System, n: Note, pick: Option<ReqId>)
    requires c.consumers(n.req) > 0 && c.world > 0
  {
    Delivered(c, s, n, pick).work == s.work && Delivered(c, s, n, pick).reports == s.reports
  }

  /** A reported request has no notification in flight, or the worker has dropped it for good. */
  lemma ReportedIsDropped(c: Config, s: System, n: Note)
    requires ConfigOk(c) && Safe(c, s) && n in s.inflight && Reported(s, n.req)
    ensures n.req !in s.work.toProcess
  {
    var i :| 0 <= i < |s.reports| && s.reports[i].req == n.req;
    assert ReportOk(c, s, s.reports[i]);
    assert SentFor(c, s, n.req, n.reader);
  }

  lemma LateNotificationsChangeNothing(c: Config, s: System)
    requires ConfigOk(c) && Apart(c) && Reachable(c, s)
    ensures LateIsHarmless(c, s)
  {
    ReachableIsSafe(c, s);
    forall n, pick | Allowed(c, s, Deliver(n, pick)) && Reported(s, n.req) ensures Unmoved(c, s, n, pick) {
      ReportedIsDropped(c, s, n);
      ResolvesToOwn(c, s, n, pick);
    }
  }

  // ----- and with no request scheduled again after a notification -----

  /** No request is reported twice, and it is released by notifications exactly when all its readers' have
      been credited to it. */
  lemma ReleasedExactlyOnce(c: Config, s: System)
    requires Clean(c) && Reachable(c, s)
    ensures DistinctReports(s.reports)
    ensures forall r :: Noted(s, r) <==> AllCounted(c, s, r)
  {
    ReachableInv(c, s);
    forall r ensures Noted(s, r) <==> AllCounted(c, s, r) {
      EnoughIsAll(c, s, r);
      if i :| 0 <= i < |s.reports| && s.reports[i].req == r && !s.reports[i].byExpiry {
        assert ReportOk(c, s, s.reports[i]);
      }
    }
  }

  ghost predicate AllDelayed(s: System) {
    forall r | Reported(s, r) :: DelayedIn(s, r)
  }

  /** When consumers notify only about requests that ended with delayed free, only those are reported. */
  lemma OnlyDelayedAreReported(c: Config, s: System)
    requires Clean(c) && c.timing.AfterFinish? && Reachable(c, s)
    ensures AllDelayed(s)
  {
    ReachableInv(c, s);
    forall r | Reported(s, r) ensures DelayedIn(s, r) {
      ReportedIsOver(c, s, r);
      if p :| p in s.sent && p.0 == r {
        assert SentLate(c, s, p.0);
      }
    }
  }
}
