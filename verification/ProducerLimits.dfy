/** Exactly when the producer's guarantees hold over all runs: where a condition is missing, a run breaks
    the guarantee. */
module ProducerLimits {
  import opened Wrappers
  import opened ProducerState
  import opened ProducerProtocol
  import opened ProducerCore
  import opened ProducerOnce
  import opened ProducerTheorems

  // ----- building runs -----

  lemma Extend(c: Config, s: System, e: Event)
    requires ConfigOk(c) && Reachable(c, s) && Allowed(c, s, e)
    ensures Reachable(c, Step(c, s, e))
  {
    var states :| Run(c, states) && states[|states| - 1] == s;
    var s' := Step(c, s, e);
    assert Next(c, s, s');
    assert Run(c, states + [s']);
  }

  lemma Start(c: Config)
    requires ConfigOk(c)
    ensures Reachable(c, Init())
  {
    assert Run(c, [Init()]);
  }

  /** Nothing is in flight between scheduler, worker and consumers. */
  predicate Quiet(s: System) {
    s.needSend == [] && s.inBatch == {} && s.notProcessed == {} && s.queue == [] && s.inflight == {}
  }

  /** A request is scheduled and its batch entry reaches the worker. */
  lemma Admit(c: Config, s: System, r: ReqId) returns (s': System)
    requires ConfigOk(c) && Reachable(c, s) && Quiet(s) && s.work == Work({}, [], map[]) && Allowed(c, s, Schedule(r))
    ensures Reachable(c, s') && s' == s.(work := Work({r}, [], map[]), scheduled := s.scheduled + {r})
  {
    var s1 := Step(c, s, Schedule(r));
    Extend(c, s, Schedule(r));
    var s2 := Step(c, s1, Build);
    Extend(c, s1, Build);
    s' := Step(c, s2, LoadMeta);
    Extend(c, s2, LoadMeta);
    assert {} + {r} - {} == {r};
  }

  /** Its expiration entry reaches the worker. */
  lemma Await(c: Config, s: System, r: ReqId) returns (s': System)
    requires ConfigOk(c) && Reachable(c, s) && Quiet(s) && s.work == Work({r}, [], map[])
    requires r in s.scheduled && r !in s.fates
    ensures var expires := s.now + c.timeout;
            && Reachable(c, s')
            && s' == s.(work := Work({r}, [Entry(r, expires)], map[]), fates := s.fates[r := Delayed(expires)])
  {
    var s1 := Step(c, s, Finish(r, true, 1));
    Extend(c, s, Finish(r, true, 1));
    var s2 := Step(c, s1, Build);
    Extend(c, s1, Build);
    s' := Step(c, s2, LoadMeta);
    Extend(c, s2, LoadMeta);
    assert {r} + {} - {} == {r};
    assert s1.needSend == [Entry(r, s.now + c.timeout)];
    assert AddSends({r}, [], s1.needSend) == s1.needSend;
  }

  /** Nobody reads it, and it is released by the clock. */
  lemma TimeOut(c: Config, s: System, r: ReqId) returns (s': System)
    requires ConfigOk(c) && Reachable(c, s) && Quiet(s) && s.work == Work({r}, [], map[])
    requires r in s.scheduled && r !in s.fates
    ensures var expires := s.now + c.timeout;
            && Reachable(c, s')
            && s' == s.(work := Work({}, [], map[]), now := expires, fates := s.fates[r := Delayed(expires)],
                        reports := s.reports + [Report(r, true, expires)])
  {
    var s1 := Await(c, s, r);
    var s2 := Step(c, s1, Tick(c.timeout));
    Extend(c, s1, Tick(c.timeout));
    s' := Step(c, s2, ExpireDue);
    Extend(c, s2, ExpireDue);
    var d := s2.work.toSend;
    assert DueCount(d, s2.now) == 1 && d[..1] == d && d[1..] == [];
    assert Keys(d) == {r};
    assert ExpiryReports(d, s2.now) == [Report(r, true, s2.now)];
  }

  /** A notification's tag names request b, or has a UUID that b contains. */
  predicate Names(tag: string, b: ReqId) {
    tag == b || (FindUuid(tag).Some? && Contains(b, FindUuid(tag).value))
  }

  lemma ResolvesAlone(w: Work, tag: string, b: ReqId)
    requires w.toProcess == {b} && w.toSend == [] && Names(tag, b)
    ensures Resolves(w, tag, Some(b))
  {
    if tag != b {
      assert Matches(w, FindUuid(tag).value) == {b};
    }
  }

  /** Only b is processed, and it lacks the notifications of `left` more readers of a. */
  predicate Lacks(c: Config, s: System, a: ReqId, b: ReqId, left: nat)
    requires ConfigOk(c)
  {
    && Quiet(s) && s.work.toProcess == {b} && s.work.toSend == [] && s.work.counts.Keys <= {b}
    && CountOf(s.work, b) + left == NeededFor(c, a)
  }

  predicate MayNotify(c: Config, s: System, a: ReqId) {
    a in s.scheduled && (c.timing.AfterFinish? ==> DelayedIn(s, a))
  }

  /** One reader of a notifies, and b is credited. */
  lemma Notify(c: Config, s: System, a: ReqId, b: ReqId, tag: string, j: nat, left: nat) returns (s': System)
    requires ConfigOk(c) && Reachable(c, s) && left > 0 && Lacks(c, s, a, b, left) && MayNotify(c, s, a)
    requires j in ReadersOf(c, a) && (a, j) !in s.sent && TagOf(tag, a) && Names(tag, b)
    ensures Reachable(c, s') && s'.sent == s.sent + {(a, j)} && Quiet(s') && s'.now == s.now
    ensures s'.scheduled == s.scheduled && s'.fates == s.fates
    ensures left > 1 ==> Lacks(c, s', a, b, left - 1) && s'.reports == s.reports
    ensures left == 1 ==> s'.work == Work({}, [], map[]) && s'.reports == s.reports + [Report(b, false, s.now)]
  {
    var n := Note(tag, a, j);
    var s1 := Step(c, s, Send(n));
    Extend(c, s, Send(n));
    ResolvesAlone(s1.work, tag, b);
    s' := Step(c, s1, Deliver(n, Some(b)));
    Extend(c, s1, Deliver(n, Some(b)));
    assert s1.inflight - {n} == {};
    if left == 1 {
      assert {b} - {b} == {} && s.work.counts - {b} == map[];
      assert Drop(s1.work.toSend, b) == [];
    }
  }

  /** The remaining readers of a notify one after the other, and b is released. */
  lemma {:induction false} NotifyAll(c: Config, s: System, a: ReqId, b: ReqId, tag: string, todo: set<nat>)
    returns (s': System)
    requires ConfigOk(c) && Reachable(c, s) && todo != {} && Lacks(c, s, a, b, |todo|) && MayNotify(c, s, a)
    requires todo <= ReadersOf(c, a) && (forall j | j in todo :: (a, j) !in s.sent) && TagOf(tag, a) && Names(tag, b)
    ensures Reachable(c, s') && Quiet(s') && s'.work == Work({}, [], map[]) && s'.now == s.now
    ensures s'.scheduled == s.scheduled && s'.fates == s.fates && s'.reports == s.reports + [Report(b, false, s.now)]
    ensures forall p | p in s'.sent :: p in s.sent || p.0 == a
    decreases |todo|
  {
    var j :| j in todo;
    var s1 := Notify(c, s, a, b, tag, j, |todo|);
    if |todo| == 1 {
      s' := s1;
    } else {
      s' := NotifyAll(c, s1, a, b, tag, todo - {j});
    }
  }

  /** From a state in which only b is processed, all readers of a notify. */
  lemma ReleasedBy(c: Config, s: System, a: ReqId, b: ReqId, tag: string) returns (s': System)
    requires ConfigOk(c) && Reachable(c, s) && Quiet(s) && s.work == Work({b}, [], map[]) && MayNotify(c, s, a)
    requires !Notified(s, a) && TagOf(tag, a) && Names(tag, b)
    ensures Reachable(c, s') && Quiet(s') && s'.work == Work({}, [], map[])
    ensures s'.fates == s.fates && s'.reports == s.reports + [Report(b, false, s.now)]
    ensures forall p | p in s'.sent :: p in s.sent || p.0 == a
  {
    WaitsForEveryReader(c.consumers(a), c.world, c.rank);
    forall j | j in ReadersOf(c, a) ensures (a, j) !in s.sent {
      var p := (a, j);
      assert p.0 == a;
    }
    s' := NotifyAll(c, s, a, b, tag, ReadersOf(c, a));
  }

  // ----- ids that share a UUID -----

  lemma UuidTag(u: string, a: ReqId)
    requires IsUuid(u) && Contains(a, u)
    ensures TagOf(u, a) && Names(u, a)
  {
    assert u[..36] == u;
  }

  /** Request a times out unread, and b is scheduled; `u` is a UUID that both contain. */
  lemma SharedUuidStart(c: Config, a: ReqId, b: ReqId) returns (s: System, u: string)
    requires ConfigOk(c) && c.ids(a) && c.ids(b) && a != b && SharesUuid(a, b)
    ensures Reachable(c, s) && Quiet(s) && s.work == Work({b}, [], map[]) && s.sent == {}
    ensures s.reports == [Report(a, true, c.timeout)] && DelayedIn(s, a) && a in s.scheduled && b !in s.fates
    ensures TagOf(u, a) && Names(u, b) && s.now == c.timeout
  {
    Start(c);
    var s1 := Admit(c, Init(), a);
    var s2 := TimeOut(c, s1, a);
    s := Admit(c, s2, b);
    u :| IsUuid(u) && Contains(a, u) && Contains(b, u);
    UuidTag(u, a);
    UuidTag(u, b);
  }

  /** Then a's readers notify late, by UUID, and b is released: unread, not even ended, and nobody has
      notified about it. */
  lemma SharedUuidRun(c: Config, a: ReqId, b: ReqId) returns (s: System)
    requires ConfigOk(c) && c.ids(a) && c.ids(b) && a != b && SharesUuid(a, b)
    ensures Reachable(c, s) && Quiet(s) && s.work == Work({}, [], map[])
    ensures s.reports == [Report(a, true, c.timeout), Report(b, false, c.timeout)]
    ensures b !in s.fates && !Notified(s, b)
  {
    var s3, u := SharedUuidStart(c, a, b);
    s := ReleasedBy(c, s3, a, b, u);
  }

  /** A reader of a request notifies before the request ends, and it is released then. */
  lemma EarlyNoteRun(c: Config, r: ReqId) returns (s: System)
    requires ConfigOk(c) && c.ids(r) && !c.timing.AfterFinish?
    ensures Reachable(c, s) && Quiet(s) && s.work == Work({}, [], map[])
    ensures s.reports == [Report(r, false, 0.0)] && r !in s.fates
  {
    Start(c);
    var s1 := Admit(c, Init(), r);
    s := ReleasedBy(c, s1, r, r, r);
  }

  lemma UnreadIsEarly(c: Config, s: System, i: nat)
    requires ConfigOk(c) && i < |s.reports| && !s.reports[i].byExpiry && !Notified(s, s.reports[i].req)
    ensures !AllInTime(c, s)
  {
    var r := s.reports[i].req;
    WaitsForEveryReader(c.consumers(r), c.world, c.rank);
    var j :| j in Readers(c.consumers(r), c.world, c.rank);
    var p := (r, j);
    assert p.0 == r;
    assert !InTime(c, s, s.reports[i]);
  }

  /** No run frees a request early exactly when no two ids of the deployment share a UUID. */
  lemma NoEarlyFreeIff(c: Config)
    requires ConfigOk(c)
    ensures (forall s | Reachable(c, s) :: AllInTime(c, s)) <==> Apart(c)
  {
    if Apart(c) {
      forall s | Reachable(c, s) ensures AllInTime(c, s) {
        NoEarlyFree(c, s);
      }
    } else {
      var a, b :| c.ids(a) && c.ids(b) && SharesUuid(a, b) && a != b;
      var s := SharedUuidRun(c, a, b);
      UnreadIsEarly(c, s, 1);
    }
  }

  /** One of a's readers notifies late, and b is credited. */
  lemma LateNoteRun(c: Config, a: ReqId, b: ReqId) returns (s: System)
    requires ConfigOk(c) && c.ids(a) && c.ids(b) && a != b && SharesUuid(a, b)
    ensures Reachable(c, s) && !LateIsHarmless(c, s)
  {
    var s3, u := SharedUuidStart(c, a, b);
    WaitsForEveryReader(c.consumers(a), c.world, c.rank);
    var j :| j in ReadersOf(c, a);
    var n := Note(u, a, j);
    s := Step(c, s3, Send(n));
    Extend(c, s3, Send(n));
    ResolvesAlone(s.work, u, b);
    assert s.reports[0].req == a && Reported(s, n.req);
    assert Allowed(c, s, Deliver(n, Some(b)));
    assert Credit(s.work, b, NeededFor(c, a)) != s.work;
    assert !Unmoved(c, s, n, Some(b));
  }

  /** No late notification ever changes anything exactly when no two ids of the deployment share a UUID. */
  lemma LateIsHarmlessIff(c: Config)
    requires ConfigOk(c)
    ensures (forall s | Reachable(c, s) :: LateIsHarmless(c, s)) <==> Apart(c)
  {
    if Apart(c) {
      forall s | Reachable(c, s) ensures LateIsHarmless(c, s) {
        LateNotificationsChangeNothing(c, s);
      }
    } else {
      var a, b :| c.ids(a) && c.ids(b) && SharesUuid(a, b) && a != b;
      var s := LateNoteRun(c, a, b);
    }
  }

  lemma {:induction false} ContainsEnd(p: string, u: string)
    ensures Contains(p + u, u)
  {
    if p == [] {
      assert u[..|u|] == u && p + u == u;
    } else {
      ContainsEnd(p[1..], u);
      assert (p + u)[1..] == p[1..] + u;
    }
  }

  /** Two ids that end in one UUID, as when a request is sent again under its UUID. */
  lemma ResubmissionIsFreedEarly(c: Config, p: string, q: string, u: string)
    requires ConfigOk(c) && IsUuid(u) && p + u != q + u && c.ids(p + u) && c.ids(q + u)
    ensures exists s :: Reachable(c, s) && !AllInTime(c, s)
  {
    ContainsEnd(p, u);
    ContainsEnd(q, u);
    assert SharesUuid(p + u, q + u);
    NoEarlyFreeIff(c);
  }

  // ----- requests that are reported before they end -----

  /** No run reports a request that did not end with delayed free, exactly when consumers never notify
      earlier and no two ids share a UUID. */
  lemma OnlyDelayedIff(c: Config, r: ReqId)
    requires ConfigOk(c) && c.ids(r)
    ensures (forall s | Reachable(c, s) :: AllDelayed(s)) <==> c.timing.AfterFinish? && Apart(c)
  {
    if !c.timing.AfterFinish? {
      var s := EarlyNoteRun(c, r);
      assert s.reports[0].req == r && Reported(s, r);
    } else if !Apart(c) {
      var a, b :| c.ids(a) && c.ids(b) && SharesUuid(a, b) && a != b;
      var s := SharedUuidRun(c, a, b);
      assert s.reports[1].req == b && Reported(s, b);
    } else {
      forall s | Reachable(c, s) ensures AllDelayed(s) {
        OnlyDelayedAreReported(c, s);
      }
    }
  }

  /** A request that was released before it ended is scheduled again and released again. */
  lemma TwiceRun(c: Config, s: System, i: nat, r: ReqId) returns (s': System)
    requires ConfigOk(c) && Reachable(c, s) && Quiet(s) && s.work == Work({}, [], map[])
    requires i < |s.reports| && s.reports[i].req == r && Allowed(c, s, Schedule(r))
    ensures Reachable(c, s') && !DistinctReports(s'.reports)
  {
    var s1 := Admit(c, s, r);
    s' := TimeOut(c, s1, r);
    assert s'.reports[i].req == s'.reports[|s.reports|].req;
  }

  /** No run reports a request twice exactly when no two ids share a UUID and no request is scheduled
      after a consumer notified about it. */
  lemma ReportedOnceIff(c: Config, r: ReqId)
    requires ConfigOk(c) && c.ids(r)
    ensures (forall s | Reachable(c, s) :: DistinctReports(s.reports)) <==> Apart(c) && !c.timing.Anytime?
  {
    if c.timing.Anytime? {
      var s := EarlyNoteRun(c, r);
      var s' := TwiceRun(c, s, 0, r);
    } else if !Apart(c) {
      var a, b :| c.ids(a) && c.ids(b) && SharesUuid(a, b) && a != b;
      var s := SharedUuidRun(c, a, b);
      var s' := TwiceRun(c, s, 1, b);
    } else {
      forall s | Reachable(c, s) ensures DistinctReports(s.reports) {
        ReleasedExactlyOnce(c, s);
      }
    }
  }
}
