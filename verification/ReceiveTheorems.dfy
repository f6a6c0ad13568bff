/** Whole runs of the receive side. Dispatch, handle conservation and the marking of failures hold for every
    run; the reporting results hold exactly while no request's set-up mixes started reads with failed ones. */
module ReceiveTheorems {
  import opened ReceiveState
  import opened ReceiveProtocol
  import opened ReceiveInvariant
  import opened ReceiveFailures
  import opened ReceiveSoundness

  // ----- every run -----

  /** Every received request is in exactly one place: waiting on one handshake, queued ready,
      dispatched once, or failed in its handshake. */
  lemma DispatchIsExactlyOnce(c: Config, ys: seq<System>, i: nat, r: ReqId)
    requires Run(c, ys) && i < |ys|
    ensures Waiting(ys[i].s.futures)[r] + multiset(ys[i].s.ready)[r] + multiset(ys[i].dispatched)[r]
            + multiset(ys[i].unshaken)[r]
            == One(r in ys[i].incoming)
  {
    RunBase(c, ys, i);
    var y := ys[i];
    var all := Waiting(y.s.futures) + multiset(y.s.ready) + multiset(y.dispatched) + multiset(y.unshaken);
    assert all[r] == multiset(y.incoming.Keys)[r];
  }

  /** At most one handshake is pending per engine, none with an engine already known; requests wait only
      on their own engine's handshake, and a request is read only once its engine is known. */
  lemma OneHandshakePerEngine(c: Config, ys: seq<System>, i: nat)
    requires Run(c, ys) && i < |ys|
    ensures OneFuturePerEngine(ys[i].s.futures)
    ensures forall p | p in ys[i].s.futures :: p.engine !in ys[i].s.agents && OnEngine(ys[i].incoming, p)
    ensures !ys[i].closed ==>
              forall r | r in ys[i].s.ready :: r in ys[i].incoming && ys[i].incoming[r].engine in ys[i].s.agents
  {
    RunBase(c, ys, i);
  }

  lemma {:induction false} MadeOnce(n: nat, h: nat)
    ensures Made(n)[h] == One(h < n)
  {
    if n > 0 {
      MadeOnce(n - 1, h);
    }
  }

  /** Every handle ever made is either held by exactly one request or was released exactly once. */
  lemma HandlesAreReleasedOnce(c: Config, ys: seq<System>, i: nat, h: nat)
    requires Run(c, ys) && i < |ys|
    ensures Outstanding(ys[i].s.transfers)[h] + ys[i].s.released[h] == One(h < ys[i].s.nextHandle)
  {
    RunBase(c, ys, i);
    MadeOnce(ys[i].s.nextHandle, h);
    var s := ys[i].s;
    assert (Outstanding(s.transfers) + s.released)[h] == Made(s.nextHandle)[h];
  }

  lemma {:induction false} RunIdles(c: Config, ys: seq<System>, i: nat)
    requires Run(c, ys) && i < |ys|
    ensures Idle(ys[i])
  {
    if i > 0 {
      RunIdles(c, ys, i - 1);
      assert Next(c, ys[i - 1], ys[i]);
      var e :| Allowed(c, ys[i - 1], e) && ys[i] == Step(ys[i - 1], e);
      StepIdle(c, ys[i - 1], e);
    }
  }

  lemma StepIdle(c: Config, y: System, e: Event)
    requires Idle(y) && Allowed(c, y, e)
    ensures Idle(Step(y, e))
  {
    match e
    case Receive(r, m, os) =>
    case Drain(os) =>
    case Handshake(en, ok) =>
    case Poll(_) =>
    case TakeErrors =>
    case Close =>
  }

  /** After a shutdown every handle ever made has been released exactly once. */
  lemma ShutdownReleasesAll(c: Config, ys: seq<System>, i: nat, h: nat)
    requires Run(c, ys) && i < |ys| && ys[i].closed
    ensures ys[i].s.released[h] == One(h < ys[i].s.nextHandle)
  {
    RunIdles(c, ys, i);
    HandlesAreReleasedOnce(c, ys, i, h);
  }

  lemma {:induction false} RunKeepsFailures(c: Config, ys: seq<System>, i: nat)
    requires Run(c, ys) && i < |ys|
    ensures FailuresOk(ys[i])
  {
    if i == 0 {
      assert BlocksOf(ys[0].incoming, ys[0].broken) == {};
    } else {
      RunKeepsFailures(c, ys, i - 1);
      RunBase(c, ys, i - 1);
      assert Next(c, ys[i - 1], ys[i]);
      var e :| Allowed(c, ys[i - 1], e) && ys[i] == Step(ys[i - 1], e);
      StepFailures(c, ys[i - 1], e);
    }
  }

  /** The blocks marked invalid (and handed to the scheduler or about to be) are exactly the blocks of the
      requests whose handshake, set-up or transfer failed; in particular a broken request's blocks are
      marked by the time it is reported. */
  lemma FailuresInvalidateFirst(c: Config, ys: seq<System>, i: nat, b: nat)
    requires Run(c, ys) && i < |ys|
    ensures b in ys[i].taken + ys[i].s.invalid
            <==> exists r :: r in ys[i].broken && r in ys[i].incoming && b in ys[i].incoming[r].blocks
    ensures forall r | r in ys[i].s.failed || r in ys[i].unshaken :: r in ys[i].broken
  {
    RunKeepsFailures(c, ys, i);
    var y := ys[i];
    assert b in y.taken + y.s.invalid <==> b in BlocksOf(y.incoming, y.broken);
  }

  // ----- runs without mixed set-ups -----

  lemma WholeIsRun(c: Config, ys: seq<System>)
    requires WholeRun(c, ys)
    ensures Run(c, ys)
  {
    forall i | 0 < i < |ys| ensures Next(c, ys[i - 1], ys[i]) {
      assert WholeNext(c, ys[i - 1], ys[i]);
    }
  }

  lemma {:induction false} WholeRunKeeps(c: Config, ys: seq<System>, i: nat)
    requires WholeRun(c, ys) && ConfigOk(c) && i < |ys|
    ensures Base(ys[i]) && Sound(ys[i]) && ReadsOk(c, ys[i])
  {
    WholeIsRun(c, ys);
    RunBase(c, ys, i);
    if i == 0 {
      assert forall r :: Fate(ys[0], r) == 0 && !Settled(ys[0], r);
      assert BlocksOf(ys[0].incoming, ys[0].broken) == {};
    } else {
      WholeRunKeeps(c, ys, i - 1);
      assert WholeNext(c, ys[i - 1], ys[i]);
      var e :| Allowed(c, ys[i - 1], e) && Whole(e) && ys[i] == Step(ys[i - 1], e);
      StepSound(c, ys[i - 1], e);
      StepReads(c, ys[i - 1], e);
    }
  }

  /** No assertion fails, no request is reported twice, and a reported request has no read in progress
      and no bookkeeping left. */
  lemma ReportsAreFinal(c: Config, ys: seq<System>, i: nat, r: ReqId)
    requires WholeRun(c, ys) && ConfigOk(c) && i < |ys|
    ensures !ys[i].crashed && ys[i].reported[r] <= 1
    ensures r in ys[i].reported ==>
              r !in Live(ys[i].s.transfers) && Reads(ys[i].s.transfers, r) == 0 && r !in ys[i].s.failed
                && r !in ys[i].s.metas
  {
    WholeRunKeeps(c, ys, i);
    assert Fate(ys[i], r) <= 1;
    if r in ys[i].reported { NotLiveNoReads(ys[i].s.transfers, r); }
  }

  /** A reported request that did not break has had every one of its reads complete. */
  lemma ReportedMeansRead(c: Config, ys: seq<System>, i: nat, r: ReqId)
    requires WholeRun(c, ys) && ConfigOk(c) && i < |ys| && r in ys[i].reported && r !in ys[i].broken
    ensures r in ys[i].incoming && ys[i].landed[r] == c.perRequest(ys[i].incoming[r].engine)
  {
    WholeRunKeeps(c, ys, i);
    var y := ys[i];
    assert Fate(y, r) == 1 && Settled(y, r);
    SettledReceived(y, r);
    WholeIsRun(c, ys);
    RunIdles(c, ys, i);
    NotLiveNoReads(y.s.transfers, r);
    assert Unharmed(y, r);
  }

  /** Until a shutdown, a request that was dispatched or failed its handshake is in exactly one of:
      in transfer, failed and about to be reported, reported, or full prefix hit. */
  lemma NothingIsStranded(c: Config, ys: seq<System>, i: nat, r: ReqId)
    requires WholeRun(c, ys) && ConfigOk(c) && i < |ys| && !ys[i].closed
    ensures One(r in Live(ys[i].s.transfers)) + One(r in ys[i].s.failed) + One(r in ys[i].reported)
            + One(r in ys[i].skipped)
            == One(r in ys[i].dispatched || r in ys[i].unshaken)
  {
    WholeRunKeeps(c, ys, i);
    assert Fate(ys[i], r) == One(Settled(ys[i], r));
  }

  /** A full prefix hit is never reported, so its metadata is kept forever. */
  lemma FullHitsAreNeverReported(c: Config, ys: seq<System>, i: nat, r: ReqId)
    requires WholeRun(c, ys) && ConfigOk(c) && i < |ys| && r in ys[i].skipped
    ensures r !in ys[i].reported && r in ys[i].s.metas
  {
    WholeRunKeeps(c, ys, i);
    assert Fate(ys[i], r) <= 1;
    SettledReceived(ys[i], r);
  }

  // ----- mixed set-ups -----

  function AllProc(): nat -> PollResult {
    h => Proc
  }

  function AllDone(): nat -> PollResult {
    h => Done
  }

  lemma {:induction false} StillProc(hs: seq<nat>)
    ensures StillRunning(hs, AllProc()) == hs
  {
    if hs != [] {
      StillProc(hs[1..]);
    }
  }

  lemma {:induction false} NoneProc(hs: seq<nat>)
    ensures StillRunning(hs, AllDone()) == []
  {
    if hs != [] {
      NoneProc(hs[1..]);
    }
  }

  lemma {:induction false} ProcKeepsReads(ts: seq<Xfer>, r: ReqId)
    ensures Reads(Running(ts, AllProc()), r) == Reads(ts, r)
  {
    if ts != [] {
      StillProc(ts[0].handles);
      ProcKeepsReads(ts[1..], r);
      if ts[0].handles == [] {
        assert Running(ts, AllProc()) == Running(ts[1..], AllProc());
      } else {
        assert Running(ts, AllProc())[1..] == Running(ts[1..], AllProc());
      }
    }
  }

  lemma {:induction false} DoneEnds(ts: seq<Xfer>, r: ReqId)
    requires Reads(ts, r) > 0
    ensures r in EndedReqs(ts, AllDone())
  {
    if ts[0].req == r {
      NoneProc(ts[0].handles);
    } else {
      DoneEnds(ts[1..], r);
      var t :| t in ts[1..] && StillRunning(t.handles, AllDone()) == [] && t.req == r;
      assert t in ts;
    }
  }

  lemma {:induction false} MixedLeaves(s: Recv, r: ReqId, os: seq<Outcome>)
    requires AnyStarted(os) || Fails(os)
    ensures AnyStarted(os) ==> Starts(os) > 0
    ensures Fails(os) ==> r in ReadAll(s, r, os).failed
  {
    Snoc(os);
    var front := os[..|os| - 1];
    if AnyStarted(front) || Fails(front) { MixedLeaves(s, r, front); }
  }

  /** A request that is failed while one of its reads is in progress trips the assertion two polls later. */
  lemma ZombieCrashes(y: System, r: ReqId)
    requires r in y.s.failed && Reads(y.s.transfers, r) > 0
    ensures Step(Step(y, Poll(AllProc())), Poll(AllDone())).crashed
  {
    var y1 := Step(y, Poll(AllProc()));
    ProcKeepsReads(y.s.transfers, r);
    DoneEnds(y1.s.transfers, r);
    assert r in Reported(y1.s, AllDone()) && r !in y1.s.metas;
  }

  /** From any state: if a request's set-up mixes a started read with a failed one, a poll while the read
      runs and a poll after it completes make `get_finished` fail its assertion. */
  lemma MixedSetupCrashes(y: System, e: Event)
    requires !Whole(e)
    requires match e case Receive(_, m, _) => m.engine in y.s.agents case _ => y.s.ready != []
    ensures Step(Step(Step(y, e), Poll(AllProc())), Poll(AllDone())).crashed
  {
    match e
    case Receive(r, m, os) =>
      var s := y.s.(metas := y.s.metas[r := m]);
      MixedLeaves(s, r, os);
      ReadAllReads(s, r, os, r);
      ZombieCrashes(Step(y, e), r);
    case Drain(os) =>
      var s := y.s.(ready := y.s.ready[1..]);
      MixedLeaves(s, y.s.ready[0], os);
      ReadAllReads(s, y.s.ready[0], os, y.s.ready[0]);
      ZombieCrashes(Step(y, e), y.s.ready[0]);
  }

  lemma SingleEventsAreWhole(c: Config, y: System, e: Event)
    requires Allowed(c, y, e) && forall en :: c.perRequest(en) == 1
    ensures Whole(e)
  {
    match e
    case Receive(_, m, os) => assert |os| == c.perRequest(m.engine) == 1;
    case Drain(os) => assert |os| == c.perRequest(y.incoming[y.s.ready[0]].engine) == 1;
    case _ =>
  }

  lemma SingleReadsAreWhole(c: Config, ys: seq<System>)
    requires Run(c, ys) && forall e :: c.perRequest(e) == 1
    ensures WholeRun(c, ys)
  {
    forall i | 0 < i < |ys| ensures WholeNext(c, ys[i - 1], ys[i]) {
      assert Next(c, ys[i - 1], ys[i]);
      var e :| Allowed(c, ys[i - 1], e) && ys[i] == Step(ys[i - 1], e);
      SingleEventsAreWhole(c, ys[i - 1], e);
    }
  }

  lemma Extend(c: Config, ys: seq<System>, e: Event) returns (zs: seq<System>)
    requires Run(c, ys) && Allowed(c, ys[|ys| - 1], e)
    ensures Run(c, zs) && zs[|zs| - 1] == Step(ys[|ys| - 1], e)
  {
    zs := ys + [Step(ys[|ys| - 1], e)];
    forall i | 0 < i < |zs| ensures Next(c, zs[i - 1], zs[i]) {
      if i < |ys| { assert Next(c, ys[i - 1], ys[i]); }
    }
  }

  /** Receiving from an unknown engine and completing its handshake queues the request. */
  lemma ReceiveThenHandshake(c: Config, m: Incoming, os: seq<Outcome>) returns (ys: seq<System>)
    requires Shaped(os, c.perRequest(m.engine))
    ensures Run(c, ys)
    ensures var y := ys[|ys| - 1]; !y.closed && y.s.ready == ["r"] && y.incoming == map["r" := m]
  {
    ys := Extend(c, [Init()], Receive("r", m, os));
    var y := ys[|ys| - 1];
    assert y.s.futures == [Pending(m.engine, ["r"])] && y.s.futures[0] in y.s.futures;
    ys := Extend(c, ys, Handshake(m.engine, true));
  }

  /** A crashing run for an engine that takes several reads per request. */
  lemma SeveralReadsCrash(c: Config, e: EngineId) returns (ys: seq<System>)
    requires c.perRequest(e) > 1
    ensures Run(c, ys) && ys[|ys| - 1].crashed
  {
    var os := [Started] + seq(c.perRequest(e) - 1, _ => MakeFails);
    assert os[0].Started? && os[1].MakeFails?;
    ys := ReceiveThenHandshake(c, Incoming(e, [0]), os);
    MixedSetupCrashes(ys[|ys| - 1], Drain(os));
    ys := Extend(c, ys, Drain(os));
    ys := Extend(c, ys, Poll(AllProc()));
    ys := Extend(c, ys, Poll(AllDone()));
  }

  /** `get_finished` never fails its assertion, in any run, exactly when every engine takes one read per
      request. */
  lemma SafeIffOneReadPerRequest(c: Config)
    requires ConfigOk(c)
    ensures (forall ys: seq<System> | Run(c, ys) :: !ys[|ys| - 1].crashed) <==> (forall e :: c.perRequest(e) == 1)
  {
    if forall e :: c.perRequest(e) == 1 {
      forall ys: seq<System> | Run(c, ys) ensures !ys[|ys| - 1].crashed {
        SingleReadsAreWhole(c, ys);
        ReportsAreFinal(c, ys, |ys| - 1, "");
      }
    } else {
      var e :| c.perRequest(e) != 1;
      var ys := SeveralReadsCrash(c, e);
    }
  }
}
