/** What every step of the receive side keeps of failures, in every interleaving: the blocks marked invalid
    are exactly those of the requests that broke. */
module ReceiveFailures {
  import opened ReceiveState
  import opened ReceiveProtocol
  import opened ReceiveInvariant

  function Live(ts: seq<Xfer>): set<ReqId> {
    set t | t in ts :: t.req
  }

  ghost predicate XfersDistinct(ts: seq<Xfer>) {
    forall i, j | 0 <= i < j < |ts| :: ts[i].req != ts[j].req
  }

  predicate Settled(y: System, r: ReqId) {
    r in y.dispatched || r in y.unshaken
  }

  function One(b: bool): nat {
    if b then 1 else 0
  }

  /** The blocks marked invalid so far are exactly those of the requests that broke. */
  ghost predicate InvalidExact(y: System) {
    y.taken + y.s.invalid == BlocksOf(y.incoming, y.broken)
  }

  ghost predicate BrokenOk(y: System) {
    && y.s.failed <= y.broken
    && forall r | r in y.broken :: Settled(y, r)
  }

  /** A transfer in progress belongs to a dispatched request that broke or still has its metadata; a request
      not yet settled has it. */
  ghost predicate MetasKept(y: System) {
    && (forall r | r in Live(y.s.transfers) :: r in y.dispatched && (r in y.s.metas || r in y.broken))
    && (forall r | r in y.incoming && !Settled(y, r) :: r in y.s.metas)
  }

  ghost predicate FailuresOk(y: System) {
    && XfersDistinct(y.s.transfers) && InvalidExact(y) && BrokenOk(y) && MetasKept(y)
    && forall r | r in y.unshaken :: r in y.broken
  }

  // ----- a dispatch -----

  lemma LiveCons(t: Xfer, ts: seq<Xfer>)
    ensures Live([t] + ts) == {t.req} + Live(ts)
  {
    assert forall u :: u in [t] + ts <==> u == t || u in ts;
  }

  lemma DistinctCons(t: Xfer, ts: seq<Xfer>)
    requires XfersDistinct(ts) && t.req !in Live(ts)
    ensures XfersDistinct([t] + ts)
  {
    forall i | 0 <= i < |ts| ensures ts[i].req != t.req {
      assert ts[i].req in Live(ts);
    }
  }

  lemma {:induction false} AddHandleLive(ts: seq<Xfer>, r: ReqId, h: nat)
    ensures Live(AddHandle(ts, r, h)) == Live(ts) + {r}
  {
    if ts != [] {
      assert ts == [ts[0]] + ts[1..];
      LiveCons(ts[0], ts[1..]);
      if ts[0].req == r {
        LiveCons(Xfer(r, ts[0].handles + [h]), ts[1..]);
      } else {
        AddHandleLive(ts[1..], r, h);
        LiveCons(ts[0], AddHandle(ts[1..], r, h));
      }
    }
  }

  lemma {:induction false} AddHandleFates(ts: seq<Xfer>, r: ReqId, h: nat)
    requires XfersDistinct(ts)
    ensures XfersDistinct(AddHandle(ts, r, h))
  {
    if ts != [] && ts[0].req != r {
      AddHandleFates(ts[1..], r, h);
      AddHandleLive(ts[1..], r, h);
      DistinctCons(ts[0], AddHandle(ts[1..], r, h));
    }
  }

  lemma Snoc(os: seq<Outcome>)
    requires os != []
    ensures AnyStarted(os) == (AnyStarted(os[..|os| - 1]) || os[|os| - 1].Started?)
    ensures Fails(os) == (Fails(os[..|os| - 1]) || os[|os| - 1].MakeFails? || os[|os| - 1].StartFails?)
  {
    var front := os[..|os| - 1];
    if AnyStarted(front) {
      var i :| 0 <= i < |front| && front[i].Started?;
      assert os[i].Started?;
    }
    if Fails(front) {
      var i :| 0 <= i < |front| && (front[i].MakeFails? || front[i].StartFails?);
      assert os[i] == front[i];
    }
    if AnyStarted(os) {
      var i :| 0 <= i < |os| && os[i].Started?;
      assert i < |front| ==> front[i].Started?;
    }
    if Fails(os) {
      var i :| 0 <= i < |os| && (os[i].MakeFails? || os[i].StartFails?);
      assert i < |front| ==> front[i] == os[i];
    }
  }

  lemma {:induction false} ReadAllFates(s: Recv, r: ReqId, os: seq<Outcome>)
    requires XfersDistinct(s.transfers)
    ensures XfersDistinct(ReadAll(s, r, os).transfers)
    ensures Live(ReadAll(s, r, os).transfers) == Live(s.transfers) + if AnyStarted(os) then {r} else {}
    ensures ReadAll(s, r, os).failed == s.failed + if Fails(os) then {r} else {}
    ensures ReadAll(s, r, os).invalid == s.invalid + if Fails(os) then Blocks(s.metas, r) else {}
  {
    if os != [] {
      Snoc(os);
      var s' := ReadAll(s, r, os[..|os| - 1]);
      ReadAllFates(s, r, os[..|os| - 1]);
      ReadAllFrame(s, r, os[..|os| - 1]);
      AddHandleFates(s'.transfers, r, s'.nextHandle);
      AddHandleLive(s'.transfers, r, s'.nextHandle);
    }
  }

  // ----- a poll -----

  lemma EndedCons(ts: seq<Xfer>, poll: nat -> PollResult)
    requires ts != []
    ensures EndedReqs(ts, poll) == (if StillRunning(ts[0].handles, poll) == [] then {ts[0].req} else {})
            + EndedReqs(ts[1..], poll)
  {
    assert ts == [ts[0]] + ts[1..];
    assert forall u :: u in ts <==> u == ts[0] || u in ts[1..];
  }

  lemma {:induction false} RunningFates(ts: seq<Xfer>, poll: nat -> PollResult)
    requires XfersDistinct(ts)
    ensures XfersDistinct(Running(ts, poll))
    ensures Live(Running(ts, poll)) == Live(ts) - EndedReqs(ts, poll)
    ensures EndedReqs(ts, poll) <= Live(ts) && BrokenReqs(ts, poll) <= Live(ts)
  {
    if ts != [] {
      assert ts == [ts[0]] + ts[1..];
      RunningFates(ts[1..], poll);
      LiveCons(ts[0], ts[1..]);
      assert ts[0].req !in Live(ts[1..]);
      EndedCons(ts, poll);
      var us := Running(ts[1..], poll);
      if StillRunning(ts[0].handles, poll) == [] {
        assert Running(ts, poll) == us;
      } else {
        var t := Xfer(ts[0].req, StillRunning(ts[0].handles, poll));
        assert Running(ts, poll) == [t] + us;
        LiveCons(t, us);
        DistinctCons(t, us);
      }
    }
  }

  // ----- blocks and places -----

  lemma {:induction false} AllBlocksOf(incoming: map<ReqId, Incoming>, metas: map<ReqId, Incoming>, rs: seq<ReqId>)
    requires forall r | r in rs :: r in metas && r in incoming && metas[r] == incoming[r]
    ensures AllBlocks(metas, rs) == BlocksOf(incoming, Members(rs))
  {
    if rs != [] {
      var front, r := rs[..|rs| - 1], rs[|rs| - 1];
      assert rs == front + [r];
      AllBlocksOf(incoming, metas, front);
      assert Members(rs) == Members(front) + {r};
      assert r in rs;
    }
  }

  lemma BlocksOfUnion(incoming: map<ReqId, Incoming>, a: set<ReqId>, b: set<ReqId>)
    ensures BlocksOf(incoming, a + b) == BlocksOf(incoming, a) + BlocksOf(incoming, b)
  {}

  lemma BlocksOfOne(incoming: map<ReqId, Incoming>, r: ReqId)
    ensures BlocksOf(incoming, {r}) == Blocks(incoming, r)
  {}

  lemma BlocksOfFresh(incoming: map<ReqId, Incoming>, r: ReqId, m: Incoming, rs: set<ReqId>)
    requires r !in rs
    ensures BlocksOf(incoming[r := m], rs) == BlocksOf(incoming, rs)
  {
    assert forall x | x in rs :: x in incoming[r := m] <==> x in incoming;
  }

  /** A request still waiting or queued is not settled. */
  lemma UnplacedUnsettled(y: System, r: ReqId)
    requires PlacedOnce(y) && (r in Waiting(y.s.futures) || r in y.s.ready)
    ensures !Settled(y, r) && r in y.incoming
  {
    var all := Waiting(y.s.futures) + multiset(y.s.ready) + multiset(y.dispatched) + multiset(y.unshaken);
    assert all[r] == multiset(y.incoming.Keys)[r] <= 1;
  }

  lemma IncomingUnsettled(y: System, r: ReqId)
    requires PlacedOnce(y) && r !in y.incoming
    ensures !Settled(y, r)
  {
    var all := Waiting(y.s.futures) + multiset(y.s.ready) + multiset(y.dispatched) + multiset(y.unshaken);
    assert all[r] == 0;
  }

  /** A settled request was received. */
  lemma SettledReceived(y: System, r: ReqId)
    requires PlacedOnce(y) && Settled(y, r)
    ensures r in y.incoming
  {
    if r !in y.incoming { IncomingUnsettled(y, r); }
  }

  /** `y` is about to dispatch `r`. */
  ghost predicate Dispatching(y: System, r: ReqId) {
    r in y.incoming && r in y.s.metas && y.s.metas[r] == y.incoming[r] && !Settled(y, r)
  }

  // ----- steps -----

  lemma DispatchFailures(y: System, r: ReqId, os: seq<Outcome>)
    requires FailuresOk(y) && Dispatching(y, r)
    ensures FailuresOk(Dispatch(y, ReadAll(y.s, r, os), r, os))
  {
    ReadAllFates(y.s, r, os);
    ReadAllFrame(y.s, r, os);
    BlocksOfUnion(y.incoming, y.broken, {r});
    BlocksOfOne(y.incoming, r);
  }

  lemma AcceptFailures(c: Config, y: System, r: ReqId, m: Incoming, os: seq<Outcome>)
    requires Base(y) && FailuresOk(y) && Allowed(c, y, Receive(r, m, os))
    ensures FailuresOk(Step(y, Receive(r, m, os)))
  {
    IncomingUnsettled(y, r);
    var y0 := y.(s := y.s.(metas := y.s.metas[r := m]), incoming := y.incoming[r := m]);
    assert FailuresOk(y0) by {
      assert forall x :: Settled(y0, x) == Settled(y, x);
      assert r !in y.broken;
      BlocksOfFresh(y.incoming, r, m, y.broken);
    }
    if m.engine in y.s.agents {
      DispatchFailures(y0, r, os);
    } else {
      var y' := Step(y, Receive(r, m, os));
      assert forall x :: Settled(y', x) == Settled(y0, x);
    }
  }

  lemma DrainFailures(c: Config, y: System, os: seq<Outcome>)
    requires Base(y) && FailuresOk(y) && Allowed(c, y, Drain(os))
    ensures FailuresOk(Step(y, Drain(os)))
  {
    var r := y.s.ready[0];
    var y0 := y.(s := y.s.(ready := y.s.ready[1..]));
    UnplacedUnsettled(y, r);
    assert FailuresOk(y0) by {
      assert forall x :: Settled(y0, x) == Settled(y, x);
    }
    DispatchFailures(y0, r, os);
  }

  lemma WaitersHaveMetas(y: System, e: EngineId)
    requires Base(y) && FailuresOk(y)
    ensures forall x | x in WaitingOn(y.s.futures, e) :: x in y.s.metas && x in y.incoming && !Settled(y, x)
  {
    CompletedPlaces(y.s.futures, e);
    forall x | x in WaitingOn(y.s.futures, e) ensures x in y.s.metas && x in y.incoming && !Settled(y, x) {
      UnplacedUnsettled(y, x);
    }
  }

  lemma HandshakeFailures(y: System, e: EngineId, ok: bool)
    requires Base(y) && FailuresOk(y)
    ensures FailuresOk(Step(y, Handshake(e, ok)))
  {
    var y' := Step(y, Handshake(e, ok));
    if ok {
      assert forall x :: Settled(y', x) == Settled(y, x);
    } else {
      var rs := WaitingOn(y.s.futures, e);
      WaitersHaveMetas(y, e);
      AllBlocksOf(y.incoming, y.s.metas, rs);
      BlocksOfUnion(y.incoming, y.broken, Members(rs));
      assert forall x :: Settled(y', x) == (Settled(y, x) || x in rs);
    }
  }

  /** A request whose transfer breaks has its metadata, or its blocks were marked before. */
  lemma PollInvalid(y: System, poll: nat -> PollResult)
    requires Base(y) && FailuresOk(y)
    ensures InvalidExact(Step(y, Poll(poll)))
  {
    var bs := BrokenReqs(y.s.transfers, poll);
    RunningFates(y.s.transfers, poll);
    BlocksOfUnion(y.incoming, y.broken, bs);
    forall b | b in BlocksOf(y.incoming, bs) ensures b in BlocksOf(y.incoming, y.broken) + BlocksOf(y.s.metas, bs) {
      var r :| r in bs && r in y.incoming && b in y.incoming[r].blocks;
      if r in y.s.metas { assert y.s.metas[r] == y.incoming[r]; }
    }
    forall b | b in BlocksOf(y.s.metas, bs) ensures b in BlocksOf(y.incoming, bs) {
      var r :| r in bs && r in y.s.metas && b in y.s.metas[r].blocks;
      assert y.s.metas[r] == y.incoming[r];
    }
  }

  lemma PollFailures(y: System, poll: nat -> PollResult)
    requires Base(y) && FailuresOk(y)
    ensures FailuresOk(Step(y, Poll(poll)))
  {
    PollInvalid(y, poll);
    RunningFates(y.s.transfers, poll);
    assert forall x :: Settled(Step(y, Poll(poll)), x) == Settled(y, x);
  }

  /** Every event keeps it, mixed set-ups included. */
  lemma StepFailures(c: Config, y: System, e: Event)
    requires Base(y) && FailuresOk(y) && Allowed(c, y, e)
    ensures FailuresOk(Step(y, e))
  {
    match e
    case Receive(r, m, os) => AcceptFailures(c, y, r, m, os);
    case Drain(os) => DrainFailures(c, y, os);
    case Handshake(en, ok) => HandshakeFailures(y, en, ok);
    case Poll(poll) => PollFailures(y, poll);
    case TakeErrors =>
      assert forall x :: Settled(Step(y, e), x) == Settled(y, x);
    case Close =>
      assert forall x :: Settled(Step(y, e), x) == Settled(y, x);
  }
}
