/** What every step of the receive side keeps as long as no dispatch mixes started reads with failed
    ones: each settled request has exactly one fate, no assertion fails, and a request reported without
    failure has had all its reads complete. */
module ReceiveSoundness {
  import opened ReceiveState
  import opened ReceiveProtocol
  import opened ReceiveInvariant
  import opened ReceiveFailures

  /** The handles `r` still has in progress. */
  function Reads(ts: seq<Xfer>, r: ReqId): nat {
    if ts == [] then 0 else (if ts[0].req == r then |ts[0].handles| else 0) + Reads(ts[1..], r)
  }

  /** In transfer, failed and not yet reported, reported, or with nothing to read. */
  function Fate(y: System, r: ReqId): nat {
    One(r in Live(y.s.transfers)) + One(r in y.s.failed) + y.reported[r] + One(r in y.skipped)
  }

  /** Every settled request has exactly one fate; a shutdown drops those still in transfer. */
  ghost predicate OneFate(y: System) {
    forall r :: Fate(y, r) == One(Settled(y, r)) || (y.closed && Fate(y, r) == 0)
  }

  /** `_recving_metadata` holds exactly the received requests not yet reported. */
  ghost predicate MetasUnreported(y: System) {
    forall r :: r in y.s.metas <==> r in y.incoming && r !in y.reported
  }

  /** `r` has reads, none of which failed, and a shutdown did not drop it. */
  ghost predicate Unharmed(y: System, r: ReqId) {
    r in y.dispatched && r !in y.broken && r !in y.skipped && r in y.incoming && (!y.closed || r in y.reported)
  }

  /** Every read of an unbroken request is in progress or has completed. */
  ghost predicate ReadsComplete(c: Config, y: System) {
    forall r | Unharmed(y, r) :: Reads(y.s.transfers, r) + y.landed[r] == c.perRequest(y.incoming[r].engine)
  }

  ghost predicate Idle(y: System) {
    y.closed ==> y.s.transfers == []
  }

  /** A request not dispatched has had no read. */
  ghost predicate Unread(y: System) {
    forall r | r !in y.dispatched :: r !in Live(y.s.transfers) && y.landed[r] == 0
  }

  ghost predicate FatesOk(y: System) {
    OneFate(y) && MetasUnreported(y) && !y.crashed
  }

  ghost predicate Sound(y: System) {
    FailuresOk(y) && FatesOk(y)
  }

  // ----- a dispatch -----

  lemma {:induction false} AddHandleReads(ts: seq<Xfer>, r: ReqId, h: nat, x: ReqId)
    ensures Reads(AddHandle(ts, r, h), x) == Reads(ts, x) + One(x == r)
  {
    if ts == [] {
    } else if ts[0].req == r {
      assert AddHandle(ts, r, h)[1..] == ts[1..];
    } else {
      AddHandleReads(ts[1..], r, h, x);
      assert AddHandle(ts, r, h)[1..] == AddHandle(ts[1..], r, h);
    }
  }

  function Starts(os: seq<Outcome>): nat {
    if os == [] then 0 else Starts(os[..|os| - 1]) + One(os[|os| - 1].Started?)
  }

  lemma {:induction false} ReadAllReads(s: Recv, r: ReqId, os: seq<Outcome>, x: ReqId)
    ensures Reads(ReadAll(s, r, os).transfers, x) == Reads(s.transfers, x) + if x == r then Starts(os) else 0
  {
    if os != [] {
      var s' := ReadAll(s, r, os[..|os| - 1]);
      ReadAllReads(s, r, os[..|os| - 1], x);
      AddHandleReads(s'.transfers, r, s'.nextHandle, x);
    }
  }

  lemma {:induction false} AllStarted(os: seq<Outcome>)
    requires forall i | 0 <= i < |os| :: os[i].Started?
    ensures Starts(os) == |os|
  {
    if os != [] {
      AllStarted(os[..|os| - 1]);
    }
  }

  // ----- a poll -----

  lemma {:induction false} LandedOne(t: Xfer, poll: nat -> PollResult, x: ReqId)
    requires x == t.req ==> !AnyBroken(t.handles, poll)
    ensures LandedOf(t, poll)[x] + (if x == t.req then |StillRunning(t.handles, poll)| else 0)
            == if x == t.req then |t.handles| else 0
    decreases |t.handles|
  {
    if t.handles != [] {
      assert x == t.req ==> poll(t.handles[0]) != Broken;
      var rest := Xfer(t.req, t.handles[1..]);
      if AnyBroken(rest.handles, poll) {
        var i :| 0 <= i < |rest.handles| && poll(rest.handles[i]) == Broken;
        assert poll(t.handles[i + 1]) == Broken;
      }
      LandedOne(rest, poll, x);
    }
  }

  lemma {:induction false} LandedReads(ts: seq<Xfer>, poll: nat -> PollResult, x: ReqId)
    requires x !in BrokenReqs(ts, poll)
    ensures Reads(ts, x) == Reads(Running(ts, poll), x) + Landed(ts, poll)[x]
  {
    if ts != [] {
      assert ts == [ts[0]] + ts[1..];
      assert forall t | t in ts[1..] :: t in ts;
      assert ts[0] in ts;
      LandedReads(ts[1..], poll, x);
      LandedOne(ts[0], poll, x);
      if StillRunning(ts[0].handles, poll) == [] {
        assert Running(ts, poll) == Running(ts[1..], poll);
      } else {
        assert Running(ts, poll)[1..] == Running(ts[1..], poll);
      }
    }
  }

  // ----- steps -----

  predicate Coherent(os: seq<Outcome>) {
    os != [] && Shaped(os, |os|) && !Mixed(os)
  }

  /** Started, failed and skipped exclude each other, and one of them happens. */
  lemma OneOutcome(os: seq<Outcome>)
    requires Coherent(os)
    ensures One(AnyStarted(os)) + One(Fails(os)) + One(AllNotified(os)) == 1
  {
    assert os[0].Notified? || os[0].Started? || os[0].MakeFails? || os[0].StartFails?;
  }

  lemma DispatchFate(y: System, r: ReqId, os: seq<Outcome>)
    requires XfersDistinct(y.s.transfers) && OneFate(y) && Dispatching(y, r) && !y.closed && Coherent(os)
    ensures OneFate(Dispatch(y, ReadAll(y.s, r, os), r, os))
  {
    ReadAllFates(y.s, r, os);
    OneOutcome(os);
    var y' := Dispatch(y, ReadAll(y.s, r, os), r, os);
    forall x ensures Fate(y', x) == One(Settled(y', x)) {
      assert Fate(y, x) == One(Settled(y, x));
      assert Settled(y', x) == (Settled(y, x) || x == r);
    }
  }

  lemma DispatchFates(y: System, r: ReqId, os: seq<Outcome>)
    requires Sound(y) && Dispatching(y, r) && !y.closed && Coherent(os)
    ensures FatesOk(Dispatch(y, ReadAll(y.s, r, os), r, os))
  {
    DispatchFate(y, r, os);
    ReadAllFrame(y.s, r, os);
  }

  lemma ReceiveFates(c: Config, y: System, r: ReqId, m: Incoming, os: seq<Outcome>)
    requires Base(y) && Sound(y) && Allowed(c, y, Receive(r, m, os)) && ConfigOk(c) && !Mixed(os)
    ensures FatesOk(Step(y, Receive(r, m, os)))
  {
    IncomingUnsettled(y, r);
    var y0 := y.(s := y.s.(metas := y.s.metas[r := m]), incoming := y.incoming[r := m]);
    assert Fate(y, r) == 0;
    assert Sound(y0) by {
      assert forall x :: Fate(y0, x) == Fate(y, x) && Settled(y0, x) == Settled(y, x);
      assert r !in y.broken;
      BlocksOfFresh(y.incoming, r, m, y.broken);
    }
    if m.engine in y.s.agents {
      DispatchFates(y0, r, os);
    } else {
      var y' := Step(y, Receive(r, m, os));
      assert forall x :: Fate(y', x) == Fate(y0, x) && Settled(y', x) == Settled(y0, x);
    }
  }

  lemma DrainFates(c: Config, y: System, os: seq<Outcome>)
    requires Base(y) && Sound(y) && Allowed(c, y, Drain(os)) && ConfigOk(c) && !Mixed(os)
    ensures FatesOk(Step(y, Drain(os)))
  {
    var r := y.s.ready[0];
    var y0 := y.(s := y.s.(ready := y.s.ready[1..]));
    UnplacedUnsettled(y, r);
    assert Fate(y, r) == 0;
    assert Sound(y0) by {
      assert forall x :: Fate(y0, x) == Fate(y, x) && Settled(y0, x) == Settled(y, x);
    }
    DispatchFates(y0, r, os);
  }

  lemma HandshakeFate(y: System, e: EngineId)
    requires Base(y) && Sound(y)
    ensures OneFate(Step(y, Handshake(e, false)))
  {
    var y' := Step(y, Handshake(e, false));
    var rs := WaitingOn(y.s.futures, e);
    CompletedPlaces(y.s.futures, e);
    forall x ensures Fate(y', x) == One(Settled(y', x)) || (y.closed && Fate(y', x) == 0) {
      assert Fate(y, x) == One(Settled(y, x)) || (y.closed && Fate(y, x) == 0);
      if x in rs {
        UnplacedUnsettled(y, x);
      }
    }
  }

  lemma HandshakeFates(y: System, e: EngineId, ok: bool)
    requires Base(y) && Sound(y)
    ensures FatesOk(Step(y, Handshake(e, ok)))
  {
    var y' := Step(y, Handshake(e, ok));
    if ok {
      assert forall x :: Fate(y', x) == Fate(y, x) && Settled(y', x) == Settled(y, x);
    } else {
      HandshakeFate(y, e);
    }
  }

  lemma PollFate(y: System, poll: nat -> PollResult)
    requires Sound(y)
    ensures OneFate(Step(y, Poll(poll)))
    ensures forall x | x in Reported(y.s, poll) :: Settled(y, x) && x !in y.reported
  {
    RunningFates(y.s.transfers, poll);
    var y' := Step(y, Poll(poll));
    forall x
      ensures Fate(y', x) == One(Settled(y', x)) || (y.closed && Fate(y', x) == 0)
      ensures x in Reported(y.s, poll) ==> Settled(y, x) && x !in y.reported
    {
      assert Fate(y, x) == One(Settled(y, x)) || (y.closed && Fate(y, x) == 0);
      assert Settled(y', x) == Settled(y, x);
    }
  }

  lemma PollMetas(y: System, poll: nat -> PollResult)
    requires Base(y) && Sound(y)
    ensures MetasUnreported(Step(y, Poll(poll))) && MetasPresent(y.s, poll)
  {
    PollFate(y, poll);
    forall x | x in Reported(y.s, poll) ensures x in y.s.metas {
      SettledReceived(y, x);
    }
  }

  lemma PollFates(y: System, poll: nat -> PollResult)
    requires Base(y) && Sound(y)
    ensures FatesOk(Step(y, Poll(poll)))
  {
    PollFate(y, poll);
    PollMetas(y, poll);
  }

  lemma CloseFates(y: System)
    requires Sound(y)
    ensures FatesOk(Step(y, Close))
  {
    var y' := Step(y, Close);
    forall x ensures Fate(y', x) == One(Settled(y', x)) || Fate(y', x) == 0 {
      assert Fate(y, x) == One(Settled(y, x)) || (y.closed && Fate(y, x) == 0);
      assert Settled(y', x) == Settled(y, x);
    }
  }

  lemma StepFates(c: Config, y: System, e: Event)
    requires Base(y) && Sound(y) && ConfigOk(c) && Allowed(c, y, e) && Whole(e)
    ensures FatesOk(Step(y, e))
  {
    match e
    case Receive(r, m, os) => ReceiveFates(c, y, r, m, os);
    case Drain(os) => DrainFates(c, y, os);
    case Handshake(en, ok) => HandshakeFates(y, en, ok);
    case Poll(poll) => PollFates(y, poll);
    case TakeErrors =>
      var y' := Step(y, e);
      assert forall x :: Fate(y', x) == Fate(y, x) && Settled(y', x) == Settled(y, x);
    case Close => CloseFates(y);
  }

  lemma StepSound(c: Config, y: System, e: Event)
    requires Base(y) && Sound(y) && ConfigOk(c) && Allowed(c, y, e) && Whole(e)
    ensures Sound(Step(y, e))
  {
    StepFailures(c, y, e);
    StepFates(c, y, e);
  }

  // ----- reads -----

  lemma {:induction false} NotLiveNoReads(ts: seq<Xfer>, r: ReqId)
    requires r !in Live(ts)
    ensures Reads(ts, r) == 0
  {
    if ts != [] {
      assert ts == [ts[0]] + ts[1..];
      LiveCons(ts[0], ts[1..]);
      NotLiveNoReads(ts[1..], r);
    }
  }

  lemma DispatchReads(c: Config, y: System, r: ReqId, os: seq<Outcome>)
    requires XfersDistinct(y.s.transfers) && Unread(y) && ReadsComplete(c, y) && Dispatching(y, r) && !y.closed
    requires Coherent(os) && |os| == c.perRequest(y.incoming[r].engine)
    ensures Unread(Dispatch(y, ReadAll(y.s, r, os), r, os)) && ReadsComplete(c, Dispatch(y, ReadAll(y.s, r, os), r, os))
  {
    var y' := Dispatch(y, ReadAll(y.s, r, os), r, os);
    ReadAllFates(y.s, r, os);
    NotLiveNoReads(y.s.transfers, r);
    if !Fails(os) && !AllNotified(os) {
      AllStarted(os);
    }
    forall x | Unharmed(y', x)
      ensures Reads(y'.s.transfers, x) + y'.landed[x] == c.perRequest(y'.incoming[x].engine)
    {
      ReadAllReads(y.s, r, os, x);
    }
  }

  lemma PollUnread(y: System, poll: nat -> PollResult)
    requires XfersDistinct(y.s.transfers) && Unread(y)
    ensures Unread(Step(y, Poll(poll)))
  {
    var y' := Step(y, Poll(poll));
    RunningFates(y.s.transfers, poll);
    forall x | x !in y'.dispatched
      ensures x !in Live(y'.s.transfers) && y'.landed[x] == 0
    {
      LandedReads(y.s.transfers, poll, x);
      NotLiveNoReads(y.s.transfers, x);
    }
  }

  lemma PollUnharmed(y: System, poll: nat -> PollResult, r: ReqId)
    requires Idle(y) && y.s.failed <= y.broken && Unharmed(Step(y, Poll(poll)), r)
    ensures Unharmed(y, r) && r !in BrokenReqs(y.s.transfers, poll)
  {}

  lemma PollReads(c: Config, y: System, poll: nat -> PollResult)
    requires ReadsComplete(c, y) && Idle(y) && y.s.failed <= y.broken
    ensures ReadsComplete(c, Step(y, Poll(poll)))
  {
    var y' := Step(y, Poll(poll));
    forall x | Unharmed(y', x)
      ensures Reads(y'.s.transfers, x) + y'.landed[x] == c.perRequest(y'.incoming[x].engine)
    {
      PollUnharmed(y, poll, x);
      LandedReads(y.s.transfers, poll, x);
    }
  }

  ghost predicate ReadsOk(c: Config, y: System) {
    Unread(y) && ReadsComplete(c, y) && Idle(y)
  }

  lemma ReceiveReads(c: Config, y: System, r: ReqId, m: Incoming, os: seq<Outcome>)
    requires Base(y) && Sound(y) && ReadsOk(c, y) && Allowed(c, y, Receive(r, m, os)) && ConfigOk(c) && !Mixed(os)
    ensures ReadsOk(c, Step(y, Receive(r, m, os)))
  {
    IncomingUnsettled(y, r);
    if m.engine in y.s.agents {
      var y0 := y.(s := y.s.(metas := y.s.metas[r := m]), incoming := y.incoming[r := m]);
      assert forall x | Unharmed(y0, x) :: Unharmed(y, x);
      DispatchReads(c, y0, r, os);
    } else {
      var y' := Step(y, Receive(r, m, os));
      assert forall x | Unharmed(y', x) :: Unharmed(y, x);
    }
  }

  lemma DrainReads(c: Config, y: System, os: seq<Outcome>)
    requires Base(y) && Sound(y) && ReadsOk(c, y) && Allowed(c, y, Drain(os)) && ConfigOk(c) && !Mixed(os)
    ensures ReadsOk(c, Step(y, Drain(os)))
  {
    var r := y.s.ready[0];
    var y0 := y.(s := y.s.(ready := y.s.ready[1..]));
    UnplacedUnsettled(y, r);
    assert Fate(y, r) == 0;
    assert forall x | Unharmed(y0, x) :: Unharmed(y, x);
    DispatchReads(c, y0, r, os);
  }

  lemma CloseReads(c: Config, y: System)
    requires Sound(y) && ReadsOk(c, y)
    ensures ReadsOk(c, Step(y, Close))
  {
    var y' := Step(y, Close);
    forall x | Unharmed(y', x)
      ensures Reads(y'.s.transfers, x) + y'.landed[x] == c.perRequest(y'.incoming[x].engine)
    {
      assert Fate(y, x) <= 1;
      assert Unharmed(y, x);
      NotLiveNoReads(y.s.transfers, x);
    }
  }

  lemma StepReads(c: Config, y: System, e: Event)
    requires Base(y) && Sound(y) && ReadsOk(c, y) && ConfigOk(c) && Allowed(c, y, e) && Whole(e)
    ensures ReadsOk(c, Step(y, e))
  {
    match e
    case Receive(r, m, os) => ReceiveReads(c, y, r, m, os);
    case Drain(os) => DrainReads(c, y, os);
    case Poll(poll) =>
      PollUnread(y, poll);
      PollReads(c, y, poll);
    case Close => CloseReads(c, y);
    case Handshake(_, _) => assert forall x | Unharmed(Step(y, e), x) :: Unharmed(y, x);
    case TakeErrors => assert forall x | Unharmed(Step(y, e), x) :: Unharmed(y, x);
  }
}
