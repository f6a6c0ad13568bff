/** What every step of the receive side keeps: dispatch exactly once and handle conservation for any
    number of reads per request, failure soundness for one read per request. */
module ReceiveInvariant {
  import opened ReceiveState
  import opened ReceiveProtocol

  // ----- every request is in exactly one place -----

  function Waiting(fs: seq<Pending>): multiset<ReqId> {
    if fs == [] then multiset{} else multiset(fs[0].waiting) + Waiting(fs[1..])
  }

  ghost predicate OneFuturePerEngine(fs: seq<Pending>) {
    forall i, j | 0 <= i < j < |fs| :: fs[i].engine != fs[j].engine
  }

  /** Waiting on a handshake, queued ready, dispatched, or failed in its handshake: together these hold
      every received request exactly once. */
  ghost predicate PlacedOnce(y: System) {
    Waiting(y.s.futures) + multiset(y.s.ready) + multiset(y.dispatched) + multiset(y.unshaken)
      == multiset(y.incoming.Keys)
  }

  /** At most one handshake is pending per engine, and none for an engine already known. */
  ghost predicate FuturesOk(s: Recv) {
    && OneFuturePerEngine(s.futures)
    && forall p | p in s.futures :: p.engine !in s.agents
  }

  ghost predicate OnEngine(incoming: map<ReqId, Incoming>, p: Pending) {
    forall r | r in p.waiting :: r in incoming && incoming[r].engine == p.engine
  }

  /** Requests wait only on the handshake of their own engine. */
  ghost predicate WaitersOk(y: System) {
    forall p | p in y.s.futures :: OnEngine(y.incoming, p)
  }

  /** A queued request's engine is known, so its reads find the engine's agents. */
  ghost predicate ReadyOk(y: System) {
    forall r | r in y.s.ready :: r in y.incoming && (y.closed || y.incoming[r].engine in y.s.agents)
  }

  ghost predicate MetasOk(y: System) {
    forall r | r in y.s.metas :: r in y.incoming && y.s.metas[r] == y.incoming[r]
  }

  function Made(n: nat): multiset<nat> {
    if n == 0 then multiset{} else Made(n - 1) + multiset{n - 1}
  }

  /** Every handle ever made is either outstanding once or was released once. */
  ghost predicate HandlesConserved(s: Recv) {
    Outstanding(s.transfers) + s.released == Made(s.nextHandle)
  }

  ghost predicate Base(y: System) {
    PlacedOnce(y) && FuturesOk(y.s) && WaitersOk(y) && ReadyOk(y) && MetasOk(y) && HandlesConserved(y.s)
  }

  lemma {:induction false} AwaitPlaces(fs: seq<Pending>, e: EngineId, r: ReqId)
    ensures Waiting(Await(fs, e, r)) == Waiting(fs) + multiset{r}
  {
    if fs == [] {
      assert [Pending(e, [r])][1..] == [];
    } else if fs[0].engine == e {
      assert Await(fs, e, r)[1..] == fs[1..];
    } else {
      AwaitPlaces(fs[1..], e, r);
      assert Await(fs, e, r)[1..] == Await(fs[1..], e, r);
    }
  }

  ghost predicate WaitsOn(fs: seq<Pending>, e: EngineId, r: ReqId) {
    exists q | q in fs :: q.engine == e && r in q.waiting
  }

  lemma {:induction false} AwaitMembers(fs: seq<Pending>, e: EngineId, r: ReqId, p: Pending)
    requires p in Await(fs, e, r)
    ensures p in fs || (p.engine == e && forall x | x in p.waiting :: x == r || WaitsOn(fs, e, x))
  {
    if fs != [] {
      assert fs == [fs[0]] + fs[1..];
      if fs[0].engine == e {
        if p == Pending(e, fs[0].waiting + [r]) {
          assert fs[0] in fs;
        }
      } else if p != fs[0] {
        AwaitMembers(fs[1..], e, r, p);
        forall x | x in p.waiting && WaitsOn(fs[1..], e, x)
          ensures WaitsOn(fs, e, x)
        {
          var q :| q in fs[1..] && q.engine == e && x in q.waiting;
          assert q in fs;
        }
      }
    }
  }

  lemma TailDistinct(fs: seq<Pending>)
    requires fs != [] && OneFuturePerEngine(fs)
    ensures OneFuturePerEngine(fs[1..]) && forall p | p in fs[1..] :: p.engine != fs[0].engine && p in fs
  {
    assert forall i | 0 <= i < |fs| - 1 :: fs[1..][i] == fs[i + 1];
  }

  lemma ConsDistinct(p: Pending, rest: seq<Pending>)
    requires OneFuturePerEngine(rest) && forall q | q in rest :: q.engine != p.engine
    ensures OneFuturePerEngine([p] + rest)
  {
    var all := [p] + rest;
    forall i, j | 0 <= i < j < |all| ensures all[i].engine != all[j].engine {
      assert all[j] == rest[j - 1];
      if i > 0 { assert all[i] == rest[i - 1]; }
    }
  }

  lemma {:induction false} AwaitDistinct(fs: seq<Pending>, e: EngineId, r: ReqId)
    requires OneFuturePerEngine(fs)
    ensures OneFuturePerEngine(Await(fs, e, r))
    ensures forall p | p in Await(fs, e, r) :: p.engine == e || p in fs
  {
    if fs != [] {
      TailDistinct(fs);
      if fs[0].engine == e {
        ConsDistinct(Pending(e, fs[0].waiting + [r]), fs[1..]);
      } else {
        AwaitDistinct(fs[1..], e, r);
        ConsDistinct(fs[0], Await(fs[1..], e, r));
      }
    }
  }

  lemma {:induction false} CompletedPlaces(fs: seq<Pending>, e: EngineId)
    ensures Waiting(fs) == Waiting(Completed(fs, e)) + multiset(WaitingOn(fs, e))
    ensures forall x | x in WaitingOn(fs, e) :: WaitsOn(fs, e, x)
  {
    if fs != [] {
      assert fs == [fs[0]] + fs[1..];
      if fs[0].engine != e {
        CompletedPlaces(fs[1..], e);
        assert Completed(fs, e)[1..] == Completed(fs[1..], e);
        forall x | x in WaitingOn(fs[1..], e)
          ensures WaitsOn(fs, e, x)
        {
          var q :| q in fs[1..] && q.engine == e && x in q.waiting;
          assert q in fs;
        }
      } else {
        assert fs[0] in fs;
      }
    }
  }

  lemma {:induction false} CompletedMembers(fs: seq<Pending>, e: EngineId)
    requires OneFuturePerEngine(fs)
    ensures forall p :: p in Completed(fs, e) <==> p in fs && p.engine != e
  {
    if fs != [] {
      assert fs == [fs[0]] + fs[1..];
      assert forall p | p in fs[1..] :: p.engine != fs[0].engine;
      if fs[0].engine != e {
        CompletedMembers(fs[1..], e);
      }
    }
  }

  lemma {:induction false} CompletedDistinct(fs: seq<Pending>, e: EngineId)
    requires OneFuturePerEngine(fs)
    ensures OneFuturePerEngine(Completed(fs, e))
  {
    if fs != [] && fs[0].engine != e {
      CompletedDistinct(fs[1..], e);
      CompletedMembers(fs[1..], e);
      var rest := Completed(fs[1..], e);
      forall i | 0 <= i < |rest| ensures rest[i].engine != fs[0].engine {
        assert rest[i] in rest;
      }
    }
  }

  // ----- handles -----

  lemma {:induction false} AddHandleConserves(ts: seq<Xfer>, r: ReqId, h: nat)
    ensures Outstanding(AddHandle(ts, r, h)) == Outstanding(ts) + multiset{h}
  {
    if ts == [] {
      assert AddHandle(ts, r, h)[1..] == [];
    } else if ts[0].req == r {
      assert AddHandle(ts, r, h)[1..] == ts[1..];
    } else {
      AddHandleConserves(ts[1..], r, h);
      assert AddHandle(ts, r, h)[1..] == AddHandle(ts[1..], r, h);
    }
  }

  lemma OneMore(held: multiset<nat>, released: multiset<nat>, n: nat)
    requires held + released == Made(n)
    ensures (held + multiset{n}) + released == Made(n + 1)
    ensures held + (released + multiset{n}) == Made(n + 1)
  {}

  lemma StartedConserves(s: Recv, r: ReqId)
    requires HandlesConserved(s)
    ensures Outstanding(AddHandle(s.transfers, r, s.nextHandle)) + s.released == Made(s.nextHandle + 1)
  {
    AddHandleConserves(s.transfers, r, s.nextHandle);
    OneMore(Outstanding(s.transfers), s.released, s.nextHandle);
  }

  lemma FailedConserves(s: Recv)
    requires HandlesConserved(s)
    ensures Outstanding(s.transfers) + (s.released + multiset{s.nextHandle}) == Made(s.nextHandle + 1)
  {
    OneMore(Outstanding(s.transfers), s.released, s.nextHandle);
  }

  lemma ReadOneConserves(s: Recv, r: ReqId, o: Outcome)
    requires HandlesConserved(s)
    ensures HandlesConserved(ReadOne(s, r, o))
  {
    match o
    case Started => StartedConserves(s, r);
    case StartFails => FailedConserves(s);
    case Notified =>
    case MakeFails =>
  }

  lemma {:induction false} ReadAllConserves(s: Recv, r: ReqId, os: seq<Outcome>)
    requires HandlesConserved(s)
    ensures HandlesConserved(ReadAll(s, r, os))
  {
    if os != [] {
      ReadAllConserves(s, r, os[..|os| - 1]);
      ReadOneConserves(ReadAll(s, r, os[..|os| - 1]), r, os[|os| - 1]);
    }
  }

  lemma {:induction false} ReadAllFrame(s: Recv, r: ReqId, os: seq<Outcome>)
    ensures var s' := ReadAll(s, r, os);
            s'.metas == s.metas && s'.ready == s.ready && s'.futures == s.futures && s'.agents == s.agents
  {
    if os != [] {
      ReadAllFrame(s, r, os[..|os| - 1]);
    }
  }

  lemma {:induction false} PollHandles(hs: seq<nat>, poll: nat -> PollResult)
    ensures multiset(hs) == multiset(StillRunning(hs, poll)) + Ended(hs, poll)
  {
    if hs != [] {
      PollHandles(hs[1..], poll);
      assert hs == [hs[0]] + hs[1..];
    }
  }

  lemma {:induction false} PollConserves(ts: seq<Xfer>, poll: nat -> PollResult)
    ensures Outstanding(ts) == Outstanding(Running(ts, poll)) + EndedHandles(ts, poll)
  {
    if ts != [] {
      PollHandles(ts[0].handles, poll);
      PollConserves(ts[1..], poll);
      if StillRunning(ts[0].handles, poll) == [] {
        assert Running(ts, poll) == Running(ts[1..], poll);
      } else {
        assert Running(ts, poll)[1..] == Running(ts[1..], poll);
      }
    }
  }

  // ----- the invariant for any number of reads per request -----

  lemma SetGrows(a: set<ReqId>, r: ReqId)
    requires r !in a
    ensures multiset(a + {r}) == multiset(a) + multiset{r}
  {}

  lemma ReceivePlaces(y: System, r: ReqId, m: Incoming, os: seq<Outcome>)
    requires PlacedOnce(y) && r !in y.incoming
    ensures PlacedOnce(Step(y, Receive(r, m, os)))
  {
    SetGrows(y.incoming.Keys, r);
    assert y.incoming[r := m].Keys == y.incoming.Keys + {r};
    if m.engine in y.s.agents {
      ReadAllFrame(y.s.(metas := y.s.metas[r := m]), r, os);
    } else {
      AwaitPlaces(y.s.futures, m.engine, r);
    }
  }

  lemma DrainPlaces(y: System, os: seq<Outcome>)
    requires PlacedOnce(y) && y.s.ready != []
    ensures PlacedOnce(Step(y, Drain(os)))
  {
    ReadAllFrame(y.s.(ready := y.s.ready[1..]), y.s.ready[0], os);
    assert y.s.ready == [y.s.ready[0]] + y.s.ready[1..];
  }

  lemma HandshakePlaces(y: System, e: EngineId, ok: bool)
    requires PlacedOnce(y)
    ensures PlacedOnce(Step(y, Handshake(e, ok)))
  {
    CompletedPlaces(y.s.futures, e);
  }

  lemma StepPlacedOnce(c: Config, y: System, e: Event)
    requires PlacedOnce(y) && Allowed(c, y, e)
    ensures PlacedOnce(Step(y, e))
  {
    match e
    case Receive(r, m, os) => ReceivePlaces(y, r, m, os);
    case Drain(os) => DrainPlaces(y, os);
    case Handshake(en, ok) => HandshakePlaces(y, en, ok);
    case Poll(_) =>
    case TakeErrors =>
    case Close =>
  }

  lemma StepFuturesOk(c: Config, y: System, e: Event)
    requires FuturesOk(y.s) && Allowed(c, y, e)
    ensures FuturesOk(Step(y, e).s)
  {
    match e
    case Receive(r, m, os) =>
      AwaitDistinct(y.s.futures, m.engine, r);
      ReadAllFrame(y.s.(metas := y.s.metas[r := m]), r, os);
    case Drain(os) => ReadAllFrame(y.s.(ready := y.s.ready[1..]), y.s.ready[0], os);
    case Handshake(en, ok) =>
      CompletedDistinct(y.s.futures, en);
      CompletedMembers(y.s.futures, en);
    case Poll(_) =>
    case TakeErrors =>
    case Close =>
  }

  lemma AwaitOnEngine(y: System, r: ReqId, m: Incoming)
    requires WaitersOk(y) && r !in y.incoming
    ensures forall p | p in Await(y.s.futures, m.engine, r) :: OnEngine(y.incoming[r := m], p)
  {
    forall p | p in Await(y.s.futures, m.engine, r)
      ensures OnEngine(y.incoming[r := m], p)
    {
      AwaitMembers(y.s.futures, m.engine, r, p);
    }
  }

  lemma StepWaitersOk(c: Config, y: System, e: Event)
    requires FuturesOk(y.s) && WaitersOk(y) && Allowed(c, y, e)
    ensures WaitersOk(Step(y, e))
  {
    match e
    case Receive(r, m, os) =>
      ReadAllFrame(y.s.(metas := y.s.metas[r := m]), r, os);
      if m.engine !in y.s.agents { AwaitOnEngine(y, r, m); }
    case Drain(os) => ReadAllFrame(y.s.(ready := y.s.ready[1..]), y.s.ready[0], os);
    case Handshake(en, ok) => CompletedMembers(y.s.futures, en);
    case Poll(_) =>
    case TakeErrors =>
    case Close =>
  }

  lemma WaitingOnEngine(y: System, e: EngineId, r: ReqId)
    requires WaitersOk(y) && r in WaitingOn(y.s.futures, e)
    ensures r in y.incoming && y.incoming[r].engine == e
  {
    CompletedPlaces(y.s.futures, e);
    var q :| q in y.s.futures && q.engine == e && r in q.waiting;
    assert OnEngine(y.incoming, q);
  }

  lemma StepReadyOk(c: Config, y: System, e: Event)
    requires WaitersOk(y) && ReadyOk(y) && Allowed(c, y, e)
    ensures ReadyOk(Step(y, e))
  {
    match e
    case Receive(r, m, os) => ReadAllFrame(y.s.(metas := y.s.metas[r := m]), r, os);
    case Drain(os) => ReadAllFrame(y.s.(ready := y.s.ready[1..]), y.s.ready[0], os);
    case Handshake(en, ok) =>
      forall r | r in WaitingOn(y.s.futures, en) ensures r in y.incoming && y.incoming[r].engine == en {
        WaitingOnEngine(y, en, r);
      }
    case Poll(_) =>
    case TakeErrors =>
    case Close =>
  }

  lemma StepMetasOk(c: Config, y: System, e: Event)
    requires MetasOk(y) && Allowed(c, y, e)
    ensures MetasOk(Step(y, e))
  {
    match e
    case Receive(r, m, os) => ReadAllFrame(y.s.(metas := y.s.metas[r := m]), r, os);
    case Drain(os) => ReadAllFrame(y.s.(ready := y.s.ready[1..]), y.s.ready[0], os);
    case Handshake(en, ok) =>
    case Poll(_) =>
    case TakeErrors =>
    case Close =>
  }

  lemma PollKeepsHandles(s: Recv, poll: nat -> PollResult)
    requires HandlesConserved(s)
    ensures HandlesConserved(Finish(s, poll))
  {
    PollConserves(s.transfers, poll);
    Assoc(Outstanding(Running(s.transfers, poll)), EndedHandles(s.transfers, poll), s.released);
  }

  lemma CloseKeepsHandles(s: Recv)
    requires HandlesConserved(s)
    ensures HandlesConserved(Shutdown(s))
  {}

  lemma StepConserves(c: Config, y: System, e: Event)
    requires HandlesConserved(y.s) && Allowed(c, y, e)
    ensures HandlesConserved(Step(y, e).s)
  {
    match e
    case Receive(r, m, os) => ReadAllConserves(y.s.(metas := y.s.metas[r := m]), r, os);
    case Drain(os) => ReadAllConserves(y.s.(ready := y.s.ready[1..]), y.s.ready[0], os);
    case Handshake(en, ok) =>
    case Poll(poll) => PollKeepsHandles(y.s, poll);
    case TakeErrors =>
    case Close => CloseKeepsHandles(y.s);
  }

  lemma StepBase(c: Config, y: System, e: Event)
    requires Base(y) && Allowed(c, y, e)
    ensures Base(Step(y, e))
  {
    StepPlacedOnce(c, y, e);
    StepFuturesOk(c, y, e);
    StepWaitersOk(c, y, e);
    StepReadyOk(c, y, e);
    StepMetasOk(c, y, e);
    StepConserves(c, y, e);
  }

  lemma {:induction false} RunBase(c: Config, ys: seq<System>, i: nat)
    requires Run(c, ys) && i < |ys|
    ensures Base(ys[i])
  {
    if i > 0 {
      RunBase(c, ys, i - 1);
      var e :| Allowed(c, ys[i - 1], e) && ys[i] == Step(ys[i - 1], e);
      StepBase(c, ys[i - 1], e);
    }
  }
}
