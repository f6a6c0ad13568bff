/** A whole `start_load_kv` on the receive side, which accepts the new requests and then empties the ready
    queue, is a run of the receive protocol. */
module ReceiveLoads {
  import opened ReceiveState
  import opened ReceiveProtocol
  import opened ReceiveInvariant
  import opened ReceiveWorker

  /** One allowed step. */
  ghost predicate Takes(c: Config, y: System, e: Event, y': System) {
    Allowed(c, y, e) && y' == Step(y, e)
  }

  /** New requests, each once. */
  ghost predicate Fresh(y: System, reqs: seq<(ReqId, Incoming)>) {
    && (forall i | 0 <= i < |reqs| :: reqs[i].0 !in y.incoming)
    && forall i, j | 0 <= i < j < |reqs| :: reqs[i].0 != reqs[j].0
  }

  /** NIXL answers for every read of a new request. */
  ghost predicate Answers(c: Config, reqs: seq<(ReqId, Incoming)>, wire: ReqId -> seq<Outcome>) {
    forall i | 0 <= i < |reqs| :: Shaped(wire(reqs[i].0), c.perRequest(reqs[i].1.engine))
  }

  /** NIXL answers for every read of a queued request. */
  ghost predicate AnswersQueued(c: Config, y: System, wire: ReqId -> seq<Outcome>) {
    forall r | r in y.s.ready :: r in y.incoming && Shaped(wire(r), c.perRequest(y.incoming[r].engine))
  }

  // ----- the new requests -----

  /** The new requests whose engine is known, in order: they are read at once. */
  function ReadNow(agents: set<EngineId>, reqs: seq<(ReqId, Incoming)>): seq<ReqId> {
    if reqs == [] then []
    else
      var (r, m) := reqs[|reqs| - 1];
      ReadNow(agents, reqs[..|reqs| - 1]) + if m.engine in agents then [r] else []
  }

  /** The new requests of one engine, in order. */
  function OfEngine(e: EngineId, reqs: seq<(ReqId, Incoming)>): seq<ReqId> {
    if reqs == [] then []
    else
      var (r, m) := reqs[|reqs| - 1];
      OfEngine(e, reqs[..|reqs| - 1]) + if m.engine == e then [r] else []
  }

  lemma {:induction false} AwaitWaits(fs: seq<Pending>, e: EngineId, r: ReqId, e': EngineId)
    ensures WaitingOn(Await(fs, e, r), e') == WaitingOn(fs, e') + if e == e' then [r] else []
  {
    if fs != [] && fs[0].engine != e {
      AwaitWaits(fs[1..], e, r, e');
    }
    assert WaitingOn(fs, e') + [] == WaitingOn(fs, e');
  }

  /** The waiting lists of the handshakes grow by the new requests, each engine's by its own. */
  ghost predicate Queued(y: System, reqs: seq<(ReqId, Incoming)>, y': System) {
    forall e :: WaitingOn(y'.s.futures, e) == WaitingOn(y.s.futures, e) + Awaiting(y.s.agents, e, reqs)
  }

  /** The new requests that wait on the engine's handshake. */
  function Awaiting(agents: set<EngineId>, e: EngineId, reqs: seq<(ReqId, Incoming)>): seq<ReqId> {
    if e in agents then [] else OfEngine(e, reqs)
  }

  /** The new requests are remembered, and what was remembered before stays. */
  ghost predicate Remembered(y: System, reqs: seq<(ReqId, Incoming)>, y': System) {
    && (forall r :: r in y'.incoming <==> r in y.incoming || exists i :: 0 <= i < |reqs| && reqs[i].0 == r)
    && (forall r | r in y.incoming :: y'.incoming[r] == y.incoming[r])
    && (forall i | 0 <= i < |reqs| :: y'.incoming[reqs[i].0] == reqs[i].1)
  }

  ghost predicate Accepted(y: System, reqs: seq<(ReqId, Incoming)>, wire: ReqId -> seq<Outcome>, y': System) {
    && y'.s == AcceptAll(y.s, reqs, wire)
    && y'.closed == y.closed && y'.s.ready == y.s.ready && y'.s.agents == y.s.agents
    && y'.dispatched == y.dispatched + ReadNow(y.s.agents, reqs)
    && Queued(y, reqs, y') && Remembered(y, reqs, y')
  }

  lemma AcceptFrame(y: System, r: ReqId, m: Incoming, os: seq<Outcome>)
    ensures var y' := Step(y, Receive(r, m, os));
            && y'.s == Accept(y.s, r, m, os)
            && y'.closed == y.closed && y'.s.ready == y.s.ready && y'.s.agents == y.s.agents
            && y'.incoming == y.incoming[r := m]
            && y'.dispatched == y.dispatched + (if m.engine in y.s.agents then [r] else [])
            && y'.s.futures == if m.engine in y.s.agents then y.s.futures else Await(y.s.futures, m.engine, r)
  {
    ReadAllFrame(y.s.(metas := y.s.metas[r := m]), r, os);
  }

  lemma QueuedNext(y: System, reqs: seq<(ReqId, Incoming)>, y1: System, y2: System)
    requires reqs != [] && y1.s.agents == y.s.agents && Queued(y, reqs[..|reqs| - 1], y1)
    requires var (r, m) := reqs[|reqs| - 1];
             y2.s.futures == if m.engine in y.s.agents then y1.s.futures else Await(y1.s.futures, m.engine, r)
    ensures Queued(y, reqs, y2)
  {
    var (r, m) := reqs[|reqs| - 1];
    forall e
      ensures WaitingOn(y2.s.futures, e) == WaitingOn(y.s.futures, e) + Awaiting(y.s.agents, e, reqs)
    {
      var before := Awaiting(y.s.agents, e, reqs[..|reqs| - 1]);
      assert WaitingOn(y1.s.futures, e) == WaitingOn(y.s.futures, e) + before;
      AwaitWaits(y1.s.futures, m.engine, r, e);
      assert WaitingOn(y.s.futures, e) + before + [r] == WaitingOn(y.s.futures, e) + (before + [r]);
      assert before + [] == before;
    }
  }

  lemma RememberedNext(y: System, reqs: seq<(ReqId, Incoming)>, y1: System, y2: System)
    requires reqs != [] && Fresh(y, reqs) && Remembered(y, reqs[..|reqs| - 1], y1)
    requires y2.incoming == y1.incoming[reqs[|reqs| - 1].0 := reqs[|reqs| - 1].1]
    ensures Remembered(y, reqs, y2) && reqs[|reqs| - 1].0 !in y1.incoming
  {
    var k := |reqs| - 1;
    forall r ensures r in y2.incoming <==> r in y.incoming || exists i :: 0 <= i < |reqs| && reqs[i].0 == r {
      if i :| 0 <= i < k && reqs[..k][i].0 == r {
        assert reqs[i].0 == r;
      }
      if i :| 0 <= i < |reqs| && reqs[i].0 == r {
        assert i < k ==> reqs[..k][i].0 == r;
      }
    }
    forall i | 0 <= i < |reqs| ensures y2.incoming[reqs[i].0] == reqs[i].1 {
      assert i < k ==> reqs[..k][i] == reqs[i];
    }
  }

  lemma AcceptedNext(c: Config, y: System, reqs: seq<(ReqId, Incoming)>, wire: ReqId -> seq<Outcome>, y1: System)
    requires !y.closed && reqs != [] && Fresh(y, reqs) && Answers(c, reqs, wire)
    requires Accepted(y, reqs[..|reqs| - 1], wire, y1)
    ensures var (r, m) := reqs[|reqs| - 1];
            Allowed(c, y1, Receive(r, m, wire(r))) && Accepted(y, reqs, wire, Step(y1, Receive(r, m, wire(r))))
  {
    var (r, m) := reqs[|reqs| - 1];
    var y2 := Step(y1, Receive(r, m, wire(r)));
    AcceptFrame(y1, r, m, wire(r));
    QueuedNext(y, reqs, y1, y2);
    RememberedNext(y, reqs, y1, y2);
  }

  /** The steps that accept the new requests in order. */
  ghost predicate AcceptSteps(c: Config, reqs: seq<(ReqId, Incoming)>, wire: ReqId -> seq<Outcome>, ys: seq<System>) {
    && |ys| == |reqs| + 1
    && forall i | 0 <= i < |reqs| :: Takes(c, ys[i], Receive(reqs[i].0, reqs[i].1, wire(reqs[i].0)), ys[i + 1])
  }

  lemma AcceptLast(c: Config, reqs: seq<(ReqId, Incoming)>, wire: ReqId -> seq<Outcome>, ys: seq<System>, r: ReqId,
                   m: Incoming, y: System)
    requires AcceptSteps(c, reqs, wire, ys) && Takes(c, ys[|reqs|], Receive(r, m, wire(r)), y)
    ensures AcceptSteps(c, reqs + [(r, m)], wire, ys + [y])
  {
    var all, zs := reqs + [(r, m)], ys + [y];
    forall i | 0 <= i < |all| ensures Takes(c, zs[i], Receive(all[i].0, all[i].1, wire(all[i].0)), zs[i + 1]) {
      if i < |reqs| {
        assert Takes(c, ys[i], Receive(reqs[i].0, reqs[i].1, wire(reqs[i].0)), ys[i + 1]);
      }
    }
  }

  lemma PrefixFresh(c: Config, y: System, reqs: seq<(ReqId, Incoming)>, wire: ReqId -> seq<Outcome>)
    requires reqs != [] && Fresh(y, reqs) && Answers(c, reqs, wire)
    ensures Fresh(y, reqs[..|reqs| - 1]) && Answers(c, reqs[..|reqs| - 1], wire)
  {}

  /** Accepting the new requests is one Receive step each, in order. */
  lemma {:induction false} AcceptsAreRun(c: Config, y: System, reqs: seq<(ReqId, Incoming)>,
                                         wire: ReqId -> seq<Outcome>) returns (ys: seq<System>)
    requires !y.closed && Fresh(y, reqs) && Answers(c, reqs, wire)
    ensures AcceptSteps(c, reqs, wire, ys) && ys[0] == y && Accepted(y, reqs, wire, ys[|reqs|])
  {
    if reqs == [] {
      ys := [y];
    } else {
      var k := |reqs| - 1;
      var (r, m) := reqs[k];
      PrefixFresh(c, y, reqs, wire);
      ys := AcceptsAreRun(c, y, reqs[..k], wire);
      AcceptedNext(c, y, reqs, wire, ys[k]);
      var y' := Step(ys[k], Receive(r, m, wire(r)));
      AcceptLast(c, reqs[..k], wire, ys, r, m, y');
      assert reqs[..k] + [(r, m)] == reqs;
      ys := ys + [y'];
    }
  }

  // ----- the ready queue -----

  ghost predicate Drained(y: System, wire: ReqId -> seq<Outcome>, y': System) {
    && y'.s == DrainAll(y.s, wire) && y'.s.ready == []
    && y'.dispatched == y.dispatched + y.s.ready
    && y'.s.futures == y.s.futures && y'.s.agents == y.s.agents && y'.incoming == y.incoming
  }

  lemma DrainFrame(c: Config, y: System, wire: ReqId -> seq<Outcome>)
    requires !y.closed && y.s.ready != [] && AnswersQueued(c, y, wire)
    ensures var e := Drain(wire(y.s.ready[0]));
            && Allowed(c, y, e)
            && var y' := Step(y, e);
               && y'.s == DrainOne(y.s, wire(y.s.ready[0])) && DrainAll(y.s, wire) == DrainAll(y'.s, wire)
               && y'.s.ready == y.s.ready[1..] && y'.dispatched == y.dispatched + [y.s.ready[0]]
               && y'.s.futures == y.s.futures && y'.s.agents == y.s.agents
               && y'.incoming == y.incoming && !y'.closed && AnswersQueued(c, y', wire)
  {
    ReadAllFrame(y.s.(ready := y.s.ready[1..]), y.s.ready[0], wire(y.s.ready[0]));
    assert forall r | r in y.s.ready[1..] :: r in y.s.ready;
  }

  /** The steps that take the queued requests in order. */
  ghost predicate DrainSteps(c: Config, ready: seq<ReqId>, wire: ReqId -> seq<Outcome>, ys: seq<System>) {
    && |ys| == |ready| + 1
    && forall i | 0 <= i < |ready| :: Takes(c, ys[i], Drain(wire(ready[i])), ys[i + 1])
  }

  lemma DrainFirst(c: Config, r: ReqId, ready: seq<ReqId>, wire: ReqId -> seq<Outcome>, y: System, ys: seq<System>)
    requires DrainSteps(c, ready, wire, ys) && Takes(c, y, Drain(wire(r)), ys[0])
    ensures DrainSteps(c, [r] + ready, wire, [y] + ys)
  {
    var rs, zs := [r] + ready, [y] + ys;
    forall i | 0 <= i < |rs| ensures Takes(c, zs[i], Drain(wire(rs[i])), zs[i + 1]) {
      if i > 0 {
        assert Takes(c, ys[i - 1], Drain(wire(ready[i - 1])), ys[i]);
      }
    }
  }

  lemma DrainedFirst(c: Config, y: System, wire: ReqId -> seq<Outcome>, z: System)
    requires !y.closed && y.s.ready != [] && AnswersQueued(c, y, wire)
    requires Drained(Step(y, Drain(wire(y.s.ready[0]))), wire, z)
    ensures Drained(y, wire, z)
  {
    DrainFrame(c, y, wire);
    assert y.s.ready == [y.s.ready[0]] + y.s.ready[1..];
  }

  /** Emptying the ready queue is one Drain step for each queued request, in order. */
  lemma {:induction false} DrainsAreRun(c: Config, y: System, wire: ReqId -> seq<Outcome>) returns (ys: seq<System>)
    requires !y.closed && AnswersQueued(c, y, wire)
    ensures DrainSteps(c, y.s.ready, wire, ys) && ys[0] == y && Drained(y, wire, ys[|y.s.ready|])
    decreases |y.s.ready|
  {
    if y.s.ready == [] {
      ys := [y];
    } else {
      var r, y' := y.s.ready[0], Step(y, Drain(wire(y.s.ready[0])));
      DrainFrame(c, y, wire);
      var rest := DrainsAreRun(c, y', wire);
      DrainFirst(c, r, y'.s.ready, wire, y, rest);
      DrainedFirst(c, y, wire, rest[|y'.s.ready|]);
      ys := [y] + rest;
      assert y.s.ready == [r] + y'.s.ready;
    }
  }

  // ----- the whole of it -----

  /** A queued request was received, so NIXL's answers about it are for its engine. */
  ghost predicate AnswersReady(c: Config, y: System, wire: ReqId -> seq<Outcome>) {
    forall r | r in y.s.ready && r in y.incoming :: Shaped(wire(r), c.perRequest(y.incoming[r].engine))
  }

  lemma StepsExtend(c: Config, run: seq<System>, ys: seq<System>)
    requires Run(c, run) && ys != [] && ys[0] == run[|run| - 1]
    requires forall i | 0 < i < |ys| :: Next(c, ys[i - 1], ys[i])
    ensures Run(c, run + ys[1..])
  {
    var all := run + ys[1..];
    forall i | 0 < i < |all| ensures Next(c, all[i - 1], all[i]) {
      if i >= |run| {
        var k := i - |run| + 1;
        assert all[i] == ys[k] && all[i - 1] == ys[k - 1];
      }
    }
  }

  lemma AcceptStepsNext(c: Config, reqs: seq<(ReqId, Incoming)>, wire: ReqId -> seq<Outcome>, ys: seq<System>)
    requires AcceptSteps(c, reqs, wire, ys)
    ensures forall i | 0 < i < |ys| :: Next(c, ys[i - 1], ys[i])
  {
    forall i | 0 < i < |ys| ensures Next(c, ys[i - 1], ys[i]) {
      assert Takes(c, ys[i - 1], Receive(reqs[i - 1].0, reqs[i - 1].1, wire(reqs[i - 1].0)), ys[i - 1 + 1]);
    }
  }

  lemma DrainStepsNext(c: Config, ready: seq<ReqId>, wire: ReqId -> seq<Outcome>, ys: seq<System>)
    requires DrainSteps(c, ready, wire, ys)
    ensures forall i | 0 < i < |ys| :: Next(c, ys[i - 1], ys[i])
  {
    forall i | 0 < i < |ys| ensures Next(c, ys[i - 1], ys[i]) {
      assert Takes(c, ys[i - 1], Drain(wire(ready[i - 1])), ys[i - 1 + 1]);
    }
  }

  /** What a `start_load_kv` leaves behind: nothing is queued; the new requests whose engine is known and
      then the queued ones were dispatched, in order; and the other new requests wait, in order, on their own
      engine's handshake. */
  ghost predicate Loaded(y: System, reqs: seq<(ReqId, Incoming)>, wire: ReqId -> seq<Outcome>, y': System) {
    && y'.s == DrainAll(AcceptAll(y.s, reqs, wire), wire)
    && y'.s.ready == [] && y'.dispatched == y.dispatched + ReadNow(y.s.agents, reqs) + y.s.ready
    && Queued(y, reqs, y') && Remembered(y, reqs, y')
  }

  /** Any run can go on with a `start_load_kv` of new requests: one Receive step for each of them in order,
      then one Drain step for each queued request in order. */
  lemma StartLoadIsRun(c: Config, run: seq<System>, reqs: seq<(ReqId, Incoming)>, wire: ReqId -> seq<Outcome>)
    returns (accepts: seq<System>, drains: seq<System>)
    requires Run(c, run)
    requires var y := run[|run| - 1];
             !y.closed && Fresh(y, reqs) && Answers(c, reqs, wire) && AnswersReady(c, y, wire)
    ensures var y := run[|run| - 1];
            && AcceptSteps(c, reqs, wire, accepts) && accepts[0] == y
            && DrainSteps(c, y.s.ready, wire, drains) && drains[0] == accepts[|reqs|]
            && Run(c, run + accepts[1..] + drains[1..]) && Loaded(y, reqs, wire, drains[|y.s.ready|])
  {
    var y := run[|run| - 1];
    RunBase(c, run, |run| - 1);
    accepts := AcceptsAreRun(c, y, reqs, wire);
    var y1 := accepts[|reqs|];
    assert AnswersQueued(c, y1, wire);
    drains := DrainsAreRun(c, y1, wire);
    AcceptStepsNext(c, reqs, wire, accepts);
    StepsExtend(c, run, accepts);
    DrainStepsNext(c, y.s.ready, wire, drains);
    var run1 := run + accepts[1..];
    assert run1[|run1| - 1] == y1;
    StepsExtend(c, run1, drains);
  }

  // ----- known engines -----

  /** An engine is known only after its handshake succeeded. */
  lemma {:induction false} AgentsShookHands(c: Config, ys: seq<System>, i: nat, e: EngineId)
    requires Run(c, ys) && i < |ys| && e in ys[i].s.agents
    ensures exists k :: 0 <= k < i && Takes(c, ys[k], Handshake(e, true), ys[k + 1])
  {
    if i > 0 {
      if e in ys[i - 1].s.agents {
        AgentsShookHands(c, ys, i - 1, e);
      } else {
        var k := i - 1;
        NewlyKnown(c, ys[k], ys[k + 1], e);
      }
    }
  }

  lemma NewlyKnown(c: Config, y: System, y': System, e: EngineId)
    requires Next(c, y, y') && e !in y.s.agents && e in y'.s.agents
    ensures Takes(c, y, Handshake(e, true), y')
  {
    var ev :| Allowed(c, y, ev) && y' == Step(y, ev);
    AgentsGrow(y, ev, e);
  }

  lemma AgentsGrow(y: System, ev: Event, e: EngineId)
    requires (ev.Drain? ==> y.s.ready != []) && e !in y.s.agents && e in Step(y, ev).s.agents
    ensures ev == Handshake(e, true)
  {
    match ev
    case Receive(r, m, os) => ReadAllFrame(y.s.(metas := y.s.metas[r := m]), r, os);
    case Drain(os) => ReadAllFrame(y.s.(ready := y.s.ready[1..]), y.s.ready[0], os);
    case _ =>
  }
}
