/** What two points of one producer run have to do with each other: a timer gives the readers all of the
    timeout, and an abort is final. */
module ProducerHistory {
  import opened Wrappers
  import opened ProducerState
  import opened ProducerProtocol
  import opened ProducerCore
  import opened ProducerTheorems

  lemma StepTo(c: Config, states: seq<System>, i: nat) returns (e: Event)
    requires ConfigOk(c) && Run(c, states) && 0 < i < |states|
    ensures Allowed(c, states[i - 1], e) && states[i] == Step(c, states[i - 1], e)
  {
    e :| Allowed(c, states[i - 1], e) && states[i] == Step(c, states[i - 1], e);
  }

  // ----- timers -----

  /** Released by the clock: the request ended with delayed free and was due. */
  ghost predicate DueReports(s: System) {
    forall i | 0 <= i < |s.reports| && s.reports[i].byExpiry ::
      DelayedIn(s, s.reports[i].req) && s.fates[s.reports[i].req].expires <= s.reports[i].at
  }

  lemma ExpireDueReports(c: Config, s: System)
    requires ConfigOk(c) && Core(c, s) && DueReports(s)
    ensures DueReports(Step(c, s, ExpireDue))
  {
    var s', n := Step(c, s, ExpireDue), DueCount(s.work.toSend, s.now);
    DuePrefix(s.work.toSend, s.now);
    forall i | 0 <= i < |s'.reports| && s'.reports[i].byExpiry
      ensures DelayedIn(s', s'.reports[i].req) && s'.fates[s'.reports[i].req].expires <= s'.reports[i].at
    {
      if i >= |s.reports| {
        var e := s.work.toSend[..n][i - |s.reports|];
        assert e in Line(s);
      }
    }
  }

  lemma StepDueReports(c: Config, s: System, e: Event)
    requires ConfigOk(c) && Core(c, s) && DueReports(s) && Allowed(c, s, e)
    ensures DueReports(Step(c, s, e))
  {
    match e
    case ExpireDue => ExpireDueReports(c, s);
    case _ =>
  }

  lemma {:induction false} RunDueReports(c: Config, states: seq<System>, i: nat)
    requires ConfigOk(c) && Run(c, states) && i < |states|
    ensures DueReports(states[i])
  {
    if i > 0 {
      RunDueReports(c, states, i - 1);
      RunKeepsCore(c, states, i - 1);
      var e := StepTo(c, states, i);
      StepDueReports(c, states[i - 1], e);
    }
  }

  /** A request that had not ended at time t, if it ends with delayed free, expires at t + timeout or later. */
  ghost predicate FullTimer(c: Config, t: real, s: System, r: ReqId) {
    t <= s.now && (DelayedIn(s, r) ==> t + c.timeout <= s.fates[r].expires)
  }

  lemma StepFullTimer(c: Config, t: real, s: System, e: Event, r: ReqId)
    requires ConfigOk(c) && FullTimer(c, t, s, r) && Allowed(c, s, e)
    ensures FullTimer(c, t, Step(c, s, e), r)
  {
    match e
    case Finish(x, capped, blocks) =>
    case _ =>
  }

  lemma FullTimerNext(c: Config, states: seq<System>, t: real, i: nat, r: ReqId)
    requires ConfigOk(c) && Run(c, states) && 0 < i < |states| && FullTimer(c, t, states[i - 1], r)
    ensures FullTimer(c, t, states[i], r)
  {
    var e := StepTo(c, states, i);
    StepFullTimer(c, t, states[i - 1], e, r);
  }

  lemma {:induction false} RunFullTimer(c: Config, states: seq<System>, k: nat, i: nat, r: ReqId)
    requires ConfigOk(c) && Run(c, states) && k <= i < |states| && r !in states[k].fates
    ensures FullTimer(c, states[k].now, states[i], r)
  {
    if k < i {
      RunFullTimer(c, states, k, i - 1, r);
      FullTimerNext(c, states, states[k].now, i, r);
    }
  }

  /** No timer is cut short: a request that has not ended by time t is never released by the clock before
      t + timeout, whatever ids share and whenever consumers notify. */
  lemma TimersRunInFull(c: Config, states: seq<System>, k: nat, i: nat, j: nat)
    requires ConfigOk(c) && Run(c, states) && k <= i < |states| && j < |states[i].reports|
    requires states[i].reports[j].byExpiry && states[i].reports[j].req !in states[k].fates
    ensures states[k].now + c.timeout <= states[i].reports[j].at
  {
    RunDueReports(c, states, i);
    RunFullTimer(c, states, k, i, states[i].reports[j].req);
  }

  /** r ended at time t: its blocks are freed late exactly if it was length-capped and has blocks, and then it
      expires the timeout after that. */
  ghost predicate EndedAt(c: Config, t: real, s: System, r: ReqId, capped: bool, blocks: nat) {
    && r in s.fates
    && s.fates[r] == if capped && blocks > 0 then Delayed(t + c.timeout) else Freed
  }

  lemma FateStays(c: Config, s: System, e: Event, r: ReqId)
    requires ConfigOk(c) && r in s.fates && Allowed(c, s, e)
    ensures r in Step(c, s, e).fates && Step(c, s, e).fates[r] == s.fates[r]
  {
    match e
    case Finish(x, capped, blocks) =>
    case _ =>
  }

  lemma FateNext(c: Config, states: seq<System>, i: nat, r: ReqId)
    requires ConfigOk(c) && Run(c, states) && 0 < i < |states| && r in states[i - 1].fates
    ensures r in states[i].fates && states[i].fates[r] == states[i - 1].fates[r]
  {
    var e := StepTo(c, states, i);
    FateStays(c, states[i - 1], e, r);
  }

  lemma FinishEnds(c: Config, s: System, r: ReqId, capped: bool, blocks: nat)
    requires ConfigOk(c)
    ensures EndedAt(c, s.now, Step(c, s, Finish(r, capped, blocks)), r, capped, blocks)
  {}

  /** How a request ends is final. */
  lemma {:induction false} FatesAreFinal(c: Config, states: seq<System>, k: nat, i: nat, r: ReqId, capped: bool,
                                         blocks: nat)
    requires ConfigOk(c) && Run(c, states) && k < i < |states|
    requires states[k + 1] == Step(c, states[k], Finish(r, capped, blocks))
    ensures EndedAt(c, states[k].now, states[i], r, capped, blocks)
  {
    if i == k + 1 {
      FinishEnds(c, states[k], r, capped, blocks);
    } else {
      FatesAreFinal(c, states, k, i - 1, r, capped, blocks);
      FateNext(c, states, i, r);
    }
  }

  // ----- aborts -----

  /** Each batch entry of r that the worker has yet to consume comes with an abort of r or before one. */
  ghost predicate AbortsCome(queue: seq<Meta>, inBatch: set<ReqId>, last: set<ReqId>, r: ReqId) {
    if queue == [] then r in inBatch ==> r in last
    else
      && AbortsCome(queue[1..], inBatch, last, r)
      && (r in queue[0].inBatch ==> r in queue[0].notProcessed || r in AllNotProcessed(queue[1..], last))
  }

  /** r ended, and the worker has dropped it or is going to. */
  ghost predicate Dropped(s: System, r: ReqId) {
    && r in s.fates && AbortsCome(s.queue, s.inBatch, s.notProcessed, r)
    && (r in s.work.toProcess ==> r in AllNotProcessed(s.queue, s.notProcessed))
  }

  lemma {:induction false} LastCovers(queue: seq<Meta>, inBatch: set<ReqId>, last: set<ReqId>, r: ReqId)
    requires r in last
    ensures r in AllNotProcessed(queue, last) && AbortsCome(queue, inBatch, last, r)
  {
    if queue != [] {
      LastCovers(queue[1..], inBatch, last, r);
    }
  }

  lemma {:induction false} AbortsStay(queue: seq<Meta>, inBatch: set<ReqId>, inBatch': set<ReqId>, last: set<ReqId>,
                                      last': set<ReqId>, r: ReqId)
    requires AbortsCome(queue, inBatch, last, r) && (r in inBatch' ==> r in inBatch) && last <= last'
    ensures AbortsCome(queue, inBatch', last', r) && AllNotProcessed(queue, last) <= AllNotProcessed(queue, last')
  {
    if queue != [] {
      AbortsStay(queue[1..], inBatch, inBatch', last, last', r);
    }
  }

  lemma {:induction false} AbortsBuilt(queue: seq<Meta>, m: Meta, r: ReqId)
    requires AbortsCome(queue, m.inBatch, m.notProcessed, r)
    ensures AbortsCome(queue + [m], {}, {}, r)
    ensures AllNotProcessed(queue + [m], {}) == AllNotProcessed(queue, m.notProcessed)
  {
    if queue == [] {
      assert queue + [m] == [m] && [m][1..] == [];
    } else {
      AbortsBuilt(queue[1..], m, r);
      assert (queue + [m])[1..] == queue[1..] + [m];
    }
  }

  lemma StepDropped(c: Config, s: System, e: Event, r: ReqId)
    requires ConfigOk(c) && Dropped(s, r) && Allowed(c, s, e)
    ensures Dropped(Step(c, s, e), r)
  {
    var s' := Step(c, s, e);
    match e
    case Build => AbortsBuilt(s.queue, Meta(s.needSend, s.inBatch, s.notProcessed), r);
    case LoadMeta =>
    case _ => AbortsStay(s.queue, s.inBatch, s'.inBatch, s.notProcessed, s'.notProcessed, r);
  }

  lemma FinishDrops(c: Config, s: System, r: ReqId, blocks: nat)
    requires ConfigOk(c)
    ensures Dropped(Step(c, s, Finish(r, false, blocks)), r)
  {
    LastCovers(s.queue, s.inBatch, s.notProcessed + {r}, r);
  }

  lemma DroppedNext(c: Config, states: seq<System>, i: nat, r: ReqId)
    requires ConfigOk(c) && Run(c, states) && 0 < i < |states| && Dropped(states[i - 1], r)
    ensures Dropped(states[i], r)
  {
    var e := StepTo(c, states, i);
    StepDropped(c, states[i - 1], e, r);
  }

  lemma {:induction false} RunDropped(c: Config, states: seq<System>, k: nat, i: nat, r: ReqId, blocks: nat)
    requires ConfigOk(c) && Run(c, states) && k < i < |states|
    requires states[k + 1] == Step(c, states[k], Finish(r, false, blocks))
    ensures Dropped(states[i], r)
  {
    if i == k + 1 {
      FinishDrops(c, states[k], r, blocks);
    } else {
      RunDropped(c, states, k, i - 1, r, blocks);
      DroppedNext(c, states, i, r);
    }
  }

  /** A request that ended other than length-capped is forgotten: as soon as the worker has consumed the
      metadata it no longer processes the request, and it never will again. */
  lemma AbortsAreFinal(c: Config, states: seq<System>, k: nat, i: nat, r: ReqId, blocks: nat)
    requires ConfigOk(c) && Run(c, states) && k < i < |states|
    requires states[k + 1] == Step(c, states[k], Finish(r, false, blocks))
    requires states[i].queue == [] && states[i].notProcessed == {}
    ensures r !in states[i].work.toProcess && r !in states[i].inBatch
  {
    RunDropped(c, states, k, i, r, blocks);
  }

  // ----- notification counts -----

  /** A count is kept only for a request that is still processed, or that ended without a delayed free. */
  ghost predicate CountsBelong(s: System) {
    forall r | r in s.work.counts :: r in s.work.toProcess || (r in s.fates && s.fates[r] == Freed)
  }

  lemma LoadCounts(s: System)
    requires OrderOk(s) && CountsBelong(s) && s.queue != []
    ensures forall r | r in s.work.counts ::
              r in Load(s.work, s.queue[0]).toProcess || (r in s.fates && s.fates[r] == Freed)
  {
    assert forall r | r in s.queue[0].notProcessed :: r in AllNotProcessed(s.queue, s.notProcessed);
  }

  lemma DeliverCounts(c: Config, s: System, n: Note, pick: Option<ReqId>)
    requires ConfigOk(c) && Core(c, s) && CountsBelong(s) && Allowed(c, s, Deliver(n, pick))
    ensures CountsBelong(Delivered(c, s, n, pick))
  {
    if pick.Some? { assert Live(s.work, pick.value); }
  }

  lemma StepCounts(c: Config, s: System, e: Event)
    requires ConfigOk(c) && Core(c, s) && CountsBelong(s) && Allowed(c, s, e)
    ensures CountsBelong(Step(c, s, e))
  {
    match e
    case LoadMeta => LoadCounts(s);
    case Deliver(n, pick) => DeliverCounts(c, s, n, pick);
    case _ =>
  }

  lemma CountsNext(c: Config, states: seq<System>, i: nat)
    requires ConfigOk(c) && Run(c, states) && 0 < i < |states| && CountsBelong(states[i - 1])
    ensures CountsBelong(states[i])
  {
    RunKeepsCore(c, states, i - 1);
    var e := StepTo(c, states, i);
    StepCounts(c, states[i - 1], e);
  }

  /** Released requests leave no count behind, whichever way they were released; a request that was aborted
      may. */
  lemma {:induction false} CountsDieWithTheirRequest(c: Config, states: seq<System>, i: nat)
    requires ConfigOk(c) && Run(c, states) && i < |states|
    ensures CountsBelong(states[i])
  {
    if i == 0 {
      assert states[0].work.counts == map[];
    } else {
      CountsDieWithTheirRequest(c, states, i - 1);
      CountsNext(c, states, i);
    }
  }
}
