/** The consumer side of `NixlConnectorWorker`: the methods that change the receive bookkeeping, each
    proved against the functions of ReceiveState. NIXL's answers are parameters. */
module ReceiveWorker {
  import opened ReceiveState

  // ----- the dictionaries, updated at one key -----

  lemma {:induction false} AddHandleAt(ts: seq<Xfer>, r: ReqId, h: nat, i: nat)
    requires i <= |ts| && forall k | 0 <= k < i :: ts[k].req != r
    requires i < |ts| ==> ts[i].req == r
    ensures AddHandle(ts, r, h) == if i < |ts| then ts[i := Xfer(r, ts[i].handles + [h])] else ts + [Xfer(r, [h])]
  {
    if i > 0 {
      AddHandleAt(ts[1..], r, h, i - 1);
    }
  }

  /** Engine `e`'s pending handshake is entry `i`, or there is none and `i` is past the end. */
  predicate FoundAt(fs: seq<Pending>, e: EngineId, i: nat) {
    i <= |fs| && (forall k | 0 <= k < i :: fs[k].engine != e) && (i < |fs| ==> fs[i].engine == e)
  }

  lemma {:induction false} AwaitAt(fs: seq<Pending>, e: EngineId, r: ReqId, i: nat)
    requires FoundAt(fs, e, i)
    ensures Await(fs, e, r) == if i < |fs| then fs[i := Pending(e, fs[i].waiting + [r])] else fs + [Pending(e, [r])]
  {
    if i > 0 {
      AwaitAt(fs[1..], e, r, i - 1);
    }
  }

  lemma {:induction false} CompletedAt(fs: seq<Pending>, e: EngineId, i: nat)
    requires FoundAt(fs, e, i) && i < |fs|
    ensures WaitingOn(fs, e) == fs[i].waiting && Completed(fs, e) == fs[..i] + fs[i + 1..]
  {
    if i > 0 {
      CompletedAt(fs[1..], e, i - 1);
    }
  }

  /** The state after the callbacks of the requests `rs`. */
  function Called(s: Recv, rs: seq<ReqId>, ok: bool): Recv {
    if ok then s.(ready := s.ready + rs)
    else s.(invalid := s.invalid + AllBlocks(s.metas, rs), failed := s.failed + Members(rs))
  }

  lemma CalledOne(s: Recv, rs: seq<ReqId>, r: ReqId, ok: bool)
    ensures var s' := Called(s, rs, ok);
            Called(s, rs + [r], ok)
            == if ok then s'.(ready := s'.ready + [r])
              else s'.(invalid := s'.invalid + Blocks(s.metas, r), failed := s'.failed + {r})
  {
    assert (rs + [r])[..|rs|] == rs;
    assert Members(rs + [r]) == Members(rs) + {r};
  }

  // ----- the loops over handles, as folds -----

  lemma {:induction false} StillRunningSplit(a: seq<nat>, h: nat, poll: nat -> PollResult)
    ensures StillRunning(a + [h], poll) == StillRunning(a, poll) + if poll(h) == Proc then [h] else []
  {
    if a != [] {
      StillRunningSplit(a[1..], h, poll);
      assert (a + [h])[1..] == a[1..] + [h];
    }
  }

  lemma {:induction false} EndedSplit(a: seq<nat>, h: nat, poll: nat -> PollResult)
    ensures Ended(a + [h], poll) == Ended(a, poll) + if poll(h) == Proc then multiset{} else multiset{h}
  {
    if a != [] {
      EndedSplit(a[1..], h, poll);
      assert (a + [h])[1..] == a[1..] + [h];
    }
  }

  lemma BrokenSplit(a: seq<nat>, h: nat, poll: nat -> PollResult)
    ensures AnyBroken(a + [h], poll) == (AnyBroken(a, poll) || poll(h) == Broken)
  {
    assert (a + [h])[|a|] == h;
    if AnyBroken(a, poll) {
      var i :| 0 <= i < |a| && poll(a[i]) == Broken;
      assert (a + [h])[i] == a[i];
    }
  }

  lemma {:induction false} RunningSplit(a: seq<Xfer>, t: Xfer, poll: nat -> PollResult)
    ensures Running(a + [t], poll) == Running(a, poll) + StillIn(t, poll)
  {
    if a != [] {
      RunningSplit(a[1..], t, poll);
      assert (a + [t])[1..] == a[1..] + [t];
    }
  }

  lemma {:induction false} EndedHandlesSplit(a: seq<Xfer>, t: Xfer, poll: nat -> PollResult)
    ensures EndedHandles(a + [t], poll) == EndedHandles(a, poll) + Ended(t.handles, poll)
  {
    if a != [] {
      EndedHandlesSplit(a[1..], t, poll);
      assert (a + [t])[1..] == a[1..] + [t];
      Assoc(Ended(a[0].handles, poll), EndedHandles(a[1..], poll), Ended(t.handles, poll));
    }
  }

  lemma RequestsSplit(a: seq<Xfer>, t: Xfer, poll: nat -> PollResult)
    ensures EndedReqs(a + [t], poll) == EndedReqs(a, poll) + if StillRunning(t.handles, poll) == [] then {t.req} else {}
    ensures BrokenReqs(a + [t], poll) == BrokenReqs(a, poll) + if AnyBroken(t.handles, poll) then {t.req} else {}
  {
    assert forall u :: u in a + [t] <==> u in a || u == t;
  }

  lemma RunningGrows(hs: seq<nat>, j: nat, poll: nat -> PollResult)
    requires j < |hs|
    ensures StillRunning(hs[..j + 1], poll) == StillRunning(hs[..j], poll) + if poll(hs[j]) == Proc then [hs[j]] else []
    ensures hs[..j + 1][..j] == hs[..j]
  {
    assert hs[..j + 1] == hs[..j] + [hs[j]];
    StillRunningSplit(hs[..j], hs[j], poll);
  }

  lemma EntriesGrow(ts: seq<Xfer>, i: nat, poll: nat -> PollResult)
    requires i < |ts|
    ensures var left := StillRunning(ts[i].handles, poll);
            && Running(ts[..i + 1], poll) == (if left == [] then Running(ts[..i], poll)
                 else Running(ts[..i], poll) + [Xfer(ts[i].req, left)])
            && EndedReqs(ts[..i + 1], poll) == (if left == [] then EndedReqs(ts[..i], poll) + {ts[i].req}
                 else EndedReqs(ts[..i], poll))
    ensures ts[..i + 1][..i] == ts[..i]
  {
    assert ts[..i + 1] == ts[..i] + [ts[i]];
    RunningSplit(ts[..i], ts[i], poll);
    RequestsSplit(ts[..i], ts[i], poll);
  }

  /** The handles released and the blocks marked invalid, as the polling loops go along. */
  datatype Tally = Tally(released: multiset<nat>, invalid: set<nat>)

  function TallyHandle(y: Tally, blocks: set<nat>, h: nat, poll: nat -> PollResult): Tally {
    match poll(h)
    case Done => y.(released := y.released + multiset{h})
    case Proc => y
    case Broken => Tally(y.released + multiset{h}, y.invalid + blocks)
  }

  function TallyHandles(y: Tally, blocks: set<nat>, hs: seq<nat>, poll: nat -> PollResult): Tally {
    if hs == [] then y else TallyHandle(TallyHandles(y, blocks, hs[..|hs| - 1], poll), blocks, hs[|hs| - 1], poll)
  }

  function TallyEntries(y: Tally, metas: map<ReqId, Incoming>, ts: seq<Xfer>, poll: nat -> PollResult): Tally {
    if ts == [] then y
    else TallyHandles(TallyEntries(y, metas, ts[..|ts| - 1], poll), Blocks(metas, ts[|ts| - 1].req),
                      ts[|ts| - 1].handles, poll)
  }

  /** What the polling loop has done once it polled `ts`. */
  ghost predicate Polled(start: Tally, metas: map<ReqId, Incoming>, ts: seq<Xfer>, poll: nat -> PollResult,
                         kept: seq<Xfer>, done: set<ReqId>, y: Tally)
  {
    kept == Running(ts, poll) && done == EndedReqs(ts, poll) && y == TallyEntries(start, metas, ts, poll)
  }

  lemma PolledNext(start: Tally, metas: map<ReqId, Incoming>, items: seq<Xfer>, i: nat, poll: nat -> PollResult,
                   kept: seq<Xfer>, done: set<ReqId>, y: Tally)
    requires i < |items| && Polled(start, metas, items[..i], poll, kept, done, y)
    ensures var t := items[i];
            Polled(start, metas, items[..i + 1], poll, kept + StillIn(t, poll),
                   if StillRunning(t.handles, poll) == [] then done + {t.req} else done,
                   TallyHandles(y, Blocks(metas, t.req), t.handles, poll))
  {
    EntriesGrow(items, i, poll);
  }

  lemma {:induction false} ReleasedHandles(y: Tally, blocks: set<nat>, hs: seq<nat>, poll: nat -> PollResult)
    ensures TallyHandles(y, blocks, hs, poll).released == y.released + Ended(hs, poll)
  {
    if hs != [] {
      var front, h := hs[..|hs| - 1], hs[|hs| - 1];
      ReleasedHandles(y, blocks, front, poll);
      EndedSplit(front, h, poll);
      Assoc(y.released, Ended(front, poll), multiset{h});
      assert hs == front + [h];
    }
  }

  lemma {:induction false} InvalidHandles(y: Tally, blocks: set<nat>, hs: seq<nat>, poll: nat -> PollResult)
    ensures TallyHandles(y, blocks, hs, poll).invalid == if AnyBroken(hs, poll) then y.invalid + blocks else y.invalid
  {
    if hs != [] {
      var front, h := hs[..|hs| - 1], hs[|hs| - 1];
      InvalidHandles(y, blocks, front, poll);
      BrokenSplit(front, h, poll);
      assert hs == front + [h];
    }
  }

  lemma {:induction false} ReleasedEntries(y: Tally, metas: map<ReqId, Incoming>, ts: seq<Xfer>,
                                           poll: nat -> PollResult)
    ensures TallyEntries(y, metas, ts, poll).released == y.released + EndedHandles(ts, poll)
  {
    if ts != [] {
      var front, t := ts[..|ts| - 1], ts[|ts| - 1];
      var before := TallyEntries(y, metas, front, poll);
      assert ts == front + [t];
      calc {
        TallyEntries(y, metas, ts, poll).released;
        TallyHandles(before, Blocks(metas, t.req), t.handles, poll).released;
        { ReleasedHandles(before, Blocks(metas, t.req), t.handles, poll); }
        before.released + Ended(t.handles, poll);
        { ReleasedEntries(y, metas, front, poll); }
        (y.released + EndedHandles(front, poll)) + Ended(t.handles, poll);
        { Assoc(y.released, EndedHandles(front, poll), Ended(t.handles, poll)); }
        y.released + (EndedHandles(front, poll) + Ended(t.handles, poll));
        { EndedHandlesSplit(front, t, poll); }
        y.released + EndedHandles(ts, poll);
      }
    }
  }

  lemma BrokenNext(metas: map<ReqId, Incoming>, a: seq<Xfer>, t: Xfer, poll: nat -> PollResult)
    ensures BlocksOf(metas, BrokenReqs(a + [t], poll))
            == if AnyBroken(t.handles, poll) then BlocksOf(metas, BrokenReqs(a, poll)) + Blocks(metas, t.req)
              else BlocksOf(metas, BrokenReqs(a, poll))
  {
    RequestsSplit(a, t, poll);
    BlocksSplit(metas, BrokenReqs(a, poll), t.req);
    assert BrokenReqs(a, poll) + {} == BrokenReqs(a, poll);
  }

  lemma {:induction false} InvalidEntries(y: Tally, metas: map<ReqId, Incoming>, ts: seq<Xfer>, poll: nat -> PollResult)
    ensures TallyEntries(y, metas, ts, poll).invalid == y.invalid + BlocksOf(metas, BrokenReqs(ts, poll))
  {
    if ts == [] {
      assert BlocksOf(metas, BrokenReqs(ts, poll)) == {};
    } else {
      var front, t := ts[..|ts| - 1], ts[|ts| - 1];
      InvalidEntries(y, metas, front, poll);
      InvalidHandles(TallyEntries(y, metas, front, poll), Blocks(metas, t.req), t.handles, poll);
      BrokenNext(metas, front, t, poll);
      assert ts == front + [t];
    }
  }

  lemma BlocksSplit(metas: map<ReqId, Incoming>, rs: set<ReqId>, r: ReqId)
    ensures BlocksOf(metas, rs + {r}) == BlocksOf(metas, rs) + Blocks(metas, r)
  {}

  lemma {:induction false} OutstandingSplit(a: seq<Xfer>, t: Xfer)
    ensures Outstanding(a + [t]) == Outstanding(a) + multiset(t.handles)
  {
    if a == [] {
      assert a + [t] == [t] && [t][1..] == [];
    } else {
      OutstandingSplit(a[1..], t);
      assert (a + [t])[1..] == a[1..] + [t];
    }
  }

  // ----- a whole `start_load_kv` -----

  /** The requests of one metadata object, accepted in order. */
  function AcceptAll(s: Recv, reqs: seq<(ReqId, Incoming)>, wire: ReqId -> seq<Outcome>): Recv {
    if reqs == [] then s
    else
      var (r, m) := reqs[|reqs| - 1];
      Accept(AcceptAll(s, reqs[..|reqs| - 1], wire), r, m, wire(r))
  }

  function DrainAll(s: Recv, wire: ReqId -> seq<Outcome>): Recv
    decreases |s.ready|
  {
    if s.ready == [] then s
    else
      var s' := DrainOne(s, wire(s.ready[0]));
      ReadsKeepReady(s.(ready := s.ready[1..]), s.ready[0], wire(s.ready[0]));
      DrainAll(s', wire)
  }

  lemma {:induction false} ReadsKeepReady(s: Recv, r: ReqId, os: seq<Outcome>)
    ensures ReadAll(s, r, os).ready == s.ready
  {
    if os != [] { ReadsKeepReady(s, r, os[..|os| - 1]); }
  }

  class Worker {
    var metas: map<ReqId, Incoming>
    var transfers: seq<Xfer>
    var failed: set<ReqId>
    var invalid: set<nat>
    var ready: seq<ReqId>
    var futures: seq<Pending>
    var agents: set<EngineId>
    // NIXL's side: how many handles it made, and those released so far
    var nextHandle: nat
    var released: multiset<nat>

    function State(): Recv
      reads this
    {
      Recv(metas, transfers, failed, invalid, ready, futures, agents, nextHandle, released)
    }

    constructor ()
      ensures State() == Recv(map[], [], {}, {}, [], [], {}, 0, multiset{})
    {
      metas, transfers, failed, invalid, ready := map[], [], {}, {}, [];
      futures, agents, nextHandle, released := [], {}, 0, multiset{};
    }

    method MarkInvalid(r: ReqId)
      modifies this`invalid
      ensures invalid == old(invalid) + Blocks(metas, r)
    {
      if r in metas {
        invalid := invalid + (set b | b in metas[r].blocks);
      }
    }

    method KeepHandle(r: ReqId, h: nat)
      modifies this`transfers
      ensures transfers == AddHandle(old(transfers), r, h)
    {
      var i := 0;
      while i < |transfers| && transfers[i].req != r
        invariant i <= |transfers| && forall k | 0 <= k < i :: transfers[k].req != r
      {
        i := i + 1;
      }
      AddHandleAt(transfers, r, h, i);
      if i < |transfers| {
        transfers := transfers[i := Xfer(r, transfers[i].handles + [h])];
      } else {
        transfers := transfers + [Xfer(r, [h])];
      }
    }

    method ReadBlocks(r: ReqId, o: Outcome)
      modifies this`transfers, this`failed, this`invalid, this`nextHandle, this`released
      ensures State() == ReadOne(old(State()), r, o)
    {
      if o.Notified? { return; }
      if o.MakeFails? {
        MarkInvalid(r);
        failed := failed + {r};
        return;
      }
      var handle := nextHandle;
      nextHandle := nextHandle + 1;
      if o.Started? {
        KeepHandle(r, handle);
      } else {
        MarkInvalid(r);
        released := released + multiset{handle};
        failed := failed + {r};
      }
    }

    method ReadBlocksForReq(r: ReqId, os: seq<Outcome>)
      modifies this`transfers, this`failed, this`invalid, this`nextHandle, this`released
      ensures State() == ReadAll(old(State()), r, os)
    {
      var i := 0;
      while i < |os|
        invariant 0 <= i <= |os|
        invariant State() == ReadAll(old(State()), r, os[..i])
      {
        ReadBlocks(r, os[i]);
        assert os[..i + 1][..i] == os[..i];
        i := i + 1;
      }
      assert os[..|os|] == os;
    }

    method BackgroundHandshake(r: ReqId, e: EngineId)
      modifies this`futures
      ensures futures == Await(old(futures), e, r)
    {
      var i := 0;
      while i < |futures| && futures[i].engine != e
        invariant i <= |futures| && forall k | 0 <= k < i :: futures[k].engine != e
      {
        i := i + 1;
      }
      AwaitAt(futures, e, r, i);
      if i == |futures| {
        futures := futures + [Pending(e, [])];
        assert [] + [r] == [r];
      }
      futures := futures[i := Pending(e, futures[i].waiting + [r])];
    }

    /** The callback of one request that waited. */
    method RequestReady(r: ReqId, ok: bool)
      modifies this`ready, this`invalid, this`failed
      ensures State() == if ok then old(State()).(ready := old(ready) + [r])
                         else old(State()).(invalid := old(invalid) + Blocks(metas, r), failed := old(failed) + {r})
    {
      if ok {
        ready := ready + [r];
      } else {
        MarkInvalid(r);
        failed := failed + {r};
      }
    }

    /** The completion of the handshake with engine `e`: its own callback, then one per waiting request. */
    method HandshakeDone(e: EngineId, ok: bool)
      requires exists p | p in futures :: p.engine == e
      modifies this`futures, this`agents, this`ready, this`invalid, this`failed
      ensures State() == FinishHandshake(old(State()), e, ok)
    {
      var i := 0;
      while futures[i].engine != e
        invariant i < |futures| && forall k | 0 <= k < i :: futures[k].engine != e
        decreases |futures| - i
      {
        assert exists k :: i < k < |futures| && futures[k].engine == e;
        i := i + 1;
      }
      CompletedAt(futures, e, i);
      var waiting := futures[i].waiting;
      futures := futures[..i] + futures[i + 1..];
      agents := agents + if ok then {e} else {};
      ghost var s := State();
      var k := 0;
      while k < |waiting|
        invariant 0 <= k <= |waiting|
        invariant State() == Called(s, waiting[..k], ok)
      {
        assert waiting[..k + 1] == waiting[..k] + [waiting[k]];
        CalledOne(s, waiting[..k], waiting[k], ok);
        RequestReady(waiting[k], ok);
        k := k + 1;
      }
      assert waiting[..|waiting|] == waiting;
    }

    method AcceptOne(r: ReqId, m: Incoming, os: seq<Outcome>)
      modifies this
      ensures State() == Accept(old(State()), r, m, os)
    {
      metas := metas[r := m];
      if m.engine !in agents {
        BackgroundHandshake(r, m.engine);
      } else {
        ReadBlocksForReq(r, os);
      }
    }

    /** The receive part of `start_load_kv`. */
    method StartLoadKv(reqs: seq<(ReqId, Incoming)>, wire: ReqId -> seq<Outcome>)
      modifies this
      ensures State() == DrainAll(AcceptAll(old(State()), reqs, wire), wire)
    {
      var i := 0;
      while i < |reqs|
        invariant 0 <= i <= |reqs|
        invariant State() == AcceptAll(old(State()), reqs[..i], wire)
      {
        assert reqs[..i + 1][..i] == reqs[..i];
        var (r, m) := reqs[i];
        AcceptOne(r, m, wire(r));
        i := i + 1;
      }
      assert reqs[..|reqs|] == reqs;
      while ready != []
        invariant DrainAll(State(), wire) == DrainAll(AcceptAll(old(State()), reqs, wire), wire)
        decreases |ready|
      {
        var r := ready[0];
        ghost var s := State();
        ready := ready[1..];
        ReadsKeepReady(State(), r, wire(r));
        ReadBlocksForReq(r, wire(r));
        assert State() == DrainOne(s, wire(r));
      }
    }

    function Tallied(): Tally
      reads this`released, this`invalid
    {
      Tally(released, invalid)
    }

    /** Check one handle, releasing it unless it is still running. */
    method PollHandle(r: ReqId, handle: nat, poll: nat -> PollResult) returns (running: bool)
      modifies this`released, this`invalid
      ensures running == (poll(handle) == Proc)
      ensures Tallied() == TallyHandle(old(Tallied()), Blocks(metas, r), handle, poll)
    {
      running := false;
      match poll(handle) {
        case Done => released := released + multiset{handle};
        case Proc => running := true;
        case Broken =>
          MarkInvalid(r);
          released := released + multiset{handle};
      }
    }

    method PollTransfer(t: Xfer, poll: nat -> PollResult) returns (inProgress: seq<nat>)
      modifies this`released, this`invalid
      ensures inProgress == StillRunning(t.handles, poll)
      ensures Tallied() == TallyHandles(old(Tallied()), Blocks(metas, t.req), t.handles, poll)
    {
      inProgress := [];
      var j := 0;
      while j < |t.handles|
        invariant 0 <= j <= |t.handles|
        invariant inProgress == StillRunning(t.handles[..j], poll)
        invariant Tallied() == TallyHandles(old(Tallied()), Blocks(metas, t.req), t.handles[..j], poll)
      {
        RunningGrows(t.handles, j, poll);
        var running := PollHandle(t.req, t.handles[j], poll);
        inProgress := if running then inProgress + [t.handles[j]] else inProgress;
        j := j + 1;
      }
      assert t.handles[..|t.handles|] == t.handles;
    }

    /** Poll one entry, which stays with the handles it keeps, or is deleted when it keeps none. */
    method PopEntry(kept: seq<Xfer>, t: Xfer, rest: seq<Xfer>, poll: nat -> PollResult) returns (ended: bool)
      modifies this`transfers, this`released, this`invalid
      ensures transfers == kept + StillIn(t, poll) + rest && ended == (StillRunning(t.handles, poll) == [])
      ensures Tallied() == TallyHandles(old(Tallied()), Blocks(metas, t.req), t.handles, poll)
    {
      var inProgress := PollTransfer(t, poll);
      ended := inProgress == [];
      transfers := kept + (if ended then [] else [Xfer(t.req, inProgress)]) + rest;
    }

    /** The polling loop: entries are polled in order. */
    method PopEntries(poll: nat -> PollResult) returns (done: set<ReqId>)
      modifies this`transfers, this`released, this`invalid
      ensures Polled(old(Tallied()), metas, old(transfers), poll, transfers, done, Tallied())
    {
      var items, kept: seq<Xfer> := transfers, [];
      var i := 0;
      done := {};
      while i < |items|
        invariant i <= |items| && transfers == kept + items[i..]
        invariant Polled(old(Tallied()), metas, items[..i], poll, kept, done, Tallied())
      {
        PolledNext(old(Tallied()), metas, items, i, poll, kept, done, Tallied());
        var ended := PopEntry(kept, items[i], items[i + 1..], poll);
        kept := transfers[..|transfers| - |items[i + 1..]|];
        done := if ended then done + {items[i].req} else done;
        i := i + 1;
      }
      assert items[..|items|] == items;
    }

    method PopDoneTransfers(poll: nat -> PollResult) returns (done: set<ReqId>)
      modifies this`transfers, this`released, this`invalid
      ensures State() == PopDone(old(State()), poll)
      ensures done == EndedReqs(old(transfers), poll)
    {
      done := PopEntries(poll);
      assert transfers == Running(old(transfers), poll);
      ReleasedEntries(old(Tallied()), metas, old(transfers), poll);
      InvalidEntries(old(Tallied()), metas, old(transfers), poll);
    }

    /** Pop the metadata of every reported request; `ok` is false when one has none. */
    method PopMetas(done: set<ReqId>) returns (ok: bool)
      modifies this`metas
      ensures metas == old(metas) - done && ok == (done <= old(metas).Keys)
    {
      ok := true;
      var todo := done;
      while todo != {}
        invariant todo <= done
        invariant metas == old(metas) - (done - todo)
        invariant ok == (done - todo <= old(metas).Keys)
      {
        var r :| r in todo;
        ghost var popped := done - todo;
        if r !in metas { ok := false; }
        metas := metas - {r};
        todo := todo - {r};
        assert done - todo == popped + {r};
      }
      assert done - todo == done;
    }

    /** The receive part of `get_finished`; `ok` is false when its assertion would fail. */
    method GetFinished(poll: nat -> PollResult) returns (done: set<ReqId>, ok: bool)
      modifies this
      ensures State() == Finish(old(State()), poll)
      ensures done == Reported(old(State()), poll) && ok == MetasPresent(old(State()), poll)
    {
      done := PopDoneTransfers(poll);
      done := done + failed;
      failed := {};
      ok := PopMetas(done);
    }

    method GetBlockIdsWithLoadErrors() returns (result: set<nat>)
      modifies this`invalid
      ensures result == old(invalid) && invalid == {}
    {
      result := invalid;
      invalid := {};
    }

    method ReleaseAll(hs: seq<nat>)
      modifies this`released
      ensures released == old(released) + multiset(hs)
    {
      var j := 0;
      while j < |hs|
        invariant 0 <= j <= |hs|
        invariant released == old(released) + multiset(hs[..j])
      {
        assert hs[..j + 1] == hs[..j] + [hs[j]];
        released := released + multiset{hs[j]};
        j := j + 1;
      }
      assert hs[..|hs|] == hs;
    }

    method Close()
      modifies this`transfers, this`released, this`agents
      ensures State() == Shutdown(old(State())) && transfers == [] && agents == {}
    {
      var i := 0;
      while i < |transfers|
        invariant 0 <= i <= |transfers| && transfers == old(transfers) && agents == old(agents)
        invariant released == old(released) + Outstanding(transfers[..i])
      {
        assert transfers[..i + 1] == transfers[..i] + [transfers[i]];
        OutstandingSplit(transfers[..i], transfers[i]);
        Assoc(old(released), Outstanding(transfers[..i]), multiset(transfers[i].handles));
        ReleaseAll(transfers[i].handles);
        i := i + 1;
      }
      assert transfers[..|transfers|] == transfers;
      transfers, agents := [], {};
    }
  }
}
