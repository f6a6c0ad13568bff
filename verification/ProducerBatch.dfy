/** A batch of notifications at the worker, and a whole `get_finished`, are runs of the producer protocol; so
    what holds over its runs holds of what the worker releases. */
module ProducerBatch {
  import opened Wrappers
  import opened ProducerState
  import opened ProducerProtocol
  import opened ProducerSafety
  import opened ProducerOnce
  import opened ProducerTheorems
  import opened ProducerWorker
  import ProducerLimits

  /** The notifications of a batch as the worker decodes them. */
  function Decoded(c: Config, notes: seq<Note>): (ns: seq<Notif>)
    requires forall r :: c.consumers(r) > 0
    ensures |ns| == |notes|
    ensures forall i | 0 <= i < |ns| :: ns[i] == Notif(notes[i].tag, c.consumers(notes[i].req))
  {
    seq(|notes|, i requires 0 <= i < |notes| => Notif(notes[i].tag, c.consumers(notes[i].req)))
  }

  /** Distinct notifications in flight. */
  ghost predicate UnderWay(s: System, notes: seq<Note>) {
    (forall n | n in notes :: n in s.inflight) && forall i, j | 0 <= i < j < |notes| :: notes[i] != notes[j]
  }

  /** Each pick is what the worker credits the notification to when its turn comes. */
  ghost predicate Batch(c: Config, s: System, notes: seq<Note>, picks: seq<Option<ReqId>>) {
    ConfigOk(c) && UnderWay(s, notes) && |picks| == |notes| && Sized(Decoded(c, notes))
    && PicksResolve(s.work, Decoded(c, notes), picks, c.world)
  }

  /** One allowed step of the protocol. */
  ghost predicate Takes(c: Config, s: System, e: Event, s': System)
    requires ConfigOk(c)
  {
    Allowed(c, s, e) && s' == Step(c, s, e)
  }

  /** The protocol's steps that deliver the notes one after the other. */
  ghost predicate Deliveries(c: Config, s: System, notes: seq<Note>, picks: seq<Option<ReqId>>, states: seq<System>)
    requires ConfigOk(c) && |picks| == |notes|
  {
    && |states| == |notes| + 1 && states[0] == s
    && forall i | 0 <= i < |notes| :: Takes(c, states[i], Deliver(notes[i], picks[i]), states[i + 1])
  }

  /** The requests reported since s. */
  function NewlyReported(s: System, s': System): set<ReqId> {
    set i | |s.reports| <= i < |s'.reports| :: s'.reports[i].req
  }

  lemma PrefixBatch(c: Config, s: System, notes: seq<Note>, picks: seq<Option<ReqId>>)
    requires Batch(c, s, notes, picks) && notes != []
    ensures var k := |notes| - 1;
            Batch(c, s, notes[..k], picks[..k]) && Decoded(c, notes)[..k] == Decoded(c, notes[..k])
  {
    var k := |notes| - 1;
    assert Decoded(c, notes)[..k] == Decoded(c, notes[..k]);
  }

  /** What a batch leaves behind. */
  ghost predicate Leaves(c: Config, s: System, notes: seq<Note>, picks: seq<Option<ReqId>>, s': System)
    requires Batch(c, s, notes, picks)
  {
    && s'.work == CreditAll(s.work, Decoded(c, notes), picks, c.world)
    && s'.inflight == s.inflight - (set n | n in notes) && s'.now == s.now && s.reports <= s'.reports
    && NewlyReported(s, s') == ReleasedBy(s.work, Decoded(c, notes), picks, c.world)
    && forall i | |s.reports| <= i < |s'.reports| :: !s'.reports[i].byExpiry
  }

  lemma LastNote(c: Config, s: System, notes: seq<Note>, picks: seq<Option<ReqId>>, s1: System)
    requires Batch(c, s, notes, picks) && notes != []
    requires var k := |notes| - 1; Batch(c, s, notes[..k], picks[..k]) && Leaves(c, s, notes[..k], picks[..k], s1)
    ensures var e := Deliver(notes[|notes| - 1], picks[|notes| - 1]);
            Allowed(c, s1, e) && Leaves(c, s, notes, picks, Step(c, s1, e))
  {
    var k := |notes| - 1;
    PrefixBatch(c, s, notes, picks);
    assert notes[k] in notes && notes[k] !in notes[..k];
    assert (set n | n in notes) == (set n | n in notes[..k]) + {notes[k]};
    DeliveredReports(c, s, s1, notes[k], picks[k]);
  }

  /** The worker's loop over a batch is the protocol delivering its notifications in that order. */
  lemma {:induction false} BatchIsRun(c: Config, s: System, notes: seq<Note>, picks: seq<Option<ReqId>>)
    returns (states: seq<System>)
    requires Batch(c, s, notes, picks)
    ensures Deliveries(c, s, notes, picks, states)
    ensures Leaves(c, s, notes, picks, states[|notes|])
  {
    if notes == [] {
      states := [s];
    } else {
      var k := |notes| - 1;
      PrefixBatch(c, s, notes, picks);
      var before := BatchIsRun(c, s, notes[..k], picks[..k]);
      LastNote(c, s, notes, picks, before[k]);
      states := before + [Step(c, before[k], Deliver(notes[k], picks[k]))];
      forall i | 0 <= i < |notes| ensures Takes(c, states[i], Deliver(notes[i], picks[i]), states[i + 1]) {
        if i < k {
          assert Takes(c, before[i], Deliver(notes[..k][i], picks[..k][i]), before[i + 1]);
        }
      }
    }
  }

  lemma DeliveredReports(c: Config, s: System, s1: System, n: Note, pick: Option<ReqId>)
    requires ConfigOk(c) && s.reports <= s1.reports
    ensures var s' := Delivered(c, s1, n, pick);
            && s.reports <= s'.reports
            && NewlyReported(s, s') == NewlyReported(s, s1)
               + if pick.Some? && Releases(s1.work, pick.value, NeededFor(c, n.req)) then {pick.value} else {}
  {
    var s' := Delivered(c, s1, n, pick);
    if pick.Some? && Releases(s1.work, pick.value, NeededFor(c, n.req)) {
      assert s'.reports == s1.reports + [Report(pick.value, false, s1.now)];
      assert s'.reports[|s1.reports|].req == pick.value;
      forall r | r in NewlyReported(s, s1) ensures r in NewlyReported(s, s') {
        var i :| |s.reports| <= i < |s1.reports| && s1.reports[i].req == r;
        assert s'.reports[i].req == r;
      }
    } else {
      assert s'.reports == s1.reports;
    }
  }

  lemma {:induction false} AlongTheRun(c: Config, s: System, notes: seq<Note>, picks: seq<Option<ReqId>>,
                                       states: seq<System>, i: nat)
    requires ConfigOk(c) && Reachable(c, s) && |picks| == |notes| && Deliveries(c, s, notes, picks, states)
    requires i <= |notes|
    ensures Reachable(c, states[i])
  {
    if i > 0 {
      AlongTheRun(c, s, notes, picks, states, i - 1);
      assert Takes(c, states[i - 1], Deliver(notes[i - 1], picks[i - 1]), states[i]);
      ProducerLimits.Extend(c, states[i - 1], Deliver(notes[i - 1], picks[i - 1]));
    }
  }

  /** All of `get_finished` is the protocol delivering the batch and then running its expiry loop. */
  lemma GetFinishedIsRun(c: Config, s: System, notes: seq<Note>, picks: seq<Option<ReqId>>)
    returns (states: seq<System>, s': System)
    requires Batch(c, s, notes, picks)
    ensures Deliveries(c, s, notes, picks, states) && Takes(c, states[|notes|], ExpireDue, s')
    ensures Reachable(c, s) ==> Reachable(c, s')
    ensures var read := CreditAll(s.work, Decoded(c, notes), picks, c.world);
            && s'.work == Expire(read, s.now)
            && NewlyReported(s, s') == ReleasedBy(s.work, Decoded(c, notes), picks, c.world) + DueKeys(read, s.now)
  {
    states := BatchIsRun(c, s, notes, picks);
    var s1 := states[|notes|];
    s' := Step(c, s1, ExpireDue);
    if Reachable(c, s) {
      AlongTheRun(c, s, notes, picks, states, |notes|);
      ProducerLimits.Extend(c, s1, ExpireDue);
    }
    ExpiredReports(c, s, s1);
  }

  lemma ExpiredReports(c: Config, s: System, s1: System)
    requires ConfigOk(c) && s.reports <= s1.reports
    ensures NewlyReported(s, Step(c, s1, ExpireDue)) == NewlyReported(s, s1) + DueKeys(s1.work, s1.now)
  {
    var s', due := Step(c, s1, ExpireDue), s1.work.toSend[..DueCount(s1.work.toSend, s1.now)];
    forall r | r in NewlyReported(s, s1) ensures r in NewlyReported(s, s') {
      var i :| |s.reports| <= i < |s1.reports| && s1.reports[i].req == r;
      assert s'.reports[i].req == r;
    }
    forall r | r in Keys(due) ensures r in NewlyReported(s, s') {
      var i :| 0 <= i < |due| && due[i].req == r;
      assert s'.reports[|s1.reports| + i].req == r;
    }
    forall r | r in NewlyReported(s, s') ensures r in NewlyReported(s, s1) || r in Keys(due) {
      var i :| |s.reports| <= i < |s'.reports| && s'.reports[i].req == r;
      if i >= |s1.reports| {
        assert due[i - |s1.reports|] in due;
      }
    }
  }

  // ----- which requests a batch releases -----

  /** The batch holds reader j's notification about r. */
  ghost predicate Brings(notes: seq<Note>, r: ReqId, j: nat) {
    exists n :: n in notes && n.req == r && n.reader == j
  }

  /** The first i notifications of a batch: each is credited to its own request unless that was released. */
  ghost predicate Credited(s: System, notes: seq<Note>, s': System) {
    && s'.work.toProcess <= s.work.toProcess && NewlyReported(s, s') == s.work.toProcess - s'.work.toProcess
    && s.reports <= s'.reports && s.counted <= s'.counted
    && (forall p | p in s'.counted :: p in s.counted || Brings(notes, p.0, p.1))
    && (forall n | n in notes && n.req in s'.work.toProcess :: (n.req, n.reader) in s'.counted)
  }

  lemma BroughtOne(s: System, notes: seq<Note>, s1: System, n: Note, s': System)
    requires forall p | p in s1.counted :: p in s.counted || Brings(notes, p.0, p.1)
    requires s'.counted <= s1.counted + {(n.req, n.reader)}
    ensures forall p | p in s'.counted :: p in s.counted || Brings(notes + [n], p.0, p.1)
  {
    forall p | p in s'.counted ensures p in s.counted || Brings(notes + [n], p.0, p.1) {
      if p in s1.counted {
        if m :| m in notes && m.req == p.0 && m.reader == p.1 {
          assert m in notes + [n];
        }
      } else {
        assert n in notes + [n];
      }
    }
  }

  lemma CreditedOne(c: Config, s: System, notes: seq<Note>, s1: System, n: Note, pick: Option<ReqId>)
    requires Clean(c) && Reachable(c, s1) && Credited(s, notes, s1) && Allowed(c, s1, Deliver(n, pick))
    ensures Credited(s, notes + [n], Delivered(c, s1, n, pick))
  {
    ReachableIsSafe(c, s1);
    ResolvesToOwn(c, s1, n, pick);
    OwnCredit(c, s, notes, s1, n);
  }

  lemma OwnCredit(c: Config, s: System, notes: seq<Note>, s1: System, n: Note)
    requires ConfigOk(c) && Credited(s, notes, s1)
    ensures var pick := if n.req in s1.work.toProcess then Some(n.req) else None;
            Credited(s, notes + [n], Delivered(c, s1, n, pick))
  {
    var pick := if n.req in s1.work.toProcess then Some(n.req) else None;
    DeliveredReports(c, s, s1, n, pick);
    BroughtOne(s, notes, s1, n, Delivered(c, s1, n, pick));
  }

  lemma {:induction false} BatchCredits(c: Config, s: System, notes: seq<Note>, picks: seq<Option<ReqId>>,
                                        states: seq<System>, i: nat)
    requires Clean(c) && Reachable(c, s) && |picks| == |notes| && Deliveries(c, s, notes, picks, states)
    requires i <= |notes|
    ensures Credited(s, notes[..i], states[i])
  {
    if i > 0 {
      BatchCredits(c, s, notes, picks, states, i - 1);
      AlongTheRun(c, s, notes, picks, states, i - 1);
      assert Takes(c, states[i - 1], Deliver(notes[i - 1], picks[i - 1]), states[i]);
      CreditedOne(c, s, notes[..i - 1], states[i - 1], notes[i - 1], picks[i - 1]);
      assert notes[..i - 1] + [notes[i - 1]] == notes[..i];
    }
  }

  /** A request that is still processed lacks a reader. */
  lemma StillLacks(c: Config, s: System, r: ReqId) returns (j: nat)
    requires Clean(c) && Reachable(c, s) && r in s.work.toProcess
    ensures j in ReadersOf(c, r) && (r, j) !in s.counted
  {
    ReachableInv(c, s);
    ReleasedExactlyOnce(c, s);
    assert Reported(s, r) ==> Gone(s, r);
    assert !AllCounted(c, s, r);
    j :| j in ReadersOf(c, r) && (r, j) !in s.counted;
  }

  /** A batch releases exactly the requests still processed whose every reader was credited before or notifies
      in the batch. */
  lemma BatchReleasesExactly(c: Config, s: System, notes: seq<Note>, picks: seq<Option<ReqId>>, r: ReqId)
    requires Clean(c) && Reachable(c, s) && Batch(c, s, notes, picks)
    ensures r in ReleasedBy(s.work, Decoded(c, notes), picks, c.world)
       <==> r in s.work.toProcess
            && forall j | j in ReadersOf(c, r) :: (r, j) in s.counted || Brings(notes, r, j)
  {
    var states := BatchIsRun(c, s, notes, picks);
    var s' := states[|notes|];
    BatchCredits(c, s, notes, picks, states, |notes|);
    AlongTheRun(c, s, notes, picks, states, |notes|);
    assert notes[..|notes|] == notes;
    if r in NewlyReported(s, s') {
      var i :| |s.reports| <= i < |s'.reports| && s'.reports[i].req == r;
      assert Noted(s', r);
      ReleasedExactlyOnce(c, s');
    } else if r in s.work.toProcess {
      var j := StillLacks(c, s', r);
      assert !Brings(notes, r, j);
    }
  }
}
