/** The worker methods that keep requests until their blocks were read, against ProducerState. */
module ProducerWorker {
  import opened Wrappers
  import opened ProducerState

  /** A decoded completion notification: request id form and the consumer's TP size. */
  datatype Notif = Notif(tag: string, tpSize: nat)

  // ----- what a batch of notifications does, given which request each is credited to -----

  function CreditOne(w: Work, n: Notif, pick: Option<ReqId>, world: nat): Work
    requires world > 0 && n.tpSize > 0
  {
    if pick.Some? then Credit(w, pick.value, Required(n.tpSize, world)) else w
  }

  predicate Sized(ns: seq<Notif>) {
    forall i | 0 <= i < |ns| :: ns[i].tpSize > 0
  }

  ghost predicate Notifs(ns: seq<Notif>, world: nat) {
    forall n | n in ns :: TpSizesDivide(n.tpSize, world)
  }

  function CreditAll(w: Work, ns: seq<Notif>, picks: seq<Option<ReqId>>, world: nat): Work
    requires world > 0 && |picks| == |ns| && Sized(ns)
  {
    if ns == [] then w
    else CreditOne(CreditAll(w, ns[..|ns| - 1], picks[..|ns| - 1], world), ns[|ns| - 1], picks[|ns| - 1], world)
  }

  /** Each pick is what the notification resolves to when its turn comes. */
  predicate PicksResolve(w: Work, ns: seq<Notif>, picks: seq<Option<ReqId>>, world: nat)
    requires world > 0 && |picks| == |ns| && Sized(ns)
  {
    ns == [] || (PicksResolve(w, ns[..|ns| - 1], picks[..|ns| - 1], world)
                 && Resolves(CreditAll(w, ns[..|ns| - 1], picks[..|ns| - 1], world), ns[|ns| - 1].tag, picks[|ns| - 1]))
  }

  /** The requests that the batch releases. */
  function ReleasedBy(w: Work, ns: seq<Notif>, picks: seq<Option<ReqId>>, world: nat): set<ReqId>
    requires world > 0 && |picks| == |ns| && Sized(ns)
  {
    if ns == [] then {}
    else
      var k := |ns| - 1;
      var before := CreditAll(w, ns[..k], picks[..k], world);
      ReleasedBy(w, ns[..k], picks[..k], world)
      + if picks[k].Some? && Releases(before, picks[k].value, Required(ns[k].tpSize, world)) then {picks[k].value}
        else {}
  }

  /** One more notification at the end of a batch. */
  lemma BatchGrows(w: Work, ns: seq<Notif>, picks: seq<Option<ReqId>>, n: Notif, pick: Option<ReqId>, world: nat)
    requires world > 0 && |picks| == |ns| && Sized(ns) && n.tpSize > 0
    ensures Sized(ns + [n]) && |picks + [pick]| == |ns + [n]|
    ensures var before := CreditAll(w, ns, picks, world);
            && CreditAll(w, ns + [n], picks + [pick], world) == CreditOne(before, n, pick, world)
            && PicksResolve(w, ns + [n], picks + [pick], world)
                 == (PicksResolve(w, ns, picks, world) && Resolves(before, n.tag, pick))
            && ReleasedBy(w, ns + [n], picks + [pick], world)
               == ReleasedBy(w, ns, picks, world)
                  + if pick.Some? && Releases(before, pick.value, Required(n.tpSize, world)) then {pick.value} else {}
  {
    assert (ns + [n])[..|ns|] == ns && (picks + [pick])[..|picks|] == picks;
  }

  /** `w` after the batch is `w'`, and `done` are the requests it released. */
  ghost predicate Processed(w: Work, ns: seq<Notif>, picks: seq<Option<ReqId>>, world: nat, w': Work,
                            done: set<ReqId>) {
    && world > 0 && |picks| == |ns| && Sized(ns) && PicksResolve(w, ns, picks, world)
    && w' == CreditAll(w, ns, picks, world) && done == ReleasedBy(w, ns, picks, world)
  }

  lemma ProcessOne(w: Work, ns: seq<Notif>, picks: seq<Option<ReqId>>, world: nat, w': Work, done: set<ReqId>,
                   n: Notif, pick: Option<ReqId>, w'': Work, released: set<ReqId>)
    requires Processed(w, ns, picks, world, w', done) && n.tpSize > 0
    requires Resolves(w', n.tag, pick) && w'' == CreditOne(w', n, pick, world)
    requires released == if pick.Some? && Releases(w', pick.value, Required(n.tpSize, world)) then {pick.value} else {}
    ensures Processed(w, ns + [n], picks + [pick], world, w'', done + released)
  {
    BatchGrows(w, ns, picks, n, pick, world);
  }

  /** One round of the expiry loop. */
  function Popped(w: Work): Work
    requires w.toSend != []
  {
    var r := w.toSend[0].req;
    Work(w.toProcess - {r}, w.toSend[1..], w.counts - {r})
  }

  function DueKeys(w: Work, now: real): set<ReqId> {
    Keys(w.toSend[..DueCount(w.toSend, now)])
  }

  lemma ExpireFirst(w: Work, now: real)
    requires w.toSend != [] && w.toSend[0].expires <= now
    ensures DueKeys(w, now) == {w.toSend[0].req} + DueKeys(Popped(w), now)
    ensures Expire(Popped(w), now) == Expire(w, now)
  {
    DueSplit(w.toSend, now);
    var r, rest := w.toSend[0].req, w.toSend[1..][..DueCount(w.toSend[1..], now)];
    KeysCons([w.toSend[0]] + rest);
    assert ([w.toSend[0]] + rest)[1..] == rest;
    assert w.toProcess - ({r} + Keys(rest)) == (w.toProcess - {r}) - Keys(rest);
    assert w.counts - ({r} + Keys(rest)) == (w.counts - {r}) - Keys(rest);
  }

  lemma NothingDue(w: Work, now: real)
    requires w.toSend == [] || now < w.toSend[0].expires
    ensures DueKeys(w, now) == {} && Expire(w, now) == w
  {
    assert w.toSend[..0] == [];
  }

  class Worker {
    const world: nat
    var toProcess: set<ReqId>
    var toSend: seq<Entry>
    var counts: map<ReqId, nat>

    function State(): Work
      reads this
    {
      Work(toProcess, toSend, counts)
    }

    ghost predicate Valid()
      reads this
    {
      world > 0 && NoDup(toSend) && Keys(toSend) <= toProcess
    }

    constructor (world: nat)
      requires world > 0
      ensures Valid() && this.world == world && State() == Work({}, [], map[])
    {
      this.world := world;
      toProcess, toSend, counts := {}, [], map[];
    }

    /** The end of `start_load_kv`. */
    method StartLoadKv(m: Meta)
      requires Valid()
      requires AbortsBeforeTimer(State(), m)
      modifies this
      ensures Valid() && State() == Load(old(State()), m)
    {
      var batch := m.inBatch;
      while batch != {}
        invariant toProcess + batch == old(toProcess) + m.inBatch && batch <= m.inBatch
        invariant toSend == old(toSend) && counts == old(counts)
      {
        var r :| r in batch;
        toProcess, batch := toProcess + {r}, batch - {r};
      }
      var aborted := m.notProcessed;
      while aborted != {}
        invariant aborted <= m.notProcessed
        invariant toProcess == (old(toProcess) + m.inBatch) - (m.notProcessed - aborted)
        invariant toSend == old(toSend) && counts == old(counts)
      {
        var r :| r in aborted;
        toProcess, aborted := toProcess - {r}, aborted - {r};
        assert r !in Keys(toSend);
      }
      ghost var all := AddSends(toProcess, toSend, m.toSend);
      for i := 0 to |m.toSend|
        invariant counts == old(counts) && toProcess == old(toProcess) + m.inBatch - m.notProcessed
        invariant AddSends(toProcess, toSend, m.toSend[i..]) == all
        invariant NoDup(toSend) && Keys(toSend) <= toProcess
      {
        var e := m.toSend[i];
        assert m.toSend[i..][0] == e && m.toSend[i..][1..] == m.toSend[i + 1..];
        if e.req in toProcess {
          PutKeeps(toSend, e.req, e.expires);
          toSend := Put(toSend, e.req, e.expires);
        }
      }
    }

    /** `_resolve_free_notif_req_id`: an oldest live request with the notification's UUID. */
    method ResolveFreeNotif(tag: string) returns (pick: Option<ReqId>)
      requires !Live(State(), tag)
      ensures Resolves(State(), tag, pick)
    {
      var u := FindUuid(tag);
      if u == None {
        return None;
      }
      var matches := Matches(State(), u.value);
      if matches == {} {
        return None;
      }
      var best :| best in matches;
      var rest := matches - {best};
      while rest != {}
        invariant best in matches && rest <= matches
        invariant forall r | r in matches - rest :: Older(State(), best, r)
      {
        var r :| r in rest;
        OlderTotal(State(), best, r);
        if !Older(State(), best, r) {
          best := r;
        }
        rest := rest - {r};
      }
      pick := Some(best);
    }

    /** One round of the loop over notifications. */
    method CreditNotif(n: Notif) returns (released: set<ReqId>, ghost pick: Option<ReqId>)
      requires Valid() && TpSizesDivide(n.tpSize, world)
      modifies this
      ensures Valid() && Resolves(old(State()), n.tag, pick)
      ensures State() == CreditOne(old(State()), n, pick, world)
      ensures released == if pick.Some? && Releases(old(State()), pick.value, Required(n.tpSize, world))
              then {pick.value} else {}
      ensures released <= old(toProcess) && toProcess == old(toProcess) - released
    {
      var owner := Some(n.tag);
      if !Live(State(), n.tag) {
        owner := ResolveFreeNotif(n.tag);
      }
      pick, released := owner, {};
      if owner.Some? {
        var r, needed := owner.value, Required(n.tpSize, world);
        counts := counts[r := CountOf(State(), r) + 1];
        if counts[r] == needed {
          released := {r};
          DropIs(toSend, r);
          counts, toProcess, toSend := counts - {r}, toProcess - {r}, Drop(toSend, r);
          assert counts == old(counts) - {r};
        }
      }
    }

    /** `_get_new_notifs`. */
    method GetNewNotifs(ns: seq<Notif>) returns (done: set<ReqId>, ghost picks: seq<Option<ReqId>>)
      requires Valid() && Notifs(ns, world)
      modifies this
      ensures Valid() && |picks| == |ns| && Sized(ns)
      ensures PicksResolve(old(State()), ns, picks, world)
      ensures State() == CreditAll(old(State()), ns, picks, world)
      ensures done == ReleasedBy(old(State()), ns, picks, world)
      ensures done <= old(toProcess) && toProcess == old(toProcess) - done
    {
      done, picks := {}, [];
      for i := 0 to |ns|
        invariant Valid() && Processed(old(State()), ns[..i], picks, world, State(), done)
        invariant done <= old(toProcess) && toProcess == old(toProcess) - done
      {
        assert ns[i] in ns;
        ghost var before, doneBefore, picksBefore := State(), done, picks;
        var released; ghost var pick;
        released, pick := CreditNotif(ns[i]);
        ProcessOne(old(State()), ns[..i], picksBefore, world, before, doneBefore, ns[i], pick, State(), released);
        assert ns[..i + 1] == ns[..i] + [ns[i]];
        done, picks := done + released, picks + [pick];
      }
      assert ns[..|ns|] == ns;
    }

    /** One round of the expiry loop. */
    method ReleaseFirst() returns (r: ReqId)
      requires Valid() && toSend != []
      modifies this
      ensures Valid() && State() == Popped(old(State())) && r == old(toSend)[0].req
    {
      r := toSend[0].req;
      assert r in Keys(toSend);
      KeysTail(toSend);
      counts, toProcess, toSend := counts - {r}, toProcess - {r}, toSend[1..];
    }

    /** The expiry loop of `get_finished`. */
    method ReleaseExpired(now: real) returns (done: set<ReqId>)
      requires Valid()
      modifies this
      ensures Valid() && State() == Expire(old(State()), now)
      ensures done == Keys(old(toSend)[..DueCount(old(toSend), now)])
    {
      done := {};
      while toSend != []
        invariant Valid() && Expire(State(), now) == Expire(old(State()), now)
        invariant done + DueKeys(State(), now) == DueKeys(old(State()), now)
        decreases |toSend|
      {
        if now < toSend[0].expires {
          break;
        }
        ExpireFirst(State(), now);
        var r := ReleaseFirst();
        done := done + {r};
      }
      NothingDue(State(), now);
    }

    /** The two ways `get_finished` reports a request as done sending. */
    method GetFinished(ns: seq<Notif>, now: real) returns (done: set<ReqId>, ghost picks: seq<Option<ReqId>>)
      requires Valid() && Notifs(ns, world)
      modifies this
      ensures Valid() && |picks| == |ns| && Sized(ns)
      ensures PicksResolve(old(State()), ns, picks, world)
      ensures var read := CreditAll(old(State()), ns, picks, world);
              && State() == Expire(read, now)
              && done == ReleasedBy(old(State()), ns, picks, world) + Keys(read.toSend[..DueCount(read.toSend, now)])
    {
      done, picks := GetNewNotifs(ns);
      var expired := ReleaseExpired(now);
      done := done + expired;
    }
  }

  lemma OlderTotal(w: Work, a: ReqId, b: ReqId)
    ensures Older(w, a, a) && (!Older(w, a, b) ==> forall x | Older(w, a, x) :: Older(w, b, x))
  {}

  lemma KeysTail(d: seq<Entry>)
    requires d != [] && NoDup(d)
    ensures Keys(d[1..]) == Keys(d) - {d[0].req} && NoDup(d[1..])
  {
    assert d == [d[0]] + d[1..];
    assert forall e | e in d[1..] :: e.req != d[0].req;
  }

  lemma {:induction false} PutIs(d: seq<Entry>, r: ReqId, expires: real)
    requires NoDup(d)
    ensures forall e :: e in Put(d, r, expires) <==> e == Entry(r, expires) || (e in d && e.req != r)
    ensures NoDup(Put(d, r, expires))
  {
    if d != [] {
      KeysTail(d);
      assert d == [d[0]] + d[1..];
      if d[0].req != r {
        PutIs(d[1..], r, expires);
      }
    }
  }

  lemma PutKeeps(d: seq<Entry>, r: ReqId, expires: real)
    requires NoDup(d)
    ensures NoDup(Put(d, r, expires)) && Keys(Put(d, r, expires)) == Keys(d) + {r}
  {
    PutIs(d, r, expires);
    assert Entry(r, expires) in Put(d, r, expires);
  }
}
