/** What every step of the producer keeps, whatever ids share and whenever consumers notify: the expiration
    entries are in order, and every request that must still be released is held. */
module ProducerCore {
  import opened Wrappers
  import opened ProducerState
  import opened ProducerProtocol

  // ----- the expiration entries, oldest first, wherever they are -----

  function QueueSends(queue: seq<Meta>): seq<Entry> {
    if queue == [] then [] else queue[0].toSend + QueueSends(queue[1..])
  }

  function Line(s: System): seq<Entry> {
    s.work.toSend + (QueueSends(s.queue) + s.needSend)
  }

  ghost predicate Timeline(d: seq<Entry>) {
    NoDup(d) && Sorted(d)
  }

  ghost predicate LineOk(c: Config, s: System) {
    && Timeline(Line(s))
    && (forall e | e in Line(s) ::
          e.req in s.fates && s.fates[e.req] == Delayed(e.expires) && e.expires <= s.now + c.timeout)
    && (forall r | DelayedIn(s, r) :: Reported(s, r) || r in Keys(Line(s)))
  }

  // ----- which requests the worker processes -----

  function AllNotProcessed(queue: seq<Meta>, last: set<ReqId>): set<ReqId> {
    if queue == [] then last else queue[0].notProcessed + AllNotProcessed(queue[1..], last)
  }

  /** A batch entry never comes after the request's expiration entry. */
  ghost predicate BatchesFirst(queue: seq<Meta>, inBatch: set<ReqId>) {
    queue == [] || (Keys(queue[0].toSend) !! PendingBatch(queue[1..], inBatch) && BatchesFirst(queue[1..], inBatch))
  }

  ghost predicate OrderOk(s: System) {
    && BatchesFirst(s.queue, s.inBatch)
    && Keys(s.work.toSend) !! PendingBatch(s.queue, s.inBatch)
    && (forall r | r in AllNotProcessed(s.queue, s.notProcessed) :: r in s.fates && s.fates[r] == Freed)
  }

  /** Scheduled, not aborted and not yet reported: the worker has to know it. */
  ghost predicate Expected(s: System, r: ReqId) {
    r in s.scheduled && (r in s.fates ==> s.fates[r].Delayed?) && !Reported(s, r)
  }

  ghost predicate ProcessOk(s: System) {
    && Keys(s.work.toSend) <= s.work.toProcess
    && (forall r | Expected(s, r) :: r in s.work.toProcess || r in PendingBatch(s.queue, s.inBatch))
    && (forall r | DelayedIn(s, r) :: r in s.scheduled)
  }

  ghost predicate Core(c: Config, s: System) {
    LineOk(c, s) && OrderOk(s) && ProcessOk(s)
  }

  lemma InitLine(c: Config)
    requires ConfigOk(c)
    ensures LineOk(c, Init()) && Line(Init()) == []
  {
    assert Line(Init()) == [];
  }

  lemma InitCore(c: Config)
    requires ConfigOk(c)
    ensures Core(c, Init())
  {
    InitLine(c);
  }

  // ----- what a step does not touch -----

  lemma LineStays(c: Config, s: System, s': System)
    requires ConfigOk(c) && LineOk(c, s) && Line(s') == Line(s)
    requires s'.fates == s.fates && s'.reports == s.reports && s.now <= s'.now
    ensures LineOk(c, s')
  {
    assert forall x :: Reported(s', x) == Reported(s, x);
  }

  lemma SameTables(s: System, s': System)
    requires OrderOk(s) && ProcessOk(s)
    requires s'.work.toSend == s.work.toSend && s'.work.toProcess == s.work.toProcess
    requires BatchesFirst(s'.queue, s'.inBatch)
        && PendingBatch(s'.queue, s'.inBatch) == PendingBatch(s.queue, s.inBatch)
    requires AllNotProcessed(s'.queue, s'.notProcessed) == AllNotProcessed(s.queue, s.notProcessed)
    requires s'.reports == s.reports && s'.fates == s.fates && s'.scheduled == s.scheduled
    ensures OrderOk(s') && ProcessOk(s')
  {
    assert forall x :: Reported(s', x) == Reported(s, x);
    assert forall x :: Expected(s', x) == Expected(s, x);
  }

  /** A step that leaves the entries, the tables and the reports as they are. */
  lemma SameCore(c: Config, s: System, s': System)
    requires ConfigOk(c) && Core(c, s) && Line(s') == Line(s) && s.now <= s'.now
    requires s'.work.toSend == s.work.toSend && s'.work.toProcess == s.work.toProcess
    requires BatchesFirst(s'.queue, s'.inBatch)
        && PendingBatch(s'.queue, s'.inBatch) == PendingBatch(s.queue, s.inBatch)
    requires AllNotProcessed(s'.queue, s'.notProcessed) == AllNotProcessed(s.queue, s.notProcessed)
    requires s'.reports == s.reports && s'.fates == s.fates && s'.scheduled == s.scheduled
    ensures Core(c, s')
  {
    LineStays(c, s, s');
    SameTables(s, s');
  }

  // ----- scheduler steps -----

  lemma {:induction false} BatchAdd(queue: seq<Meta>, inBatch: set<ReqId>, r: ReqId)
    ensures PendingBatch(queue, inBatch + {r}) == PendingBatch(queue, inBatch) + {r}
    ensures BatchesFirst(queue, inBatch) && r !in Keys(QueueSends(queue)) ==> BatchesFirst(queue, inBatch + {r})
  {
    if queue != [] {
      BatchAdd(queue[1..], inBatch, r);
      KeysOfConcat(queue[0].toSend, QueueSends(queue[1..]));
    }
  }

  lemma KeysOfConcat(a: seq<Entry>, b: seq<Entry>)
    ensures Keys(a + b) == Keys(a) + Keys(b)
  {
    assert forall e :: e in a + b <==> e in a || e in b;
  }

  lemma LineKeys(s: System)
    ensures Keys(Line(s)) == Keys(s.work.toSend) + (Keys(QueueSends(s.queue)) + Keys(s.needSend))
  {
    KeysOfConcat(s.work.toSend, QueueSends(s.queue) + s.needSend);
    KeysOfConcat(QueueSends(s.queue), s.needSend);
  }

  lemma ScheduleTables(s: System, s': System, r: ReqId)
    requires OrderOk(s) && ProcessOk(s) && r !in s.fates && r !in Keys(s.work.toSend) && r !in Keys(QueueSends(s.queue))
    requires s' == s.(inBatch := s.inBatch + {r}, scheduled := s.scheduled + {r})
    ensures OrderOk(s') && ProcessOk(s')
  {
    BatchAdd(s.queue, s.inBatch, r);
    assert forall x :: Reported(s', x) == Reported(s, x);
    forall x | Expected(s', x) ensures x in s'.work.toProcess || x in PendingBatch(s'.queue, s'.inBatch) {
      assert x != r ==> Expected(s, x);
    }
  }

  lemma ScheduleCore(c: Config, s: System, r: ReqId)
    requires ConfigOk(c) && Core(c, s) && r !in s.fates
    ensures Core(c, Step(c, s, Schedule(r)))
  {
    var s' := Step(c, s, Schedule(r));
    assert r !in Keys(Line(s));
    LineKeys(s);
    assert Line(s') == Line(s);
    LineStays(c, s, s');
    ScheduleTables(s, s', r);
  }

  lemma TimelineAppend(d: seq<Entry>, e: Entry)
    requires Timeline(d) && e.req !in Keys(d) && forall x | x in d :: x.expires <= e.expires
    ensures Timeline(d + [e])
  {
    var d' := d + [e];
    forall i, j | 0 <= i < j < |d'|
      ensures d'[i].req != d'[j].req && d'[i].expires <= d'[j].expires
    {
      assert d[i] in d;
    }
  }

  lemma DelayedShape(c: Config, s: System, r: ReqId, blocks: nat)
    requires ConfigOk(c) && LineOk(c, s) && r !in s.fates && blocks > 0
    ensures Line(Step(c, s, Finish(r, true, blocks))) == Line(s) + [Entry(r, s.now + c.timeout)]
    ensures r !in Keys(Line(s)) && r !in Keys(s.work.toSend) && r !in Keys(QueueSends(s.queue))
  {
    assert r !in Keys(Line(s));
    LineKeys(s);
    PutNew(s.needSend, r, s.now + c.timeout);
  }

  lemma DelayedLine(c: Config, s: System, r: ReqId, blocks: nat)
    requires ConfigOk(c) && LineOk(c, s) && r !in s.fates && blocks > 0
    ensures LineOk(c, Step(c, s, Finish(r, true, blocks)))
  {
    var s' := Step(c, s, Finish(r, true, blocks));
    var e := Entry(r, s.now + c.timeout);
    DelayedShape(c, s, r, blocks);
    TimelineAppend(Line(s), e);
    KeysOfConcat(Line(s), [e]);
    assert s'.fates == s.fates[r := Delayed(e.expires)];
    assert s'.reports == s.reports && s'.now == s.now;
    forall x | x in Line(s')
      ensures x.req in s'.fates && s'.fates[x.req] == Delayed(x.expires) && x.expires <= s'.now + c.timeout
    {
      assert x in Line(s) || x == e;
    }
    forall x | DelayedIn(s', x)
      ensures Reported(s', x) || x in Keys(Line(s'))
    {
      if x != r {
        assert DelayedIn(s, x) && Reported(s', x) == Reported(s, x);
      } else {
        assert e in Line(s');
      }
    }
  }

  lemma DelayedOrder(c: Config, s: System, r: ReqId, blocks: nat)
    requires ConfigOk(c) && OrderOk(s) && ProcessOk(s) && r !in s.fates && r in s.scheduled && blocks > 0
    ensures var s' := Step(c, s, Finish(r, true, blocks)); OrderOk(s') && ProcessOk(s')
  {
    var s' := Step(c, s, Finish(r, true, blocks));
    assert forall x :: Reported(s', x) == Reported(s, x);
    assert forall x :: Expected(s', x) ==> Expected(s, x);
  }

  lemma FreedLine(c: Config, s: System, r: ReqId, capped: bool, blocks: nat)
    requires ConfigOk(c) && LineOk(c, s) && r !in s.fates && !(capped && blocks > 0)
    ensures LineOk(c, Step(c, s, Finish(r, capped, blocks)))
  {
    var s' := Step(c, s, Finish(r, capped, blocks));
    assert Line(s') == Line(s);
    assert forall x :: Reported(s', x) == Reported(s, x);
    assert forall x :: DelayedIn(s', x) == DelayedIn(s, x);
  }

  lemma FreedOrder(c: Config, s: System, r: ReqId, capped: bool, blocks: nat)
    requires ConfigOk(c) && OrderOk(s) && ProcessOk(s) && r !in s.fates && !(capped && blocks > 0)
    ensures var s' := Step(c, s, Finish(r, capped, blocks)); OrderOk(s') && ProcessOk(s')
  {
    var s' := Step(c, s, Finish(r, capped, blocks));
    NotProcessedAdd(s.queue, s.notProcessed, r);
    assert forall x :: Reported(s', x) == Reported(s, x);
    assert forall x :: Expected(s', x) ==> Expected(s, x);
  }

  lemma {:induction false} NotProcessedAdd(queue: seq<Meta>, last: set<ReqId>, r: ReqId)
    ensures AllNotProcessed(queue, last + {r}) == AllNotProcessed(queue, last) + {r}
  {
    if queue != [] {
      NotProcessedAdd(queue[1..], last, r);
    }
  }

  lemma FinishCore(c: Config, s: System, r: ReqId, capped: bool, blocks: nat)
    requires ConfigOk(c) && Core(c, s) && Allowed(c, s, Finish(r, capped, blocks))
    ensures Core(c, Step(c, s, Finish(r, capped, blocks)))
  {
    if capped && blocks > 0 {
      DelayedShape(c, s, r, blocks);
      DelayedLine(c, s, r, blocks);
      DelayedOrder(c, s, r, blocks);
    } else {
      FreedLine(c, s, r, capped, blocks);
      FreedOrder(c, s, r, capped, blocks);
    }
  }

  lemma {:induction false} Enqueue(queue: seq<Meta>, m: Meta)
    ensures QueueSends(queue + [m]) == QueueSends(queue) + m.toSend
    ensures PendingBatch(queue + [m], {}) == PendingBatch(queue, m.inBatch)
    ensures AllNotProcessed(queue + [m], {}) == AllNotProcessed(queue, m.notProcessed)
    ensures BatchesFirst(queue, m.inBatch) ==> BatchesFirst(queue + [m], {})
  {
    if queue == [] {
      assert (queue + [m])[1..] == [];
      assert [m][0] == m;
      assert QueueSends([m]) == m.toSend + [];
    } else {
      assert (queue + [m])[1..] == queue[1..] + [m];
      Enqueue(queue[1..], m);
    }
  }

  lemma BuildCore(c: Config, s: System)
    requires ConfigOk(c) && Core(c, s)
    ensures Core(c, Step(c, s, Build))
  {
    var s' := Step(c, s, Build);
    Enqueue(s.queue, Meta(s.needSend, s.inBatch, s.notProcessed));
    assert Line(s') == Line(s);
    SameCore(c, s, s');
  }

  // ----- worker steps -----

  lemma TimelineRemove(a: seq<Entry>, e: Entry, b: seq<Entry>)
    requires Timeline(a + [e] + b)
    ensures Timeline(a + b)
  {
    var d, d' := a + [e] + b, a + b;
    forall i, j | 0 <= i < j < |d'|
      ensures d'[i].req != d'[j].req && d'[i].expires <= d'[j].expires
    {
      var i', j' := if i < |a| then i else i + 1, if j < |a| then j else j + 1;
      assert d'[i] == d[i'] && d'[j] == d[j'];
    }
  }

  /** The entries of a metadata that the worker takes over. */
  function Kept(toProcess: set<ReqId>, items: seq<Entry>): seq<Entry> {
    if items == [] then []
    else if items[0].req in toProcess then [items[0]] + Kept(toProcess, items[1..])
    else Kept(toProcess, items[1..])
  }

  lemma {:induction false} KeptIs(toProcess: set<ReqId>, items: seq<Entry>)
    ensures forall e :: e in Kept(toProcess, items) <==> e in items && e.req in toProcess
  {
    if items != [] {
      KeptIs(toProcess, items[1..]);
      assert items == [items[0]] + items[1..];
    }
  }

  lemma Rotate(a: seq<Entry>, items: seq<Entry>, rest: seq<Entry>)
    requires items != []
    ensures a + items + rest == (a + [items[0]]) + items[1..] + rest
  {}

  lemma Skip(a: seq<Entry>, items: seq<Entry>, rest: seq<Entry>)
    requires items != []
    ensures a + items + rest == a + [items[0]] + (items[1..] + rest)
    ensures a + (items[1..] + rest) == a + items[1..] + rest
  {}

  /** The entry that follows `a` in a timeline is for another request. */
  lemma NextIsFresh(a: seq<Entry>, items: seq<Entry>, rest: seq<Entry>)
    requires Timeline(a + items + rest) && items != []
    ensures items[0].req !in Keys(a)
  {
    var d := a + items + rest;
    forall i | 0 <= i < |a| ensures a[i].req != items[0].req {
      assert d[i] == a[i] && d[|a|] == items[0];
    }
  }

  lemma {:induction false} KeptTimeline(toProcess: set<ReqId>, a: seq<Entry>, items: seq<Entry>, rest: seq<Entry>)
    requires Timeline(a + items + rest)
    ensures Timeline(a + Kept(toProcess, items) + rest)
    decreases items
  {
    if items != [] {
      if items[0].req in toProcess {
        Rotate(a, items, rest);
        KeptTimeline(toProcess, a + [items[0]], items[1..], rest);
        assert Kept(toProcess, items)[1..] == Kept(toProcess, items[1..]);
        Rotate(a, Kept(toProcess, items), rest);
      } else {
        Skip(a, items, rest);
        TimelineRemove(a, items[0], items[1..] + rest);
        KeptTimeline(toProcess, a, items[1..], rest);
      }
    }
  }

  lemma Append(a: seq<Entry>, e: Entry, b: seq<Entry>)
    ensures (a + [e]) + b == a + ([e] + b)
  {}

  lemma {:induction false} AddSendsKept(toProcess: set<ReqId>, toSend: seq<Entry>, items: seq<Entry>, rest: seq<Entry>)
    requires Timeline(toSend + items + rest)
    ensures AddSends(toProcess, toSend, items) == toSend + Kept(toProcess, items)
    decreases items
  {
    if items != [] {
      var e := items[0];
      if e.req in toProcess {
        NextIsFresh(toSend, items, rest);
        PutNew(toSend, e.req, e.expires);
        Rotate(toSend, items, rest);
        AddSendsKept(toProcess, toSend + [e], items[1..], rest);
        Append(toSend, e, Kept(toProcess, items[1..]));
      } else {
        Skip(toSend, items, rest);
        TimelineRemove(toSend, e, items[1..] + rest);
        AddSendsKept(toProcess, toSend, items[1..], rest);
      }
    }
  }

  lemma AddSendsIs(toProcess: set<ReqId>, toSend: seq<Entry>, items: seq<Entry>, rest: seq<Entry>)
    requires Timeline(toSend + items + rest)
    ensures AddSends(toProcess, toSend, items) == toSend + Kept(toProcess, items)
    ensures Timeline(AddSends(toProcess, toSend, items) + rest)
  {
    AddSendsKept(toProcess, toSend, items, rest);
    KeptTimeline(toProcess, toSend, items, rest);
  }

  lemma Regroup(a: seq<Entry>, b: seq<Entry>, q: seq<Entry>, n: seq<Entry>)
    ensures a + ((b + q) + n) == a + b + (q + n)
  {}

  lemma LoadShape(s: System, s': System, m: Meta)
    requires s.queue != [] && s.queue[0] == m && Timeline(Line(s))
    requires s'.queue == s.queue[1..] && s'.needSend == s.needSend
    requires s'.work.toSend == AddSends(s'.work.toProcess, s.work.toSend, m.toSend)
    ensures Line(s) == s.work.toSend + m.toSend + (QueueSends(s'.queue) + s.needSend)
    ensures s'.work.toSend == s.work.toSend + Kept(s'.work.toProcess, m.toSend) && Timeline(Line(s'))
  {
    Regroup(s.work.toSend, m.toSend, QueueSends(s'.queue), s.needSend);
    AddSendsIs(s'.work.toProcess, s.work.toSend, m.toSend, QueueSends(s'.queue) + s.needSend);
  }

  /** Where an entry of the line is after its part was taken over. */
  lemma LoadEntries(a: seq<Entry>, items: seq<Entry>, rest: seq<Entry>, toProcess: set<ReqId>)
    ensures Keys(a + Kept(toProcess, items)) <= Keys(a) + Keys(items)
    ensures forall e | e in a + Kept(toProcess, items) + rest :: e in a + items + rest
    ensures forall e | e in a + items + rest ::
              e in a + Kept(toProcess, items) + rest || (e in items && e.req !in toProcess)
  {
    KeptIs(toProcess, items);
    KeysOfConcat(a, Kept(toProcess, items));
  }

  /** An unreported request whose entry arrives is being processed by then. */
  lemma Awaited(c: Config, s: System, e: Entry)
    requires ConfigOk(c) && Core(c, s) && s.queue != [] && e in s.queue[0].toSend
    requires !Reported(s, e.req)
    ensures e.req in Step(c, s, LoadMeta).work.toProcess
  {
    assert e in Line(s);
    assert e.req in Keys(s.queue[0].toSend);
    assert Expected(s, e.req);
  }

  lemma LoadDelayed(c: Config, s: System, r: ReqId)
    requires ConfigOk(c) && Core(c, s) && s.queue != [] && DelayedIn(s, r) && !Reported(s, r)
    ensures r in Keys(Line(Step(c, s, LoadMeta)))
  {
    var s' := Step(c, s, LoadMeta);
    LoadShape(s, s', s.queue[0]);
    LoadEntries(s.work.toSend, s.queue[0].toSend, QueueSends(s'.queue) + s.needSend, s'.work.toProcess);
    var e :| e in Line(s) && e.req == r;
    if e in s.queue[0].toSend { Awaited(c, s, e); }
    assert e in Line(s');
  }

  /** The entry that LoadMeta drops belongs to a request already reported. */
  lemma LoadLine(c: Config, s: System)
    requires ConfigOk(c) && Core(c, s) && s.queue != []
    ensures var s' := Step(c, s, LoadMeta);
            && LineOk(c, s')
            && s'.work.toSend == s.work.toSend + Kept(s'.work.toProcess, s.queue[0].toSend)
            && Keys(s'.work.toSend) <= Keys(s.work.toSend) + Keys(s.queue[0].toSend)
  {
    var s' := Step(c, s, LoadMeta);
    LoadShape(s, s', s.queue[0]);
    LoadEntries(s.work.toSend, s.queue[0].toSend, QueueSends(s'.queue) + s.needSend, s'.work.toProcess);
    assert forall x :: Reported(s', x) == Reported(s, x);
    forall r | DelayedIn(s', r) && !Reported(s', r) ensures r in Keys(Line(s')) {
      LoadDelayed(c, s, r);
    }
  }

  lemma LoadOrder(c: Config, s: System)
    requires ConfigOk(c) && Core(c, s) && s.queue != []
    ensures OrderOk(Step(c, s, LoadMeta)) && AbortsBeforeTimer(s.work, s.queue[0])
  {
    var s' := Step(c, s, LoadMeta);
    LoadLine(c, s);
    assert forall x :: Reported(s', x) == Reported(s, x);
    assert forall e | e in s.work.toSend :: e in Line(s);
  }

  lemma LoadProcess(c: Config, s: System)
    requires ConfigOk(c) && Core(c, s) && s.queue != []
    ensures ProcessOk(Step(c, s, LoadMeta))
  {
    var s' := Step(c, s, LoadMeta);
    LoadOrder(c, s);
    LoadLine(c, s);
    KeptIs(s'.work.toProcess, s.queue[0].toSend);
    assert forall x :: Reported(s', x) == Reported(s, x);
    forall r | Expected(s', r)
      ensures r in s'.work.toProcess || r in PendingBatch(s'.queue, s'.inBatch)
    {
      assert Expected(s, r);
    }
    forall r | r in Keys(s'.work.toSend)
      ensures r in s'.work.toProcess
    {
      if r in Keys(s.work.toSend) {
        assert r !in s.queue[0].notProcessed;
      }
    }
  }

  lemma LoadCore(c: Config, s: System)
    requires ConfigOk(c) && Core(c, s) && s.queue != []
    ensures Core(c, Step(c, s, LoadMeta)) && AbortsBeforeTimer(s.work, s.queue[0])
  {
    LoadLine(c, s);
    LoadOrder(c, s);
    LoadProcess(c, s);
  }

  // ----- expiry -----

  lemma {:induction false} DuePrefix(d: seq<Entry>, now: real)
    ensures forall e | e in d[..DueCount(d, now)] :: e.expires <= now
  {
    if d != [] && now >= d[0].expires {
      DuePrefix(d[1..], now);
      assert d[..DueCount(d, now)] == [d[0]] + d[1..][..DueCount(d[1..], now)];
    }
  }

  lemma PrefixOf(a: seq<Entry>, rest: seq<Entry>, n: nat)
    requires n <= |a|
    ensures (a + rest)[..n] == a[..n] && (a + rest)[n..] == a[n..] + rest
  {}

  lemma TimelineSplits(d: seq<Entry>, n: nat)
    requires Timeline(d) && n <= |d|
    ensures Timeline(d[n..]) && Keys(d) == Keys(d[..n]) + Keys(d[n..]) && Keys(d[..n]) !! Keys(d[n..])
  {
    assert d == d[..n] + d[n..];
    KeysOfConcat(d[..n], d[n..]);
    forall x | x in Keys(d[..n]) ensures x !in Keys(d[n..]) {
      var i :| 0 <= i < n && d[..n][i].req == x;
      forall k | 0 <= k < |d| - n ensures d[n..][k].req != x {
        assert d[n..][k] == d[n + k];
      }
    }
  }

  function Due(s: System): seq<Entry> {
    s.work.toSend[..DueCount(s.work.toSend, s.now)]
  }

  /** The due entries are the front of the line; the rest of the line stays. */
  lemma ExpireSplits(c: Config, s: System)
    requires ConfigOk(c)
    ensures var n := DueCount(s.work.toSend, s.now);
            Due(s) == Line(s)[..n] && Line(Step(c, s, ExpireDue)) == Line(s)[n..]
  {
    PrefixOf(s.work.toSend, QueueSends(s.queue) + s.needSend, DueCount(s.work.toSend, s.now));
  }

  lemma WorkTimeline(s: System)
    requires Timeline(Line(s))
    ensures Timeline(s.work.toSend)
  {
    var d := s.work.toSend;
    forall a, b | 0 <= a < b < |d|
      ensures d[a].expires <= d[b].expires && d[a].req != d[b].req
    {
      assert Line(s)[a] == d[a] && Line(s)[b] == d[b];
    }
  }

  lemma ExpireShape(c: Config, s: System)
    requires ConfigOk(c) && LineOk(c, s)
    ensures Timeline(Line(Step(c, s, ExpireDue)))
    ensures forall e | e in Line(Step(c, s, ExpireDue)) :: e in Line(s)
    ensures forall e | e in Due(s) :: e in Line(s) && e.expires <= s.now
  {
    DuePrefix(s.work.toSend, s.now);
    ExpireSplits(c, s);
    TimelineSplits(Line(s), DueCount(s.work.toSend, s.now));
  }

  /** What expiry does to the keys: the due ones leave the worker's entries and the line. */
  lemma ExpireKeys(c: Config, s: System)
    requires ConfigOk(c) && LineOk(c, s)
    ensures var s' := Step(c, s, ExpireDue);
            && Keys(s.work.toSend) == Keys(Due(s)) + Keys(s'.work.toSend) && Keys(Due(s)) !! Keys(s'.work.toSend)
            && Keys(Line(s)) == Keys(Due(s)) + Keys(Line(s')) && Keys(Due(s)) !! Keys(Line(s'))
  {
    var n := DueCount(s.work.toSend, s.now);
    ExpireSplits(c, s);
    WorkTimeline(s);
    TimelineSplits(Line(s), n);
    TimelineSplits(s.work.toSend, n);
  }

  lemma ReportsGrow(s: System, s': System, due: seq<Entry>)
    requires s'.reports == s.reports + ExpiryReports(due, s.now)
    ensures forall x :: Reported(s', x) <==> Reported(s, x) || x in Keys(due)
  {
    var more := ExpiryReports(due, s.now);
    forall x
      ensures Reported(s', x) <==> Reported(s, x) || x in Keys(due)
    {
      if Reported(s, x) {
        var i :| 0 <= i < |s.reports| && s.reports[i].req == x;
        assert s'.reports[i].req == x;
      }
      if x in Keys(due) {
        var i :| 0 <= i < |due| && due[i].req == x;
        assert s'.reports[|s.reports| + i] == more[i];
      }
      if Reported(s', x) {
        var i :| 0 <= i < |s'.reports| && s'.reports[i].req == x;
        if i >= |s.reports| {
          assert s'.reports[i] == more[i - |s.reports|];
          assert due[i - |s.reports|] in due;
        }
      }
    }
  }

  lemma ExpireReported(c: Config, s: System)
    requires ConfigOk(c)
    ensures forall x :: Reported(Step(c, s, ExpireDue), x) <==> Reported(s, x) || x in Keys(Due(s))
  {
    ReportsGrow(s, Step(c, s, ExpireDue), Due(s));
  }

  lemma ExpireLine(c: Config, s: System)
    requires ConfigOk(c) && LineOk(c, s) && Keys(s.work.toSend) <= s.work.toProcess
    ensures LineOk(c, Step(c, s, ExpireDue))
  {
    ExpireShape(c, s);
    ExpireKeys(c, s);
    ExpireReported(c, s);
  }

  lemma ExpireOrder(c: Config, s: System)
    requires ConfigOk(c) && LineOk(c, s) && OrderOk(s) && Keys(s.work.toSend) <= s.work.toProcess
    ensures OrderOk(Step(c, s, ExpireDue))
  {
    ExpireReported(c, s);
    ExpireKeys(c, s);
  }

  lemma WorkInLine(s: System)
    ensures Keys(s.work.toSend) <= Keys(Line(s))
  {
    LineKeys(s);
  }

  lemma ExpireProcess(c: Config, s: System)
    requires ConfigOk(c) && LineOk(c, s) && ProcessOk(s)
    ensures ProcessOk(Step(c, s, ExpireDue))
  {
    var s' := Step(c, s, ExpireDue);
    ExpireReported(c, s);
    ExpireKeys(c, s);
    WorkInLine(s');
    assert s'.work.toProcess == s.work.toProcess - Keys(Due(s));
    forall r | Expected(s', r)
      ensures r in s'.work.toProcess || r in PendingBatch(s'.queue, s'.inBatch)
    {
      assert Expected(s, r);
    }
  }

  lemma ExpireCore(c: Config, s: System)
    requires ConfigOk(c) && Core(c, s)
    ensures Core(c, Step(c, s, ExpireDue))
  {
    ExpireLine(c, s);
    ExpireOrder(c, s);
    ExpireProcess(c, s);
  }

  // ----- notifications -----

  lemma {:induction false} DropTimeline(a: seq<Entry>, d: seq<Entry>, r: ReqId, rest: seq<Entry>)
    requires Timeline(a + d + rest)
    ensures Timeline(a + Drop(d, r) + rest)
    decreases d
  {
    if d != [] {
      if d[0].req == r {
        Skip(a, d, rest);
        TimelineRemove(a, d[0], d[1..] + rest);
        DropTimeline(a, d[1..], r, rest);
      } else {
        Rotate(a, d, rest);
        DropTimeline(a + [d[0]], d[1..], r, rest);
        assert Drop(d, r)[1..] == Drop(d[1..], r);
        Rotate(a, Drop(d, r), rest);
      }
    }
  }

  lemma DropLine(s: System, s': System, r: ReqId)
    requires Timeline(Line(s)) && s'.work.toSend == Drop(s.work.toSend, r) && s'.queue == s.queue
        && s'.needSend == s.needSend
    ensures Timeline(Line(s')) && (forall e | e in Line(s') :: e in Line(s)) && Keys(Line(s)) <= Keys(Line(s')) + {r}
  {
    var rest := QueueSends(s.queue) + s.needSend;
    DropIs(s.work.toSend, r);
    assert [] + s.work.toSend + rest == Line(s);
    DropTimeline([], s.work.toSend, r, rest);
    assert [] + Drop(s.work.toSend, r) + rest == Line(s');
    LineKeys(s);
    LineKeys(s');
  }

  lemma OneMoreReport(s: System, s': System, p: Report)
    requires s'.reports == s.reports + [p]
    ensures forall x :: Reported(s', x) <==> Reported(s, x) || x == p.req
  {
    forall x
      ensures Reported(s', x) <==> Reported(s, x) || x == p.req
    {
      if Reported(s, x) {
        var i :| 0 <= i < |s.reports| && s.reports[i].req == x;
        assert s'.reports[i].req == x;
      }
      assert s'.reports[|s.reports|].req == p.req;
    }
  }

  /** Whatever request r a notification is credited to: if that releases r, it is reported. */
  lemma ReleaseCore(c: Config, s: System, s': System, r: ReqId, p: Report)
    requires ConfigOk(c) && Core(c, s) && s'.queue == s.queue && s'.needSend == s.needSend && s'.inBatch == s.inBatch
    requires s'.notProcessed == s.notProcessed && s'.fates == s.fates && s'.scheduled == s.scheduled && s'.now == s.now
    requires s'.work.toProcess == s.work.toProcess - {r} && s'.work.toSend == Drop(s.work.toSend, r)
    requires p.req == r && s'.reports == s.reports + [p]
    ensures Core(c, s')
  {
    OneMoreReport(s, s', p);
    DropLine(s, s', r);
    DropIs(s.work.toSend, r);
    assert forall x | Expected(s', x) :: Expected(s, x) && x != r;
  }

  lemma DeliverCore(c: Config, s: System, n: Note, pick: Option<ReqId>)
    requires ConfigOk(c) && Core(c, s)
    ensures Core(c, Delivered(c, s, n, pick))
  {
    var s' := Delivered(c, s, n, pick);
    if pick.Some? && Releases(s.work, pick.value, NeededFor(c, n.req)) {
      ReleaseCore(c, s, s', pick.value, Report(pick.value, false, s.now));
    } else {
      assert Line(s') == Line(s);
      SameCore(c, s, s');
    }
  }

  /** Every event keeps it. */
  lemma StepCore(c: Config, s: System, e: Event)
    requires ConfigOk(c) && Core(c, s) && Allowed(c, s, e)
    ensures Core(c, Step(c, s, e))
  {
    match e
    case Schedule(r) => ScheduleCore(c, s, r);
    case Finish(r, capped, blocks) => FinishCore(c, s, r, capped, blocks);
    case Build => BuildCore(c, s);
    case LoadMeta => LoadCore(c, s);
    case Tick(d) =>
      assert Line(Step(c, s, e)) == Line(s);
      SameCore(c, s, Step(c, s, e));
    case Send(n) =>
      assert Line(Step(c, s, e)) == Line(s);
      SameCore(c, s, Step(c, s, e));
    case Deliver(n, pick) => DeliverCore(c, s, n, pick);
    case ExpireDue => ExpireCore(c, s);
  }
}
