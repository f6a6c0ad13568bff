/** The producer's bookkeeping of requests whose KV blocks a consumer will read: what the scheduler
    hands to the worker, how the worker credits notifications, and when it releases blocks. */
module ProducerState {
  import opened Wrappers
  import opened TransferGeometry
  import opened RankSlices
  import Grid
  import Exact

  type ReqId = string

  // ----- insertion-ordered dictionary of expiration times -----

  datatype Entry = Entry(req: ReqId, expires: real)

  function Keys(d: seq<Entry>): set<ReqId> {
    set e | e in d :: e.req
  }

  ghost predicate NoDup(d: seq<Entry>) {
    forall i, j | 0 <= i < j < |d| :: d[i].req != d[j].req
  }

  /** Assignment to a key: in place if it is present, at the end otherwise. */
  function Put(d: seq<Entry>, r: ReqId, expires: real): seq<Entry> {
    if d == [] then [Entry(r, expires)]
    else if d[0].req == r then [Entry(r, expires)] + d[1..]
    else [d[0]] + Put(d[1..], r, expires)
  }

  function Drop(d: seq<Entry>, r: ReqId): seq<Entry> {
    if d == [] then [] else if d[0].req == r then Drop(d[1..], r) else [d[0]] + Drop(d[1..], r)
  }

  /** The expiration time of a key, if present. */
  function Lookup(d: seq<Entry>, r: ReqId): Option<real> {
    if d == [] then None else if d[0].req == r then Some(d[0].expires) else Lookup(d[1..], r)
  }

  lemma {:induction false} PutNew(d: seq<Entry>, r: ReqId, expires: real)
    requires r !in Keys(d)
    ensures Put(d, r, expires) == d + [Entry(r, expires)]
  {
    if d != [] {
      assert d == [d[0]] + d[1..];
      KeysCons(d);
      PutNew(d[1..], r, expires);
    }
  }

  lemma KeysCons(d: seq<Entry>)
    requires d != []
    ensures Keys(d) == {d[0].req} + Keys(d[1..])
  {
    assert d == [d[0]] + d[1..];
    assert forall e :: e in d <==> e == d[0] || e in d[1..];
  }

  lemma {:induction false} DropMembers(d: seq<Entry>, r: ReqId)
    ensures forall e :: e in Drop(d, r) <==> e in d && e.req != r
  {
    if d != [] {
      DropMembers(d[1..], r);
      assert forall e :: e in d <==> e == d[0] || e in d[1..];
    }
  }

  lemma {:induction false} DropNoDup(d: seq<Entry>, r: ReqId)
    requires NoDup(d)
    ensures NoDup(Drop(d, r))
  {
    if d != [] {
      DropNoDup(d[1..], r);
      DropMembers(d[1..], r);
      var rest := Drop(d[1..], r);
      forall i | 0 <= i < |rest| ensures rest[i].req != d[0].req {
        assert rest[i] in d[1..];
      }
    }
  }

  lemma DropIs(d: seq<Entry>, r: ReqId)
    ensures forall e :: e in Drop(d, r) <==> e in d && e.req != r
    ensures NoDup(d) ==> NoDup(Drop(d, r))
    ensures Keys(Drop(d, r)) == Keys(d) - {r}
  {
    DropMembers(d, r);
    if NoDup(d) { DropNoDup(d, r); }
  }

  // ----- request ids that embed a UUID -----

  predicate HexAt(u: string, i: nat)
    requires i < |u|
  {
    if i == 8 || i == 13 || i == 18 || i == 23 then u[i] == '-' else '0' <= u[i] <= '9' || 'a' <= u[i] <= 'f'
  }

  predicate IsUuid(u: string) {
    |u| == 36 && forall i | 0 <= i < 36 :: HexAt(u, i)
  }

  /** The first UUID in a string. */
  function FindUuid(s: string): Option<string> {
    if |s| < 36 then None else if IsUuid(s[..36]) then Some(s[..36]) else FindUuid(s[1..])
  }

  /** Substring test. */
  predicate Contains(s: string, u: string) {
    |u| <= |s| && (s[..|u|] == u || (s != "" && Contains(s[1..], u)))
  }

  lemma {:induction false} FoundIsContained(s: string)
    ensures FindUuid(s).Some? ==> IsUuid(FindUuid(s).value) && Contains(s, FindUuid(s).value)
  {
    if |s| >= 36 && !IsUuid(s[..36]) {
      FoundIsContained(s[1..]);
    }
  }

  predicate Hex(t: string) {
    forall k | 0 <= k < |t| :: '0' <= t[k] <= '9' || 'a' <= t[k] <= 'f'
  }

  lemma HexGroup(u: string, lo: nat, hi: nat)
    requires |u| == 36 && lo <= hi <= 36 && !(lo <= 8 < hi) && !(lo <= 13 < hi) && !(lo <= 18 < hi) && !(lo <= 23 < hi)
    ensures Hex(u[lo..hi]) <==> forall k | lo <= k < hi :: HexAt(u, k)
  {
    if Hex(u[lo..hi]) {
      forall k | lo <= k < hi ensures HexAt(u, k) {
        assert u[k] == u[lo..hi][k - lo];
      }
    }
    forall k | 0 <= k < hi - lo && HexAt(u, lo + k)
      ensures '0' <= u[lo..hi][k] <= '9' || 'a' <= u[lo..hi][k] <= 'f'
    {}
  }

  /** Five groups of lower-case hexadecimal digits. */
  lemma UuidIs(u: string)
    ensures IsUuid(u)
       <==> && |u| == 36 && u[8] == u[13] == u[18] == u[23] == '-'
            && Hex(u[0..8]) && Hex(u[9..13]) && Hex(u[14..18]) && Hex(u[19..23]) && Hex(u[24..36])
  {
    if |u| == 36 {
      HexGroup(u, 0, 8);
      HexGroup(u, 9, 13);
      HexGroup(u, 14, 18);
      HexGroup(u, 19, 23);
      HexGroup(u, 24, 36);
      assert forall k | k in {8, 13, 18, 23} :: HexAt(u, k) <==> u[k] == '-';
    }
  }

  /** u stands at position i of s. */
  predicate StandsAt(s: string, u: string, i: nat) {
    i + |u| <= |s| && s[i..i + |u|] == u
  }

  /** A UUID stands at position i of s. */
  predicate UuidAt(s: string, i: nat) {
    i + 36 <= |s| && IsUuid(s[i..i + 36])
  }

  lemma TailStands(s: string, u: string, i: nat)
    requires s != ""
    ensures StandsAt(s[1..], u, i) <==> StandsAt(s, u, i + 1)
    ensures UuidAt(s[1..], i) <==> UuidAt(s, i + 1)
  {
    if i + 1 + |u| <= |s| { assert s[1..][i..i + |u|] == s[i + 1..i + 1 + |u|]; }
    if i + 37 <= |s| { assert s[1..][i..i + 36] == s[i + 1..i + 37]; }
  }

  /** The search finds a UUID wherever one stands, and the first if there are several. */
  lemma {:induction false} FindUuidIs(s: string)
    ensures FindUuid(s) == None ==> forall i: nat :: !UuidAt(s, i)
    ensures FindUuid(s).Some? ==>
              exists i: nat :: UuidAt(s, i) && s[i..i + 36] == FindUuid(s).value
                && forall j: nat | j < i :: !UuidAt(s, j)
  {
    if |s| >= 36 {
      if UuidAt(s, 0) {
        assert s[0..0 + 36] == s[..36];
      } else {
        FindUuidIs(s[1..]);
        forall i: nat | i > 0 ensures UuidAt(s, i) == UuidAt(s[1..], i - 1) {
          TailStands(s, "", i - 1);
        }
        if FindUuid(s).Some? {
          var i: nat :| UuidAt(s[1..], i) && s[1..][i..i + 36] == FindUuid(s).value
                        && forall j: nat | j < i :: !UuidAt(s[1..], j);
          TailStands(s, "", i);
          assert UuidAt(s, i + 1) && s[i + 1..i + 1 + 36] == s[1..][i..i + 36];
        }
      }
    }
  }

  /** The substring test looks at every position. */
  lemma {:induction false} ContainsIs(s: string, u: string)
    ensures Contains(s, u) <==> exists i: nat :: StandsAt(s, u, i)
  {
    if |u| <= |s| {
      assert s[0..0 + |u|] == s[..|u|];
      assert StandsAt(s, u, 0) <==> s[..|u|] == u;
      if s != "" {
        ContainsIs(s[1..], u);
        if i: nat :| StandsAt(s, u, i) {
          if i > 0 { TailStands(s, u, i - 1); }
        }
        if i: nat :| StandsAt(s[1..], u, i) {
          TailStands(s, u, i);
        }
      }
    }
  }

  ghost predicate SharesUuid(a: ReqId, b: ReqId) {
    exists u {:trigger IsUuid(u)} :: IsUuid(u) && Contains(a, u) && Contains(b, u)
  }

  // ----- the worker's state -----

  /** `_reqs_to_process`, `_reqs_to_send`, `consumer_notification_counts_by_req`. */
  datatype Work = Work(toProcess: set<ReqId>, toSend: seq<Entry>, counts: map<ReqId, nat>)

  /** The part of one step's metadata that concerns sends. */
  datatype Meta = Meta(toSend: seq<Entry>, inBatch: set<ReqId>, notProcessed: set<ReqId>)

  /** Entries are only set for requests still to be processed. */
  function AddSends(toProcess: set<ReqId>, toSend: seq<Entry>, items: seq<Entry>): seq<Entry>
    decreases items
  {
    if items == [] then toSend
    else
      var e := items[0];
      AddSends(toProcess, if e.req in toProcess then Put(toSend, e.req, e.expires) else toSend, items[1..])
  }

  /** The last part of `start_load_kv`. */
  function Load(w: Work, m: Meta): Work {
    var toProcess := w.toProcess + m.inBatch - m.notProcessed;
    Work(toProcess, AddSends(toProcess, w.toSend, m.toSend), w.counts)
  }

  /** `start_load_kv` asserts that an abort never follows an expiry timer. */
  predicate AbortsBeforeTimer(w: Work, m: Meta) {
    forall r | r in m.notProcessed :: r !in Keys(w.toSend)
  }

  predicate Live(w: Work, r: ReqId) {
    r in Keys(w.toSend) || r in w.toProcess
  }

  function Matches(w: Work, u: string): set<ReqId> {
    set r | r in Keys(w.toSend) + w.toProcess && Contains(r, u)
  }

  /** Sort key of the slow path: requests without a timer come last. */
  predicate Older(w: Work, a: ReqId, b: ReqId) {
    match Lookup(w.toSend, b)
    case None => true
    case Some(t) => Lookup(w.toSend, a).Some? && Lookup(w.toSend, a).value <= t
  }

  /** Which request a notification is credited to: the request itself, else an oldest live request with
      the same UUID, else none. */
  predicate Resolves(w: Work, tag: string, pick: Option<ReqId>) {
    if Live(w, tag) then pick == Some(tag)
    else match FindUuid(tag)
      case None => pick == None
      case Some(u) =>
        if Matches(w, u) == {} then pick == None
        else pick.Some? && pick.value in Matches(w, u) && forall r | r in Matches(w, u) :: Older(w, pick.value, r)
  }

  lemma {:induction false} LookupIs(d: seq<Entry>, r: ReqId, t: real)
    requires NoDup(d)
    ensures Lookup(d, r) == Some(t) <==> Entry(r, t) in d
  {
    if d != [] {
      assert d == [d[0]] + d[1..];
      LookupIs(d[1..], r, t);
    }
  }

  /** A notification is credited to the request it names, if that is live; otherwise to a live request that
      contains its first UUID, and among those, if any has a timer, to one whose timer runs out first. */
  lemma PickIsOldest(w: Work, tag: string, pick: Option<ReqId>)
    requires NoDup(w.toSend) && Resolves(w, tag, pick)
    ensures Live(w, tag) ==> pick == Some(tag)
    ensures !Live(w, tag) ==>
              (pick.Some? <==> FindUuid(tag).Some? && exists r :: Live(w, r) && Contains(r, FindUuid(tag).value))
    ensures !Live(w, tag) && pick.Some? ==>
              && FindUuid(tag).Some? && Live(w, pick.value) && Contains(pick.value, FindUuid(tag).value)
              && forall e | e in w.toSend && Contains(e.req, FindUuid(tag).value) ::
                   exists t :: t <= e.expires && Entry(pick.value, t) in w.toSend
  {
    if !Live(w, tag) && FindUuid(tag).Some? {
      var u := FindUuid(tag).value;
      if r :| Live(w, r) && Contains(r, u) {
        assert r in Matches(w, u);
      }
      if pick.Some? {
        assert pick.value in Matches(w, u);
        assert Live(w, pick.value) && Contains(pick.value, u);
        forall e | e in w.toSend && Contains(e.req, u)
          ensures exists t :: t <= e.expires && Entry(pick.value, t) in w.toSend
        {
          LookupIs(w.toSend, e.req, e.expires);
          assert e.req in Matches(w, u) && Older(w, pick.value, e.req);
          LookupIs(w.toSend, pick.value, Lookup(w.toSend, pick.value).value);
        }
      }
    }
  }

  /** Reads per producer rank to wait for, from the consumer's world size. */
  function Required(consumers: nat, world: nat): nat
    requires consumers > 0 && world > 0
  {
    RatioNonzero(world, consumers);
    if consumers > world then -TpRatio(world, consumers) else 1
  }

  function CountOf(w: Work, r: ReqId): nat {
    if r in w.counts then w.counts[r] else 0
  }

  /** One more notification for r: count it, and release r when it is the last one needed. */
  predicate Releases(w: Work, r: ReqId, needed: nat) {
    CountOf(w, r) + 1 == needed
  }

  function Credit(w: Work, r: ReqId, needed: nat): Work {
    if Releases(w, r, needed) then Work(w.toProcess - {r}, Drop(w.toSend, r), w.counts - {r})
    else w.(counts := w.counts[r := CountOf(w, r) + 1])
  }

  /** How many entries from the front are due; the loop stops at the first that is not. */
  function DueCount(d: seq<Entry>, now: real): (n: nat)
    ensures n <= |d|
  {
    if d == [] || now < d[0].expires then 0 else 1 + DueCount(d[1..], now)
  }

  function Expire(w: Work, now: real): Work {
    var due := w.toSend[..DueCount(w.toSend, now)];
    Work(w.toProcess - Keys(due), w.toSend[DueCount(w.toSend, now)..], w.counts - Keys(due))
  }

  // ----- early exit equals a full scan -----

  ghost predicate Sorted(d: seq<Entry>) {
    forall i, j | 0 <= i < j < |d| :: d[i].expires <= d[j].expires
  }

  function NotDue(d: seq<Entry>, now: real): seq<Entry> {
    if d == [] then [] else (if now < d[0].expires then [d[0]] else []) + NotDue(d[1..], now)
  }

  lemma {:induction false} AllLater(d: seq<Entry>, now: real)
    requires forall e | e in d :: now < e.expires
    ensures NotDue(d, now) == d
  {
    if d != [] {
      assert d[0] in d;
      AllLater(d[1..], now);
    }
  }

  lemma DueSplit(d: seq<Entry>, now: real)
    requires d != [] && d[0].expires <= now
    ensures var n := DueCount(d[1..], now);
            d[..DueCount(d, now)] == [d[0]] + d[1..][..n] && d[DueCount(d, now)..] == d[1..][n..]
  {}

  /** With entries in order of expiry, stopping at the first unexpired one releases exactly the requests
      whose expiry is not after now and keeps exactly the others. */
  lemma {:induction false} EarlyExitIsFullScan(d: seq<Entry>, now: real)
    requires Sorted(d)
    ensures d[DueCount(d, now)..] == NotDue(d, now)
    ensures forall e :: e in d[..DueCount(d, now)] <==> e in d && e.expires <= now
  {
    if d == [] {
    } else if now < d[0].expires {
      AllLater(d, now);
    } else {
      EarlyExitIsFullScan(d[1..], now);
      DueSplit(d, now);
      assert d == [d[0]] + d[1..];
    }
  }

  // ----- how many consumer ranks read from this producer rank -----

  /** Either size divides the other, as the topology asserts. */
  predicate TpSizesDivide(a: nat, b: nat) {
    a > 0 && b > 0 && (a % b == 0 || b % a == 0)
  }

  /** The consumer ranks that target producer rank p. */
  function Readers(consumers: nat, world: nat, p: nat): set<nat>
    requires consumers > 0 && world > 0
  {
    set j: nat | j < consumers && Targets(consumers, world, j, p)
  }

  predicate Targets(consumers: nat, world: nat, j: nat, p: nat)
    requires consumers > 0 && world > 0
  {
    RatioNonzero(consumers, world);
    p in TargetRanks(j, TpRatio(consumers, world))
  }

  function Interval(lo: nat, n: nat): (s: set<nat>)
    ensures |s| == n && forall j :: j in s <==> lo <= j < lo + n
  {
    if n == 0 then {} else Interval(lo, n - 1) + {lo + n - 1}
  }

  lemma TargetsWide(consumers: nat, world: nat, j: nat, p: nat, t: nat)
    requires world > 0 && t > 0 && consumers == world * t && j < consumers && p < world
    ensures Targets(consumers, world, j, p) <==> p * t <= j < p * t + t
  {
    Wide(world, t);
    assert j == (j / t) * t + j % t;
    SameRow(j / t, j % t, p, t);
  }

  lemma SameRow(q: nat, r: nat, p: nat, t: nat)
    requires r < t
    ensures q == p <==> p * t <= q * t + r < p * t + t
  {
    Grid.LaterRow(p, q, t);
    Grid.LaterRow(q, p, t);
  }

  lemma Wide(world: nat, t: nat)
    requires world > 0 && t > 0
    ensures TpRatio(world * t, world) == t
  {
    Exact.Quotient(world, t);
    Grid.LaterRow(1, t, world);
  }

  lemma Narrow(consumers: nat, world: nat, t: nat)
    requires consumers > 0 && t > 1 && world == consumers * t
    ensures consumers < world && TpRatio(consumers, world) == -(t as int)
  {
    Exact.Quotient(consumers, t);
    Grid.LaterRow(2, t, consumers);
  }

  lemma NarrowRanks(j: nat, t: nat)
    requires t > 0
    ensures var ranks := TargetRanks(j, -(t as int)); |ranks| == t && forall i | 0 <= i < t :: ranks[i] == j * t + i
  {}

  lemma InRange(j: nat, p: nat, t: nat)
    requires t > 1
    ensures p in TargetRanks(j, -(t as int)) <==> j == p / t
  {
    NarrowRanks(j, t);
    var ranks, q, r := TargetRanks(j, -(t as int)), p / t, p % t;
    assert p == q * t + r;
    if j == q {
      assert ranks[r] == p;
    }
    if p in ranks {
      var i :| 0 <= i < t && ranks[i] == p;
      Grid.Unique(j, i, q, r, t);
    }
  }

  lemma TargetsNarrow(consumers: nat, world: nat, j: nat, p: nat, t: nat)
    requires consumers > 0 && world > 0 && t > 1 && world == consumers * t
    ensures Targets(consumers, world, j, p) <==> j == p / t
  {
    Narrow(consumers, world, t);
    InRange(j, p, t);
  }

  lemma WideReaders(consumers: nat, world: nat, p: nat, t: nat)
    requires world > 0 && t > 0 && consumers == world * t && p < world && consumers > 0
    ensures Readers(consumers, world, p) == Interval(p * t, t)
  {
    forall j: nat | j < consumers
      ensures Targets(consumers, world, j, p) <==> p * t <= j < p * t + t
    {
      TargetsWide(consumers, world, j, p, t);
    }
    Grid.LaterRow(p, world, t);
  }

  lemma RequiredWide(consumers: nat, world: nat, t: nat)
    requires world > 0 && t > 0 && consumers == world * t && consumers > 0
    ensures Required(consumers, world) == t
  {
    if t > 1 {
      Narrow(world, consumers, t);
    }
  }

  lemma RowBelow(p: nat, t: nat, rows: nat)
    requires t > 0 && p < rows * t
    ensures p / t < rows
  {
    assert p == (p / t) * t + p % t;
    Grid.LaterRow(rows, p / t, t);
  }

  lemma RequiredNarrow(consumers: nat, world: nat, t: nat)
    requires consumers > 0 && t > 1 && world == consumers * t
    ensures world > 0 && Required(consumers, world) == 1
  {
    Grid.LaterRow(2, t, consumers);
  }

  lemma NarrowReaders(consumers: nat, world: nat, p: nat, t: nat)
    requires consumers > 0 && t > 1 && world == consumers * t && p < world
    ensures Readers(consumers, world, p) == {p / t}
  {
    forall j: nat | j < consumers
      ensures Targets(consumers, world, j, p) <==> j == p / t
    {
      TargetsNarrow(consumers, world, j, p, t);
    }
    RowBelow(p, t, consumers);
  }

  /** The count a producer rank waits for is the number of consumer ranks that read from it. */
  lemma WaitsForEveryReader(consumers: nat, world: nat, p: nat)
    requires TpSizesDivide(consumers, world) && p < world
    ensures |Readers(consumers, world, p)| == Required(consumers, world) > 0
  {
    if consumers % world == 0 {
      var t := consumers / world;
      WideReaders(consumers, world, p, t);
      RequiredWide(consumers, world, t);
    } else {
      var t := world / consumers;
      Grid.LaterRow(t, 1, consumers);
      NarrowReaders(consumers, world, p, t);
      RequiredNarrow(consumers, world, t);
    }
  }
}
