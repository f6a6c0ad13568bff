/** Running the partitions by the signatures that the pass returns. */
module PartitionRuns {
  import opened PartitionSignature

  // ----- availability -----

  /** The buffers alive after partition k, run on those alive before it. */
  function Advance(g: Graph, ps: seq<Partition>, alive: set<Name>, k: nat): set<Name>
    requires Resolved(g) && k < |ps|
  {
    (alive - Deallocates(g, ps[k])) + Delivers(g, ps[k], Unmet(g, ps, k + 1))
  }

  /** From partition k on: every declared input is alive when its partition starts, and every graph output
      at the end. */
  ghost predicate RunsFrom(g: Graph, ps: seq<Partition>, alive: set<Name>, k: nat)
    requires Resolved(g) && k <= |ps|
    decreases |ps| - k
  {
    if k == |ps| then g.outputs <= alive
    else Inputs(g, ps[k]) <= alive && RunsFrom(g, ps, Advance(g, ps, alive, k), k + 1)
  }

  /** Partition k frees nothing that is needed later and not returned by it. */
  predicate Harmless(g: Graph, ps: seq<Partition>, k: nat)
    requires Resolved(g) && k < |ps|
  {
    Deallocates(g, ps[k]) !! (Unmet(g, ps, k + 1) - Returns(g, ps[k], Unmet(g, ps, k + 1)))
  }

  /** Nothing needed later and returned by a partition is a NoneLayout buffer, which is never passed on. */
  ghost predicate NoneUnneeded(g: Graph, ps: seq<Partition>)
    requires Resolved(g)
  {
    forall k | 0 <= k < |ps| ::
      Unmet(g, ps, k + 1) * Returns(g, ps[k], Unmet(g, ps, k + 1)) <= Delivers(g, ps[k], Unmet(g, ps, k + 1))
  }

  lemma AdvanceIff(alive: set<Name>, inputs: set<Name>, freed: set<Name>, returned: set<Name>, delivered: set<Name>,
                   unmet: set<Name>)
    requires delivered <= returned && unmet * returned <= delivered
    ensures inputs <= alive && unmet <= (alive - freed) + delivered
            <==> inputs + (unmet - returned) <= alive && freed !! (unmet - returned)
  {}

  ghost predicate HarmlessFrom(g: Graph, ps: seq<Partition>, k: nat)
    requires Resolved(g)
  {
    forall j | k <= j < |ps| :: Harmless(g, ps, j)
  }

  lemma HarmlessSplits(g: Graph, ps: seq<Partition>, k: nat)
    requires Resolved(g) && k < |ps|
    ensures HarmlessFrom(g, ps, k) <==> Harmless(g, ps, k) && HarmlessFrom(g, ps, k + 1)
  {}

  lemma RunStep(g: Graph, ps: seq<Partition>, alive: set<Name>, k: nat)
    requires Resolved(g) && NoneUnneeded(g, ps) && k < |ps|
    ensures Inputs(g, ps[k]) <= alive && Unmet(g, ps, k + 1) <= Advance(g, ps, alive, k)
            <==> Unmet(g, ps, k) <= alive && Harmless(g, ps, k)
  {
    var unmet := Unmet(g, ps, k + 1);
    assert unmet * Returns(g, ps[k], unmet) <= Delivers(g, ps[k], unmet);
    AdvanceIff(alive, Inputs(g, ps[k]), Deallocates(g, ps[k]), Returns(g, ps[k], unmet), Delivers(g, ps[k], unmet),
               unmet);
  }

  lemma {:induction false} RunsWhenNoneUnneeded(g: Graph, ps: seq<Partition>, alive: set<Name>, k: nat)
    requires Resolved(g) && NoneUnneeded(g, ps) && k <= |ps|
    ensures RunsFrom(g, ps, alive, k) <==> Unmet(g, ps, k) <= alive && HarmlessFrom(g, ps, k)
    decreases |ps| - k
  {
    if k < |ps| {
      var next := Advance(g, ps, alive, k);
      var now, later := Inputs(g, ps[k]) <= alive, RunsFrom(g, ps, next, k + 1);
      var holds := Unmet(g, ps, k + 1) <= next;
      RunStep(g, ps, alive, k);
      RunsWhenNoneUnneeded(g, ps, next, k + 1);
      HarmlessSplits(g, ps, k);
      assert RunsFrom(g, ps, alive, k) == (now && later);
      assert later == (holds && HarmlessFrom(g, ps, k + 1));
    }
  }

  // ----- NoneLayout buffers -----

  /** None of the names is a NoneLayout buffer, which is never allocated. */
  predicate Allocated(g: Graph, s: set<Name>)
    requires Resolved(g)
  {
    forall x | x in s :: !IsNoneLayout(g, x)
  }

  /** No partition from k on takes in a NoneLayout buffer, and the graph returns none. */
  ghost predicate NoneUndeclared(g: Graph, ps: seq<Partition>, k: nat)
    requires Resolved(g)
  {
    Allocated(g, g.outputs) && forall j | k <= j < |ps| :: Allocated(g, Inputs(g, ps[j]))
  }

  lemma {:induction false} RunsDeclareNoNone(g: Graph, ps: seq<Partition>, alive: set<Name>, k: nat)
    requires Resolved(g) && k <= |ps| && Allocated(g, alive) && RunsFrom(g, ps, alive, k)
    ensures NoneUndeclared(g, ps, k)
    decreases |ps| - k
  {
    if k < |ps| {
      RunsDeclareNoNone(g, ps, Advance(g, ps, alive, k), k + 1);
    }
  }

  lemma {:induction false} UnmetAllocated(g: Graph, ps: seq<Partition>, k: nat)
    requires Resolved(g) && k <= |ps| && NoneUndeclared(g, ps, k)
    ensures Allocated(g, Unmet(g, ps, k))
    decreases |ps| - k
  {
    if k < |ps| {
      UnmetAllocated(g, ps, k + 1);
      assert Allocated(g, Inputs(g, ps[k]));
    }
  }

  lemma NoneUndeclaredIsUnneeded(g: Graph, ps: seq<Partition>)
    requires Resolved(g) && NoneUndeclared(g, ps, 0)
    ensures NoneUnneeded(g, ps)
  {
    forall k | 0 <= k < |ps|
      ensures Unmet(g, ps, k + 1) * Returns(g, ps[k], Unmet(g, ps, k + 1)) <= Delivers(g, ps[k], Unmet(g, ps, k + 1))
    {
      UnmetAllocated(g, ps, k + 1);
    }
  }

  // ----- running by the signatures -----

  /** Names that a partition uses and that are neither buffers nor constants: no signature passes them. */
  function Unlisted(g: Graph, p: Partition): set<Name>
    requires Resolved(g)
  {
    Inputs(g, p) - g.named - g.constants
  }

  /** What has to be alive when a partition with this signature starts. */
  function Declared(g: Graph, p: Partition, sig: Signature): set<Name>
    requires Resolved(g)
  {
    sig.inputs + sig.constants + Unlisted(g, p)
  }

  /** The inputs that the signature flags as freed inside. */
  function Freed(sig: Signature): set<Name> {
    set x | x in sig.deallocated && sig.deallocated[x]
  }

  /** Running partitions k, ... by their signatures: what each declares is alive when it starts, its freed
      inputs are gone afterwards, what it returns is alive, and in the end so is every graph output. */
  ghost predicate RunsBy(g: Graph, ps: seq<Partition>, sigs: seq<Signature>, alive: set<Name>, k: nat)
    requires Resolved(g) && k <= |ps| == |sigs|
    decreases |ps| - k
  {
    if k == |ps| then g.outputs <= alive
    else
      && Declared(g, ps[k], sigs[k]) <= alive
      && RunsBy(g, ps, sigs, (alive - Freed(sigs[k])) + sigs[k].returned, k + 1)
  }

  /** What the signature of partition k passes, frees and returns. */
  lemma SignatureSets(g: Graph, ps: seq<Partition>, skips: seq<bool>, sigs: seq<Signature>, k: nat)
    requires Resolved(g) && Signed(g, ps, skips, sigs) && k < |ps|
    ensures Declared(g, ps[k], sigs[k]) == Inputs(g, ps[k])
    ensures Freed(sigs[k]) == Deallocates(g, ps[k])
    ensures sigs[k].returned == Delivers(g, ps[k], Unmet(g, ps, k + 1))
  {
    assert sigs[k] == SignatureOf(g, ps, skips, k);
  }

  lemma SameStep(g: Graph, ps: seq<Partition>, skips: seq<bool>, sigs: seq<Signature>, alive: set<Name>, k: nat)
    requires Resolved(g) && Signed(g, ps, skips, sigs) && k < |ps|
    ensures Declared(g, ps[k], sigs[k]) == Inputs(g, ps[k])
    ensures (alive - Freed(sigs[k])) + sigs[k].returned == Advance(g, ps, alive, k)
  {
    SignatureSets(g, ps, skips, sigs, k);
  }

  lemma {:induction false} RunsByIsRunsFrom(g: Graph, ps: seq<Partition>, skips: seq<bool>, sigs: seq<Signature>,
                                            alive: set<Name>, k: nat)
    requires Resolved(g) && Signed(g, ps, skips, sigs) && k <= |ps|
    ensures RunsBy(g, ps, sigs, alive, k) <==> RunsFrom(g, ps, alive, k)
    decreases |ps| - k
  {
    if k < |ps| {
      SameStep(g, ps, skips, sigs, alive, k);
      var next, now := Advance(g, ps, alive, k), Inputs(g, ps[k]) <= alive;
      RunsByIsRunsFrom(g, ps, skips, sigs, next, k + 1);
      assert RunsBy(g, ps, sigs, alive, k) == (now && RunsBy(g, ps, sigs, next, k + 1));
      assert RunsFrom(g, ps, alive, k) == (now && RunsFrom(g, ps, next, k + 1));
    }
  }

  /** From allocated buffers, the partitions run in order by their signatures exactly when every residual name
      is alive at the start, no partition frees a buffer needed later, and no NoneLayout buffer is a declared
      input or a graph output. */
  lemma RunsIff(g: Graph, ps: seq<Partition>, skips: seq<bool>, sigs: seq<Signature>, alive: set<Name>)
    requires Resolved(g) && Signed(g, ps, skips, sigs) && Allocated(g, alive)
    ensures RunsBy(g, ps, sigs, alive, 0)
            <==> Unmet(g, ps, 0) <= alive && HarmlessFrom(g, ps, 0) && NoneUndeclared(g, ps, 0)
  {
    RunsByIsRunsFrom(g, ps, skips, sigs, alive, 0);
    if RunsFrom(g, ps, alive, 0) {
      RunsDeclareNoNone(g, ps, alive, 0);
    }
    if NoneUndeclared(g, ps, 0) {
      NoneUndeclaredIsUnneeded(g, ps);
      RunsWhenNoneUnneeded(g, ps, alive, 0);
    }
  }

  // ----- what is needed -----

  /** `x` is an input of partition j, or a graph output. */
  predicate UsedAt(g: Graph, ps: seq<Partition>, j: nat, x: Name)
    requires Resolved(g) && j <= |ps|
  {
    if j == |ps| then x in g.outputs else x in Inputs(g, ps[j])
  }

  predicate ReturnedAt(g: Graph, ps: seq<Partition>, i: nat, x: Name)
    requires Resolved(g) && i < |ps|
  {
    x in Returns(g, ps[i], Unmet(g, ps, i + 1))
  }

  /** `x` is used at j and not returned by any partition from k up to there. */
  ghost predicate NeededFrom(g: Graph, ps: seq<Partition>, k: nat, j: nat, x: Name)
    requires Resolved(g)
  {
    k <= j <= |ps| && UsedAt(g, ps, j, x) && forall i | k <= i < j :: !ReturnedAt(g, ps, i, x)
  }

  ghost predicate Needed(g: Graph, ps: seq<Partition>, k: nat, x: Name)
    requires Resolved(g)
  {
    exists j: nat :: NeededFrom(g, ps, k, j, x)
  }

  /** The backward pass computes the forward notion of need. */
  lemma {:induction false} UnmetIsNeeded(g: Graph, ps: seq<Partition>, k: nat, x: Name)
    requires Resolved(g) && k <= |ps|
    ensures x in Unmet(g, ps, k) <==> Needed(g, ps, k, x)
    decreases |ps| - k
  {
    if k == |ps| {
      if x in g.outputs { assert NeededFrom(g, ps, k, k, x); }
    } else {
      UnmetIsNeeded(g, ps, k + 1, x);
      if x in Inputs(g, ps[k]) {
        assert NeededFrom(g, ps, k, k, x);
      } else if x in Unmet(g, ps, k) {
        var j: nat :| NeededFrom(g, ps, k + 1, j, x);
        assert NeededFrom(g, ps, k, j, x);
      }
      if j: nat :| NeededFrom(g, ps, k, j, x) {
        if j > k {
          assert !ReturnedAt(g, ps, k, x);
          assert NeededFrom(g, ps, k + 1, j, x);
        }
      }
    }
  }

  /** A buffer that is NoneLayout, unless it is a mutation output of a buffer that is not. */
  lemma NoneLayoutIs(g: Graph, x: Name)
    requires Resolved(g)
    ensures IsNoneLayout(g, x)
            <==> x in g.bufs && g.bufs[x].none
                 && (g.bufs[x].mutation && x in g.mutates ==> g.mutates[x] in g.bufs && g.bufs[g.mutates[x]].none)
  {
    if x in g.mutates {
      assert IsNoneLayout(g, g.mutates[x]) <==> g.mutates[x] in g.bufs && g.bufs[g.mutates[x]].none;
    }
  }

  /** Partition k's signature in terms of its nodes. It is called with the named buffers that some node uses
      last or touches and none defines, by real name and without NoneLayout buffers; it frees those that some
      node uses last; and it returns, unless NoneLayout, what it defines that is needed later, and every input
      that it does not free. */
  lemma SignatureIs(g: Graph, ps: seq<Partition>, skips: seq<bool>, sigs: seq<Signature>, k: nat, x: Name)
    requires Resolved(g) && Signed(g, ps, skips, sigs) && k < |ps|
    ensures x in sigs[k].inputs + sigs[k].constants
            <==> x in g.named + g.constants
                 && (IsExtra(g, ps[k], x)
                     || exists y :: TouchedIn(ps[k], y) && !DefinedIn(ps[k], y) && !IsNoneLayout(g, y) && Real(g, y, x))
    ensures x in sigs[k].inputs <==> x in sigs[k].inputs + sigs[k].constants && x in g.named
    ensures x in sigs[k].constants <==> x in sigs[k].inputs + sigs[k].constants && x in g.constants
    ensures x in sigs[k].deallocated <==> x in sigs[k].inputs
    ensures x in sigs[k].inputs ==> (sigs[k].deallocated[x] <==> LastUsedIn(ps[k], x))
    ensures x in sigs[k].returned
            <==> !IsNoneLayout(g, x)
                 && ((x in sigs[k].inputs && !sigs[k].deallocated[x])
                     || exists y :: DefinedIn(ps[k], y) && Needed(g, ps, k + 1, y) && Real(g, y, x))
    ensures sigs[k].skip == skips[k]
  {
    InputsAre(g, ps[k], x);
    ByNode(ps[k], x);
    ReturnsAre(g, ps, k, x);
    assert sigs[k] == SignatureOf(g, ps, skips, k);
  }

  /** The pass fails on partition k exactly if it has to return a buffer without a node: one that is not
      NoneLayout, and that it defines, under any alias, and some later partition needs. */
  lemma NodesKnownIff(g: Graph, ps: seq<Partition>, k: nat)
    requires Resolved(g) && k < |ps|
    ensures NodesKnown(g, ps, k)
       <==> forall x, y | DefinedIn(ps[k], y) && Needed(g, ps, k + 1, y) && Real(g, y, x) && !IsNoneLayout(g, x) ::
              x in g.named
  {
    forall x ensures x in Delivers(g, ps[k], Unmet(g, ps, k + 1)) - g.named
       <==> x !in g.named && !IsNoneLayout(g, x)
            && exists y :: DefinedIn(ps[k], y) && Needed(g, ps, k + 1, y) && Real(g, y, x)
    {
      ReturnsAre(g, ps, k, x);
    }
  }

  /** `y` is `x` or an alias of it. */
  predicate Real(g: Graph, y: Name, x: Name) {
    if y in g.mutates then g.mutates[y] == x else y == x
  }

  /** A named buffer that the partition uses last and does not define. */
  predicate IsExtra(g: Graph, p: Partition, x: Name) {
    x in g.named && LastUsedIn(p, x) && !DefinedIn(p, x)
  }

  lemma InputsAre(g: Graph, p: Partition, x: Name)
    requires Resolved(g)
    ensures x in Inputs(g, p)
            <==> IsExtra(g, p, x)
                 || exists y :: TouchedIn(p, y) && !DefinedIn(p, y) && !IsNoneLayout(g, y) && Real(g, y, x)
  {
    ByNode(p, x);
    if x in Reads(g, p) {
      var y :| y in Touched(p) && !IsNoneLayout(g, y) && y !in Outputs(p) && RealName(g, y) == x;
      ByNode(p, y);
      assert Real(g, y, x);
    }
    if y :| TouchedIn(p, y) && !DefinedIn(p, y) && !IsNoneLayout(g, y) && Real(g, y, x) {
      ByNode(p, y);
      assert RealName(g, y) == x;
    }
  }

  lemma ReturnsAre(g: Graph, ps: seq<Partition>, k: nat, x: Name)
    requires Resolved(g) && k < |ps|
    ensures x in Returns(g, ps[k], Unmet(g, ps, k + 1))
            <==> (x in Inputs(g, ps[k]) * g.named && x !in Frees(ps[k]))
                 || exists y :: DefinedIn(ps[k], y) && Needed(g, ps, k + 1, y) && Real(g, y, x)
  {
    var p, unmet := ps[k], Unmet(g, ps, k + 1);
    forall y ensures (y in Outputs(p) <==> DefinedIn(p, y)) && (y in unmet <==> Needed(g, ps, k + 1, y)) {
      ByNode(p, y);
      UnmetIsNeeded(g, ps, k + 1, y);
    }
    forall y | y in Inputs(g, p) && y !in Frees(p) ensures y !in g.mutates {
      if y in g.mutates { InputAliasesAreFreed(g, p, y); }
    }
    if x in Returns(g, p, unmet) {
      var y :| y in Outputs(p) * unmet + (Inputs(g, p) * g.named - Frees(p)) && RealName(g, y) == x;
      assert Real(g, y, x);
    }
    if x in Inputs(g, p) * g.named && x !in Frees(p) {
      assert RealName(g, x) == x;
    }
    if y :| DefinedIn(p, y) && Needed(g, ps, k + 1, y) && Real(g, y, x) {
      assert RealName(g, y) == x;
    }
  }

  /** Partition k defines `x`, or an alias of it, that is still needed afterwards. */
  ghost predicate RenewedAt(g: Graph, ps: seq<Partition>, k: nat, x: Name)
    requires Resolved(g) && k < |ps|
  {
    exists y :: y in Outputs(ps[k]) && Needed(g, ps, k + 1, y) && RealName(g, y) == x
  }

  /** Only a freed input can be an alias. */
  lemma InputAliasesAreFreed(g: Graph, p: Partition, x: Name)
    requires Resolved(g) && x in Inputs(g, p) && x in g.mutates
    ensures x in Frees(p)
  {}

  /** Harmless means: a freed buffer that is used by a later partition, or is a graph output, and not
      returned in between, is defined anew by the partition that frees it. */
  lemma HarmlessIff(g: Graph, ps: seq<Partition>, k: nat)
    requires Resolved(g) && k < |ps|
    ensures Harmless(g, ps, k)
            <==> forall x | x in Deallocates(g, ps[k]) && Needed(g, ps, k + 1, x) :: RenewedAt(g, ps, k, x)
  {
    forall x | x in Deallocates(g, ps[k])
      ensures x in Returns(g, ps[k], Unmet(g, ps, k + 1)) <==> RenewedAt(g, ps, k, x)
      ensures x in Unmet(g, ps, k + 1) <==> Needed(g, ps, k + 1, x)
    {
      UnmetIsNeeded(g, ps, k + 1, x);
      FreedReturns(g, ps, k, x);
    }
  }

  lemma FreedReturns(g: Graph, ps: seq<Partition>, k: nat, x: Name)
    requires Resolved(g) && k < |ps| && x in Deallocates(g, ps[k])
    ensures x in Returns(g, ps[k], Unmet(g, ps, k + 1)) <==> RenewedAt(g, ps, k, x)
  {
    var p, unmet := ps[k], Unmet(g, ps, k + 1);
    if x in Returns(g, p, unmet) {
      var y :| y in Outputs(p) * unmet + (Inputs(g, p) * g.named - Frees(p)) && RealName(g, y) == x;
      if y in Inputs(g, p) * g.named - Frees(p) && y in g.mutates {
        InputAliasesAreFreed(g, p, y);
      }
      UnmetIsNeeded(g, ps, k + 1, y);
    }
    if RenewedAt(g, ps, k, x) {
      var y :| y in Outputs(p) && Needed(g, ps, k + 1, y) && RealName(g, y) == x;
      UnmetIsNeeded(g, ps, k + 1, y);
    }
  }

  /** A NoneLayout graph output counts as returned although it is never handed over. */
  lemma NoneOutputIsLost()
    ensures var g := Graph({"n"}, map["n" := Buf(true, false)], map[], {}, {"n"});
            var ps: seq<Partition> := [[Node({"n"}, {"n"}, {})]];
            && Unmet(g, ps, 0) == {} && HarmlessFrom(g, ps, 0)
            && forall skips, sigs | Signed(g, ps, skips, sigs) :: !RunsBy(g, ps, sigs, {}, 0)
  {
    var g := Graph({"n"}, map["n" := Buf(true, false)], map[], {}, {"n"});
    var p: Partition := [Node({"n"}, {"n"}, {})];
    assert p[..0] == [];
    assert Outputs(p) == Outputs([]) + {"n"} == {"n"};
    assert Touched(p) == Touched([]) + {"n"} == {"n"};
    assert Frees(p) == Frees([]) + {} == {};
    assert Inputs(g, p) == {};
    assert RealName(g, "n") == "n";
    assert Returns(g, p, {"n"}) == {"n"};
    assert Unmet(g, [p], 1) == {"n"};
    assert IsNoneLayout(g, "n") && Delivers(g, p, {"n"}) == {};
    assert Advance(g, [p], {}, 0) == {};
    assert !RunsFrom(g, [p], {}, 1);
    forall skips, sigs | Signed(g, [p], skips, sigs) ensures !RunsBy(g, [p], sigs, {}, 0) {
      RunsByIsRunsFrom(g, [p], skips, sigs, {}, 0);
    }
  }

  /** A NoneLayout buffer whose last use is in a later partition is declared as that partition's input: the
      inputs added for freed buffers are not filtered. It never arrives, though nothing harmful is freed. */
  lemma NoneInputNeverArrives()
    ensures var g := Graph({"n"}, map["n" := Buf(true, false)], map[], {}, {});
            var ps: seq<Partition> := [[Node({"n"}, {"n"}, {})], [Node({}, {"n"}, {"n"})]];
            && "n" in Inputs(g, ps[1]) && Unmet(g, ps, 0) == {} && HarmlessFrom(g, ps, 0)
            && forall skips, sigs | Signed(g, ps, skips, sigs) :: !RunsBy(g, ps, sigs, {}, 0)
  {
    var g := Graph({"n"}, map["n" := Buf(true, false)], map[], {}, {});
    var p: Partition, q: Partition := [Node({"n"}, {"n"}, {})], [Node({}, {"n"}, {"n"})];
    var ps := [p, q];
    assert p[..0] == [] && q[..0] == [];
    assert Outputs(p) == {"n"} && Touched(p) == {"n"} && Frees(p) == {};
    assert Outputs(q) == {} && Touched(q) == {"n"} && Frees(q) == {"n"};
    assert Inputs(g, p) == {} && Inputs(g, q) == {"n"};
    assert RealName(g, "n") == "n";
    assert Unmet(g, ps, 2) == {} && Returns(g, q, {}) == {} && Unmet(g, ps, 1) == {"n"};
    assert Returns(g, p, {"n"}) == {"n"} && Delivers(g, p, {"n"}) == {};
    assert Advance(g, ps, {}, 0) == {};
    assert !RunsFrom(g, ps, {}, 1);
    forall skips, sigs | Signed(g, ps, skips, sigs) ensures !RunsBy(g, ps, sigs, {}, 0) {
      RunsByIsRunsFrom(g, ps, skips, sigs, {}, 0);
    }
  }

  // ----- what is left over -----

  predicate Produced(ps: seq<Partition>, lo: nat, hi: nat, x: Name)
    requires hi <= |ps|
  {
    exists i :: lo <= i < hi && x in Outputs(ps[i])
  }

  /** A declared input that some partition produces is produced by an earlier one. */
  ghost predicate InputsFromEarlier(g: Graph, ps: seq<Partition>)
    requires Resolved(g)
  {
    forall j, x | 0 <= j < |ps| && x in Inputs(g, ps[j]) && Produced(ps, 0, |ps|, x) :: Produced(ps, 0, j, x)
  }

  /** An alias that a partition produces is neither a graph output nor, for its last use, a declared input:
      those name the buffer that it stands for. */
  ghost predicate AliasUndeclared(g: Graph, ps: seq<Partition>, a: Name)
    requires Resolved(g)
  {
    Produced(ps, 0, |ps|, a) ==> a !in g.outputs && forall j | 0 <= j < |ps| :: a !in Inputs(g, ps[j])
  }

  ghost predicate AliasesUndeclared(g: Graph, ps: seq<Partition>)
    requires Resolved(g)
  {
    forall a | a in g.mutates :: AliasUndeclared(g, ps, a)
  }

  lemma {:induction false} UnmetIsDeclared(g: Graph, ps: seq<Partition>, k: nat, x: Name)
    requires Resolved(g) && k <= |ps| && x in Unmet(g, ps, k)
    ensures x in g.outputs || exists j :: k <= j < |ps| && x in Inputs(g, ps[j])
    decreases |ps| - k
  {
    if k < |ps| && x !in Inputs(g, ps[k]) {
      UnmetIsDeclared(g, ps, k + 1, x);
    }
  }

  lemma ReturnsSplit(g: Graph, p: Partition, unmet: set<Name>)
    requires Resolved(g) && forall a | a in Outputs(p) * unmet :: a !in g.mutates
    ensures Returns(g, p, unmet) == Outputs(p) * unmet + (Inputs(g, p) * g.named - Frees(p))
  {
    var s := Outputs(p) * unmet + (Inputs(g, p) * g.named - Frees(p));
    forall x | x in s ensures RealName(g, x) == x {
      if x in Inputs(g, p) * g.named - Frees(p) && x in g.mutates { InputAliasesAreFreed(g, p, x); }
    }
  }

  lemma AliasesUnneeded(g: Graph, ps: seq<Partition>, k: nat)
    requires Resolved(g) && AliasesUndeclared(g, ps) && k < |ps|
    ensures forall a | a in g.mutates && a in Outputs(ps[k]) :: a !in Unmet(g, ps, k + 1)
  {
    forall a | a in g.mutates && a in Outputs(ps[k]) ensures a !in Unmet(g, ps, k + 1) {
      assert AliasUndeclared(g, ps, a) && Produced(ps, 0, |ps|, a);
      if a in Unmet(g, ps, k + 1) { UnmetIsDeclared(g, ps, k + 1, a); }
    }
  }

  /** The pass is liveness: needed before = taken in, or needed after and not defined. */
  lemma Liveness(g: Graph, ps: seq<Partition>, k: nat)
    requires Resolved(g) && AliasesUndeclared(g, ps) && k < |ps|
    ensures Unmet(g, ps, k) == Inputs(g, ps[k]) + (Unmet(g, ps, k + 1) - Outputs(ps[k]))
  {
    AliasesUnneeded(g, ps, k);
    ReturnsSplit(g, ps[k], Unmet(g, ps, k + 1));
  }

  /** `x` is used at j and defined by no partition from k up to there. */
  ghost predicate LiveUntil(g: Graph, ps: seq<Partition>, k: nat, j: nat, x: Name)
    requires Resolved(g)
  {
    k <= j <= |ps| && UsedAt(g, ps, j, x) && !Produced(ps, k, j, x)
  }

  ghost predicate LiveAt(g: Graph, ps: seq<Partition>, k: nat, x: Name)
    requires Resolved(g)
  {
    exists j: nat :: LiveUntil(g, ps, k, j, x)
  }

  lemma LiveStep(g: Graph, ps: seq<Partition>, k: nat, x: Name)
    requires Resolved(g) && k < |ps|
    ensures LiveAt(g, ps, k, x) <==> x in Inputs(g, ps[k]) || (LiveAt(g, ps, k + 1, x) && x !in Outputs(ps[k]))
  {
    if x in Inputs(g, ps[k]) {
      assert LiveUntil(g, ps, k, k, x);
    } else {
      if j: nat :| LiveUntil(g, ps, k, j, x) {
        assert Produced(ps, k, j, x) <==> x in Outputs(ps[k]) || Produced(ps, k + 1, j, x);
        assert LiveUntil(g, ps, k + 1, j, x);
      }
      if LiveAt(g, ps, k + 1, x) && x !in Outputs(ps[k]) {
        var j: nat :| LiveUntil(g, ps, k + 1, j, x);
        assert LiveUntil(g, ps, k, j, x);
      }
    }
  }

  /** Without declared aliases the backward pass computes ordinary liveness. */
  lemma {:induction false} UnmetIsLive(g: Graph, ps: seq<Partition>, k: nat, x: Name)
    requires Resolved(g) && AliasesUndeclared(g, ps) && k <= |ps|
    ensures x in Unmet(g, ps, k) <==> LiveAt(g, ps, k, x)
    decreases |ps| - k
  {
    if k == |ps| {
      if x in g.outputs { assert LiveUntil(g, ps, k, k, x); }
    } else {
      Liveness(g, ps, k);
      UnmetIsLive(g, ps, k + 1, x);
      LiveStep(g, ps, k, x);
    }
  }

  /** Partition k frees nothing that is live after it, except what it defines. */
  ghost predicate FreesDead(g: Graph, ps: seq<Partition>, k: nat)
    requires Resolved(g) && k < |ps|
  {
    forall x | x in Deallocates(g, ps[k]) && LiveAt(g, ps, k + 1, x) :: x in Outputs(ps[k])
  }

  /** A freed name that is live afterwards is returned exactly if the partition defines it. */
  lemma FreedIsDefined(g: Graph, ps: seq<Partition>, k: nat, x: Name)
    requires Resolved(g) && AliasesUndeclared(g, ps) && k < |ps|
    requires x in Deallocates(g, ps[k]) && x in Unmet(g, ps, k + 1)
    ensures x in Returns(g, ps[k], Unmet(g, ps, k + 1)) <==> x in Outputs(ps[k])
  {
    AliasesUnneeded(g, ps, k);
    ReturnsSplit(g, ps[k], Unmet(g, ps, k + 1));
  }

  lemma HarmlessIsFreesDead(g: Graph, ps: seq<Partition>, k: nat)
    requires Resolved(g) && AliasesUndeclared(g, ps) && k < |ps|
    ensures Harmless(g, ps, k) <==> FreesDead(g, ps, k)
  {
    forall x | x in Deallocates(g, ps[k])
      ensures x in Unmet(g, ps, k + 1) <==> LiveAt(g, ps, k + 1, x)
      ensures x in Unmet(g, ps, k + 1) ==> (x in Returns(g, ps[k], Unmet(g, ps, k + 1)) <==> x in Outputs(ps[k]))
    {
      UnmetIsLive(g, ps, k + 1, x);
      if x in Unmet(g, ps, k + 1) { FreedIsDefined(g, ps, k, x); }
    }
  }

  /** In terms of the partitions alone: they run in order exactly when every name that is live at the start
      is alive, no partition frees a live name that it does not define, and no NoneLayout buffer is a declared
      input or a graph output. */
  lemma RunsIffLive(g: Graph, ps: seq<Partition>, skips: seq<bool>, sigs: seq<Signature>, alive: set<Name>)
    requires Resolved(g) && Signed(g, ps, skips, sigs) && AliasesUndeclared(g, ps) && Allocated(g, alive)
    ensures RunsBy(g, ps, sigs, alive, 0)
            <==> (forall x | LiveAt(g, ps, 0, x) :: x in alive)
                 && (forall k | 0 <= k < |ps| :: FreesDead(g, ps, k)) && NoneUndeclared(g, ps, 0)
  {
    RunsIff(g, ps, skips, sigs, alive);
    forall x ensures x in Unmet(g, ps, 0) <==> LiveAt(g, ps, 0, x) {
      UnmetIsLive(g, ps, 0, x);
    }
    forall k | 0 <= k < |ps| ensures Harmless(g, ps, k) <==> FreesDead(g, ps, k) {
      HarmlessIsFreesDead(g, ps, k);
    }
  }

  lemma {:induction false} UnmetFromEarlier(g: Graph, ps: seq<Partition>, k: nat, x: Name)
    requires Resolved(g) && AliasesUndeclared(g, ps) && InputsFromEarlier(g, ps) && k <= |ps|
    requires x in Unmet(g, ps, k) && Produced(ps, 0, |ps|, x)
    ensures Produced(ps, 0, k, x)
    decreases |ps| - k
  {
    if k < |ps| {
      Liveness(g, ps, k);
      if x !in Inputs(g, ps[k]) {
        UnmetFromEarlier(g, ps, k + 1, x);
        var i :| 0 <= i < k + 1 && x in Outputs(ps[i]);
        assert i < k;
      }
    }
  }

  lemma {:induction false} UnmetReaches(g: Graph, ps: seq<Partition>, k: nat, j: nat, x: Name)
    requires Resolved(g) && AliasesUndeclared(g, ps) && k <= j < |ps| && x in Inputs(g, ps[j]) && !Produced(ps, 0, j, x)
    ensures x in Unmet(g, ps, k)
    decreases |ps| - k
  {
    Liveness(g, ps, k);
    if k < j {
      UnmetReaches(g, ps, k + 1, j, x);
      assert x !in Outputs(ps[k]);
    }
  }

  /** What a partition returns is named by its real name. */
  lemma ReturnsAreReal(g: Graph, p: Partition, unmet: set<Name>, a: Name)
    requires Resolved(g) && a in g.mutates
    ensures a !in Returns(g, p, unmet)
  {}

  /** An alias that is declared anywhere stays in the set: what partitions return is named by real names. */
  lemma {:induction false} AliasStays(g: Graph, ps: seq<Partition>, k: nat, j: nat, a: Name)
    requires Resolved(g) && a in g.mutates && k <= j <= |ps| && UsedAt(g, ps, j, a)
    ensures a in Unmet(g, ps, k)
    decreases |ps| - k
  {
    if k < j {
      AliasStays(g, ps, k + 1, j, a);
      ReturnsAreReal(g, ps[k], Unmet(g, ps, k + 1), a);
    }
  }

  /** The residual unmet set holds only names that no partition produces, exactly when every declared input
      that is produced at all is produced by an earlier partition and no produced alias is declared. */
  lemma ResidualIff(g: Graph, ps: seq<Partition>)
    requires Resolved(g)
    ensures (forall x | x in Unmet(g, ps, 0) :: !Produced(ps, 0, |ps|, x))
            <==> InputsFromEarlier(g, ps) && AliasesUndeclared(g, ps)
  {
    if !AliasesUndeclared(g, ps) {
      var a :| a in g.mutates && !AliasUndeclared(g, ps, a);
      if a in g.outputs {
        AliasStays(g, ps, 0, |ps|, a);
      } else {
        var j :| 0 <= j < |ps| && a in Inputs(g, ps[j]);
        AliasStays(g, ps, 0, j, a);
      }
    } else if !InputsFromEarlier(g, ps) {
      var j, x :| 0 <= j < |ps| && x in Inputs(g, ps[j]) && Produced(ps, 0, |ps|, x) && !Produced(ps, 0, j, x);
      UnmetReaches(g, ps, 0, j, x);
    } else {
      forall x | x in Unmet(g, ps, 0) ensures !Produced(ps, 0, |ps|, x) {
        if Produced(ps, 0, |ps|, x) { UnmetFromEarlier(g, ps, 0, x); }
      }
    }
  }
}
