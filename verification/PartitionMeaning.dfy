/** Running the partitions by their signatures computes what the unpartitioned program computes. Values
    are kept by real name: an alias is a new value of the buffer that it stands for. */
module PartitionMeaning {
  import opened PartitionSignature
  import opened PartitionRuns

  /** What partition k computes: the new values of the buffers it defines or mutates, from the values of
      what it reads. */
  type Semantics<!V> = (nat, map<Name, V>) -> map<Name, V>

  ghost predicate Defines<V(!new)>(g: Graph, f: Semantics<V>, ps: seq<Partition>) {
    forall k, m | 0 <= k < |ps| :: f(k, m).Keys == RealNames(g, Outputs(ps[k]))
  }

  /** A partition that mutates a buffer takes that buffer in or defines it. */
  ghost predicate MutatesOwn(g: Graph, p: Partition)
    requires Resolved(g)
  {
    forall a | a in Outputs(p) && a in g.mutates :: g.mutates[a] in Reads(g, p) + Outputs(p)
  }

  function Restrict<V>(m: map<Name, V>, s: set<Name>): map<Name, V> {
    map x | x in m && x in s :: m[x]
  }

  /** The unpartitioned program: nothing is freed, nothing hidden. */
  function Whole<V>(g: Graph, ps: seq<Partition>, f: Semantics<V>, m: map<Name, V>, k: nat): map<Name, V>
    requires Resolved(g) && k <= |ps|
  {
    if k == 0 then m
    else
      var before := Whole(g, ps, f, m, k - 1);
      before + f(k - 1, Restrict(before, Reads(g, ps[k - 1])))
  }

  /** What is alive after a partition that was called with `passed`. Inputs are passed by reference, so its
      mutations of them remain; freed inputs are gone; of the rest only what it returns is kept. */
  function Outside<V>(before: map<Name, V>, out: map<Name, V>, passed: set<Name>, freed: set<Name>,
                      returned: set<Name>): map<Name, V> {
    var local := Restrict(before, passed) + out;
    ((before + Restrict(local, passed)) - freed) + Restrict(local, returned)
  }

  /** By signatures: a partition computes from what its signature declares only. */
  function Split<V>(g: Graph, ps: seq<Partition>, sigs: seq<Signature>, f: Semantics<V>, m: map<Name, V>, k: nat)
    : map<Name, V>
    requires Resolved(g) && k <= |ps| == |sigs|
  {
    if k == 0 then m
    else
      var before, p, sig := Split(g, ps, sigs, f, m, k - 1), ps[k - 1], sigs[k - 1];
      var passed := Declared(g, p, sig);
      var out := f(k - 1, Restrict(Restrict(before, passed), Reads(g, p)));
      Outside(before, out, passed, Freed(sig), sig.returned)
  }

  /** Outside, in terms of the pass's sets. */
  function Passed<V>(g: Graph, p: Partition, before: map<Name, V>, out: map<Name, V>, unmet: set<Name>): map<Name, V>
    requires Resolved(g)
  {
    Outside(before, out, Inputs(g, p), Deallocates(g, p), Delivers(g, p, unmet))
  }

  /** Both programs have these names, with the same values. */
  ghost predicate SameOn<V>(a: map<Name, V>, b: map<Name, V>, s: set<Name>) {
    forall x | x in s :: x in a && x in b && a[x] == b[x]
  }

  lemma SameReads<V>(g: Graph, p: Partition, a: map<Name, V>, b: map<Name, V>)
    requires Resolved(g) && SameOn(a, b, Inputs(g, p))
    ensures Restrict(Restrict(a, Inputs(g, p)), Reads(g, p)) == Restrict(b, Reads(g, p))
  {
    assert Reads(g, p) <= Inputs(g, p);
  }

  /** What a partition returns is an input it keeps, or a buffer it defines or mutates. */
  lemma ReturnedIsInside(g: Graph, p: Partition, unmet: set<Name>, x: Name)
    requires Resolved(g) && x in Returns(g, p, unmet)
    ensures x in Inputs(g, p) || x in RealNames(g, Outputs(p))
  {
    var y :| y in Outputs(p) * unmet + (Inputs(g, p) * g.named - Frees(p)) && RealName(g, y) == x;
    if y !in Outputs(p) && y in g.mutates {
      InputAliasesAreFreed(g, p, y);
    }
  }

  /** A needed buffer that a partition changes without taking it in is returned. */
  lemma ChangedIsReturned(g: Graph, p: Partition, unmet: set<Name>, x: Name)
    requires Resolved(g) && MutatesOwn(g, p)
    requires x in unmet && x in RealNames(g, Outputs(p)) && x !in Inputs(g, p)
    ensures x in Returns(g, p, unmet)
  {
    var y :| y in Outputs(p) && RealName(g, y) == x;
    assert x in Outputs(p) && RealName(g, x) == x;
  }

  /** One name that is still needed after the partition. */
  lemma SplitAt<V>(g: Graph, p: Partition, a: map<Name, V>, b: map<Name, V>, out: map<Name, V>, unmet: set<Name>,
                   x: Name)
    requires Resolved(g) && MutatesOwn(g, p) && Allocated(g, unmet)
    requires out.Keys == RealNames(g, Outputs(p)) && x in unmet
    requires SameOn(a, b, Inputs(g, p) + (unmet - Returns(g, p, unmet)))
    requires x in Deallocates(g, p) ==> x in Returns(g, p, unmet)
    ensures SameOn(Passed(g, p, a, out, unmet), b + out, {x})
  {
    if x in Returns(g, p, unmet) {
      ReturnedIsInside(g, p, unmet, x);
      assert x in Delivers(g, p, unmet);
    } else if x !in Inputs(g, p) && x in out {
      ChangedIsReturned(g, p, unmet, x);
    }
  }

  lemma SameOutside<V>(g: Graph, p: Partition, a: map<Name, V>, b: map<Name, V>, out: map<Name, V>, unmet: set<Name>)
    requires Resolved(g) && MutatesOwn(g, p) && Allocated(g, unmet) && out.Keys == RealNames(g, Outputs(p))
    requires SameOn(a, b, Inputs(g, p) + (unmet - Returns(g, p, unmet)))
    requires Deallocates(g, p) !! (unmet - Returns(g, p, unmet))
    ensures SameOn(Passed(g, p, a, out, unmet), b + out, unmet)
  {
    forall x | x in unmet ensures SameOn(Passed(g, p, a, out, unmet), b + out, {x}) {
      SplitAt(g, p, a, b, out, unmet, x);
    }
    assert forall x | x in unmet :: x in {x};
  }

  /** One more partition in both programs. */
  lemma StepTaken<V>(g: Graph, ps: seq<Partition>, skips: seq<bool>, sigs: seq<Signature>, f: Semantics<V>,
                     m: map<Name, V>, k: nat)
    requires Resolved(g) && Signed(g, ps, skips, sigs) && k < |ps|
        && SameOn(Split(g, ps, sigs, f, m, k), Whole(g, ps, f, m, k), Inputs(g, ps[k]))
    ensures var out := f(k, Restrict(Whole(g, ps, f, m, k), Reads(g, ps[k])));
            && Split(g, ps, sigs, f, m, k + 1) == Passed(g, ps[k], Split(g, ps, sigs, f, m, k), out,
                                                         Unmet(g, ps, k + 1))
            && Whole(g, ps, f, m, k + 1) == Whole(g, ps, f, m, k) + out
  {
    SignatureSets(g, ps, skips, sigs, k);
    SameReads(g, ps[k], Split(g, ps, sigs, f, m, k), Whole(g, ps, f, m, k));
  }

  /** After k partitions, both programs have the names that are still needed, with the same values. */
  ghost predicate SameSoFar<V>(g: Graph, ps: seq<Partition>, sigs: seq<Signature>, f: Semantics<V>, m: map<Name, V>,
                               k: nat)
    requires Resolved(g) && k <= |ps| == |sigs|
  {
    SameOn(Split(g, ps, sigs, f, m, k), Whole(g, ps, f, m, k), Unmet(g, ps, k))
  }

  lemma SplitStep<V(!new)>(g: Graph, ps: seq<Partition>, skips: seq<bool>, sigs: seq<Signature>, f: Semantics<V>,
                           m: map<Name, V>, k: nat)
    requires Resolved(g) && Signed(g, ps, skips, sigs) && Defines(g, f, ps) && k < |ps| && MutatesOwn(g, ps[k])
    requires Harmless(g, ps, k) && Allocated(g, Unmet(g, ps, k + 1))
    requires SameSoFar(g, ps, sigs, f, m, k)
    ensures SameSoFar(g, ps, sigs, f, m, k + 1)
  {
    var a, b := Split(g, ps, sigs, f, m, k), Whole(g, ps, f, m, k);
    var out := f(k, Restrict(b, Reads(g, ps[k])));
    StepTaken(g, ps, skips, sigs, f, m, k);
    SameOutside(g, ps[k], a, b, out, Unmet(g, ps, k + 1));
  }

  lemma StillSafe(g: Graph, ps: seq<Partition>, k: nat)
    requires Resolved(g) && k < |ps| && HarmlessFrom(g, ps, 0) && NoneUndeclared(g, ps, 0)
    ensures Harmless(g, ps, k) && Allocated(g, Unmet(g, ps, k + 1))
  {
    UnmetAllocated(g, ps, k + 1);
  }

  ghost predicate MutateOwn(g: Graph, ps: seq<Partition>)
    requires Resolved(g)
  {
    forall j | 0 <= j < |ps| :: MutatesOwn(g, ps[j])
  }

  lemma {:induction false} SameWhenSafe<V(!new)>(g: Graph, ps: seq<Partition>, skips: seq<bool>,
                                                 sigs: seq<Signature>, f: Semantics<V>, m: map<Name, V>, k: nat)
    requires Resolved(g) && Signed(g, ps, skips, sigs) && Defines(g, f, ps) && MutateOwn(g, ps) && k <= |ps|
    requires Unmet(g, ps, 0) <= m.Keys && HarmlessFrom(g, ps, 0) && NoneUndeclared(g, ps, 0)
    ensures SameSoFar(g, ps, sigs, f, m, k)
  {
    if k > 0 {
      SameWhenSafe(g, ps, skips, sigs, f, m, k - 1);
      StillSafe(g, ps, k - 1);
      SplitStep(g, ps, skips, sigs, f, m, k - 1);
    }
  }

  /** Whenever the partitions run at all, from allocated buffers, the partitioned program gives every graph
      output the value of the unpartitioned one, with mutation aliases and NoneLayout buffers alike. */
  lemma SplitPreservesMeaning<V(!new)>(g: Graph, ps: seq<Partition>, skips: seq<bool>, sigs: seq<Signature>,
                                       f: Semantics<V>, m: map<Name, V>)
    requires Resolved(g) && Signed(g, ps, skips, sigs) && Defines(g, f, ps) && MutateOwn(g, ps)
    requires Allocated(g, m.Keys) && RunsBy(g, ps, sigs, m.Keys, 0)
    ensures SameOn(Split(g, ps, sigs, f, m, |ps|), Whole(g, ps, f, m, |ps|), g.outputs)
  {
    RunsIff(g, ps, skips, sigs, m.Keys);
    SameWhenSafe(g, ps, skips, sigs, f, m, |ps|);
  }
}
