/** Signatures of graph partitions: a reverse pass over the partitions that computes what each takes in,
    returns and frees. Sets stand for the ordered sets of the original. */
module PartitionSignature {
  import opened Wrappers

  type Name = string

  /** A scheduler node: the buffers it defines, reads or writes, and uses for the last time. */
  datatype Node = Node(outputs: set<Name>, touched: set<Name>, lastUsage: set<Name>)

  type Partition = seq<Node>

  /** A buffer's layout: whether it is NoneLayout, and whether it is a mutation output. */
  datatype Buf = Buf(none: bool, mutation: bool)

  /** `named` are the names with a node, `mutates` maps a mutation's name to the buffer it mutates. */
  datatype Graph = Graph(named: set<Name>, bufs: map<Name, Buf>, mutates: map<Name, Name>, constants: set<Name>,
                         outputs: set<Name>)

  /** What a partition is called with and gives back: its input buffers and whether it frees them, its constants,
      and what it returns. */
  datatype Signature = Signature(inputs: set<Name>, returned: set<Name>, deallocated: map<Name, bool>, skip: bool,
                                 constants: set<Name>)

  /** Aliases are resolved: the buffer an alias stands for is not itself an alias. */
  ghost predicate Resolved(g: Graph) {
    forall a | a in g.mutates :: g.mutates[a] !in g.mutates
  }

  function RealName(g: Graph, x: Name): Name {
    if x in g.mutates then g.mutates[x] else x
  }

  function RealNames(g: Graph, s: set<Name>): set<Name> {
    set x | x in s :: RealName(g, x)
  }

  predicate IsNoneLayout(g: Graph, x: Name)
    requires Resolved(g)
    decreases if x in g.mutates then 1 else 0
  {
    x in g.bufs && g.bufs[x].none
    && (g.bufs[x].mutation && x in g.mutates ==> IsNoneLayout(g, g.mutates[x]))
  }

  // ----- one partition -----

  function Outputs(p: Partition): set<Name> {
    if p == [] then {} else Outputs(p[..|p| - 1]) + p[|p| - 1].outputs
  }

  function Touched(p: Partition): set<Name> {
    if p == [] then {} else Touched(p[..|p| - 1]) + p[|p| - 1].touched
  }

  function Frees(p: Partition): set<Name> {
    if p == [] then {} else Frees(p[..|p| - 1]) + p[|p| - 1].lastUsage
  }

  /** What the partition reads or writes but does not define. */
  function Reads(g: Graph, p: Partition): set<Name>
    requires Resolved(g)
  {
    RealNames(g, (set x | x in Touched(p) && !IsNoneLayout(g, x)) - Outputs(p))
  }

  function Inputs(g: Graph, p: Partition): set<Name>
    requires Resolved(g)
  {
    Reads(g, p) + (Frees(p) - Outputs(p)) * g.named
  }

  /** The inputs the partition frees. */
  function Deallocates(g: Graph, p: Partition): set<Name>
    requires Resolved(g)
  {
    Inputs(g, p) * g.named * Frees(p)
  }

  /** What the partition returns, given the names needed afterwards. */
  function Returns(g: Graph, p: Partition, unmet: set<Name>): set<Name>
    requires Resolved(g)
  {
    RealNames(g, Outputs(p) * unmet + (Inputs(g, p) * g.named - Frees(p)))
  }

  function Delivers(g: Graph, p: Partition, unmet: set<Name>): set<Name>
    requires Resolved(g)
  {
    set x | x in Returns(g, p, unmet) && !IsNoneLayout(g, x)
  }

  function Sign(g: Graph, p: Partition, skip: bool, unmet: set<Name>): Signature
    requires Resolved(g)
  {
    var inputs := Inputs(g, p);
    Signature(inputs * g.named, Delivers(g, p, unmet), map x | x in inputs * g.named :: x in Frees(p), skip,
              inputs * g.constants)
  }

  // ----- the same by node -----

  predicate DefinedIn(p: Partition, x: Name) {
    exists i :: 0 <= i < |p| && x in p[i].outputs
  }

  predicate TouchedIn(p: Partition, x: Name) {
    exists i :: 0 <= i < |p| && x in p[i].touched
  }

  predicate LastUsedIn(p: Partition, x: Name) {
    exists i :: 0 <= i < |p| && x in p[i].lastUsage
  }

  lemma {:induction false} ByNode(p: Partition, x: Name)
    ensures x in Outputs(p) <==> DefinedIn(p, x)
    ensures x in Touched(p) <==> TouchedIn(p, x)
    ensures x in Frees(p) <==> LastUsedIn(p, x)
  {
    if p != [] {
      var k := |p| - 1;
      ByNode(p[..k], x);
      assert forall i | 0 <= i < k :: p[..k][i] == p[i];
      assert x in Outputs(p[..k]) ==> DefinedIn(p, x);
      assert x in Touched(p[..k]) ==> TouchedIn(p, x);
      assert x in Frees(p[..k]) ==> LastUsedIn(p, x);
    }
  }

  // ----- the pass -----

  /** The names needed before partition k. */
  function Unmet(g: Graph, ps: seq<Partition>, k: nat): set<Name>
    requires Resolved(g) && k <= |ps|
    decreases |ps| - k
  {
    if k == |ps| then g.outputs
    else Inputs(g, ps[k]) + (Unmet(g, ps, k + 1) - Returns(g, ps[k], Unmet(g, ps, k + 1)))
  }

  /** `name_to_node` has every name that partition k returns. */
  predicate NodesKnown(g: Graph, ps: seq<Partition>, k: nat)
    requires Resolved(g) && k < |ps|
  {
    Delivers(g, ps[k], Unmet(g, ps, k + 1)) <= g.named
  }

  /** The signature of partition k. */
  function SignatureOf(g: Graph, ps: seq<Partition>, skips: seq<bool>, k: nat): Signature
    requires Resolved(g) && k < |ps| == |skips|
  {
    Sign(g, ps[k], skips[k], Unmet(g, ps, k + 1))
  }

  /** The signatures of all partitions, in their order. */
  ghost predicate Signed(g: Graph, ps: seq<Partition>, skips: seq<bool>, sigs: seq<Signature>)
    requires Resolved(g)
  {
    && |sigs| == |ps| == |skips|
    && forall k | 0 <= k < |ps| :: sigs[k] == SignatureOf(g, ps, skips, k)
  }

  /** Every input has a flag, set exactly if some node of the partition uses it last; and a buffer used last
      here but defined elsewhere is an input. */
  ghost predicate FlagsOk(g: Graph, p: Partition, sig: Signature) {
    && sig.deallocated.Keys == sig.inputs <= g.named
    && (forall x | x in sig.inputs :: sig.deallocated[x] <==> LastUsedIn(p, x))
    && (forall x | x in g.named && LastUsedIn(p, x) && !DefinedIn(p, x) :: x in sig.inputs)
  }

  lemma SignatureFlags(g: Graph, ps: seq<Partition>, skips: seq<bool>, k: nat)
    requires Resolved(g) && k < |ps| == |skips|
    ensures FlagsOk(g, ps[k], SignatureOf(g, ps, skips, k))
  {
    forall x ensures x in Frees(ps[k]) <==> LastUsedIn(ps[k], x) {
      ByNode(ps[k], x);
    }
    forall x ensures x in Outputs(ps[k]) <==> DefinedIn(ps[k], x) {
      ByNode(ps[k], x);
    }
  }

  /** The body of the pass: one partition's signature, and the names needed before it. */
  method SignPartition(g: Graph, p: Partition, skip: bool, unmet: set<Name>)
    returns (sig: Signature, before: set<Name>, ok: bool)
    requires Resolved(g)
    ensures ok == (Delivers(g, p, unmet) <= g.named)
    ensures sig == Sign(g, p, skip, unmet)
    ensures before == Inputs(g, p) + (unmet - Returns(g, p, unmet))
  {
    var outputs, touched, frees := Collect(p);
    var returned := outputs * unmet;
    var inputs := (set x | x in touched && !IsNoneLayout(g, x)) - outputs;
    inputs := set x | x in inputs :: RealName(g, x);
    var extraInputs := (frees - outputs) * g.named;
    inputs := inputs + extraInputs;
    assert inputs == Inputs(g, p);
    var extraOutputs := inputs * g.named - frees;
    returned := returned + extraOutputs;
    returned := set x | x in returned :: RealName(g, x);
    assert returned == Returns(g, p, unmet);
    var delivered := set x | x in returned && !IsNoneLayout(g, x);
    ok := delivered <= g.named;
    var inputNodes := inputs * g.named;
    var deallocation := map x | x in inputs * g.named :: x in frees;
    sig := Signature(inputNodes, delivered, deallocation, skip, inputs * g.constants);
    before := inputs + (unmet - returned);
  }

  /** The signatures of the partitions from k on, last one first. */
  ghost predicate SignedFrom(g: Graph, ps: seq<Partition>, skips: seq<bool>, k: nat, reversed: seq<Signature>)
    requires Resolved(g) && k <= |ps| == |skips|
  {
    && |reversed| == |ps| - k
    && (forall j | k <= j < |ps| :: reversed[|ps| - 1 - j] == SignatureOf(g, ps, skips, j))
    && (forall j | k <= j < |ps| :: NodesKnown(g, ps, j))
  }

  lemma SignedNext(g: Graph, ps: seq<Partition>, skips: seq<bool>, k: nat, reversed: seq<Signature>)
    requires Resolved(g) && k < |ps| == |skips| && SignedFrom(g, ps, skips, k + 1, reversed) && NodesKnown(g, ps, k)
    ensures SignedFrom(g, ps, skips, k, reversed + [SignatureOf(g, ps, skips, k)])
  {}

  /** One round of the loop, on the names needed after partition k. */
  method SignAt(g: Graph, ps: seq<Partition>, skips: seq<bool>, k: nat, unmet: set<Name>)
    returns (sig: Signature, before: set<Name>, ok: bool)
    requires Resolved(g) && k < |ps| == |skips| && unmet == Unmet(g, ps, k + 1)
    ensures ok == NodesKnown(g, ps, k) && sig == SignatureOf(g, ps, skips, k) && before == Unmet(g, ps, k)
  {
    sig, before, ok := SignPartition(g, ps[k], skips[k], unmet);
  }

  /** The loop over the partitions, from the last to the first. */
  method SignReversed(g: Graph, ps: seq<Partition>, skips: seq<bool>)
    returns (reversed: seq<Signature>, unmet: set<Name>, ok: bool)
    requires Resolved(g) && |skips| == |ps|
    ensures if ok then SignedFrom(g, ps, skips, 0, reversed) && unmet == Unmet(g, ps, 0)
            else exists k :: 0 <= k < |ps| && !NodesKnown(g, ps, k)
  {
    reversed, unmet, ok := [], g.outputs, true;
    var k := |ps|;
    while k > 0
      invariant 0 <= k <= |ps| && ok && unmet == Unmet(g, ps, k) && SignedFrom(g, ps, skips, k, reversed)
    {
      k := k - 1;
      var sig;
      sig, unmet, ok := SignAt(g, ps, skips, k, unmet);
      if !ok { return; }
      SignedNext(g, ps, skips, k, reversed);
      reversed := reversed + [sig];
    }
  }

  /** `get_graph_partition_signature`; `ok` is false when a returned name has no node. */
  method Signatures(g: Graph, ps: seq<Partition>, skips: seq<bool>)
    returns (sigs: seq<Signature>, unmet: set<Name>, ok: bool)
    requires Resolved(g) && |skips| == |ps|
    ensures ok <==> forall k | 0 <= k < |ps| :: NodesKnown(g, ps, k)
    ensures ok ==> |sigs| == |ps| && unmet == Unmet(g, ps, 0)
    ensures ok ==> Signed(g, ps, skips, sigs)
    ensures ok ==> forall k | 0 <= k < |ps| :: FlagsOk(g, ps[k], sigs[k])
  {
    var reversed;
    reversed, unmet, ok := SignReversed(g, ps, skips);
    sigs := seq(|reversed|, i requires 0 <= i < |reversed| => reversed[|reversed| - 1 - i]);
    if ok {
      forall k | 0 <= k < |ps| ensures FlagsOk(g, ps[k], sigs[k]) {
        SignatureFlags(g, ps, skips, k);
      }
    }
  }

  /** The loops over the nodes of one partition. */
  method Collect(p: Partition) returns (outputs: set<Name>, touched: set<Name>, frees: set<Name>)
    ensures outputs == Outputs(p) && touched == Touched(p) && frees == Frees(p)
  {
    outputs, touched, frees := {}, {}, {};
    var i := 0;
    while i < |p|
      invariant 0 <= i <= |p|
      invariant outputs == Outputs(p[..i]) && touched == Touched(p[..i]) && frees == Frees(p[..i])
    {
      assert p[..i + 1][..i] == p[..i];
      outputs, touched, frees := outputs + p[i].outputs, touched + p[i].touched, frees + p[i].lastUsage;
      i := i + 1;
    }
    assert p[..|p|] == p;
  }
}
