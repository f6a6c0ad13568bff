/** The memory-planning pass over wrapper lines: trailing planning lines are dropped, then each planning
    line is planned with the state on top of a stack that subgraph lines push and pop. */
module MemoryPlanning {
  /** A planning state is named by the line that created it: 0 is the outermost state, j + 1 the one made
      at subgraph entry j. */
  datatype Line =
    | Plan(name: string)
    | Enter
    | Exit
    | Other
    | Planned(name: string, state: nat)

  // ----- nesting -----

  /** Subgraphs entered minus subgraphs left before line i. */
  function Depth(lines: seq<Line>, i: nat): int
    requires i <= |lines|
  {
    if i == 0 then 0
    else Depth(lines, i - 1) + (if lines[i - 1].Enter? then 1 else if lines[i - 1].Exit? then -1 else 0)
  }

  /** The subgraph entered at line j is still open before line i. */
  ghost predicate Open(lines: seq<Line>, j: nat, i: nat)
    requires i <= |lines|
  {
    j < i && lines[j].Enter? && forall m: nat | j < m <= i :: Depth(lines, m) > Depth(lines, j)
  }

  /** `s` names the state of the innermost subgraph open before line i, or the outermost state if none is. */
  ghost predicate Innermost(lines: seq<Line>, i: nat, s: nat)
    requires i <= |lines|
  {
    && (s > 0 ==> Open(lines, s - 1, i))
    && forall j: nat | s <= j < i :: !Open(lines, j, i)
  }

  /** When the pass succeeds: no subgraph is left twice over, planning lines are in some graph, and every
      subgraph is left. */
  ghost predicate Plannable(lines: seq<Line>) {
    PlannableTo(lines, |lines|) && Depth(lines, |lines|) == 0
  }

  ghost predicate PlannableTo(lines: seq<Line>, n: nat)
    requires n <= |lines|
  {
    && (forall i | 0 <= i <= n :: Depth(lines, i) >= -1)
    && (forall i | 0 <= i < n && lines[i].Plan? :: Depth(lines, i) >= 0)
  }

  /** Every exit closes an entry, and every entry is closed. */
  ghost predicate Balanced(lines: seq<Line>) {
    (forall i | 0 <= i <= |lines| :: Depth(lines, i) >= 0) && Depth(lines, |lines|) == 0
  }

  // ----- trimming -----

  function Trim(lines: seq<Line>, outs: set<string>): seq<Line> {
    if lines != [] && lines[|lines| - 1].Plan? && lines[|lines| - 1].name !in outs
    then Trim(lines[..|lines| - 1], outs) else lines
  }

  lemma {:induction false} DepthOfPrefix(lines: seq<Line>, n: nat, i: nat)
    requires i <= n <= |lines|
    ensures Depth(lines[..n], i) == Depth(lines, i)
  {
    if i > 0 {
      DepthOfPrefix(lines, n, i - 1);
    }
  }

  /** Trimming keeps a prefix, drops only planning lines of names that are not outputs, and stops at the
      first line from the end that it must keep. */
  lemma {:induction false} TrimKeepsPrefix(lines: seq<Line>, outs: set<string>)
    ensures var t := Trim(lines, outs);
            && t <= lines
            && (forall i | |t| <= i < |lines| :: lines[i].Plan? && lines[i].name !in outs)
            && (t != [] ==> !(t[|t| - 1].Plan? && t[|t| - 1].name !in outs))
  {
    if lines != [] && lines[|lines| - 1].Plan? && lines[|lines| - 1].name !in outs {
      TrimKeepsPrefix(lines[..|lines| - 1], outs);
    }
  }

  lemma {:induction false} PlansKeepDepth(lines: seq<Line>, n: nat, m: nat)
    requires n <= m <= |lines| && forall i | n <= i < m :: lines[i].Plan?
    ensures Depth(lines, m) == Depth(lines, n)
  {
    if n < m {
      PlansKeepDepth(lines, n, m - 1);
    }
  }

  /** Trimming preserves subgraph nesting. */
  lemma TrimKeepsNesting(lines: seq<Line>, outs: set<string>)
    ensures |Trim(lines, outs)| <= |lines|
    ensures forall i | 0 <= i <= |Trim(lines, outs)| :: Depth(Trim(lines, outs), i) == Depth(lines, i)
    ensures Depth(Trim(lines, outs), |Trim(lines, outs)|) == Depth(lines, |lines|)
    ensures Balanced(lines) <==> Balanced(Trim(lines, outs))
    ensures Plannable(lines) <==> Plannable(Trim(lines, outs))
  {
    TrimKeepsPrefix(lines, outs);
    var t := Trim(lines, outs);
    assert t == lines[..|t|];
    forall i | 0 <= i <= |t| ensures Depth(t, i) == Depth(lines, i) {
      DepthOfPrefix(lines, |t|, i);
    }
    forall i | |t| <= i <= |lines| ensures Depth(lines, i) == Depth(t, |t|) {
      PlansKeepDepth(lines, |t|, i);
    }
  }

  /** Balanced lines can be planned after trimming, whatever the outputs. */
  lemma BalancedSucceeds(lines: seq<Line>, outs: set<string>)
    requires Balanced(lines)
    ensures Plannable(Trim(lines, outs)) && Balanced(Trim(lines, outs))
  {
    TrimKeepsNesting(lines, outs);
  }

  /** The pass also accepts an exit with no entry when an entry follows before the next planning line. */
  lemma PlannableUnbalanced()
    ensures Plannable([Exit, Enter, Plan("b")]) && !Balanced([Exit, Enter, Plan("b")])
  {
    var lines := [Exit, Enter, Plan("b")];
    assert Depth(lines, 0) == 0 && Depth(lines, 1) == -1;
    assert Depth(lines, 2) == 0 && Depth(lines, 3) == 0;
  }

  // ----- the stack -----

  /** Entry a of the stack is the outermost state, or that of an open subgraph entered at depth a - 1. */
  ghost predicate EntryAt(lines: seq<Line>, i: nat, a: nat, s: nat)
    requires i <= |lines|
  {
    if s == 0 then a == 0 else Open(lines, s - 1, i) && Depth(lines, s - 1) == a - 1
  }

  ghost predicate OnStack(lines: seq<Line>, stack: seq<nat>, j: nat)
    requires j <= |lines|
  {
    0 <= Depth(lines, j) + 1 < |stack| && stack[Depth(lines, j) + 1] == j + 1
  }

  /** Before line i the stack holds, outermost first, the states of the open subgraphs, above the outermost
      state unless some exit already popped that one. */
  ghost predicate StackAt(lines: seq<Line>, i: nat, stack: seq<nat>)
    requires i <= |lines|
  {
    && |stack| == Depth(lines, i) + 1
    && (forall a, b | 0 <= a < b < |stack| :: stack[a] < stack[b])
    && (forall a | 0 <= a < |stack| :: EntryAt(lines, i, a, stack[a]))
    && (forall j: nat | Open(lines, j, i) :: OnStack(lines, stack, j))
  }

  lemma StillOpen(lines: seq<Line>, j: nat, i: nat)
    requires i < |lines|
    ensures Open(lines, j, i + 1)
            <==> (Open(lines, j, i) && Depth(lines, i + 1) > Depth(lines, j)) || (j == i && lines[i].Enter?)
  {
    if Open(lines, j, i + 1) && j != i {
      assert forall m: nat | j < m <= i :: Depth(lines, m) > Depth(lines, j);
    }
    if j == i && lines[i].Enter? {
      assert Depth(lines, i + 1) == Depth(lines, i) + 1;
    }
  }

  lemma EntryStays(lines: seq<Line>, i: nat, a: nat, s: nat)
    requires i < |lines| && lines[i].Enter? && EntryAt(lines, i, a, s) && a < Depth(lines, i) + 1
    ensures EntryAt(lines, i + 1, a, s) && s <= i
  {
    if s > 0 { StillOpen(lines, s - 1, i); }
  }

  lemma OpenAfterEnter(lines: seq<Line>, i: nat, stack: seq<nat>, j: nat)
    requires i < |lines| && lines[i].Enter? && StackAt(lines, i, stack) && Open(lines, j, i + 1)
    ensures OnStack(lines, stack + [i + 1], j)
  {
    StillOpen(lines, j, i);
    if j != i { assert OnStack(lines, stack, j); }
  }

  lemma EnterOpens(lines: seq<Line>, i: nat, stack: seq<nat>)
    requires i < |lines| && lines[i].Enter? && StackAt(lines, i, stack)
    ensures StackAt(lines, i + 1, stack + [i + 1])
  {
    var stack' := stack + [i + 1];
    StillOpen(lines, i, i);
    forall a | 0 <= a < |stack'| ensures EntryAt(lines, i + 1, a, stack'[a]) && (a < |stack| ==> stack[a] <= i) {
      if a < |stack| { EntryStays(lines, i, a, stack[a]); }
    }
    forall j: nat | Open(lines, j, i + 1) ensures OnStack(lines, stack', j) {
      OpenAfterEnter(lines, i, stack, j);
    }
  }

  lemma ExitCloses(lines: seq<Line>, i: nat, stack: seq<nat>)
    requires i < |lines| && lines[i].Exit? && StackAt(lines, i, stack) && stack != []
    ensures StackAt(lines, i + 1, stack[..|stack| - 1])
  {
    var rest := stack[..|stack| - 1];
    forall a | 0 <= a < |rest| ensures EntryAt(lines, i + 1, a, rest[a]) {
      assert EntryAt(lines, i, a, stack[a]);
      if stack[a] > 0 { StillOpen(lines, stack[a] - 1, i); }
    }
    forall j: nat | Open(lines, j, i + 1) ensures OnStack(lines, rest, j) {
      StillOpen(lines, j, i);
      assert OnStack(lines, stack, j);
    }
  }

  lemma OtherKeeps(lines: seq<Line>, i: nat, stack: seq<nat>)
    requires i < |lines| && !lines[i].Enter? && !lines[i].Exit? && StackAt(lines, i, stack)
    ensures StackAt(lines, i + 1, stack)
  {
    forall a | 0 <= a < |stack| ensures EntryAt(lines, i + 1, a, stack[a]) {
      assert EntryAt(lines, i, a, stack[a]);
      if stack[a] > 0 { StillOpen(lines, stack[a] - 1, i); }
    }
    forall j: nat | Open(lines, j, i + 1) ensures OnStack(lines, stack, j) {
      StillOpen(lines, j, i);
    }
  }

  lemma TopIsInnermost(lines: seq<Line>, i: nat, stack: seq<nat>)
    requires i <= |lines| && StackAt(lines, i, stack) && stack != []
    ensures Innermost(lines, i, stack[|stack| - 1])
  {
    var top := stack[|stack| - 1];
    assert EntryAt(lines, i, |stack| - 1, top);
    forall j: nat | Open(lines, j, i) ensures j < top {
      assert OnStack(lines, stack, j);
    }
  }

  // ----- the pass -----

  /** Line i with its planning state: the planned form of a planning line, any other line unchanged. */
  ghost predicate PlannedLine(before: seq<Line>, i: nat, after: Line)
    requires i < |before|
  {
    if before[i].Plan? then after.Planned? && after.name == before[i].name && Innermost(before, i, after.state)
    else after == before[i]
  }

  /** The first i lines were handled; `lines` holds them planned, the others as they were. */
  ghost predicate Handled(kept: seq<Line>, i: nat, states: seq<nat>, lines: seq<Line>) {
    && i <= |kept| == |lines| && StackAt(kept, i, states) && PlannableTo(kept, i)
    && (forall k | 0 <= k < i :: PlannedLine(kept, k, lines[k]))
    && (forall k | i <= k < |kept| :: lines[k] == kept[k])
  }

  lemma PlanStep(kept: seq<Line>, i: nat, states: seq<nat>, lines: seq<Line>)
    requires Handled(kept, i, states, lines) && i < |kept| && kept[i].Plan?
    ensures if states == [] then !PlannableTo(kept, i + 1)
            else Handled(kept, i + 1, states, lines[i := Planned(kept[i].name, states[|states| - 1])])
  {
    if states != [] { TopIsInnermost(kept, i, states); }
    OtherKeeps(kept, i, states);
  }

  lemma OneMoreHandled(kept: seq<Line>, i: nat, states: seq<nat>, states': seq<nat>, lines: seq<Line>)
    requires Handled(kept, i, states, lines) && i < |kept| && !kept[i].Plan? && StackAt(kept, i + 1, states')
    ensures Handled(kept, i + 1, states', lines)
  {
    assert lines[i] == kept[i];
    assert Depth(kept, i + 1) >= -1;
  }

  lemma EnterStep(kept: seq<Line>, i: nat, states: seq<nat>, lines: seq<Line>)
    requires Handled(kept, i, states, lines) && i < |kept| && kept[i].Enter?
    ensures Handled(kept, i + 1, states + [i + 1], lines)
  {
    EnterOpens(kept, i, states);
    OneMoreHandled(kept, i, states, states + [i + 1], lines);
  }

  lemma EmptyExit(kept: seq<Line>, i: nat)
    requires i < |kept| && kept[i].Exit? && StackAt(kept, i, [])
    ensures !PlannableTo(kept, i + 1)
  {
    assert Depth(kept, i + 1) == -2;
  }

  lemma ExitStep(kept: seq<Line>, i: nat, states: seq<nat>, lines: seq<Line>)
    requires Handled(kept, i, states, lines) && i < |kept| && kept[i].Exit?
    ensures if states == [] then !PlannableTo(kept, i + 1) else Handled(kept, i + 1, states[..|states| - 1], lines)
  {
    if states == [] {
      EmptyExit(kept, i);
    } else {
      ExitCloses(kept, i, states);
      OneMoreHandled(kept, i, states, states[..|states| - 1], lines);
    }
  }

  lemma SkipStep(kept: seq<Line>, i: nat, states: seq<nat>, lines: seq<Line>)
    requires Handled(kept, i, states, lines) && i < |kept| && (kept[i].Other? || kept[i].Planned?)
    ensures Handled(kept, i + 1, states, lines)
  {
    OtherKeeps(kept, i, states);
    OneMoreHandled(kept, i, states, states, lines);
  }

  lemma PrefixFails(kept: seq<Line>, i: nat)
    requires i <= |kept| && !PlannableTo(kept, i)
    ensures !Plannable(kept)
  {}

  lemma AtTheEnd(kept: seq<Line>, states: seq<nat>, lines: seq<Line>)
    requires Handled(kept, |kept|, states, lines)
    ensures Plannable(kept) <==> |states| == 1
  {}

  class Wrapper {
    var lines: seq<Line>

    constructor (lines: seq<Line>)
      ensures this.lines == lines
    {
      this.lines := lines;
    }

    /** Drop the planning lines at the end whose buffer is not an output. */
    method TrimLines(outs: set<string>)
      modifies this
      ensures lines == Trim(old(lines), outs)
    {
      while lines != [] && lines[|lines| - 1].Plan? && lines[|lines| - 1].name !in outs
        invariant Trim(lines, outs) == Trim(old(lines), outs)
        decreases |lines|
      {
        lines := lines[..|lines| - 1];
      }
    }

    /** One line of the pass: what it does to the stack and to the line. `ok` is false when the stack is read
        or popped empty. */
    method PlanLine(i: nat, states: seq<nat>, past: seq<nat>, ghost kept: seq<Line>)
      returns (states': seq<nat>, past': seq<nat>, ok: bool)
      requires i < |lines| && Handled(kept, i, states, lines)
      modifies this
      ensures if ok then Handled(kept, i + 1, states', lines) else !PlannableTo(kept, i + 1)
    {
      states', past', ok := states, past, true;
      match lines[i] {
        case Plan(name) =>
          PlanStep(kept, i, states, lines);
          if states == [] { ok := false; } else { lines := lines[i := Planned(name, states[|states| - 1])]; }
        case Enter =>
          EnterStep(kept, i, states, lines);
          states' := states + [i + 1];
        case Exit =>
          ExitStep(kept, i, states, lines);
          if states == [] {
            ok := false;
          } else {
            past', states' := past + [states[|states| - 1]], states[..|states| - 1];
          }
        case Other => SkipStep(kept, i, states, lines);
        case Planned(_, _) => SkipStep(kept, i, states, lines);
      }
    }

    /** `memory_plan_reuse`; `ok` is false when the stack is read or popped empty, or not empty at the end. */
    method MemoryPlanReuse(outs: set<string>) returns (ok: bool)
      modifies this
      ensures ok <==> Plannable(Trim(old(lines), outs))
      ensures ok ==> |lines| == |Trim(old(lines), outs)|
      ensures ok ==> forall i | 0 <= i < |lines| :: PlannedLine(Trim(old(lines), outs), i, lines[i])
    {
      TrimLines(outs);
      ghost var kept := lines;
      var states: seq<nat>, past: seq<nat> := [0], [];
      var i := 0;
      while i < |lines|
        invariant Handled(kept, i, states, lines)
      {
        states, past, ok := PlanLine(i, states, past, kept);
        if !ok {
          PrefixFails(kept, i + 1);
          return;
        }
        i := i + 1;
      }
      AtTheEnd(kept, states, lines);
      if states == [] { return false; }
      past, states := past + [states[|states| - 1]], states[..|states| - 1];
      ok := states == [];
    }
  }
}
