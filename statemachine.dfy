/**
 * The life-cycle-graph (LCG) state machine: a graph of states whose children are
 * ordered by priority, a machine that walks it driven by lists of events, and a
 * printable record of the walk ("path in graph") in which a two-state oscillation
 * is folded into a single `>(A<<>>B)xN>` group.
 */
module StateMachine {
  import opened Wrappers
  import Decimal

  /** A state of the graph. */
  type State = int

  /** The sentinel state: a wildcard event, and the current state of a machine that is OFF. */
  const DefaultState: State := -1

  /** A node: its display name and its children by decreasing priority; the last child is the fallback. */
  datatype NodeInfo = NodeInfo(name: string, children: seq<State>)

  type Graph = map<State, NodeInfo>

  /** Reading a state absent from the graph gives the zero node: no name, no children. */
  function Node(g: Graph, s: State): NodeInfo {
    if s in g then g[s] else NodeInfo("", [])
  }

  function Children(g: Graph, s: State): seq<State> {
    Node(g, s).children
  }

  /** The fallback child, when there is any child. */
  function Default(children: seq<State>): (bool, State) {
    if |children| == 0 then (false, 0) else (true, children[|children| - 1])
  }

  predicate IsDefault(children: seq<State>, s: State) {
    var (exists_, dft) := Default(children);
    exists_ && s == dft
  }

  predicate IsLeafNode(g: Graph, s: State) {
    |Children(g, s)| == 0
  }

  /** The node's name, or the decimal number of the state when the node has none. */
  function StateName(g: Graph, s: State): (name: string)
    ensures name != []
  {
    if Node(g, s).name == "" then Decimal.IntToString(s) else Node(g, s).name
  }

  /** Two unnamed states never share a display name. */
  lemma UnnamedStatesHaveDistinctNames(g: Graph, s: State, t: State)
    requires Node(g, s).name == "" && Node(g, t).name == "" && s != t
    ensures StateName(g, s) != StateName(g, t)
  {
    Decimal.IntToStringInjective(s, t);
  }

  /** Whether a child is selected by the events: listed itself, or the fallback with the wildcard listed. */
  predicate Triggers(events: seq<State>, s: State, isDefaultState: bool) {
    s in events || (isDefaultState && DefaultState in events)
  }

  /** Linear search of the events. */
  method Contains(events: seq<State>, s: State) returns (found: bool)
    ensures found <==> s in events
  {
    for i := 0 to |events|
      invariant s !in events[..i]
    {
      if events[i] == s {
        return true;
      }
    }
    return false;
  }

  method IsTriggeringState(events: seq<State>, s: State, isDefaultState: bool) returns (b: bool)
    ensures b <==> Triggers(events, s, isDefaultState)
  {
    b := Contains(events, s);
    if !b && isDefaultState {
      b := Contains(events, DefaultState);
    }
  }

  /** The position of the child the events select: the first one, by priority, that they trigger. */
  function FirstTriggered(children: seq<State>, events: seq<State>): (r: Option<nat>)
    ensures r.Some? ==>
      (r.value < |children| && Triggers(events, children[r.value], IsDefault(children, children[r.value])))
    ensures r.Some? ==> forall j :: 0 <= j < r.value ==>
      !Triggers(events, children[j], IsDefault(children, children[j]))
    ensures r.None? ==> forall j :: 0 <= j < |children| ==>
      !Triggers(events, children[j], IsDefault(children, children[j]))
  {
    FirstTriggeredFrom(children, events, 0)
  }

  function FirstTriggeredFrom(children: seq<State>, events: seq<State>, from: nat): (r: Option<nat>)
    requires from <= |children|
    ensures r.Some? ==>
      (from <= r.value < |children| && Triggers(events, children[r.value], IsDefault(children, children[r.value])))
    ensures r.Some? ==> forall j :: from <= j < r.value ==>
      !Triggers(events, children[j], IsDefault(children, children[j]))
    ensures r.None? ==> forall j :: from <= j < |children| ==>
      !Triggers(events, children[j], IsDefault(children, children[j]))
    decreases |children| - from
  {
    if from == |children| then None
    else if Triggers(events, children[from], IsDefault(children, children[from])) then Some(from)
    else FirstTriggeredFrom(children, events, from + 1)
  }

  /** With the wildcard among the events, some child is always selected. */
  lemma WildcardAlwaysSelects(children: seq<State>, events: seq<State>)
    requires children != [] && DefaultState in events
    ensures FirstTriggered(children, events).Some?
  {
    var last := |children| - 1;
    assert Triggers(events, children[last], IsDefault(children, children[last]));
  }

  /**
   * With the wildcard among the events and no child listed twice, the fallback is
   * selected exactly when no child of higher priority is listed.
   */
  lemma FallbackIffNoHigherPriorityEvent(children: seq<State>, events: seq<State>)
    requires children != [] && DefaultState in events
    requires forall i, j :: 0 <= i < j < |children| ==> children[i] != children[j]
    ensures FirstTriggered(children, events) == Some(|children| - 1)
      <==> forall j :: 0 <= j < |children| - 1 ==> children[j] !in events
  {
    var last := |children| - 1;
    assert Triggers(events, children[last], IsDefault(children, children[last]));
    if forall j :: 0 <= j < last ==> children[j] !in events {
      forall j | 0 <= j < last
        ensures !Triggers(events, children[j], IsDefault(children, children[j]))
      {
        assert children[j] != children[last];
      }
    }
  }

  /** A snapshot of the machine's state. `pathEnabled` is false when Go's path slice is nil. */
  datatype MachineState = MachineState(
    cur: State, prev: State,
    pathEnabled: bool, path: seq<string>, loops: nat, limit: nat)

  /** OFF: never used yet, or reset after a leaf was entered. */
  predicate IsOff(m: MachineState) {
    m.prev == m.cur
  }

  /** What every operation keeps: a disabled path is empty, and an enabled one has a limit between 5 and 1024. */
  predicate WellFormed(m: MachineState) {
    (!m.pathEnabled ==> m.path == [])
    && (m.limit == 0 || 5 <= m.limit <= 1024)
    && (m.pathEnabled ==> m.limit != 0)
  }

  /** The limit SetPathLengthLimit stores: the request clamped to [5, 1024]. */
  function ClampedLimit(max: nat): (r: nat)
    ensures 5 <= r <= 1024
    ensures 5 <= max <= 1024 ==> r == max
    ensures max < 5 ==> r == 5
    ensures max > 1024 ==> r == 1024
  {
    if max < 5 then 5 else if max > 1024 then 1024 else max
  }

  /** EnablePathInGraph: restart the path with its opening separator, defaulting the limit to 512. */
  function WithPathEnabled(m: MachineState): (r: MachineState)
    requires WellFormed(m)
    ensures WellFormed(r) && r.pathEnabled && r.path == [">"]
    ensures r.limit == (if m.limit == 0 then 512 else m.limit)
  {
    m.(pathEnabled := true, path := [">"], limit := if m.limit == 0 then 512 else m.limit)
  }

  /** appendToPath: add tokens, then drop the two oldest when the limit is exceeded. */
  function Appended(path: seq<string>, elems: seq<string>, limit: nat): (r: seq<string>)
    requires |path| + |elems| > limit ==> |path| + |elems| >= 2
    ensures |r| == |path| + |elems| || |r| == |path| + |elems| - 2
    ensures r == (path + elems)[|path| + |elems| - |r|..]
    ensures |path| + |elems| <= limit ==> r == path + elems
    ensures |elems| <= 2 ==> |r| <= if |path| > limit then |path| else limit
  {
    var p := path + elems;
    if |p| > limit then p[2..] else p
  }

  /** The closing token of a folded oscillation. The repeat count shown is loops/2 + 1; an odd count also names the state entered. */
  function LoopMarker(loops: nat, stateName: string): string {
    var count := loops / 2 + 1;
    if loops % 2 == 0 then ")x" + Decimal.NatToString(count) + ">"
    else ")x" + Decimal.NatToString(count) + ">" + stateName + ">"
  }

  /** Whether the path is too short to hold the loop a compaction rewrites. */
  predicate TooShortForLoop(path: seq<string>, loopPathLength: nat) {
    |path| < 2 * loopPathLength + 1 || |path| < 3
  }

  /** The in-place rewrite that folds a loop: the tokens `>`, `>`, `>` around the two states become `>(`, `<<>>`, `)xN>`. */
  function Compacted(path: seq<string>, loopPathLength: nat, marker: string): (r: seq<string>)
    requires !TooShortForLoop(path, loopPathLength)
    ensures |r| == |path|
    ensures r[|path| - 1] == marker && r[|path| - 3] == "<<>>"
    ensures loopPathLength >= 2 ==> r[|path| - (2 * loopPathLength + 1)] == ">("
    ensures forall i :: 0 <= i < |path| && i != |path| - (2 * loopPathLength + 1) && i != |path| - 3 && i != |path| - 1
              ==> r[i] == path[i]
  {
    var n := |path|;
    path[n - (2 * loopPathLength + 1) := ">("][n - 3 := "<<>>"][n - 1 := marker]
  }

  /**
   * addStateToPath as the source writes it. `None` stands for the index-out-of-range
   * panic of a loop entry when the path holds fewer tokens than the loop rewrite reaches.
   */
  function WithStateInPathAsWritten(g: Graph, m: MachineState, s: State, loopPathLength: nat): (r: Option<MachineState>)
    requires WellFormed(m)
    ensures r.None? <==>
      (m.pathEnabled && !IsLeafNode(g, s) && loopPathLength != 0 && TooShortForLoop(m.path, loopPathLength))
  {
    if !m.pathEnabled then Some(m)
    else if IsLeafNode(g, s) then
      Some(m.(path := Appended(m.path, [StateName(g, s)], m.limit), loops := 0))
    else if loopPathLength == 0 then
      Some(m.(path := Appended(m.path, [StateName(g, s), ">"], m.limit), loops := 0))
    else if TooShortForLoop(m.path, loopPathLength) then None
    else
      Some(m.(path := Compacted(m.path, loopPathLength, LoopMarker(m.loops + 1, StateName(g, s))),
              loops := m.loops + 1))
  }

  /**
   * addStateToPath, corrected: a loop entry on a path too short to hold the loop
   * (the path was restarted in between) is recorded as an ordinary entry.
   */
  function WithStateInPath(g: Graph, m: MachineState, s: State, loopPathLength: nat): (r: MachineState)
    requires WellFormed(m)
    ensures WellFormed(r)
    ensures r == m.(path := r.path, loops := r.loops)
    ensures !m.pathEnabled ==> r == m
    ensures m.pathEnabled ==> |r.path| <= if |m.path| > m.limit then |m.path| else m.limit
  {
    if !m.pathEnabled then m
    else if IsLeafNode(g, s) then
      m.(path := Appended(m.path, [StateName(g, s)], m.limit), loops := 0)
    else if loopPathLength == 0 || TooShortForLoop(m.path, loopPathLength) then
      m.(path := Appended(m.path, [StateName(g, s), ">"], m.limit), loops := 0)
    else
      m.(path := Compacted(m.path, loopPathLength, LoopMarker(m.loops + 1, StateName(g, s))),
         loops := m.loops + 1)
  }

  /** Wherever addStateToPath as written does not panic, the corrected version agrees with it. */
  lemma CorrectionAgreesAsWritten(g: Graph, m: MachineState, s: State, loopPathLength: nat)
    requires WellFormed(m)
    ensures WithStateInPathAsWritten(g, m, s, loopPathLength).Some? ==>
      WithStateInPathAsWritten(g, m, s, loopPathLength).value == WithStateInPath(g, m, s, loopPathLength)
  {
  }

  /**
   * enterInState: the previous state becomes the Default sentinel when the machine
   * was OFF, else the current one; a re-entry of the previous state is a loop of two
   * states; entering a leaf turns the machine OFF.
   */
  function Entering(g: Graph, m: MachineState, s: State): (r: MachineState)
    requires WellFormed(m)
    ensures WellFormed(r)
    ensures r.pathEnabled == m.pathEnabled && r.limit == m.limit
    ensures IsLeafNode(g, s) ==> r.cur == DefaultState && IsOff(r)
    ensures !IsLeafNode(g, s) ==> r.cur == s && r.prev == (if IsOff(m) then DefaultState else m.cur)
  {
    var loopPathLength: nat := if !IsOff(m) && m.prev == s then 2 else 0;
    var m1 := m.(prev := if IsOff(m) then DefaultState else m.cur, cur := s);
    var m2 := WithStateInPath(g, m1, s, loopPathLength);
    if IsLeafNode(g, s) then m2.(prev := DefaultState, cur := DefaultState) else m2
  }

  /** SetState: enters unless the machine is ON and already there; an enabled path restarts. */
  function SettingState(g: Graph, m: MachineState, s: State): (r: (bool, MachineState))
    requires WellFormed(m)
    ensures r.0 <==> m.cur != s || IsOff(m)
    ensures !r.0 ==> r.1 == m
    ensures WellFormed(r.1)
  {
    if m.cur != s || IsOff(m) then
      (true, Entering(g, if m.pathEnabled then WithPathEnabled(m) else m, s))
    else (false, m)
  }

  /** The child EnterNextState enters, if any. */
  function NextChild(g: Graph, m: MachineState, events: seq<State>): Option<State> {
    var children := Children(g, m.cur);
    match FirstTriggered(children, events)
    case None => None
    case Some(i) => Some(children[i])
  }

  /** EnterNextState: enter the selected child, or stay put. */
  function NextTransition(g: Graph, m: MachineState, events: seq<State>): (r: (bool, MachineState))
    requires WellFormed(m)
    ensures r.0 <==> NextChild(g, m, events).Some?
    ensures !r.0 ==> r.1 == m
    ensures WellFormed(r.1)
  {
    match NextChild(g, m, events)
    case None => (false, m)
    case Some(c) => (true, Entering(g, m, c))
  }

  /** A machine turned OFF by a leaf never moves on by itself: SetState must be called. */
  lemma OffMachineCannotAdvance(g: Graph, m: MachineState, events: seq<State>)
    requires WellFormed(m) && m.cur == DefaultState && IsLeafNode(g, DefaultState)
    ensures NextTransition(g, m, events) == (false, m)
  {
  }

  /** Entering the previous state again, on a path long enough, folds the loop: the path keeps its length. */
  lemma LoopEntryKeepsPathLength(g: Graph, m: MachineState, s: State)
    requires WellFormed(m) && m.pathEnabled && !IsOff(m) && m.prev == s
    requires !IsLeafNode(g, s) && |m.path| >= 5
    ensures |Entering(g, m, s).path| == |m.path|
    ensures Entering(g, m, s).loops == m.loops + 1
    ensures Entering(g, m, s).path[|m.path| - 1] == LoopMarker(m.loops + 1, StateName(g, s))
  {
    LoopEntry(g, m, s);
  }

  /** Any other entry resets the loop counter. */
  lemma OtherEntryResetsLoopCount(g: Graph, m: MachineState, s: State)
    requires WellFormed(m) && m.pathEnabled
    requires IsOff(m) || m.prev != s || IsLeafNode(g, s)
    ensures Entering(g, m, s).loops == 0
  {
  }

  /** An ordinary entry of a state that is not a leaf, with room left under the limit, appends its name and a separator. */
  lemma OrdinaryEntry(g: Graph, m: MachineState, s: State)
    requires WellFormed(m) && m.pathEnabled && !IsLeafNode(g, s)
    requires IsOff(m) || m.prev != s
    requires |m.path| + 2 <= m.limit
    ensures Entering(g, m, s) == m.(prev := if IsOff(m) then DefaultState else m.cur, cur := s,
      path := m.path + [StateName(g, s), ">"], loops := 0)
  {
  }

  /** A loop entry on a path that holds the loop folds it in place. */
  lemma LoopEntry(g: Graph, m: MachineState, s: State)
    requires WellFormed(m) && m.pathEnabled && !IsLeafNode(g, s)
    requires !IsOff(m) && m.prev == s && |m.path| >= 5
    ensures Entering(g, m, s) == m.(prev := m.cur, cur := s,
      path := Compacted(m.path, 2, LoopMarker(m.loops + 1, StateName(g, s))), loops := m.loops + 1)
  {
    var m1 := m.(prev := m.cur, cur := s);
    assert !TooShortForLoop(m1.path, 2);
    assert WithStateInPath(g, m1, s, 2)
      == m1.(path := Compacted(m1.path, 2, LoopMarker(m1.loops + 1, StateName(g, s))), loops := m1.loops + 1);
  }

  /** Entering a leaf, with room left under the limit, appends its name and turns the machine OFF. */
  lemma LeafEntry(g: Graph, m: MachineState, s: State)
    requires WellFormed(m) && m.pathEnabled && IsLeafNode(g, s)
    requires |m.path| + 1 <= m.limit
    ensures Entering(g, m, s) == m.(prev := DefaultState, cur := DefaultState,
      path := m.path + [StateName(g, s)], loops := 0)
  {
  }

  /**
   * The defect of the source: SetState on the previous state while the machine is ON
   * restarts the path and then folds a loop that the path does not hold, so the
   * source indexes the path at -4.
   */
  lemma SetStateOnPreviousStatePanicsAsWritten()
    ensures var m := MachineState(2, 1, true, [">", "Run", ">", "Servicing", ">"], 0, 512);
      var m1 := WithPathEnabled(m);
      WithStateInPathAsWritten(TestGraph(), m1.(prev := m1.cur, cur := 1), 1, 2).None?
  {
  }

  /** What the corrected model keeps instead: SetState on any state that is not a leaf restarts the walk with that state alone. */
  lemma SetStateRestartsPath(g: Graph, m: MachineState, s: State)
    requires WellFormed(m) && m.pathEnabled && !IsLeafNode(g, s)
    requires m.cur != s || IsOff(m)
    ensures SettingState(g, m, s).1.path == [">", StateName(g, s), ">"]
    ensures SettingState(g, m, s).1.loops == 0
  {
    var m1 := WithPathEnabled(m);
    var loopPathLength: nat := if !IsOff(m1) && m1.prev == s then 2 else 0;
    assert TooShortForLoop(m1.path, loopPathLength) || loopPathLength == 0;
  }

  /** Concatenation of the path tokens (GetPathInGraph). */
  function Concat(tokens: seq<string>): string
    decreases |tokens|
  {
    if tokens == [] then "" else Concat(tokens[..|tokens| - 1]) + tokens[|tokens| - 1]
  }

  lemma {:induction false} ConcatAppend(a: seq<string>, b: seq<string>)
    ensures Concat(a + b) == Concat(a) + Concat(b)
    decreases |b|
  {
    if b == [] {
      assert a + b == a;
    } else {
      var b' := b[..|b| - 1];
      assert (a + b)[..|a + b| - 1] == a + b';
      ConcatAppend(a, b');
    }
  }

  class Machine {
    const graph: Graph
    var curState: State
    var prevState: State
    var pathEnabled: bool
    var pathInGraph: seq<string>
    var pathLoopsCount: nat
    var pathLengthLimit: nat

    function View(): MachineState
      reads this
    {
      MachineState(curState, prevState, pathEnabled, pathInGraph, pathLoopsCount, pathLengthLimit)
    }

    ghost predicate Valid()
      reads this
    {
      WellFormed(View())
    }

    /** A new machine over a graph: every field at its zero value, hence OFF with no path. */
    constructor (g: Graph)
      ensures Valid() && graph == g
      ensures View() == MachineState(0, 0, false, [], 0, 0)
    {
      graph := g;
      curState, prevState := 0, 0;
      pathEnabled, pathInGraph := false, [];
      pathLoopsCount, pathLengthLimit := 0, 0;
    }

    predicate IsOFF()
      reads this
    {
      prevState == curState
    }

    function GetState(): State
      reads this
    {
      curState
    }

    predicate IsPathInGraphEnabled()
      reads this
    {
      pathEnabled
    }

    method SetOFF()
      modifies this
      ensures View() == old(View()).(cur := DefaultState, prev := DefaultState)
    {
      prevState := DefaultState;
      curState := DefaultState;
    }

    method EnablePathInGraph()
      requires Valid()
      modifies this
      ensures Valid()
      ensures View() == WithPathEnabled(old(View()))
    {
      pathEnabled := true;
      pathInGraph := [">"];
      if pathLengthLimit == 0 {
        pathLengthLimit := 512;
      }
    }

    method DisablePathInGraph()
      requires Valid()
      modifies this
      ensures Valid()
      ensures View() == old(View()).(pathEnabled := false, path := [])
    {
      pathEnabled := false;
      pathInGraph := [];
    }

    method SetPathLengthLimit(max: nat)
      requires Valid()
      modifies this
      ensures Valid()
      ensures View() == old(View()).(limit := ClampedLimit(max))
    {
      var m := max;
      if m < 5 {
        m := 5;
      } else if m > 1024 {
        m := 1024;
      }
      pathLengthLimit := m;
    }

    /** The path as one string. */
    method GetPathInGraph() returns (path: string)
      ensures path == Concat(pathInGraph)
    {
      path := "";
      for i := 0 to |pathInGraph|
        invariant path == Concat(pathInGraph[..i])
      {
        assert pathInGraph[..i + 1][..i] == pathInGraph[..i];
        path := path + pathInGraph[i];
      }
      assert pathInGraph[..|pathInGraph|] == pathInGraph;
    }

    method AppendToPath(elems: seq<string>)
      requires |pathInGraph| + |elems| > pathLengthLimit ==> |pathInGraph| + |elems| >= 2
      modifies this
      ensures View() == old(View()).(path := Appended(old(pathInGraph), elems, old(pathLengthLimit)))
    {
      pathInGraph := pathInGraph + elems;
      if |pathInGraph| > pathLengthLimit {
        pathInGraph := pathInGraph[2..];
      }
    }

    method AddStateToPath(s: State, loopPathLength: nat)
      requires Valid()
      modifies this
      ensures Valid()
      ensures View() == WithStateInPath(graph, old(View()), s, loopPathLength)
    {
      if !pathEnabled {
        return;
      }
      var stateName := StateName(graph, s);
      if IsLeafNode(graph, s) {
        AppendToPath([stateName]);
        pathLoopsCount := 0;
      } else if loopPathLength == 0 || TooShortForLoop(pathInGraph, loopPathLength) {
        pathLoopsCount := 0;
        AppendToPath([stateName, ">"]);
      } else {
        ghost var before := pathInGraph;
        pathLoopsCount := pathLoopsCount + 1;
        var pathLen := |pathInGraph|;
        pathInGraph := pathInGraph[pathLen - (2 * loopPathLength + 1) := ">("];
        pathInGraph := pathInGraph[pathLen - 3 := "<<>>"];
        pathInGraph := pathInGraph[pathLen - 1 := LoopMarker(pathLoopsCount, stateName)];
        assert pathInGraph == Compacted(before, loopPathLength, LoopMarker(pathLoopsCount, stateName));
      }
    }

    /** enterInState; the Enter hook is left to the caller, which knows the state entered. */
    method EnterInState(s: State)
      requires Valid()
      modifies this
      ensures Valid()
      ensures View() == Entering(graph, old(View()), s)
    {
      var loopPathLength: nat := 0;
      if IsOFF() {
        prevState := DefaultState;
      } else {
        if prevState == s {
          loopPathLength := 2;
        }
        prevState := curState;
      }
      curState := s;
      AddStateToPath(s, loopPathLength);
      if IsLeafNode(graph, s) {
        SetOFF();
      }
    }

    method SetState(s: State) returns (entered: bool)
      requires Valid()
      modifies this
      ensures Valid()
      ensures (entered, View()) == SettingState(graph, old(View()), s)
    {
      if curState != s || IsOFF() {
        if IsPathInGraphEnabled() {
          EnablePathInGraph();
        }
        EnterInState(s);
        return true;
      }
      return false;
    }

    /** EnterNextState; also returns the state entered, for the caller to run its hook on. */
    method EnterNextState(events: seq<State>) returns (entered: bool, next: State)
      requires Valid()
      modifies this
      ensures Valid()
      ensures (entered, View()) == NextTransition(graph, old(View()), events)
      ensures entered ==> NextChild(graph, old(View()), events) == Some(next)
    {
      var children := Children(graph, curState);
      var (exists_, defaultChild) := Default(children);
      if !exists_ {
        return false, DefaultState;
      }
      for i := 0 to |children|
        invariant View() == old(View())
        invariant forall j :: 0 <= j < i ==>
          !Triggers(events, children[j], IsDefault(children, children[j]))
      {
        var t := IsTriggeringState(events, children[i], children[i] == defaultChild);
        if t {
          EnterInState(children[i]);
          return true, children[i];
        }
      }
      return false, DefaultState;
    }
  }

  /** The graph of the machine's own unit test: Start(0), Run(1), Service(2, "Servicing"), Stop(3, "Stopping"), End(4). */
  function TestGraph(): Graph {
    map[
      0 := NodeInfo("Start", [4, 1]),
      1 := NodeInfo("Run", [2, 3]),
      2 := NodeInfo("Servicing", [3, 1]),
      3 := NodeInfo("Stopping", [4]),
      4 := NodeInfo("End", [])]
  }

  /** The nodes of the unit test's graph, and no node for the Default sentinel. */
  predicate ShapedLikeTestGraph(g: Graph) {
    && 0 in g && g[0] == NodeInfo("Start", [4, 1])
    && 1 in g && g[1] == NodeInfo("Run", [2, 3])
    && 2 in g && g[2] == NodeInfo("Servicing", [3, 1])
    && 3 in g && g[3] == NodeInfo("Stopping", [4])
    && 4 in g && g[4] == NodeInfo("End", [])
    && DefaultState !in g
  }

  lemma TestGraphShape()
    ensures ShapedLikeTestGraph(TestGraph())
  {
  }

  /** The path while the unit test oscillates between Run and Servicing, after k rounds. */
  function OscillationPath(k: nat): seq<string> {
    if k == 0 then [">", "Run", ">", "Servicing", ">"]
    else [">(", "Run", "<<>>", "Servicing", LoopMarker(2 * k, "Servicing")]
  }

  /** A round of the unit test: the wildcard event back to Run, then the Service event. */
  function Round(g: Graph, m: MachineState): MachineState {
    if WellFormed(m) then NextTransition(g, NextTransition(g, m, [DefaultState]).1, [2]).1 else m
  }

  /** n applications of a step. */
  function Iterate(step: MachineState -> MachineState, m: MachineState, n: nat): MachineState
    decreases n
  {
    if n == 0 then m else Iterate(step, step(m), n - 1)
  }

  /** The machine in Servicing, coming from Run, after k rounds. */
  function Oscillating(k: nat): MachineState {
    MachineState(2, 1, true, OscillationPath(k), 2 * k, 512)
  }

  /** The path halfway through a round, back in Run. */
  function HalfRoundPath(k: nat): seq<string> {
    [">(", "Run", "<<>>", "Servicing", LoopMarker(2 * k + 1, "Run")]
  }

  /** Folding a loop of two states on a five-token path. */
  lemma CompactedFive(a: string, b: string, c: string, d: string, e: string, marker: string)
    ensures Compacted([a, b, c, d, e], 2, marker) == [">(", b, "<<>>", d, marker]
  {
  }

  /** EnterNextState back into the previous state, on a five-token path: the loop of two states is folded. */
  lemma TwoStateLoopTransition(g: Graph, m: MachineState, events: seq<State>, c: State)
    requires WellFormed(m) && m.pathEnabled && !IsOff(m) && m.prev == c && |m.path| == 5
    requires NextChild(g, m, events) == Some(c) && !IsLeafNode(g, c)
    ensures NextTransition(g, m, events) == (true, m.(prev := m.cur, cur := c,
      path := [">(", m.path[1], "<<>>", m.path[3], LoopMarker(m.loops + 1, StateName(g, c))], loops := m.loops + 1))
  {
    LoopEntry(g, m, c);
    var p := m.path;
    CompactedFive(p[0], p[1], p[2], p[3], p[4], LoopMarker(m.loops + 1, StateName(g, c)));
    assert p == [p[0], p[1], p[2], p[3], p[4]];
  }

  /** What a round of the unit test uses of its graph: Run and Servicing, their names and their children. */
  predicate RunAndServicing(g: Graph) {
    && Children(g, 1) == [2, 3] && Children(g, 2) == [3, 1]
    && StateName(g, 1) == "Run" && StateName(g, 2) == "Servicing"
  }

  lemma TestGraphRunAndServicing(g: Graph)
    requires ShapedLikeTestGraph(g)
    ensures RunAndServicing(g)
  {
  }

  lemma BackToRun(g: Graph, k: nat)
    requires RunAndServicing(g)
    ensures NextTransition(g, Oscillating(k), [DefaultState])
      == (true, MachineState(1, 2, true, HalfRoundPath(k), 2 * k + 1, 512))
  {
    assert NextChild(g, Oscillating(k), [DefaultState]) == Some(1);
    var p := OscillationPath(k);
    assert p[1] == "Run" && p[3] == "Servicing";
    TwoStateLoopTransition(g, Oscillating(k), [DefaultState], 1);
  }

  lemma BackToService(g: Graph, k: nat)
    requires RunAndServicing(g)
    ensures NextTransition(g, MachineState(1, 2, true, HalfRoundPath(k), 2 * k + 1, 512), [2])
      == (true, Oscillating(k + 1))
  {
    var a := MachineState(1, 2, true, HalfRoundPath(k), 2 * k + 1, 512);
    assert NextChild(g, a, [2]) == Some(2);
    assert 2 * k + 1 + 1 == 2 * (k + 1);
    var h := HalfRoundPath(k);
    assert h[1] == "Run" && h[3] == "Servicing";
    TwoStateLoopTransition(g, a, [2], 2);
  }

  lemma OscillationRound(g: Graph, k: nat)
    requires ShapedLikeTestGraph(g)
    ensures Round(g, Oscillating(k))
      == Oscillating(k + 1)
  {
    TestGraphRunAndServicing(g);
    BackToRun(g, k);
    BackToService(g, k);
  }

  /** A step that moves each machine of a chain to the next one moves n places along it in n applications. */
  lemma {:induction false} IterateAlong(step: MachineState -> MachineState, chain: nat -> MachineState, k: nat, n: nat)
    requires forall j: nat :: step(chain(j)) == chain(j + 1)
    ensures Iterate(step, chain(k), n) == chain(k + n)
    decreases n
  {
    if n > 0 {
      assert step(chain(k)) == chain(k + 1);
      IterateAlong(step, chain, k + 1, n - 1);
      assert k + 1 + (n - 1) == k + n;
    }
  }

  /** The eleven rounds of the unit test leave one folded group showing twelve. */
  lemma ElevenRounds(g: Graph)
    requires ShapedLikeTestGraph(g)
    ensures Iterate(m => Round(g, m), Oscillating(0), 11) == Oscillating(11)
  {
    var step := m => Round(g, m);
    var chain := Oscillating;
    forall j: nat
      ensures step(chain(j)) == chain(j + 1)
    {
      OscillationRound(g, j);
    }
    IterateAlong(step, chain, 0, 11);
  }

  /** The unit test up to its oscillation: Start, End (OFF), a refused step, Run, a refused step, Servicing. */
  lemma UnitTestOpening(g: Graph)
    requires ShapedLikeTestGraph(g)
    ensures
      var m0 := WithPathEnabled(MachineState(0, 0, false, [], 0, 0));
      var s1 := SettingState(g, m0, 0);
      var n1 := NextTransition(g, s1.1, [4]);
      var n2 := NextTransition(g, n1.1, [0]);
      var s2 := SettingState(g, n2.1, 1);
      var n3 := NextTransition(g, s2.1, [0]);
      var n4 := NextTransition(g, n3.1, [2]);
      s1.0 && !IsOff(s1.1) && s1.1.cur == 0
      && n1.0 && IsOff(n1.1) && n1.1.cur == DefaultState
      && !n2.0 && s2.0 && s2.1.cur == 1 && !n3.0 && n4.0
      && n4.1 == Oscillating(0)
  {
    var m0 := WithPathEnabled(MachineState(0, 0, false, [], 0, 0));
    var s1 := SettingState(g, m0, 0);
    assert s1.1 == MachineState(0, DefaultState, true, [">", "Start", ">"], 0, 512);
    assert FirstTriggered(Children(g, 0), [4]) == Some(0);
    var n1 := NextTransition(g, s1.1, [4]);
    assert n1.1.cur == DefaultState && n1.1.prev == DefaultState;
    var n2 := NextTransition(g, n1.1, [0]);
    var s2 := SettingState(g, n2.1, 1);
    assert s2.1 == MachineState(1, DefaultState, true, [">", "Run", ">"], 0, 512);
    assert FirstTriggered(Children(g, 1), [0]) == None;
    var n3 := NextTransition(g, s2.1, [0]);
    assert FirstTriggered(Children(g, 1), [2]) == Some(0);
  }

  /** The end of the walk: the Stop event outranks Run, the wildcard leads to End, and the path shows a single folded group. */
  lemma UnitTestClosing(g: Graph)
    requires ShapedLikeTestGraph(g)
    ensures
      var r := Oscillating(11);
      var n5 := NextTransition(g, r, [1, 3]);
      var n6 := NextTransition(g, n5.1, [DefaultState]);
      n5.0 && n5.1.cur == 3 && n6.0 && IsOff(n6.1) && n6.1.cur == DefaultState
      && n6.1.path == [">(", "Run", "<<>>", "Servicing", ")x12>", "Stopping", ">", "End"]
  {
    var r := Oscillating(11);
    assert FirstTriggered(Children(g, 2), [1, 3]) == Some(0);
    OrdinaryEntry(g, r, 3);
    var n5 := NextTransition(g, r, [1, 3]);
    assert FirstTriggered(Children(g, 3), [DefaultState]) == Some(0);
    LeafEntry(g, n5.1, 4);
    var n6 := NextTransition(g, n5.1, [DefaultState]);
    assert Decimal.NatToString(12) == ['1', '2'] by {
      assert Decimal.NatToString(1) == ['1'];
    }
    assert LoopMarker(22, "Servicing") == ")x12>";
    assert OscillationPath(11) == [">(", "Run", "<<>>", "Servicing", ")x12>"];
    assert n6.1.path == [">(", "Run", "<<>>", "Servicing", ")x12>", "Stopping", ">", "End"];
  }
}
