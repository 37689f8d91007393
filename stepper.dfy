/**
 * The Stepper reconciliation engine: a state machine over a fixed graph of
 * reconciliation steps (CR check, objects getting, mutation, update, success,
 * finalization, error and give-up management). Each step's hook records outcomes in
 * the results aggregator; the outcomes decide the events that select the next step.
 */
module Engines {
  import opened Errors
  import opened Wrappers
  import SM = StateMachine
  import R = Results

  type State = SM.State

  const CRChecker: State := 0
  const CRFinalizer: State := 1
  const ObjectsGetter: State := 2
  const Mutator: State := 3
  const Updater: State := 4
  const ErrorManager: State := 5
  const SuccessManager: State := 6
  const GiveupManager: State := 7
  const End: State := 8

  /** The reconciliation graph; in each child list, errors and give-ups come first and the normal course last. */
  function RecGraph(): SM.Graph {
    map[
      CRChecker := SM.NodeInfo("CRChecker", [ErrorManager, GiveupManager, CRFinalizer, ObjectsGetter]),
      ObjectsGetter := SM.NodeInfo("ObjectsGetter", [ErrorManager, GiveupManager, Mutator]),
      Mutator := SM.NodeInfo("Mutator", [ErrorManager, GiveupManager, Updater]),
      Updater := SM.NodeInfo("Updater", [ErrorManager, GiveupManager, SuccessManager]),
      CRFinalizer := SM.NodeInfo("CRFinalizer", [ErrorManager, GiveupManager, End]),
      SuccessManager := SM.NodeInfo("SuccessManager", [ErrorManager, GiveupManager, End]),
      ErrorManager := SM.NodeInfo("ErrorManager", [GiveupManager, End]),
      GiveupManager := SM.NodeInfo("GiveupManager", [End]),
      End := SM.NodeInfo("End", [])]
  }

  /** The shape of the reconciliation graph, stated on its nodes. */
  predicate ShapedLikeRecGraph(g: SM.Graph) {
    (forall s :: s in g ==> 0 <= s <= 8)
    && CRChecker in g && g[CRChecker].children == [ErrorManager, GiveupManager, CRFinalizer, ObjectsGetter]
    && ObjectsGetter in g && g[ObjectsGetter].children == [ErrorManager, GiveupManager, Mutator]
    && Mutator in g && g[Mutator].children == [ErrorManager, GiveupManager, Updater]
    && Updater in g && g[Updater].children == [ErrorManager, GiveupManager, SuccessManager]
    && CRFinalizer in g && g[CRFinalizer].children == [ErrorManager, GiveupManager, End]
    && SuccessManager in g && g[SuccessManager].children == [ErrorManager, GiveupManager, End]
    && ErrorManager in g && g[ErrorManager].children == [GiveupManager, End]
    && GiveupManager in g && g[GiveupManager].children == [End]
    && End in g && g[End].children == []
  }

  lemma RecGraphShape()
    ensures ShapedLikeRecGraph(RecGraph())
  {
  }

  /**
   * eventsList: an error (the give-up's reason included) raises ErrorManager, a give-up
   * raises GiveupManager, a single finalization outcome raises CRFinalizer, and the
   * wildcard always closes the list.
   */
  function EventsList(consolidatedError: (bool, Error), finalizingCount: R.Uint16): seq<State> {
    (if consolidatedError.1 != Nil then [ErrorManager] else [])
    + (if consolidatedError.0 then [GiveupManager] else [])
    + (if finalizingCount == 1 then [CRFinalizer] else [])
    + [SM.DefaultState]
  }

  /** Each event is raised exactly when its outcome holds, and the wildcard closes the list. */
  lemma EventsListMeaning(consolidatedError: (bool, Error), finalizingCount: R.Uint16)
    ensures var events := EventsList(consolidatedError, finalizingCount);
      && (ErrorManager in events <==> consolidatedError.1 != Nil)
      && (GiveupManager in events <==> consolidatedError.0)
      && (CRFinalizer in events <==> finalizingCount == 1)
      && events != [] && events[|events| - 1] == SM.DefaultState
      && forall e :: e in events ==> e == ErrorManager || e == GiveupManager || e == CRFinalizer || e == SM.DefaultState
  {
  }

  /** What a user hook may do to the results when its step is entered. */
  datatype HookAction =
    | AddOp(resource: R.ResourceInfo, result: R.OperationResult, err: Error, requeueAfterSeconds: R.Uint16)
    | AddOpSuccess(resource: R.ResourceInfo, result: R.OperationResult)
    | AddGiveupError(resource: R.ResourceInfo, result: R.OperationResult, reason: Error)
    | ResetAllResults
    | SetGiveUpReason(reason: Error)
  {
    /** Whether the action records one outcome. */
    predicate Records() {
      AddOp? || AddOpSuccess? || AddGiveupError?
    }
  }

  /**
   * The user hook (StepperEngineHook.EnterInState), as the actions it takes in each
   * step. A run enters each step at most once, so this covers every hook.
   */
  type Hook = State -> seq<HookAction>

  /**
   * Everything a run reads and changes: the machine, the recorded outcomes with the
   * aggregator's running consolidated outcome and CRIsFinalizing counter, the
   * sentinel's reason, the give-up flag, and the steps entered.
   */
  datatype World = World(
    m: SM.MachineState, rs: seq<R.OpResInfo>, consolidated: R.OpResInfo, finalizing: R.Uint16,
    reason: Reason, giveup: bool, trace: seq<State>)

  /** The running values agree with the recorded outcomes. */
  ghost predicate Summarized(w: World) {
    w.consolidated == R.Consolidate(w.rs) && w.finalizing == R.CountOp(w.rs, R.CRIsFinalizing) % 0x1_0000
  }

  /** One outcome recorded (addEntry). */
  function Recorded(w: World, e: R.OpResInfo): (r: World)
    ensures r.m == w.m && r.trace == w.trace && r.reason == w.reason && r.giveup == w.giveup
    ensures r.rs == w.rs + [e]
  {
    w.(rs := w.rs + [e], consolidated := R.AddEntryTo(w.consolidated, e),
       finalizing := if e.operation == R.CRIsFinalizing then R.Inc16(w.finalizing) else w.finalizing)
  }

  lemma RecordedSummarized(w: World, e: R.OpResInfo)
    requires Summarized(w)
    ensures Summarized(Recorded(w, e))
  {
    R.CountsAppend(w.rs, e);
    R.Inc16Mod(R.CountOp(w.rs, R.CRIsFinalizing));
  }

  /** The outcome a hook action records. */
  function EntryOf(a: HookAction): R.OpResInfo
    requires a.Records()
  {
    match a
    case AddOp(res, op, err, d) => R.NewEntry(res, op, err, d)
    case AddOpSuccess(res, op) => R.NewEntry(res, op, Nil, 0)
    case AddGiveupError(res, op, _) => R.NewEntry(res, op, GiveUp, 0)
  }

  function ApplyAction(w: World, a: HookAction): (r: World)
    ensures r.m == w.m && r.trace == w.trace
  {
    match a
    case AddOp(_, _, err, _) => Recorded(w, EntryOf(a)).(giveup := w.giveup || err.GiveUp?)
    case AddOpSuccess(_, _) => Recorded(w, EntryOf(a))
    case AddGiveupError(_, _, reason) => Recorded(w, EntryOf(a)).(reason := R.StoredReason(w.reason, reason), giveup := true)
    case ResetAllResults => w.(rs := [], consolidated := R.InitialConsolidated(), finalizing := 0)
    case SetGiveUpReason(reason) => w.(reason := R.StoredReason(w.reason, reason))
  }

  lemma ApplyActionSummarized(w: World, a: HookAction)
    requires Summarized(w)
    ensures Summarized(ApplyAction(w, a))
  {
    if a.Records() {
      RecordedSummarized(w, EntryOf(a));
    }
  }

  function ApplyActions(w: World, actions: seq<HookAction>): (r: World)
    ensures r.m == w.m && r.trace == w.trace
    decreases |actions|
  {
    if actions == [] then w else ApplyAction(ApplyActions(w, actions[..|actions| - 1]), actions[|actions| - 1])
  }

  lemma {:induction false} ApplyActionsSummarized(w: World, actions: seq<HookAction>)
    requires Summarized(w)
    ensures Summarized(ApplyActions(w, actions))
    decreases |actions|
  {
    if actions != [] {
      ApplyActionsSummarized(w, actions[..|actions| - 1]);
      ApplyActionSummarized(ApplyActions(w, actions[..|actions| - 1]), actions[|actions| - 1]);
    }
  }

  /** Stepper.Enter: the give-up and end steps only log; every other step runs the user hook. */
  function EnterStep(hook: Hook, w: World, s: State): (r: World)
    ensures r.m == w.m && r.trace == w.trace + [s]
  {
    var w1 := w.(trace := w.trace + [s]);
    if s == GiveupManager || s == End then w1 else ApplyActions(w1, hook(s))
  }

  /** Entering child c of the current step: the machine moves, then the step's own work runs. */
  function Advance(g: SM.Graph, hook: Hook, w: World, c: State): (r: World)
    requires SM.WellFormed(w.m)
    ensures r.m == SM.Entering(g, w.m, c) && SM.WellFormed(r.m) && r.trace == w.trace + [c]
  {
    EnterStep(hook, w.(m := SM.Entering(g, w.m, c)), c)
  }

  /** The events of the current outcomes, from the running values CurrentEvents reads. */
  function Events(w: World): seq<State> {
    EventsList(if w.consolidated.error.GiveUp? then (true, w.reason) else (false, w.consolidated.error), w.finalizing)
  }

  /** The events are those of the recorded outcomes: their consolidated error and their count of finalizations. */
  lemma EventsOfOutcomes(w: World)
    requires Summarized(w)
    ensures Events(w) == EventsList(R.ConsolidatedErrorOf(w.rs, w.reason), R.CountOp(w.rs, R.CRIsFinalizing) % 0x1_0000)
  {
  }

  const InfiniteLoopMessage: string := "infinite loop in reconciliation machine state"

  /** The loop breaker's give-up. */
  const BreakerGiveUp: HookAction := AddGiveupError(R.NoResource, R.InfiniteLoop, Plain(InfiniteLoopMessage))

  /**
   * One turn of Run's loop from w: none at a leaf or when the events select no child,
   * otherwise the world once the selected child is entered and its step has run.
   */
  function Next(g: SM.Graph, hook: Hook, w: World): (r: Option<World>)
    requires SM.WellFormed(w.m)
    ensures r.Some? ==> SM.WellFormed(r.value.m)
  {
    if SM.IsLeafNode(g, w.m.cur) then None
    else match SM.NextChild(g, w.m, Events(w))
      case None => None
      case Some(c) => Some(Advance(g, hook, w, c))
  }

  /** Next on every world; a machine that is not well formed takes no turn. */
  function Step(g: SM.Graph, hook: Hook): World -> Option<World> {
    (w: World) => if SM.WellFormed(w.m) then Next(g, hook, w) else None
  }

  /** A loop of turns, with the turns its loop breaker still allows: the last turn gives up with InfiniteLoop. */
  function LoopWith(next: World -> Option<World>, w: World, breaker: nat): World
    requires breaker >= 1
    decreases breaker
  {
    match next(w)
    case None => w
    case Some(w1) => if breaker - 1 == 0 then ApplyAction(w1, BreakerGiveUp) else LoopWith(next, w1, breaker - 1)
  }

  /** Run's loop: it goes on while the current step is not a leaf and the events select a child. */
  function Loop(g: SM.Graph, hook: Hook, w: World, breaker: nat): World
    requires breaker >= 1
  {
    LoopWith(Step(g, hook), w, breaker)
  }

  /** A turn of Run's loop, spelt out. */
  lemma LoopTurn(g: SM.Graph, hook: Hook, w: World, breaker: nat, left: nat)
    requires SM.WellFormed(w.m) && breaker >= 1 && left == breaker - 1
    ensures Loop(g, hook, w, breaker) ==
      match Next(g, hook, w)
      case None => w
      case Some(w1) => if left == 0 then ApplyAction(w1, BreakerGiveUp) else Loop(g, hook, w1, left)
  {
    assert Step(g, hook)(w) == Next(g, hook, w);
    LoopWithTurn(Step(g, hook), w, breaker, left);
  }

  /** A turn of any loop of turns. */
  lemma LoopWithTurn(next: World -> Option<World>, w: World, breaker: nat, left: nat)
    requires breaker >= 1 && left == breaker - 1
    ensures LoopWith(next, w, breaker) ==
      match next(w)
      case None => w
      case Some(w1) => if left == 0 then ApplyAction(w1, BreakerGiveUp) else LoopWith(next, w1, left)
  {
  }

  /** The start of Run: clear the sentinel's reason, restart the path, then set the machine on CRChecker. */
  function Started(g: SM.Graph, hook: Hook, w: World): (r: World)
    requires SM.WellFormed(w.m)
    ensures SM.WellFormed(r.m)
    ensures !SM.IsLeafNode(g, CRChecker) ==> r.m.cur == CRChecker
  {
    var w0 := w.(reason := Nil, m := SM.WithPathEnabled(w.m));
    var (entered, m1) := SM.SettingState(g, w0.m, CRChecker);
    if entered then EnterStep(hook, w0.(m := m1), CRChecker) else w0.(m := m1)
  }

  /** Run: start, then loop with a breaker of 1000. */
  function RunSpec(g: SM.Graph, hook: Hook, w: World): World
    requires SM.WellFormed(w.m)
  {
    Loop(g, hook, Started(g, hook, w), 1000)
  }

  /** The number of steps left to End along the longest branch. */
  function Depth(s: State): nat {
    if s == CRChecker then 7
    else if s == ObjectsGetter then 6
    else if s == Mutator then 5
    else if s == Updater then 4
    else if s == CRFinalizer || s == SuccessManager then 3
    else if s == ErrorManager then 2
    else if s == GiveupManager then 1
    else 0
  }

  /** Every edge of the graph goes to a step closer to End: the graph has no cycle. */
  lemma ChildIsDeeper(g: SM.Graph, s: State, c: State)
    requires ShapedLikeRecGraph(g) && !SM.IsLeafNode(g, s) && c in SM.Children(g, s)
    ensures Depth(c) < Depth(s) && 0 <= c <= 8
  {
  }

  /** Every turn goes to a step closer to End. */
  ghost predicate Descends(next: World -> Option<World>) {
    forall v :: next(v).Some? ==> Depth(next(v).value.m.cur) < Depth(v.m.cur)
  }

  lemma StepDescends(g: SM.Graph, hook: Hook)
    requires ShapedLikeRecGraph(g)
    ensures Descends(Step(g, hook))
  {
    forall v | Step(g, hook)(v).Some?
      ensures Depth(Step(g, hook)(v).value.m.cur) < Depth(v.m.cur)
    {
      var c := SM.NextChild(g, v.m, Events(v)).value;
      ChildIsDeeper(g, v.m.cur, c);
    }
  }

  /** Turns until none is taken, without a breaker. */
  function WalkWith(next: World -> Option<World>, w: World): World
    requires Descends(next)
    decreases Depth(w.m.cur)
  {
    match next(w)
    case None => w
    case Some(w1) => WalkWith(next, w1)
  }

  /** The run without its breaker: follow the events until a leaf. */
  function Walk(g: SM.Graph, hook: Hook, w: World): World
    requires ShapedLikeRecGraph(g)
  {
    StepDescends(g, hook);
    WalkWith(Step(g, hook), w)
  }

  /** With more turns left than steps to End, the breaker never fires: the loop is the walk. */
  lemma {:induction false} LoopWithIsWalkWith(next: World -> Option<World>, w: World, breaker: nat)
    requires Descends(next) && breaker > Depth(w.m.cur)
    ensures LoopWith(next, w, breaker) == WalkWith(next, w)
    decreases breaker
  {
    match next(w)
    case None =>
    case Some(w1) =>
      LoopWithIsWalkWith(next, w1, breaker - 1);
  }

  lemma LoopIsWalk(g: SM.Graph, hook: Hook, w: World, breaker: nat)
    requires ShapedLikeRecGraph(g) && breaker > Depth(w.m.cur)
    ensures Loop(g, hook, w, breaker) == Walk(g, hook, w)
  {
    StepDescends(g, hook);
    LoopWithIsWalkWith(Step(g, hook), w, breaker);
  }

  /** A walk from a step of the graph always reaches End, leaving the machine OFF. */
  lemma {:induction false} WalkEndsOff(g: SM.Graph, hook: Hook, w: World)
    requires ShapedLikeRecGraph(g) && SM.WellFormed(w.m)
    requires !SM.IsLeafNode(g, w.m.cur) || (w.m.cur == SM.DefaultState && SM.IsOff(w.m))
    ensures SM.IsOff(Walk(g, hook, w).m) && Walk(g, hook, w).m.cur == SM.DefaultState
    decreases Depth(w.m.cur)
  {
    WalkTurn(g, hook, w);
    if !SM.IsLeafNode(g, w.m.cur) {
      SM.WildcardAlwaysSelects(SM.Children(g, w.m.cur), Events(w));
      var c := SM.NextChild(g, w.m, Events(w)).value;
      ChildIsDeeper(g, w.m.cur, c);
      WalkEndsOff(g, hook, Advance(g, hook, w, c));
    }
  }

  /** A step of the walk, spelt out. */
  lemma WalkTurn(g: SM.Graph, hook: Hook, w: World)
    requires ShapedLikeRecGraph(g) && SM.WellFormed(w.m)
    ensures Walk(g, hook, w) ==
      match Next(g, hook, w)
      case None => w
      case Some(w1) => Walk(g, hook, w1)
  {
    assert Step(g, hook)(w) == Next(g, hook, w);
  }

  /** Every run ends in End with the machine OFF, and never by the loop breaker. */
  lemma RunEndsOff(g: SM.Graph, hook: Hook, w: World)
    requires ShapedLikeRecGraph(g) && SM.WellFormed(w.m)
    ensures SM.IsOff(RunSpec(g, hook, w).m) && RunSpec(g, hook, w).m.cur == SM.DefaultState
    ensures RunSpec(g, hook, w) == Walk(g, hook, Started(g, hook, w))
  {
    var w1 := Started(g, hook, w);
    LoopIsWalk(g, hook, w1, 1000);
    WalkEndsOff(g, hook, w1);
  }

  /** RunEndsOff for the reconciliation graph itself. */
  lemma RecGraphRunEndsOff(hook: Hook, w: World)
    requires SM.WellFormed(w.m)
    ensures SM.IsOff(RunSpec(RecGraph(), hook, w).m)
  {
    RecGraphShape();
    RunEndsOff(RecGraph(), hook, w);
  }

  /**
   * The hook of the engine's own unit test: Mutator records two successful mutations,
   * Updater gives up with an alarming reason, ErrorManager records a second error and
   * SuccessManager a third mutation.
   */
  function AlarmHook(alarm: string, dummy: string): Hook {
    s =>
      if s == Mutator then [AddOpSuccess(R.NoResource, R.MutationSuccess), AddOpSuccess(R.NoResource, R.MutationSuccess)]
      else if s == Updater then [AddGiveupError(R.NoResource, R.ImplementationConcern, Plain(alarm))]
      else if s == SuccessManager then [AddOpSuccess(R.NoResource, R.MutationSuccess)]
      else if s == ErrorManager then [AddOp(R.NoResource, R.MutateWithCRError, Plain(dummy), 99)]
      else []
  }

  /** The walk on the reconciliation graph. */
  function RecWalk(h: Hook, w: World): World {
    RecGraphShape();
    Walk(RecGraph(), h, w)
  }

  /** Run on the reconciliation graph, from an OFF machine: its start, then the walk from CRChecker. */
  lemma RecGraphStart(h: Hook, w: World) returns (w1: World)
    requires SM.WellFormed(w.m) && SM.IsOff(w.m)
    ensures SM.WellFormed(w1.m) && w1.m.cur == CRChecker
    ensures RunSpec(RecGraph(), h, w) == RecWalk(h, w1)
    ensures w1 == EnterStep(h, w.(reason := Nil, m := w1.m), CRChecker)
  {
    RecGraphShape();
    RunEndsOff(RecGraph(), h, w);
    w1 := Started(RecGraph(), h, w);
  }

  /** A turn of the walk on the reconciliation graph into the child c the events select. */
  lemma RecGraphTurn(h: Hook, w: World, c: State) returns (w': World)
    requires SM.WellFormed(w.m) && !SM.IsLeafNode(RecGraph(), w.m.cur)
    requires SM.NextChild(RecGraph(), w.m, Events(w)) == Some(c)
    ensures SM.WellFormed(w'.m) && RecWalk(h, w) == RecWalk(h, w')
    ensures w'.m.cur == if SM.IsLeafNode(RecGraph(), c) then SM.DefaultState else c
    ensures w' == EnterStep(h, w.(m := w'.m), c)
  {
    RecGraphShape();
    WalkTurn(RecGraph(), h, w);
    w' := Advance(RecGraph(), h, w, c);
  }

  /** The walk stops at a leaf. */
  lemma RecGraphStop(h: Hook, w: World)
    requires SM.WellFormed(w.m) && SM.IsLeafNode(RecGraph(), w.m.cur)
    ensures RecWalk(h, w) == w
  {
    RecGraphShape();
    WalkTurn(RecGraph(), h, w);
  }

  /** The unit test hook's actions, step by step. */
  lemma AlarmHookActions(alarm: string, dummy: string)
    ensures AlarmHook(alarm, dummy)(CRChecker) == [] && AlarmHook(alarm, dummy)(ObjectsGetter) == []
    ensures AlarmHook(alarm, dummy)(Mutator) == [AddOpSuccess(R.NoResource, R.MutationSuccess), AddOpSuccess(R.NoResource, R.MutationSuccess)]
    ensures AlarmHook(alarm, dummy)(Updater) == [AddGiveupError(R.NoResource, R.ImplementationConcern, Plain(alarm))]
    ensures AlarmHook(alarm, dummy)(ErrorManager) == [AddOp(R.NoResource, R.MutateWithCRError, Plain(dummy), 99)]
  {
  }

  /** One action taken: one outcome recorded, and the reason replaced only by a give-up. */
  lemma ApplyOne(w: World, a: HookAction)
    requires a.Records()
    ensures var r := ApplyActions(w, [a]);
      && r.rs == w.rs + [EntryOf(a)] && r.consolidated == R.AddEntryTo(w.consolidated, EntryOf(a))
      && r.reason == (if a.AddGiveupError? then R.StoredReason(w.reason, a.reason) else w.reason)
      && (EntryOf(a).operation != R.CRIsFinalizing ==> r.finalizing == w.finalizing)
  {
    assert [a][..0] == [];
  }

  /** A step whose hook takes one action records that action's outcome. */
  lemma EnteredWith(h: Hook, w: World, c: State, a: HookAction)
    requires c != GiveupManager && c != End && h(c) == [a] && a.Records()
    ensures var r := EnterStep(h, w, c);
      && r.m == w.m && r.trace == w.trace + [c]
      && r.rs == w.rs + [EntryOf(a)] && r.consolidated == R.AddEntryTo(w.consolidated, EntryOf(a))
      && r.reason == (if a.AddGiveupError? then R.StoredReason(w.reason, a.reason) else w.reason)
      && (EntryOf(a).operation != R.CRIsFinalizing ==> r.finalizing == w.finalizing)
  {
    ApplyOne(w.(trace := w.trace + [c]), a);
  }

  /** A turn into a step whose hook takes one action. */
  lemma RecGraphTurnOne(h: Hook, w: World, c: State, a: HookAction) returns (w': World)
    requires SM.WellFormed(w.m) && !SM.IsLeafNode(RecGraph(), w.m.cur)
    requires SM.NextChild(RecGraph(), w.m, Events(w)) == Some(c) && !SM.IsLeafNode(RecGraph(), c)
    requires c != GiveupManager && c != End && h(c) == [a] && a.Records()
    ensures SM.WellFormed(w'.m) && RecWalk(h, w) == RecWalk(h, w') && w'.m.cur == c && w'.trace == w.trace + [c]
    ensures w'.rs == w.rs + [EntryOf(a)] && w'.consolidated == R.AddEntryTo(w.consolidated, EntryOf(a))
    ensures w'.reason == (if a.AddGiveupError? then R.StoredReason(w.reason, a.reason) else w.reason)
    ensures EntryOf(a).operation != R.CRIsFinalizing ==> w'.finalizing == w.finalizing
  {
    w' := RecGraphTurn(h, w, c);
    EnteredWith(h, w.(m := w'.m), c, a);
  }

  /** A turn into a step whose hook takes two actions. */
  lemma RecGraphTurnTwo(h: Hook, w: World, c: State, a: HookAction, b: HookAction) returns (w': World)
    requires SM.WellFormed(w.m) && !SM.IsLeafNode(RecGraph(), w.m.cur)
    requires SM.NextChild(RecGraph(), w.m, Events(w)) == Some(c) && !SM.IsLeafNode(RecGraph(), c)
    requires c != GiveupManager && c != End && h(c) == [a, b] && a.Records() && b.Records()
    requires !a.AddGiveupError? && !b.AddGiveupError?
    requires EntryOf(a).operation != R.CRIsFinalizing && EntryOf(b).operation != R.CRIsFinalizing
    ensures SM.WellFormed(w'.m) && RecWalk(h, w) == RecWalk(h, w') && w'.m.cur == c && w'.trace == w.trace + [c]
    ensures w'.rs == w.rs + [EntryOf(a), EntryOf(b)]
    ensures w'.consolidated == R.AddEntryTo(R.AddEntryTo(w.consolidated, EntryOf(a)), EntryOf(b))
    ensures w'.reason == w.reason && w'.finalizing == w.finalizing
  {
    w' := RecGraphTurn(h, w, c);
    var w0 := w.(m := w'.m, trace := w.trace + [c]);
    ApplyTwo(w0, a, b);
    ApplyOne(w0, a);
    ApplyOne(ApplyActions(w0, [a]), b);
  }

  lemma ApplyTwo(w: World, a: HookAction, b: HookAction)
    ensures ApplyActions(w, [a, b]) == ApplyActions(ApplyActions(w, [a]), [b])
  {
    assert [a, b][..1] == [a];
    assert [b][..0] == [];
  }

  /** A point of the unit test's run: where the machine is, and what has been recorded so far. */
  ghost predicate AlarmStage(w: World, cur: State, rs: seq<R.OpResInfo>, err: Error, reason: Reason, trace: seq<State>) {
    SM.WellFormed(w.m) && w.m.cur == cur && w.rs == rs
    && w.consolidated.error == err && w.finalizing == 0 && w.reason == reason && w.trace == trace
  }

  function MutationDone(): R.OpResInfo {
    EntryOf(AddOpSuccess(R.NoResource, R.MutationSuccess))
  }

  function AlarmRaised(alarm: string): R.OpResInfo {
    EntryOf(AddGiveupError(R.NoResource, R.ImplementationConcern, Plain(alarm)))
  }

  function ErrorManaged(dummy: string): R.OpResInfo {
    EntryOf(AddOp(R.NoResource, R.MutateWithCRError, Plain(dummy), 99))
  }

  lemma AlarmToObjectsGetter(alarm: string, dummy: string, w: World, t: seq<State>) returns (w': World)
    requires AlarmStage(w, CRChecker, [], Nil, Nil, t)
    ensures AlarmStage(w', ObjectsGetter, [], Nil, Nil, t + [ObjectsGetter])
    ensures RecWalk(AlarmHook(alarm, dummy), w) == RecWalk(AlarmHook(alarm, dummy), w')
  {
    AlarmHookActions(alarm, dummy);
    w' := RecGraphTurn(AlarmHook(alarm, dummy), w, ObjectsGetter);
  }

  lemma AlarmToMutator(alarm: string, dummy: string, w: World, t: seq<State>) returns (w': World)
    requires AlarmStage(w, ObjectsGetter, [], Nil, Nil, t)
    ensures AlarmStage(w', Mutator, [MutationDone(), MutationDone()], Nil, Nil, t + [Mutator])
    ensures RecWalk(AlarmHook(alarm, dummy), w) == RecWalk(AlarmHook(alarm, dummy), w')
  {
    AlarmHookActions(alarm, dummy);
    var a := AddOpSuccess(R.NoResource, R.MutationSuccess);
    w' := RecGraphTurnTwo(AlarmHook(alarm, dummy), w, Mutator, a, a);
  }

  lemma AlarmToUpdater(alarm: string, dummy: string, w: World, t: seq<State>) returns (w': World)
    requires AlarmStage(w, Mutator, [MutationDone(), MutationDone()], Nil, Nil, t)
    ensures AlarmStage(w', Updater, [MutationDone(), MutationDone(), AlarmRaised(alarm)], GiveUp, Plain(alarm), t + [Updater])
    ensures RecWalk(AlarmHook(alarm, dummy), w) == RecWalk(AlarmHook(alarm, dummy), w')
  {
    AlarmHookActions(alarm, dummy);
    w' := RecGraphTurnOne(AlarmHook(alarm, dummy), w, Updater, AddGiveupError(R.NoResource, R.ImplementationConcern, Plain(alarm)));
  }

  lemma AlarmToErrorManager(alarm: string, dummy: string, w: World, t: seq<State>) returns (w': World)
    requires AlarmStage(w, Updater, [MutationDone(), MutationDone(), AlarmRaised(alarm)], GiveUp, Plain(alarm), t)
    ensures AlarmStage(w', ErrorManager, [MutationDone(), MutationDone(), AlarmRaised(alarm), ErrorManaged(dummy)],
      GiveUp, Plain(alarm), t + [ErrorManager])
    ensures RecWalk(AlarmHook(alarm, dummy), w) == RecWalk(AlarmHook(alarm, dummy), w')
  {
    AlarmHookActions(alarm, dummy);
    w' := RecGraphTurnOne(AlarmHook(alarm, dummy), w, ErrorManager, AddOp(R.NoResource, R.MutateWithCRError, Plain(dummy), 99));
  }

  lemma AlarmToGiveupManager(alarm: string, dummy: string, w: World, rs: seq<R.OpResInfo>, t: seq<State>) returns (w': World)
    requires AlarmStage(w, ErrorManager, rs, GiveUp, Plain(alarm), t)
    ensures AlarmStage(w', GiveupManager, rs, GiveUp, Plain(alarm), t + [GiveupManager])
    ensures RecWalk(AlarmHook(alarm, dummy), w) == RecWalk(AlarmHook(alarm, dummy), w')
  {
    w' := RecGraphTurn(AlarmHook(alarm, dummy), w, GiveupManager);
  }

  lemma AlarmToEnd(alarm: string, dummy: string, w: World, rs: seq<R.OpResInfo>, t: seq<State>) returns (w': World)
    requires AlarmStage(w, GiveupManager, rs, GiveUp, Plain(alarm), t)
    ensures AlarmStage(w', SM.DefaultState, rs, GiveUp, Plain(alarm), t + [End])
    ensures RecWalk(AlarmHook(alarm, dummy), w) == w'
  {
    var h := AlarmHook(alarm, dummy);
    w' := RecGraphTurn(h, w, End);
    RecGraphStop(h, w');
  }

  lemma AlarmStart(alarm: string, dummy: string, w: World) returns (w1: World)
    requires SM.WellFormed(w.m) && SM.IsOff(w.m) && w.rs == [] && w.consolidated == R.InitialConsolidated() && w.finalizing == 0
    ensures AlarmStage(w1, CRChecker, [], Nil, Nil, w.trace + [CRChecker])
    ensures RunSpec(RecGraph(), AlarmHook(alarm, dummy), w) == RecWalk(AlarmHook(alarm, dummy), w1)
  {
    AlarmHookActions(alarm, dummy);
    w1 := RecGraphStart(AlarmHook(alarm, dummy), w);
  }

  /** The unit test's outcomes consolidate into the alarming give-up. */
  lemma AlarmConsolidated(alarm: string, dummy: string)
    ensures R.ConsolidatedErrorOf([MutationDone(), MutationDone(), AlarmRaised(alarm), ErrorManaged(dummy)], Plain(alarm))
      == (true, Plain(alarm))
  {
    var ok, up, er := MutationDone(), AlarmRaised(alarm), ErrorManaged(dummy);
    R.CountsAppend([], ok);
    R.CountsAppend([ok], ok);
    R.CountsAppend([ok, ok], up);
    R.CountsAppend([ok, ok, up], er);
    assert [ok] == [] + [ok] && [ok, ok] == [ok] + [ok];
    assert [ok, ok, up] == [ok, ok] + [up] && [ok, ok, up, er] == [ok, ok, up] + [er];
  }

  /** Counting four outcomes, one by one. */
  lemma CountFour(a: R.OpResInfo, b: R.OpResInfo, c: R.OpResInfo, d: R.OpResInfo, op: R.OperationResult)
    ensures R.CountOp([a, b, c, d], op)
      == (if a.operation == op then 1 else 0) + (if b.operation == op then 1 else 0)
       + (if c.operation == op then 1 else 0) + (if d.operation == op then 1 else 0)
    ensures R.CountErrors([a, b, c, d])
      == (if a.error != Nil then 1 else 0) + (if b.error != Nil then 1 else 0)
       + (if c.error != Nil then 1 else 0) + (if d.error != Nil then 1 else 0)
  {
    assert [a, b, c, d][..3] == [a, b, c];
    assert [a, b, c][..2] == [a, b];
    assert [a, b][..1] == [a];
    assert [a][..0] == [];
    assert R.CountOp([a], op) == (if a.operation == op then 1 else 0);
    assert R.CountErrors([a]) == (if a.error != Nil then 1 else 0);
    assert R.CountOp([a, b], op) == R.CountOp([a], op) + (if b.operation == op then 1 else 0);
    assert R.CountErrors([a, b]) == R.CountErrors([a]) + (if b.error != Nil then 1 else 0);
    assert R.CountOp([a, b, c], op) == R.CountOp([a, b], op) + (if c.operation == op then 1 else 0);
    assert R.CountErrors([a, b, c]) == R.CountErrors([a, b]) + (if c.error != Nil then 1 else 0);
  }

  /** The counts the unit test checks: two errors, one give-up of an implementation concern, two mutations, one error recorded by ErrorManager. */
  lemma AlarmCounts(alarm: string, dummy: string)
    ensures var rs := [MutationDone(), MutationDone(), AlarmRaised(alarm), ErrorManaged(dummy)];
      && R.CountErrors(rs) == 2
      && R.CountOp(rs, R.ImplementationConcern) == 1
      && R.CountOp(rs, R.MutationSuccess) == 2
      && R.CountOp(rs, R.MutateWithCRError) == 1
  {
    var ok, up, er := MutationDone(), AlarmRaised(alarm), ErrorManaged(dummy);
    CountFour(ok, ok, up, er, R.ImplementationConcern);
    CountFour(ok, ok, up, er, R.MutationSuccess);
    CountFour(ok, ok, up, er, R.MutateWithCRError);
  }

  lemma AlarmTrace(t: seq<State>)
    ensures t + [CRChecker] + [ObjectsGetter] + [Mutator] + [Updater] + [ErrorManager] + [GiveupManager] + [End]
      == t + [CRChecker, ObjectsGetter, Mutator, Updater, ErrorManager, GiveupManager, End]
  {
  }

  /**
   * The unit test's run: the give-up raised at Updater routes through ErrorManager and
   * GiveupManager to End, never reaching SuccessManager; the run reports the alarming
   * reason as a give-up, two errors and two mutations.
   */
  lemma AlarmingGiveUpAtUpdater(alarm: string, dummy: string, w: World)
    requires SM.WellFormed(w.m) && SM.IsOff(w.m) && w.rs == [] && w.consolidated == R.InitialConsolidated() && w.finalizing == 0
    ensures var r := RunSpec(RecGraph(), AlarmHook(alarm, dummy), w);
      && r.trace == w.trace + [CRChecker, ObjectsGetter, Mutator, Updater, ErrorManager, GiveupManager, End]
      && R.ConsolidatedErrorOf(r.rs, r.reason) == (true, Plain(alarm))
      && R.CountErrors(r.rs) == 2
      && R.CountOp(r.rs, R.MutationSuccess) == 2
      && R.CountOp(r.rs, R.ImplementationConcern) == 1
      && R.CountOp(r.rs, R.MutateWithCRError) == 1
  {
    var w1 := AlarmStart(alarm, dummy, w);
    var w2 := AlarmToObjectsGetter(alarm, dummy, w1, w1.trace);
    var w3 := AlarmToMutator(alarm, dummy, w2, w2.trace);
    var w4 := AlarmToUpdater(alarm, dummy, w3, w3.trace);
    var w5 := AlarmToErrorManager(alarm, dummy, w4, w4.trace);
    var w6 := AlarmToGiveupManager(alarm, dummy, w5, w5.rs, w5.trace);
    var w7 := AlarmToEnd(alarm, dummy, w6, w6.rs, w6.trace);
    AlarmConsolidated(alarm, dummy);
    AlarmCounts(alarm, dummy);
    AlarmTrace(w.trace);
  }

  class Stepper {
    const results: R.ResultList
    const machine: SM.Machine
    const hook: Hook
    /** The steps entered so far. */
    ghost var trace: seq<State>

    /** Between two runs the machine is OFF. */
    ghost predicate Valid()
      reads this, results, machine
    {
      results.Valid() && machine.Valid() && machine.graph == RecGraph() && SM.IsOff(machine.View())
    }

    ghost function Snapshot(): World
      reads this, results, machine
    {
      World(machine.View(), results.opResInfoList, results.consolidated, R.OpCount(results.opMap, R.CRIsFinalizing),
        results.giveUpReason, results.giveup, trace)
    }

    /** NewStepper, with the results it reports to (SetResults). */
    constructor (results: R.ResultList, hook: Hook)
      requires results.Valid()
      ensures Valid() && fresh(machine)
      ensures this.results == results && this.hook == hook && trace == []
      ensures machine.View() == SM.MachineState(0, 0, false, [], 0, 0)
    {
      this.results := results;
      this.hook := hook;
      machine := new SM.Machine(RecGraph());
      trace := [];
    }

    /** The name of the current step (GetState). */
    function GetState(): string
      reads machine
    {
      SM.Node(RecGraph(), machine.curState).name
    }

    /** One hook action, through the aggregator's own operation. */
    method Apply(a: HookAction)
      requires results.Valid()
      modifies results
      ensures results.Valid()
      ensures Snapshot() == ApplyAction(old(Snapshot()), a)
    {
      match a {
        case ResetAllResults =>
          results.ResetAllResults();
        case SetGiveUpReason(reason) =>
          var _ := results.SetGiveUpReason(reason);
        case _ =>
          Record(a);
      }
    }

    /** An action that records one outcome: AddOp, AddOpSuccess or AddGiveupError. */
    method Record(a: HookAction)
      requires results.Valid() && a.Records()
      modifies results
      ensures results.Valid()
      ensures Snapshot() == ApplyAction(old(Snapshot()), a)
    {
      ghost var w := Snapshot();
      ghost var e := EntryOf(a);
      ghost var w1 := Recorded(w, e);
      ghost var f := R.OpCount(results.opMap, R.CRIsFinalizing);
      assert w1.finalizing == if e.operation == R.CRIsFinalizing then R.Inc16(f) else f;
      match a {
        case AddOp(res, op, err, d) =>
          var _ := results.AddOp(res, op, err, d);
        case AddOpSuccess(res, op) =>
          results.AddOpSuccess(res, op);
        case AddGiveupError(res, op, reason) =>
          var _ := results.AddGiveupError(res, op, reason);
      }
      assert R.OpCount(results.opMap, R.CRIsFinalizing) == w1.finalizing;
      assert machine.View() == w.m;
      assert Snapshot() == w1.(reason := results.giveUpReason, giveup := results.giveup);
    }

    /** The hook's actions, in order. */
    method Perform(actions: seq<HookAction>)
      requires results.Valid()
      modifies results
      ensures results.Valid()
      ensures Snapshot() == ApplyActions(old(Snapshot()), actions)
    {
      for i := 0 to |actions|
        invariant results.Valid()
        invariant Snapshot() == ApplyActions(old(Snapshot()), actions[..i])
      {
        assert actions[..i + 1][..i] == actions[..i];
        Apply(actions[i]);
      }
      assert actions[..|actions|] == actions;
    }

    /** Stepper.Enter. */
    method Enter(s: State)
      requires results.Valid()
      modifies this, results
      ensures results.Valid()
      ensures Snapshot() == EnterStep(hook, old(Snapshot()), s)
    {
      trace := trace + [s];
      if s != GiveupManager && s != End {
        Perform(hook(s));
      }
    }

    /** The start of Run. */
    method Start()
      requires results.Valid() && machine.Valid()
      modifies this, results, machine
      ensures results.Valid() && machine.Valid()
      ensures Snapshot() == Started(machine.graph, hook, old(Snapshot()))
    {
      var _ := results.SetGiveUpReason(Nil);
      machine.EnablePathInGraph();
      var entered := machine.SetState(CRChecker);
      if entered {
        Enter(CRChecker);
      }
    }

    /** The events of the current outcomes (eventsList). */
    method CurrentEvents() returns (events: seq<State>)
      requires results.Valid()
      ensures events == Events(Snapshot())
    {
      events := EventsList(results.ConsolidatedError(), results.OpsCount(R.CRIsFinalizing));
    }

    /** The loop breaker's give-up. */
    method BreakLoop()
      requires results.Valid()
      modifies results
      ensures results.Valid()
      ensures Snapshot() == ApplyAction(old(Snapshot()), BreakerGiveUp)
    {
      Apply(BreakerGiveUp);
    }

    /**
     * The second half of a turn, once the machine has moved from w into child next: the
     * child's step runs, then the breaker ticks and, on its last turn, gives up.
     */
    method EnterChild(ghost w: World, next: State, breaker: nat) returns (stop: bool)
      requires results.Valid() && SM.WellFormed(w.m) && breaker >= 1
      requires Snapshot() == w.(m := SM.Entering(machine.graph, w.m, next))
      modifies this, results
      ensures results.Valid()
      ensures stop ==> breaker == 1 && Snapshot() == ApplyAction(Advance(machine.graph, hook, w, next), BreakerGiveUp)
      ensures !stop ==> breaker >= 2 && Snapshot() == Advance(machine.graph, hook, w, next)
    {
      Enter(next);
      assert Snapshot() == Advance(machine.graph, hook, w, next);
      if breaker - 1 == 0 {
        BreakLoop();
        return true;
      }
      return false;
    }

    /** What RunLoop keeps: the loop still ends where it would have from its first step. */
    ghost predicate Progress(g: SM.Graph, target: World, breaker: nat)
      reads this, results, machine
    {
      results.Valid() && machine.Valid() && machine.graph == g && 1 <= breaker
      && target == Loop(g, hook, Snapshot(), breaker)
    }

    /**
     * One turn of Run's loop from a step that is not a leaf: enter the selected child and
     * run its step, or stop when none is selected; on its last turn the breaker gives up.
     * Either the loop ends here, or it goes on from the new state with one turn less.
     */
    method Turn(ghost target: World, breaker: nat) returns (stop: bool, left: nat)
      requires Progress(machine.graph, target, breaker)
      requires !SM.IsLeafNode(machine.graph, machine.curState)
      modifies this, results, machine
      ensures results.Valid() && machine.Valid()
      ensures stop ==> Snapshot() == target
      ensures !stop ==> left == breaker - 1 && Progress(machine.graph, target, left)
    {
      left := breaker - 1;
      ghost var w := Snapshot();
      var events := CurrentEvents();
      var entered, next := machine.EnterNextState(events);
      LoopTurn(machine.graph, hook, w, breaker, left);
      if !entered {
        stop := true;
        return;
      }
      stop := EnterChild(w, next, breaker);
    }

    /** The loop of Run, from the step Start leaves the machine in. */
    method RunLoop()
      requires results.Valid() && machine.Valid()
      modifies this, results, machine
      ensures results.Valid() && machine.Valid()
      ensures Snapshot() == Loop(machine.graph, hook, old(Snapshot()), 1000)
    {
      ghost var g := machine.graph;
      ghost var target := Loop(g, hook, Snapshot(), 1000);
      var breaker: nat := 1000;
      while !SM.IsLeafNode(machine.graph, machine.GetState())
        invariant Progress(g, target, breaker)
        decreases breaker
      {
        var stop, left := Turn(target, breaker);
        if stop {
          return;
        }
        breaker := left;
      }
    }

    method Run()
      requires Valid()
      modifies this, results, machine
      ensures Valid()
      ensures Snapshot() == RunSpec(machine.graph, hook, old(Snapshot()))
    {
      Start();
      RunLoop();
      RecGraphRunEndsOff(hook, old(Snapshot()));
    }
  }
}
