/**
 * The results aggregator of a reconciliation: every operation's outcome is kept
 * in order, while a consolidated outcome (the error to report and the requeue
 * request to give the controller runtime) and per-operation counters are kept
 * up to date on the go. The give-up sentinel error is sticky: once recorded, the
 * reconciliation reports no error and asks for no requeue.
 */
module Results {
  import opened Errors
  import opened Wrappers

  /** Go's uint16. */
  type Uint16 = x: nat | x < 0x1_0000

  /** Go's `++` on a uint16: wraps from 65535 to 0. */
  function Inc16(n: Uint16): (r: Uint16)
    ensures r == (n + 1) % 0x1_0000
  {
    if n == 0xFFFF then 0 else n + 1
  }

  /** The longest requeue delay, six hours, in seconds. */
  const MaxRequeueSeconds: nat := 21600

  datatype OperationResult =
    | CRNotExist | CRTypeInvalid | CRUnreadable | FetchCRSuccess | CRSemanticError
    | CRIsFinalizing | CRFinalizationUpdateError
    | RegistrationAborted | ResourceUnreadable | RegistrationSuccess
    | MutationSuccess | MutateWithCRError | MutateWithCRAskRequeue
    | None | Created | CreateDelayed | Updated | Deleted | CRUDError
    | ImplementationConcern | InfiniteLoop
    | StatusEnabled | StatusUpdated | StatusUpdateError | SameStatusError

  /** The resource an outcome is about: its index and its kind/name, or nothing. */
  datatype ResourceInfo = NoResource | Resource(index: string, kindName: string)

  /** One outcome (Go's opResInfo). */
  datatype OpResInfo = OpResInfo(
    operation: OperationResult, error: Error, resource: ResourceInfo,
    requeue: bool, requeueAfterSeconds: Uint16)

  /**
   * setRequeue: a give-up never requeues. Otherwise the delay is capped at six hours,
   * and an error or a positive delay asks for a requeue (an earlier request is kept).
   */
  function SetRequeue(r: OpResInfo, requeueAfterSeconds: Uint16): OpResInfo {
    if r.error.GiveUp? then r.(requeue := false, requeueAfterSeconds := 0)
    else
      var d := if requeueAfterSeconds > MaxRequeueSeconds then MaxRequeueSeconds else requeueAfterSeconds;
      if r.error != Nil || d > 0 then r.(requeueAfterSeconds := d, requeue := true)
      else r.(requeueAfterSeconds := d)
  }

  /**
   * setRequeue keeps the operation, error and resource; a give-up never requeues;
   * otherwise the delay is capped at six hours and a requeue is asked for on an
   * error or a delay, or when one was already asked for.
   */
  lemma SetRequeueMeaning(r: OpResInfo, requeueAfterSeconds: Uint16)
    ensures var s := SetRequeue(r, requeueAfterSeconds);
      && s.operation == r.operation && s.error == r.error && s.resource == r.resource
      && (r.error.GiveUp? ==> !s.requeue && s.requeueAfterSeconds == 0)
      && (!r.error.GiveUp? ==>
        (s.requeueAfterSeconds <= MaxRequeueSeconds
        && (requeueAfterSeconds <= MaxRequeueSeconds ==> s.requeueAfterSeconds == requeueAfterSeconds)
        && (requeueAfterSeconds > MaxRequeueSeconds ==> s.requeueAfterSeconds == MaxRequeueSeconds)
        && (s.requeue <==> r.requeue || r.error != Nil || s.requeueAfterSeconds > 0)))
  {
  }

  /** The outcome AddOp builds. */
  function NewEntry(resource: ResourceInfo, operation: OperationResult, err: Error, requeueAfterSeconds: Uint16): OpResInfo {
    SetRequeue(OpResInfo(operation, err, resource, false, 0), requeueAfterSeconds)
  }

  /** What every built outcome satisfies: a capped delay, no requeue on give-up, and a requeue exactly on an error or a delay. */
  predicate IsEntry(e: OpResInfo) {
    e.requeueAfterSeconds <= MaxRequeueSeconds
    && (e.error.GiveUp? ==> !e.requeue && e.requeueAfterSeconds == 0)
    && (!e.error.GiveUp? ==> (e.requeue <==> e.error != Nil || e.requeueAfterSeconds > 0))
  }

  lemma NewEntryIsEntry(resource: ResourceInfo, operation: OperationResult, err: Error, requeueAfterSeconds: Uint16)
    ensures IsEntry(NewEntry(resource, operation, err, requeueAfterSeconds))
    ensures NewEntry(resource, operation, err, requeueAfterSeconds).error == err
    ensures NewEntry(resource, operation, err, requeueAfterSeconds).operation == operation
    ensures NewEntry(resource, operation, err, requeueAfterSeconds).resource == resource
  {
  }

  /** The consolidated outcome of the empty list (ResetAllResults). */
  function InitialConsolidated(): (c: OpResInfo)
    ensures c == OpResInfo(OperationResult.None, Nil, NoResource, false, 0)
  {
    SetRequeue(OpResInfo(OperationResult.None, Nil, NoResource, false, 0), 0)
  }

  /**
   * addEntry's update of the consolidated outcome: the first error is kept unless a
   * give-up comes; a requeue request replaces the consolidated one when there was
   * none, when it is shorter, or when it is a same-status error.
   */
  function AddEntryTo(c: OpResInfo, e: OpResInfo): OpResInfo {
    var c1 := if c.error == Nil || e.error.GiveUp? then c.(error := e.error, resource := e.resource) else c;
    if e.requeue && (!c1.requeue || e.requeueAfterSeconds < c1.requeueAfterSeconds || e.operation == SameStatusError)
    then SetRequeue(c1, e.requeueAfterSeconds)
    else c1
  }

  /** The consolidated outcome of a list of outcomes, added in order. */
  function Consolidate(rs: seq<OpResInfo>): OpResInfo
    decreases |rs|
  {
    if rs == [] then InitialConsolidated()
    else AddEntryTo(Consolidate(rs[..|rs| - 1]), rs[|rs| - 1])
  }

  predicate HasGiveUp(rs: seq<OpResInfo>) {
    exists i :: 0 <= i < |rs| && rs[i].error.GiveUp?
  }

  /** The consolidated error is the sentinel exactly when some outcome gave up. */
  lemma {:induction false} ConsolidatedGiveUpIff(rs: seq<OpResInfo>)
    ensures Consolidate(rs).error.GiveUp? <==> HasGiveUp(rs)
    decreases |rs|
  {
    if rs != [] {
      var p := rs[..|rs| - 1];
      ConsolidatedGiveUpIff(p);
      assert forall i :: 0 <= i < |p| ==> p[i] == rs[i];
      if HasGiveUp(p) {
        var i :| 0 <= i < |p| && p[i].error.GiveUp?;
        assert rs[i].error.GiveUp?;
      }
      if rs[|rs| - 1].error.GiveUp? {
        assert HasGiveUp(rs);
      }
      if HasGiveUp(rs) && !rs[|rs| - 1].error.GiveUp? {
        var i :| 0 <= i < |rs| && rs[i].error.GiveUp?;
        assert p[i].error.GiveUp?;
      }
    }
  }

  /** Without a give-up, the consolidated error is Nil exactly when every outcome succeeded. */
  lemma {:induction false} ConsolidatedErrorNilIff(rs: seq<OpResInfo>)
    ensures !HasGiveUp(rs) ==>
      (Consolidate(rs).error == Nil <==> forall i :: 0 <= i < |rs| ==> rs[i].error == Nil)
    decreases |rs|
  {
    if rs != [] && !HasGiveUp(rs) {
      var p := rs[..|rs| - 1];
      assert forall i :: 0 <= i < |p| ==> p[i] == rs[i];
      ConsolidatedErrorNilIff(p);
    }
  }

  /** Without a give-up, the consolidated error and resource are those of the first failed outcome. */
  lemma {:induction false} ConsolidatedErrorIsFirstError(rs: seq<OpResInfo>, k: nat)
    requires !HasGiveUp(rs)
    requires k < |rs| && rs[k].error != Nil
    requires forall j :: 0 <= j < k ==> rs[j].error == Nil
    ensures Consolidate(rs).error == rs[k].error
    ensures Consolidate(rs).resource == rs[k].resource
    decreases |rs|
  {
    var p := rs[..|rs| - 1];
    assert forall i :: 0 <= i < |p| ==> p[i] == rs[i];
    if k == |rs| - 1 {
      ConsolidatedErrorNilIff(p);
    } else {
      ConsolidatedErrorIsFirstError(p, k);
    }
  }

  /**
   * Without a give-up or a same-status error, and with outcomes built by AddOp,
   * the consolidated outcome requeues exactly when some outcome asks to, after the
   * shortest delay asked.
   */
  lemma {:induction false} ConsolidatedRequeueIsMinimum(rs: seq<OpResInfo>)
    requires forall i :: 0 <= i < |rs| ==> IsEntry(rs[i]) && rs[i].operation != SameStatusError
    requires !HasGiveUp(rs)
    ensures Consolidate(rs).requeue <==> exists i :: 0 <= i < |rs| && rs[i].requeue
    ensures forall i :: 0 <= i < |rs| && rs[i].requeue ==>
      Consolidate(rs).requeueAfterSeconds <= rs[i].requeueAfterSeconds
    ensures Consolidate(rs).requeue ==>
      exists i :: 0 <= i < |rs| && rs[i].requeue && rs[i].requeueAfterSeconds == Consolidate(rs).requeueAfterSeconds
    ensures !Consolidate(rs).requeue ==> Consolidate(rs).requeueAfterSeconds == 0
    decreases |rs|
  {
    if rs != [] {
      var p := rs[..|rs| - 1];
      var e := rs[|rs| - 1];
      assert forall i :: 0 <= i < |p| ==> p[i] == rs[i];
      ConsolidatedRequeueIsMinimum(p);
      ConsolidatedGiveUpIff(p);
      var c := Consolidate(p);
      var c1 := if c.error == Nil || e.error.GiveUp? then c.(error := e.error, resource := e.resource) else c;
      assert e.requeue && e.error != Nil ==> c1.error != Nil;
      if c.requeue {
        var i :| 0 <= i < |p| && p[i].requeue && p[i].requeueAfterSeconds == c.requeueAfterSeconds;
        assert rs[i].requeue;
      }
    }
  }

  /** A same-status error that asks for a requeue imposes its own delay, even a longer one. */
  lemma SameStatusErrorImposesDelay(rs: seq<OpResInfo>, e: OpResInfo)
    requires IsEntry(e) && e.requeue && e.operation == SameStatusError
    requires !HasGiveUp(rs)
    ensures Consolidate(rs + [e]).requeue
    ensures Consolidate(rs + [e]).requeueAfterSeconds == e.requeueAfterSeconds
  {
    ConsolidatedGiveUpIff(rs);
    assert (rs + [e])[..|rs + [e]| - 1] == rs;
  }

  /** The count of outcomes of one operation. */
  function CountOp(rs: seq<OpResInfo>, op: OperationResult): nat
    decreases |rs|
  {
    if rs == [] then 0
    else CountOp(rs[..|rs| - 1], op) + (if rs[|rs| - 1].operation == op then 1 else 0)
  }

  /** The count of failed outcomes, give-ups included. */
  function CountErrors(rs: seq<OpResInfo>): nat
    decreases |rs|
  {
    if rs == [] then 0
    else CountErrors(rs[..|rs| - 1]) + (if rs[|rs| - 1].error != Nil then 1 else 0)
  }

  /** Adding an outcome: the counts grow by one where it applies, and the consolidated outcome takes it in. */
  lemma CountsAppend(rs: seq<OpResInfo>, e: OpResInfo)
    ensures forall op :: CountOp(rs + [e], op) == CountOp(rs, op) + (if e.operation == op then 1 else 0)
    ensures CountErrors(rs + [e]) == CountErrors(rs) + (if e.error != Nil then 1 else 0)
    ensures Consolidate(rs + [e]) == AddEntryTo(Consolidate(rs), e)
  {
    assert (rs + [e])[..|rs + [e]| - 1] == rs;
  }

  /** The counters of opStats agree with a list of outcomes, modulo 2^16. */
  ghost predicate CountersAgree(rs: seq<OpResInfo>, opMap: map<OperationResult, Uint16>, errorsCount: Uint16, totalOpsCount: Uint16) {
    (forall op :: op in opMap <==> CountOp(rs, op) > 0)
    && (forall op :: op in opMap ==> opMap[op] == CountOp(rs, op) % 0x1_0000)
    && errorsCount == CountErrors(rs) % 0x1_0000
    && totalOpsCount == |rs| % 0x1_0000
  }

  /** The counter of an operation in opMap (0 when absent). */
  function OpCount(opMap: map<OperationResult, Uint16>, op: OperationResult): Uint16 {
    if op in opMap then opMap[op] else 0
  }

  /** opMap after one more outcome of an operation. */
  function Counted(opMap: map<OperationResult, Uint16>, op: OperationResult): (r: map<OperationResult, Uint16>)
    ensures OpCount(r, op) == Inc16(OpCount(opMap, op))
    ensures forall other :: other != op ==> OpCount(r, other) == OpCount(opMap, other)
  {
    opMap[op := Inc16(OpCount(opMap, op))]
  }

  lemma Inc16Mod(c: nat)
    ensures Inc16(c % 0x1_0000) == (c + 1) % 0x1_0000
  {
  }

  /** addToCounters keeps the counters in agreement with the list. */
  lemma CountersAgreeAppend(rs: seq<OpResInfo>, e: OpResInfo, opMap: map<OperationResult, Uint16>, errorsCount: Uint16, totalOpsCount: Uint16)
    requires CountersAgree(rs, opMap, errorsCount, totalOpsCount)
    ensures CountersAgree(rs + [e],
      Counted(opMap, e.operation),
      if e.error != Nil then Inc16(errorsCount) else errorsCount,
      Inc16(totalOpsCount))
  {
    CountsAppend(rs, e);
    Inc16Mod(CountOp(rs, e.operation));
    Inc16Mod(CountErrors(rs));
    Inc16Mod(|rs|);
  }

  lemma {:induction false} CountOpPositiveIff(rs: seq<OpResInfo>, op: OperationResult)
    ensures CountOp(rs, op) > 0 <==> exists i :: 0 <= i < |rs| && rs[i].operation == op
    decreases |rs|
  {
    if rs != [] {
      var p := rs[..|rs| - 1];
      assert forall i :: 0 <= i < |p| ==> p[i] == rs[i];
      CountOpPositiveIff(p, op);
      if CountOp(p, op) > 0 {
        var i :| 0 <= i < |p| && p[i].operation == op;
        assert rs[i].operation == op;
      }
    }
  }

  lemma {:induction false} CountsBounded(rs: seq<OpResInfo>, op: OperationResult)
    ensures CountOp(rs, op) <= |rs| && CountErrors(rs) <= |rs|
    decreases |rs|
  {
    if rs != [] {
      CountsBounded(rs[..|rs| - 1], op);
    }
  }

  /** The reconcile.Result handed to the controller runtime; the delay is a time.Duration in nanoseconds. */
  datatype ReconcileResult = ReconcileResult(requeue: bool, requeueAfter: nat)

  /** getSigsK8SResult: a give-up reports neither an error nor a requeue. */
  function SigsK8S(c: OpResInfo): (r: (ReconcileResult, Error))
    ensures c.error.GiveUp? ==> r == (ReconcileResult(false, 0), Nil)
    ensures !c.error.GiveUp? ==>
      (r.1 == c.error && r.0.requeue == c.requeue && r.0.requeueAfter == c.requeueAfterSeconds * 1_000_000_000)
  {
    if c.error.GiveUp? then (ReconcileResult(false, 0), Nil)
    else (ReconcileResult(c.requeue, c.requeueAfterSeconds * 1_000_000_000), c.error)
  }

  /** Once any outcome gave up, the reconciliation reports no error and asks for no requeue, whatever comes after. */
  lemma GiveUpStopsRequeue(rs: seq<OpResInfo>)
    requires HasGiveUp(rs)
    ensures SigsK8S(Consolidate(rs)) == (ReconcileResult(false, 0), Nil)
  {
    ConsolidatedGiveUpIff(rs);
  }

  /** The message of the give-up sentinel (ErrGiveUp.Error). */
  function GiveUpMessage(reason: Reason): (m: string)
    ensures reason.Plain? ==> m == "Reason: " + reason.text
    ensures reason.Nil? ==> m == "Given up on not alarming issue..."
  {
    match reason
    case Plain(t) => "Reason: " + t
    case Nil => "Given up on not alarming issue..."
  }

  /**
   * ErrGiveUp.Error as written, for whatever reason the sentinel holds. A sentinel that is
   * its own reason prints "Reason: " followed by its own message, without end; `fuel`
   * bounds the calls, and `None` is a message not finished within them.
   */
  function GiveUpMessageAsWritten(reason: Error, fuel: nat): (m: Option<string>)
    ensures m.Some? <==> !reason.GiveUp?
    ensures !reason.GiveUp? ==> m == Some(GiveUpMessage(reason))
    decreases fuel
  {
    match reason
    case Nil => Some("Given up on not alarming issue...")
    case Plain(t) => Some("Reason: " + t)
    case GiveUp =>
      if fuel == 0 then Option.None else Prefixed("Reason: ", GiveUpMessageAsWritten(reason, fuel - 1))
  }

  /** A message with a prefix, once the message is finished. */
  function Prefixed(prefix: string, m: Option<string>): Option<string> {
    match m
    case Some(t) => Some(prefix + t)
    case None => Option.None
  }

  /** ErrGiveUp.Reason as written: the reason becomes its argument, whatever it is. */
  function ReasonAsWritten(stored: Reason, alarming: Error): Error {
    alarming
  }

  /**
   * Passed the sentinel itself (as Mutate does when a hook returns it), Reason as written
   * loses the alarming error stored before, and the sentinel's message never ends,
   * however many calls it is given.
   */
  lemma SentinelAsOwnReasonAsWritten(stored: Reason, fuel: nat)
    ensures ReasonAsWritten(stored, GiveUp) != stored
    ensures GiveUpMessageAsWritten(ReasonAsWritten(stored, GiveUp), fuel).None?
  {
  }

  /**
   * ErrGiveUp.Reason, corrected: a sentinel passed as its own reason keeps the reason
   * already stored (the alarming error a hook set before returning the sentinel); any
   * other error becomes the reason.
   */
  function StoredReason(stored: Reason, alarming: Error): (r: Reason)
    ensures alarming.GiveUp? ==> r == stored
    ensures !alarming.GiveUp? ==> r == alarming
  {
    if alarming.GiveUp? then stored else alarming
  }

  /** With the correction, the sentinel's message always ends, and the stored alarm survives a sentinel argument. */
  lemma StoredReasonMessageEnds(stored: Reason, alarming: Error, fuel: nat)
    ensures GiveUpMessageAsWritten(StoredReason(stored, alarming), fuel) == Some(GiveUpMessage(StoredReason(stored, alarming)))
    ensures alarming.GiveUp? ==> GiveUpMessage(StoredReason(stored, alarming)) == GiveUpMessage(stored)
  {
  }

  /**
   * What ConsolidatedError reports for a list of outcomes and the sentinel's reason:
   * a give-up with its reason, or else the first error recorded (Nil when all succeeded).
   */
  function ConsolidatedErrorOf(rs: seq<OpResInfo>, reason: Reason): (bool, Error) {
    if Consolidate(rs).error.GiveUp? then (true, reason) else (false, Consolidate(rs).error)
  }

  /** The consolidated error is the give-up's reason, or else the first error recorded. */
  lemma ConsolidatedErrorMeaning(rs: seq<OpResInfo>, reason: Reason)
    ensures var r := ConsolidatedErrorOf(rs, reason);
      && (r.0 <==> HasGiveUp(rs))
      && (r.0 ==> r.1 == reason)
      && (!r.0 ==> (r.1 == Nil <==> forall i :: 0 <= i < |rs| ==> rs[i].error == Nil))
      && (!r.0 && r.1 != Nil ==> exists k :: 0 <= k < |rs| && rs[k].error == r.1)
  {
    ConsolidatedGiveUpIff(rs);
    ConsolidatedErrorNilIff(rs);
    FirstErrorExists(rs);
  }

  /** Without a give-up, a failed list has a first failed outcome, whose error is the consolidated one. */
  lemma FirstErrorExists(rs: seq<OpResInfo>)
    ensures !HasGiveUp(rs) && Consolidate(rs).error != Nil ==>
      exists k :: 0 <= k < |rs| && rs[k].error == Consolidate(rs).error
  {
    if !HasGiveUp(rs) && Consolidate(rs).error != Nil {
      ConsolidatedErrorNilIff(rs);
      var k :| 0 <= k < |rs| && rs[k].error != Nil;
      while exists j :: 0 <= j < k && rs[j].error != Nil
        invariant 0 <= k < |rs| && rs[k].error != Nil
        decreases k
      {
        var j :| 0 <= j < k && rs[j].error != Nil;
        k := j;
      }
      ConsolidatedErrorIsFirstError(rs, k);
    }
  }

  /** The aggregator (Go's resultList with its embedded opStats). */
  class ResultList {
    /** Set by any give-up; never cleared, not even by ResetAllResults. */
    var giveup: bool
    var opResInfoList: seq<OpResInfo>
    var consolidated: OpResInfo
    var opMap: map<OperationResult, Uint16>
    var errorsCount: Uint16
    var totalOpsCount: Uint16
    /** The reason stored in the give-up sentinel. */
    var giveUpReason: Reason

    /** The counters and the consolidated outcome agree with the list; counters wrap as uint16 does. */
    ghost predicate Valid()
      reads this
    {
      consolidated == Consolidate(opResInfoList)
      && CountersAgree(opResInfoList, opMap, errorsCount, totalOpsCount)
      && (forall i :: 0 <= i < |opResInfoList| ==> IsEntry(opResInfoList[i]))
    }

    /** NewResultList. */
    constructor ()
      ensures Valid()
      ensures opResInfoList == [] && !giveup && giveUpReason == Nil
    {
      giveup := false;
      giveUpReason := Nil;
      opResInfoList := [];
      consolidated := InitialConsolidated();
      opMap := map[];
      errorsCount, totalOpsCount := 0, 0;
    }

    /** OpsCount: the number of outcomes of an operation, modulo 2^16 (0 when never recorded). */
    function OpsCount(op: OperationResult): (n: Uint16)
      requires Valid()
      reads this
      ensures n == CountOp(opResInfoList, op) % 0x1_0000
    {
      OpCount(opMap, op)
    }

    function ErrorsCount(): (n: Uint16)
      requires Valid()
      reads this
      ensures n == CountErrors(opResInfoList) % 0x1_0000
    {
      errorsCount
    }

    /** TotalOpsCount: the number of distinct operations recorded, and of outcomes modulo 2^16. */
    function TotalOpsCount(): (r: (nat, Uint16))
      requires Valid()
      reads this
      ensures r.0 == |set i | 0 <= i < |opResInfoList| :: opResInfoList[i].operation|
      ensures r.1 == |opResInfoList| % 0x1_0000
    {
      OpsKeys();
      (|opMap|, totalOpsCount)
    }

    lemma OpsKeys()
      requires Valid()
      ensures opMap.Keys == set i | 0 <= i < |opResInfoList| :: opResInfoList[i].operation
    {
      forall op
        ensures op in opMap <==> exists i :: 0 <= i < |opResInfoList| && opResInfoList[i].operation == op
      {
        CountOpPositiveIff(opResInfoList, op);
      }
    }

    /**
     * ConsolidatedError: whether the reconciliation gave up, with the give-up's reason;
     * otherwise the first error recorded, or Nil.
     */
    function ConsolidatedError(): (r: (bool, Error))
      requires Valid()
      reads this
      ensures r == ConsolidatedErrorOf(opResInfoList, giveUpReason)
    {
      if consolidated.error.GiveUp? then (true, giveUpReason) else (false, consolidated.error)
    }

    function ConsolidatedSigsK8S(): (r: (ReconcileResult, Error))
      requires Valid()
      reads this
      ensures HasGiveUp(opResInfoList) ==> r == (ReconcileResult(false, 0), Nil)
      ensures r == SigsK8S(Consolidate(opResInfoList))
    {
      ConsolidatedGiveUpIff(opResInfoList);
      SigsK8S(consolidated)
    }

    /** AlarmingReasonToGiveup of the sentinel. */
    function AlarmingReasonToGiveup(): Reason
      reads this
    {
      giveUpReason
    }

    /** ErrGiveUp.Reason, corrected: store the reason in the sentinel, which is returned. */
    method SetGiveUpReason(reason: Error) returns (e: Error)
      modifies this
      ensures e == GiveUp
      ensures giveUpReason == StoredReason(old(giveUpReason), reason)
      ensures giveup == old(giveup) && opResInfoList == old(opResInfoList)
      ensures consolidated == old(consolidated) && opMap == old(opMap)
      ensures errorsCount == old(errorsCount) && totalOpsCount == old(totalOpsCount)
    {
      giveUpReason := StoredReason(giveUpReason, reason);
      return GiveUp;
    }

    method AddToCounters(err: Error, op: OperationResult)
      modifies this
      ensures opMap == Counted(old(opMap), op)
      ensures totalOpsCount == Inc16(old(totalOpsCount))
      ensures errorsCount == if err != Nil then Inc16(old(errorsCount)) else old(errorsCount)
      ensures giveup == old(giveup) && opResInfoList == old(opResInfoList)
      ensures consolidated == old(consolidated) && giveUpReason == old(giveUpReason)
    {
      opMap := Counted(opMap, op);
      totalOpsCount := Inc16(totalOpsCount);
      if err != Nil {
        errorsCount := Inc16(errorsCount);
      }
    }

    /** addEntry: record the outcome, update the consolidated outcome and the counters, pass the error on. */
    method AddEntry(entry: OpResInfo) returns (err: Error)
      requires Valid() && IsEntry(entry)
      modifies this
      ensures Valid()
      ensures opResInfoList == old(opResInfoList) + [entry]
      ensures consolidated == AddEntryTo(old(consolidated), entry) && opMap == Counted(old(opMap), entry.operation)
      ensures err == entry.error
      ensures giveup == old(giveup) && giveUpReason == old(giveUpReason)
    {
      ghost var before := opResInfoList;
      opResInfoList := opResInfoList + [entry];
      CountsAppend(before, entry);
      CountersAgreeAppend(before, entry, opMap, errorsCount, totalOpsCount);
      var c := consolidated;
      if c.error == Nil || entry.error.GiveUp? {
        c := c.(error := entry.error, resource := entry.resource);
      }
      if entry.requeue {
        if !c.requeue || entry.requeueAfterSeconds < c.requeueAfterSeconds || entry.operation == SameStatusError {
          c := SetRequeue(c, entry.requeueAfterSeconds);
        }
      }
      assert c == AddEntryTo(Consolidate(before), entry);
      consolidated := c;
      AddToCounters(entry.error, entry.operation);
      return entry.error;
    }

    /** AddOp: build the outcome with its requeue request and add it; the given error is passed on. */
    method AddOp(resource: ResourceInfo, result: OperationResult, err: Error, requeueAfterSeconds: Uint16)
      returns (e: Error)
      requires Valid()
      modifies this
      ensures Valid()
      ensures opResInfoList == old(opResInfoList) + [NewEntry(resource, result, err, requeueAfterSeconds)]
      ensures consolidated == AddEntryTo(old(consolidated), NewEntry(resource, result, err, requeueAfterSeconds))
      ensures opMap == Counted(old(opMap), result)
      ensures e == err
      ensures giveup == (old(giveup) || err.GiveUp?)
      ensures giveUpReason == old(giveUpReason)
    {
      if err.GiveUp? {
        giveup := true;
      }
      var entry := NewEntry(resource, result, err, requeueAfterSeconds);
      NewEntryIsEntry(resource, result, err, requeueAfterSeconds);
      e := AddEntry(entry);
    }

    method AddOpSuccess(resource: ResourceInfo, result: OperationResult)
      requires Valid()
      modifies this
      ensures Valid()
      ensures opResInfoList == old(opResInfoList) + [NewEntry(resource, result, Nil, 0)]
      ensures consolidated == AddEntryTo(old(consolidated), NewEntry(resource, result, Nil, 0))
      ensures opMap == Counted(old(opMap), result)
      ensures giveup == old(giveup) && giveUpReason == old(giveUpReason)
    {
      var _ := AddOp(resource, result, Nil, 0);
    }

    /** AddGiveupError: store the reason in the sentinel and add a give-up outcome. */
    method AddGiveupError(resource: ResourceInfo, result: OperationResult, alarmingReason: Error)
      returns (e: Error)
      requires Valid()
      modifies this
      ensures Valid()
      ensures opResInfoList == old(opResInfoList) + [NewEntry(resource, result, GiveUp, 0)]
      ensures consolidated == AddEntryTo(old(consolidated), NewEntry(resource, result, GiveUp, 0))
      ensures opMap == Counted(old(opMap), result)
      ensures e == GiveUp && giveup && giveUpReason == StoredReason(old(giveUpReason), alarmingReason)
    {
      var s := SetGiveUpReason(alarmingReason);
      e := AddOp(resource, result, s, 0);
    }

    /** ResetAllResults: an empty list, the initial consolidated outcome, no counters. */
    method ResetAllResults()
      modifies this
      ensures Valid()
      ensures opResInfoList == [] && opMap == map[] && errorsCount == 0 && totalOpsCount == 0
      ensures giveup == old(giveup) && giveUpReason == old(giveUpReason)
    {
      var c := consolidated.(resource := NoResource, operation := OperationResult.None, error := Nil, requeue := false);
      consolidated := SetRequeue(c, 0);
      opResInfoList := [];
      opMap := map[];
      errorsCount, totalOpsCount := 0, 0;
    }
  }

  /**
   * The aggregator's unit test: a success, an error asking for 123 s, a give-up
   * (which then reports no error and no requeue), and an error after the give-up
   * that changes nothing of that.
   */
  lemma UnitTestSequence(myErr: string)
    ensures var e1 := NewEntry(NoResource, MutationSuccess, Nil, 0);
      var e2 := NewEntry(NoResource, MutateWithCRError, Plain(myErr), 123);
      var e3 := NewEntry(NoResource, OperationResult.None, GiveUp, 0);
      var e4 := NewEntry(NoResource, RegistrationSuccess, Plain(myErr), 123);
      Consolidate([e1]).error == Nil && !Consolidate([e1]).requeue
      && SigsK8S(Consolidate([e1, e2])) == (ReconcileResult(true, 123_000_000_000), Plain(myErr))
      && SigsK8S(Consolidate([e1, e2, e3])) == (ReconcileResult(false, 0), Nil)
      && CountErrors([e1, e2, e3]) == 2
      && SigsK8S(Consolidate([e1, e2, e3, e4])) == (ReconcileResult(false, 0), Nil)
      && CountOp([e1, e2, e3, e4], RegistrationSuccess) == 1
  {
    var e1 := NewEntry(NoResource, MutationSuccess, Nil, 0);
    var e2 := NewEntry(NoResource, MutateWithCRError, Plain(myErr), 123);
    var e3 := NewEntry(NoResource, OperationResult.None, GiveUp, 0);
    var e4 := NewEntry(NoResource, RegistrationSuccess, Plain(myErr), 123);
    CountsAppend([], e1);
    assert [] + [e1] == [e1];
    CountsAppend([e1], e2);
    assert [e1] + [e2] == [e1, e2];
    CountsAppend([e1, e2], e3);
    assert [e1, e2] + [e3] == [e1, e2, e3];
    CountsAppend([e1, e2, e3], e4);
    assert [e1, e2, e3] + [e4] == [e1, e2, e3, e4];
  }
}
