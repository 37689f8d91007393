// The basic reconciler: it fetches the custom resource and creates the registered
// resources, recording every outcome in the results list. Cluster calls are not
// performed: their outcomes are supplied by the caller, one per registry position.

module BasicReconciler {
  import opened Wrappers
  import opened Errors
  import Kube
  import Ngvk
  import R = Results
  import RO = ResourceObjects
  import MO = MutableObjects
  import Reg = Registry
  import Finalizers
  import Engines

  /** Requeue delays, in seconds. */
  const RequeueOnCRUDError: R.Uint16 := 3
  const RequeueOnResourceUnreadable: R.Uint16 := 5
  const RequeueOnCreateDelayed: R.Uint16 := 4

  /** The custom resource as the results name it (crInfo): namespace/kind/resourceVersion/name, and kind/name. */
  function CRInfo(cr: Kube.Object): R.ResourceInfo
    reads cr
  {
    R.Resource(cr.namespace + "/" + cr.kind + "/" + cr.resourceVersion + "/" + cr.name, cr.kind + "/" + cr.name)
  }

  /** A resource object as the results name it. */
  function InfoOf(o: RO.ResourceObject): R.ResourceInfo {
    R.Resource(o.Index(), o.KindName())
  }

  // ---------------------------------------------------------------------------
  // FetchCR

  /** What FetchCR records and the error it returns. */
  datatype Fetch = Fetch(entries: seq<R.OpResInfo>, err: Error)

  /**
   * FetchCR: a custom resource that does not exist is a silent give-up; one that
   * cannot be read is retried after 5 s; a fetched one is recorded, preceded by a
   * finalization outcome when it has to be finalized.
   */
  function FetchOutcome(get: Kube.ClientResult, finalizing: bool, info: R.ResourceInfo): Fetch {
    match get
    case NotFound(_) => Fetch([R.NewEntry(R.NoResource, R.CRNotExist, GiveUp, 0)], GiveUp)
    case Failed(m) =>
      Fetch([R.NewEntry(R.NoResource, R.CRUnreadable, Plain(m), RequeueOnResourceUnreadable)], Plain(m))
    case Done =>
      Fetch((if finalizing then [R.NewEntry(info, R.CRIsFinalizing, Nil, 0)] else [])
        + [R.NewEntry(info, R.FetchCRSuccess, Nil, 0)], Nil)
  }

  /** A missing custom resource ends the reconciliation quietly: no error and no requeue, whatever came before. */
  lemma MissingCRIsQuietGiveUp(rs: seq<R.OpResInfo>, finalizing: bool, info: R.ResourceInfo, message: string)
    ensures var rs' := rs + FetchOutcome(Kube.NotFound(message), finalizing, info).entries;
      R.ConsolidatedErrorOf(rs', Nil) == (true, Nil)
      && R.SigsK8S(R.Consolidate(rs')) == (R.ReconcileResult(false, 0), Nil)
  {
    var rs' := rs + FetchOutcome(Kube.NotFound(message), finalizing, info).entries;
    assert rs'[|rs|].error.GiveUp?;
    R.ConsolidatedGiveUpIff(rs');
  }

  /**
   * An unreadable custom resource, before any give-up, makes the reconciliation fail
   * with a requeue after at most 5 s.
   */
  lemma UnreadableCRRequeues(rs: seq<R.OpResInfo>, finalizing: bool, info: R.ResourceInfo, message: string)
    requires !R.HasGiveUp(rs)
    ensures var rs' := rs + FetchOutcome(Kube.Failed(message), finalizing, info).entries;
      var c := R.Consolidate(rs');
      !c.error.GiveUp? && c.error != Nil && c.requeue && c.requeueAfterSeconds <= RequeueOnResourceUnreadable
  {
    var e := R.NewEntry(R.NoResource, R.CRUnreadable, Plain(message), RequeueOnResourceUnreadable);
    assert FetchOutcome(Kube.Failed(message), finalizing, info).entries == [e];
    R.CountsAppend(rs, e);
    R.ConsolidatedGiveUpIff(rs);
  }

  /**
   * A fetched custom resource that has to be finalized, at the start of a reconciliation,
   * raises the stepper's CRFinalizer event and no error event.
   */
  lemma FinalizingCRRaisesFinalizerEvent(info: R.ResourceInfo, reason: Reason)
    ensures var rs := FetchOutcome(Kube.Done, true, info).entries;
      var events := Engines.EventsList(R.ConsolidatedErrorOf(rs, reason), R.CountOp(rs, R.CRIsFinalizing) % 0x1_0000);
      Engines.CRFinalizer in events && Engines.ErrorManager !in events && Engines.GiveupManager !in events
  {
    var e1 := R.NewEntry(info, R.CRIsFinalizing, Nil, 0);
    var e2 := R.NewEntry(info, R.FetchCRSuccess, Nil, 0);
    var rs := FetchOutcome(Kube.Done, true, info).entries;
    assert rs == [e1] + [e2];
    R.CountsAppend([e1], e2);
    R.CountsAppend([], e1);
    assert [] + [e1] == [e1];
    var c := R.ConsolidatedErrorOf(rs, reason);
    Engines.EventsListMeaning(c, R.CountOp(rs, R.CRIsFinalizing) % 0x1_0000);
  }

  // ---------------------------------------------------------------------------
  // Create

  /** One call's effect on one resource: the outcome it records, the flag it leaves, the error it returns. */
  datatype Step = Step(entry: R.OpResInfo, flag: bool, err: Error)

  /**
   * Create, given the count of creations recorded (modulo 2^16) and the object's
   * "to create" flag: once that count exceeds a non-zero maxCreation the creation is
   * delayed by 4 s without calling the cluster; otherwise CreatePeer runs, and its
   * error is recorded with a 3 s requeue.
   */
  function CreateStep(created: R.Uint16, flag: bool, o: RO.ResourceObject, maxCreation: R.Uint16, create: Kube.ClientResult)
    : Step
  {
    if maxCreation > 0 && created > maxCreation then
      Step(R.NewEntry(InfoOf(o), R.CreateDelayed, Nil, RequeueOnCreateDelayed), flag, Nil)
    else if !flag then
      var e := Plain(RO.PresumedExistingMessage + o.Index());
      Step(R.NewEntry(InfoOf(o), R.CRUDError, e, RequeueOnCRUDError), false, e)
    else if !create.Done? then
      Step(R.NewEntry(InfoOf(o), R.CRUDError, Kube.ClientError(create), RequeueOnCRUDError), true, Kube.ClientError(create))
    else
      Step(R.NewEntry(InfoOf(o), R.Created, Nil, 0), false, Nil)
  }

  /**
   * Create records one outcome and returns its error; the object is left to create
   * only when it was and the creation was delayed or failed; an error asks for a
   * requeue after at most 4 s.
   */
  lemma CreateStepMeaning(created: R.Uint16, flag: bool, o: RO.ResourceObject, maxCreation: R.Uint16, create: Kube.ClientResult)
    ensures var s := CreateStep(created, flag, o, maxCreation, create);
      && s.err == s.entry.error && !s.err.GiveUp? && R.IsEntry(s.entry) && s.entry.resource == InfoOf(o)
      && (s.flag <==> flag && ((maxCreation > 0 && created > maxCreation) || !create.Done?))
      && (s.entry.operation == R.Created <==> flag && create.Done? && !(maxCreation > 0 && created > maxCreation))
      && (s.err != Nil ==> s.entry.operation == R.CRUDError && s.entry.requeue && s.entry.requeueAfterSeconds == 3)
      && (s.entry.operation == R.CreateDelayed ==> s.entry.requeue && s.entry.requeueAfterSeconds == 4)
  {
    var s := CreateStep(created, flag, o, maxCreation, create);
    R.NewEntryIsEntry(InfoOf(o), s.entry.operation, s.err, s.entry.requeueAfterSeconds);
  }

  // ---------------------------------------------------------------------------
  // The all-resources loops, on values

  /**
   * What the all-resources loops read and write, as values: the results list (its
   * outcomes, the give-up flag and reason) and, per object, the flags, the annotations
   * and the key built from its namespace, name and group/version/kind. Objects are map
   * keys, so registry entries that share an object share its state.
   */
  datatype World = World(
    rs: seq<R.OpResInfo>, giveup: bool, reason: Reason,
    createObj: map<RO.ResourceObject, bool>,
    needResync: map<MO.MutableResourceObject, bool>,
    lastSyncState: map<MO.MutableResourceObject, bool>,
    annotations: map<Kube.Object, Option<map<string, string>>>,
    ids: map<Kube.Object, Ngvk.NGVK>)

  /** A per-object flag of the loop's state (false for an object it does not know). */
  function Flag<K>(m: map<K, bool>, k: K): bool {
    k in m && m[k]
  }

  function AnnotationsOf(w: World, x: Kube.Object): Option<map<string, string>> {
    if x in w.annotations then w.annotations[x] else None
  }

  /** The key check of o on the loop's state: its recorded key against its object's current one. */
  function KeyCheckOf(w: World, o: RO.ResourceObject): Reason {
    if o.obj in w.ids then RO.KeyCheck(o.key.key.String(), w.ids[o.obj]) else Nil
  }

  /** One iteration of an all-resources loop at a registry position: nothing when it skips the entry. */
  type LoopStep = (World, nat) -> Option<(World, Error)>

  /**
   * The loop from position i on: each call's error replaces the previous one, and with
   * stopOnError the first error ends the loop and is returned.
   */
  function RunFrom(n: nat, i: nat, w: World, step: LoopStep, stopOnError: bool, err: Error): (World, Error)
    requires i <= n
    decreases n - i
  {
    if i == n then (w, err)
    else match step(w, i)
      case None => RunFrom(n, i + 1, w, step, stopOnError, err)
      case Some(r) => if r.1 != Nil && stopOnError then r else RunFrom(n, i + 1, r.0, step, stopOnError, r.1)
  }

  /** The loop after a call that does not stop it goes on from the next position. */
  lemma RunFromContinues(n: nat, i: nat, w: World, step: LoopStep, stopOnError: bool, err: Error, r: (World, Error))
    requires i < n && step(w, i) == Some(r) && !(r.1 != Nil && stopOnError)
    ensures RunFrom(n, i, w, step, stopOnError, err) == RunFrom(n, i + 1, r.0, step, stopOnError, r.1)
  {
  }

  /** How the loop goes on after position i: past a skipped entry, past a call, or stopped by a failed call. */
  lemma RunFromStep(n: nat, i: nat, w: World, step: LoopStep, stopOnError: bool, err: Error)
    requires i < n
    ensures step(w, i).None? ==> RunFrom(n, i, w, step, stopOnError, err) == RunFrom(n, i + 1, w, step, stopOnError, err)
    ensures step(w, i).Some? && step(w, i).value.1 != Nil && stopOnError ==>
      RunFrom(n, i, w, step, stopOnError, err) == step(w, i).value
    ensures step(w, i).Some? && !(step(w, i).value.1 != Nil && stopOnError) ==>
      RunFrom(n, i, w, step, stopOnError, err) == RunFrom(n, i + 1, step(w, i).value.0, step, stopOnError, step(w, i).value.1)
  {
  }

  /** An all-resources loop behind its guard: a reconciliation that gave up returns the give-up's reason at once. */
  function RunAll(n: nat, w: World, step: LoopStep, stopOnError: bool): (World, Error) {
    var c := R.ConsolidatedErrorOf(w.rs, w.reason);
    if c.0 then (w, c.1) else RunFrom(n, 0, w, step, stopOnError, Nil)
  }

  /** A call recorded outcomes after the earlier ones, the last carrying its error and the others none. */
  predicate Records(w: World, r: (World, Error)) {
    |w.rs| < |r.0.rs| && r.0.rs[..|w.rs|] == w.rs
    && r.1 == r.0.rs[|r.0.rs| - 1].error
    && forall k :: |w.rs| <= k < |r.0.rs| - 1 ==> r.0.rs[k].error == Nil
  }

  lemma {:induction false} RunFromReturnsLastError(n: nat, i: nat, w: World, step: LoopStep, stopOnError: bool, err: Error)
    requires i <= n
    requires forall w, i :: step(w, i).Some? ==> Records(w, step(w, i).value)
    ensures var r := RunFrom(n, i, w, step, stopOnError, err);
      && |w.rs| <= |r.0.rs| && r.0.rs[..|w.rs|] == w.rs
      && r.1 == (if |r.0.rs| == |w.rs| then err else r.0.rs[|r.0.rs| - 1].error)
      && (stopOnError && err == Nil ==> forall k :: |w.rs| <= k < |r.0.rs| - 1 ==> r.0.rs[k].error == Nil)
    decreases n - i
  {
    if i < n {
      match step(w, i)
      case None =>
        RunFromReturnsLastError(n, i + 1, w, step, stopOnError, err);
      case Some(s) =>
        assert Records(w, s);
        if !(s.1 != Nil && stopOnError) {
          RunFromReturnsLastError(n, i + 1, s.0, step, stopOnError, s.1);
          var r := RunFrom(n, i + 1, s.0, step, stopOnError, s.1);
          assert r.0.rs[..|s.0.rs|] == s.0.rs;
          assert r.0.rs[..|w.rs|] == s.0.rs[..|w.rs|];
          if stopOnError && err == Nil {
            forall k | |w.rs| <= k < |r.0.rs| - 1
              ensures r.0.rs[k].error == Nil
            {
              if k < |s.0.rs| {
                assert r.0.rs[k] == s.0.rs[k];
              }
            }
          }
        }
    }
  }

  /**
   * The all-resources loops return the error of the last call they made (nil when they
   * made none) after a give-up check, and with stopOnError they stop at the first
   * failed call: every outcome before the last is a success.
   */
  lemma AllLoopReturnsLastError(n: nat, w: World, step: LoopStep, stopOnError: bool)
    requires forall w, i :: step(w, i).Some? ==> Records(w, step(w, i).value)
    ensures var r := RunAll(n, w, step, stopOnError);
      && (R.HasGiveUp(w.rs) ==> r == (w, w.reason))
      && (!R.HasGiveUp(w.rs) ==>
        && |w.rs| <= |r.0.rs| && r.0.rs[..|w.rs|] == w.rs
        && r.1 == (if |r.0.rs| == |w.rs| then Nil else r.0.rs[|r.0.rs| - 1].error)
        && (stopOnError ==> forall k :: |w.rs| <= k < |r.0.rs| - 1 ==> r.0.rs[k].error == Nil))
  {
    R.ConsolidatedGiveUpIff(w.rs);
    RunFromReturnsLastError(n, 0, w, step, stopOnError, Nil);
  }

  /** Create on the loop's state. */
  function CreateIn(w: World, o: RO.ResourceObject, maxCreation: R.Uint16, create: Kube.ClientResult): (World, Error) {
    var s := CreateStep(R.CountOp(w.rs, R.Created) % 0x1_0000, Flag(w.createObj, o), o, maxCreation, create);
    (w.(rs := w.rs + [s.entry], createObj := w.createObj[o := s.flag]), s.err)
  }

  /** CreateAllResources's iteration: an entry is created only when it is still to create. */
  function CreateAt(elems: seq<Reg.Resource>, maxCreation: R.Uint16, creates: nat -> Kube.ClientResult): LoopStep {
    (w: World, i: nat) =>
      if i < |elems| && Flag(w.createObj, elems[i].Object()) then Some(CreateIn(w, elems[i].Object(), maxCreation, creates(i)))
      else None
  }

  /** CreateAllResources on values; creates(i) is what the cluster answers to creating the i-th entry. */
  function CreateAll(elems: seq<Reg.Resource>, w: World, maxCreation: R.Uint16, stopOnError: bool,
    creates: nat -> Kube.ClientResult): (World, Error)
  {
    RunAll(|elems|, w, CreateAt(elems, maxCreation, creates), stopOnError)
  }

  lemma CreateRecordsItsError(elems: seq<Reg.Resource>, maxCreation: R.Uint16, creates: nat -> Kube.ClientResult)
    ensures forall w, i :: CreateAt(elems, maxCreation, creates)(w, i).Some? ==>
      Records(w, CreateAt(elems, maxCreation, creates)(w, i).value)
  {
    forall w: World, i: nat | CreateAt(elems, maxCreation, creates)(w, i).Some?
      ensures Records(w, CreateAt(elems, maxCreation, creates)(w, i).value)
    {
      var o := elems[i].Object();
      CreateStepMeaning(R.CountOp(w.rs, R.Created) % 0x1_0000, Flag(w.createObj, o), o, maxCreation, creates(i));
    }
  }

  /**
   * CreateAllResources returns the last creation's error, or the give-up's reason at
   * once, and with stopOnError it stops at the first failed creation.
   */
  lemma CreateAllReturnsLastError(elems: seq<Reg.Resource>, w: World, maxCreation: R.Uint16, stopOnError: bool,
    creates: nat -> Kube.ClientResult)
    ensures var r := CreateAll(elems, w, maxCreation, stopOnError, creates);
      && (R.HasGiveUp(w.rs) ==> r == (w, w.reason))
      && (!R.HasGiveUp(w.rs) ==>
        && |w.rs| <= |r.0.rs| && r.0.rs[..|w.rs|] == w.rs
        && r.1 == (if |r.0.rs| == |w.rs| then Nil else r.0.rs[|r.0.rs| - 1].error)
        && (stopOnError ==> forall k :: |w.rs| <= k < |r.0.rs| - 1 ==> r.0.rs[k].error == Nil))
  {
    CreateRecordsItsError(elems, maxCreation, creates);
    AllLoopReturnsLastError(|elems|, w, CreateAt(elems, maxCreation, creates), stopOnError);
  }

  function Min(a: nat, b: nat): nat {
    if a <= b then a else b
  }

  /** Distinct registry entries refer to distinct objects. */
  predicate Distinct(elems: seq<Reg.Resource>) {
    forall i, j :: 0 <= i < j < |elems| ==> elems[i].Object() != elems[j].Object()
  }

  /** One creation of CreationLimitFrom: created up to the limit plus one, delayed past it. */
  lemma CreationLimitStep(elems: seq<Reg.Resource>, i: nat, w: World, m: R.Uint16, stopOnError: bool,
    creates: nat -> Kube.ClientResult) returns (w': World)
    requires 0 < m < 0xFFFF && i < |elems| && Distinct(elems)
    requires forall j :: i <= j < |elems| ==> Flag(w.createObj, elems[j].Object()) && creates(j).Done?
    requires R.CountOp(w.rs, R.Created) == Min(i, m + 1)
    ensures w' == CreateIn(w, elems[i].Object(), m, creates(i)).0
    ensures
      && RunFrom(|elems|, i, w, CreateAt(elems, m, creates), stopOnError, Nil)
        == RunFrom(|elems|, i + 1, w', CreateAt(elems, m, creates), stopOnError, Nil)
      && R.CountOp(w'.rs, R.Created) == Min(i + 1, m + 1)
      && R.CountOp(w'.rs, R.Created) + R.CountOp(w'.rs, R.CreateDelayed) == R.CountOp(w.rs, R.Created) + R.CountOp(w.rs, R.CreateDelayed) + 1
      && forall j :: i + 1 <= j < |elems| ==> Flag(w'.createObj, elems[j].Object())
  {
    var o := elems[i].Object();
    var r := CreateIn(w, o, m, creates(i));
    CreateInDone(w, o, m, creates(i));
    assert CreateAt(elems, m, creates)(w, i) == Some(r);
    RunFromContinues(|elems|, i, w, CreateAt(elems, m, creates), stopOnError, Nil, r);
    w' := r.0;
    forall j | i + 1 <= j < |elems|
      ensures Flag(w'.createObj, elems[j].Object())
    {
      assert elems[j].Object() != o;
    }
  }

  /** A successful creation of an object still to create, under a limit m > 0, is recorded as created up to m and delayed past it. */
  lemma CreateInDone(w: World, o: RO.ResourceObject, m: R.Uint16, create: Kube.ClientResult)
    requires 0 < m && Flag(w.createObj, o) && create.Done? && R.CountOp(w.rs, R.Created) < 0x1_0000
    ensures var c, r := R.CountOp(w.rs, R.Created), CreateIn(w, o, m, create);
      && r.1 == Nil
      && r.0.createObj == w.createObj[o := c > m]
      && R.CountOp(r.0.rs, R.Created) == (if c > m then c else c + 1)
      && R.CountOp(r.0.rs, R.Created) + R.CountOp(r.0.rs, R.CreateDelayed) == c + R.CountOp(w.rs, R.CreateDelayed) + 1
  {
    var c := R.CountOp(w.rs, R.Created);
    assert c % 0x1_0000 == c;
    var s := CreateStep(c, true, o, m, create);
    assert CreateIn(w, o, m, create) == (w.(rs := w.rs + [s.entry], createObj := w.createObj[o := s.flag]), s.err);
    if c > m {
      assert s == Step(R.NewEntry(InfoOf(o), R.CreateDelayed, Nil, RequeueOnCreateDelayed), true, Nil);
    } else {
      assert s == Step(R.NewEntry(InfoOf(o), R.Created, Nil, 0), false, Nil);
    }
    R.CountsAppend(w.rs, s.entry);
  }

  lemma {:induction false} CreationLimitFrom(elems: seq<Reg.Resource>, i: nat, w: World, m: R.Uint16, stopOnError: bool,
    creates: nat -> Kube.ClientResult)
    requires 0 < m < 0xFFFF && i <= |elems| && Distinct(elems)
    requires forall j :: i <= j < |elems| ==> Flag(w.createObj, elems[j].Object()) && creates(j).Done?
    requires R.CountOp(w.rs, R.Created) == Min(i, m + 1)
    ensures var r := RunFrom(|elems|, i, w, CreateAt(elems, m, creates), stopOnError, Nil);
      && r.1 == Nil
      && R.CountOp(r.0.rs, R.Created) == Min(|elems|, m + 1)
      && R.CountOp(r.0.rs, R.Created) + R.CountOp(r.0.rs, R.CreateDelayed)
        == R.CountOp(w.rs, R.Created) + R.CountOp(w.rs, R.CreateDelayed) + (|elems| - i)
    decreases |elems| - i
  {
    if i < |elems| {
      var w' := CreationLimitStep(elems, i, w, m, stopOnError, creates);
      CreationLimitFrom(elems, i + 1, w', m, stopOnError, creates);
    }
  }

  /**
   * The creation limit lets one creation more through than it says: with a limit m
   * (0 < m < 65535), entries that are all to create, distinct objects, every creation
   * succeeding and none recorded before, exactly min(n, m + 1) entries are created and
   * the others delayed, and no error is returned.
   */
  lemma CreationLimitAdmitsOneMore(elems: seq<Reg.Resource>, w: World, m: R.Uint16, stopOnError: bool,
    creates: nat -> Kube.ClientResult)
    requires 0 < m < 0xFFFF && Distinct(elems) && !R.HasGiveUp(w.rs)
    requires forall j :: 0 <= j < |elems| ==> Flag(w.createObj, elems[j].Object()) && creates(j).Done?
    requires R.CountOp(w.rs, R.Created) == 0
    ensures var r := CreateAll(elems, w, m, stopOnError, creates);
      && r.1 == Nil
      && R.CountOp(r.0.rs, R.Created) == Min(|elems|, m + 1)
      && R.CountOp(r.0.rs, R.CreateDelayed) == R.CountOp(w.rs, R.CreateDelayed) + |elems| - Min(|elems|, m + 1)
  {
    R.ConsolidatedGiveUpIff(w.rs);
    CreationLimitFrom(elems, 0, w, m, stopOnError, creates);
  }

  lemma {:induction false} NoLimitFrom(elems: seq<Reg.Resource>, i: nat, w: World, stopOnError: bool,
    creates: nat -> Kube.ClientResult)
    requires i <= |elems|
    requires forall j :: 0 <= j < |elems| ==> creates(j).Done?
    requires forall j :: 0 <= j < i ==> !Flag(w.createObj, elems[j].Object())
    ensures var r := RunFrom(|elems|, i, w, CreateAt(elems, 0, creates), stopOnError, Nil);
      && r.1 == Nil
      && (forall j :: 0 <= j < |elems| ==> !Flag(r.0.createObj, elems[j].Object()))
      && (forall o :: Flag(r.0.createObj, o) ==> Flag(w.createObj, o))
    decreases |elems| - i
  {
    if i < |elems| {
      var o := elems[i].Object();
      if Flag(w.createObj, o) {
        var s := CreateStep(R.CountOp(w.rs, R.Created) % 0x1_0000, true, o, 0, creates(i));
        var w' := w.(rs := w.rs + [s.entry], createObj := w.createObj[o := s.flag]);
        assert CreateAt(elems, 0, creates)(w, i) == Some((w', s.err));
        assert !s.flag && s.err == Nil;
        NoLimitFrom(elems, i + 1, w', stopOnError, creates);
      } else {
        NoLimitFrom(elems, i + 1, w, stopOnError, creates);
      }
    }
  }

  /**
   * Without a creation limit and with every creation succeeding, CreateAllResources
   * leaves no registered object to create, marks none for creation, and returns nil.
   */
  lemma NoLimitCreatesEverything(elems: seq<Reg.Resource>, w: World, stopOnError: bool, creates: nat -> Kube.ClientResult)
    requires !R.HasGiveUp(w.rs)
    requires forall j :: 0 <= j < |elems| ==> creates(j).Done?
    ensures var r := CreateAll(elems, w, 0, stopOnError, creates);
      && r.1 == Nil
      && (forall j :: 0 <= j < |elems| ==> !Flag(r.0.createObj, elems[j].Object()))
      && (forall o :: Flag(r.0.createObj, o) ==> Flag(w.createObj, o))
  {
    R.ConsolidatedGiveUpIff(w.rs);
    NoLimitFrom(elems, 0, w, stopOnError, creates);
  }

  // ---------------------------------------------------------------------------
  // The heap and the loop's state

  /** The resource objects the registry's entries refer to. */
  ghost function Objects(elems: seq<Reg.Resource>): set<RO.ResourceObject> {
    set i | 0 <= i < |elems| :: elems[i].Object()
  }

  /** The mutable resource objects among them. */
  ghost function Mutables(elems: seq<Reg.Resource>): set<MO.MutableResourceObject> {
    set i | 0 <= i < |elems| && elems[i].Mutable? :: elems[i].mutable
  }

  /** The Kubernetes objects they wrap. */
  ghost function KubeObjects(elems: seq<Reg.Resource>): set<Kube.Object> {
    set o | o in Objects(elems) :: o.obj
  }

  /** The loop's state as the heap holds it. */
  ghost function WorldOf(results: R.ResultList, elems: seq<Reg.Resource>): World
    reads results, Objects(elems), Mutables(elems), KubeObjects(elems)
  {
    World(results.opResInfoList, results.giveup, results.giveUpReason,
      map o | o in Objects(elems) :: o.createObj,
      map m | m in Mutables(elems) :: m.needResync,
      map m | m in Mutables(elems) :: m.lastSyncState,
      map x | x in KubeObjects(elems) :: x.annotations,
      map x | x in KubeObjects(elems) :: Ngvk.New(x))
  }

  /** The results list holds what the loop's state says. */
  ghost predicate ResultsHold(results: R.ResultList, w: World)
    reads results
  {
    results.opResInfoList == w.rs && results.giveup == w.giveup && results.giveUpReason == w.reason
  }

  /** The resource objects hold the flags the loop's state says. */
  ghost predicate ObjectsHold(elems: seq<Reg.Resource>, w: World)
    reads Objects(elems)`createObj
  {
    forall o :: o in Objects(elems) ==> o.createObj == Flag(w.createObj, o)
  }

  /** The mutable resource objects hold the flags the loop's state says. */
  ghost predicate MutablesHold(elems: seq<Reg.Resource>, w: World)
    reads Mutables(elems)`needResync, Mutables(elems)`lastSyncState
  {
    forall m :: m in Mutables(elems) ==> m.needResync == Flag(w.needResync, m) && m.lastSyncState == Flag(w.lastSyncState, m)
  }

  /** The Kubernetes objects hold the annotations the loop's state says. */
  ghost predicate AnnotationsHold(elems: seq<Reg.Resource>, w: World)
    reads KubeObjects(elems)`annotations
  {
    forall x :: x in KubeObjects(elems) ==> x.annotations == AnnotationsOf(w, x)
  }

  /** The heap holds what the loop's state says. */
  ghost predicate Holds(results: R.ResultList, elems: seq<Reg.Resource>, w: World)
    reads results, Objects(elems), Mutables(elems), KubeObjects(elems)
  {
    ResultsHold(results, w) && ObjectsHold(elems, w) && MutablesHold(elems, w) && AnnotationsHold(elems, w)
  }

  lemma HoldsOfWorldOf(results: R.ResultList, elems: seq<Reg.Resource>)
    ensures Holds(results, elems, WorldOf(results, elems))
  {
  }

  // ---------------------------------------------------------------------------
  // The reconciler

  /** BasicObject: a reconciler that only creates resources. */
  class BasicObject {
    const results: R.ResultList
    const registry: Reg.Registry
    /** The custom resource; fetching fills it from the cluster, which is not modelled. */
    const cr: Kube.Object
    var crIsFetched: bool
    var controllerName: string
    /** The custom resource is being deleted and carries this controller's finalizer. */
    var crHasToBeFinalized: bool

    ghost predicate Valid()
      reads results
    {
      results.Valid()
    }

    /** Init, with the results list and the registry a reconciliation starts with. */
    constructor (results: R.ResultList, registry: Reg.Registry, cr: Kube.Object)
      requires results.Valid()
      ensures Valid()
      ensures this.results == results && this.registry == registry && this.cr == cr
      ensures !crIsFetched && controllerName == "" && !crHasToBeFinalized
    {
      this.results, this.registry, this.cr := results, registry, cr;
      crIsFetched, controllerName, crHasToBeFinalized := false, "", false;
    }

    /**
     * FetchCR; get is what the cluster answered, beingDeleted whether the fetched custom
     * resource carries a deletion timestamp.
     */
    method FetchCR(get: Kube.ClientResult, beingDeleted: bool) returns (err: Error)
      requires Valid()
      modifies this`crIsFetched, this`controllerName, this`crHasToBeFinalized, results
      ensures Valid()
      ensures results.opResInfoList == old(results.opResInfoList) + FetchOutcome(get, crHasToBeFinalized, CRInfo(cr)).entries
      ensures err == FetchOutcome(get, crHasToBeFinalized, CRInfo(cr)).err
      ensures get.NotFound? ==> results.giveup && results.giveUpReason == Nil
      ensures !get.NotFound? ==> results.giveup == old(results.giveup) && results.giveUpReason == old(results.giveUpReason)
      ensures crIsFetched == (old(crIsFetched) || get.Done?)
      ensures get.Done? ==> controllerName == cr.name && (crHasToBeFinalized <==> beingDeleted && cr.name in cr.finalizers)
      ensures !get.Done? ==> controllerName == old(controllerName) && crHasToBeFinalized == old(crHasToBeFinalized)
    {
      if get.Done? {
        crIsFetched := true;
        controllerName := cr.name;
        var has := Finalizers.HasFinalizer(cr, controllerName);
        crHasToBeFinalized := beingDeleted && has;
      }
      err := AddFetchOutcome(get, crHasToBeFinalized, CRInfo(cr));
    }

    /** FetchCR's recording of the outcomes, once the custom resource's state is known. */
    method AddFetchOutcome(get: Kube.ClientResult, finalizing: bool, info: R.ResourceInfo) returns (err: Error)
      requires Valid()
      modifies results
      ensures Valid()
      ensures results.opResInfoList == old(results.opResInfoList) + FetchOutcome(get, finalizing, info).entries
      ensures err == FetchOutcome(get, finalizing, info).err
      ensures get.NotFound? ==> results.giveup && results.giveUpReason == Nil
      ensures !get.NotFound? ==> results.giveup == old(results.giveup) && results.giveUpReason == old(results.giveUpReason)
    {
      match get
      case NotFound(_) =>
        err := results.AddGiveupError(R.NoResource, R.CRNotExist, Nil);
      case Failed(m) =>
        err := results.AddOp(R.NoResource, R.CRUnreadable, Plain(m), RequeueOnResourceUnreadable);
      case Done =>
        ghost var rs0 := results.opResInfoList;
        ghost var head := FetchOutcome(get, finalizing, info).entries[..|FetchOutcome(get, finalizing, info).entries| - 1];
        if finalizing {
          results.AddOpSuccess(info, R.CRIsFinalizing);
        }
        assert results.opResInfoList == rs0 + head;
        results.AddOpSuccess(info, R.FetchCRSuccess);
        assert FetchOutcome(get, finalizing, info).entries == head + [R.NewEntry(info, R.FetchCRSuccess, Nil, 0)];
        assert results.opResInfoList == rs0 + (head + [R.NewEntry(info, R.FetchCRSuccess, Nil, 0)]);
        err := Nil;
    }

    /** GetName: the controller's name once the custom resource is fetched, "" before. */
    function GetName(): (name: string)
      reads this
      ensures crIsFetched ==> name == controllerName
      ensures !crIsFetched ==> name == ""
    {
      if crIsFetched then controllerName else ""
    }

    /**
     * RemoveCRFinalizer: drop this controller's finalizer and update the custom resource;
     * a failed update is recorded without a requeue delay.
     */
    method RemoveCRFinalizer(update: Kube.ClientResult) returns (err: Reason)
      requires Valid()
      modifies cr`finalizers, results
      ensures Valid()
      ensures cr.finalizers == Finalizers.Without(old(cr.finalizers), controllerName)
      ensures controllerName !in cr.finalizers
      ensures err == Kube.ClientError(update)
      ensures results.opResInfoList == old(results.opResInfoList)
        + (if err == Nil then [] else [R.NewEntry(CRInfo(cr), R.CRUDError, err, 0)])
      ensures results.giveup == old(results.giveup) && results.giveUpReason == old(results.giveUpReason)
    {
      Finalizers.RemoveFinalizer(cr, controllerName);
      Finalizers.WithoutRemovesAll(old(cr.finalizers), controllerName);
      err := Kube.ClientError(update);
      if err != Nil {
        var _ := results.AddOp(CRInfo(cr), R.CRUDError, err, 0);
      }
    }

    /** Create; create is what the cluster answers if it is asked. */
    method Create(resource: RO.ResourceObject, maxCreation: R.Uint16, create: Kube.ClientResult) returns (err: Error)
      requires Valid()
      modifies results, resource`createObj, resource`calls
      ensures Valid()
      ensures var s := CreateStep(old(results.OpsCount(R.Created)), old(resource.createObj), resource, maxCreation, create);
        && results.opResInfoList == old(results.opResInfoList) + [s.entry]
        && resource.createObj == s.flag && err == s.err
      ensures results.giveup == old(results.giveup) && results.giveUpReason == old(results.giveUpReason)
      ensures resource.calls ==
        if (maxCreation > 0 && old(results.OpsCount(R.Created)) > maxCreation) || !old(resource.createObj)
        then old(resource.calls) else old(resource.calls) + [Kube.Create]
    {
      if maxCreation > 0 {
        var count := results.OpsCount(R.Created);
        if count > maxCreation {
          var _ := results.AddOp(InfoOf(resource), R.CreateDelayed, Nil, RequeueOnCreateDelayed);
          return Nil;
        }
      }
      var e := resource.CreatePeer(create);
      if e != Nil {
        err := results.AddOp(InfoOf(resource), R.CRUDError, e, RequeueOnCRUDError);
        return;
      }
      results.AddOpSuccess(InfoOf(resource), R.Created);
      return Nil;
    }

    /** Create, followed on the loop's state. */
    method CreateTracked(ghost elems: seq<Reg.Resource>, ghost w: World, o: RO.ResourceObject, maxCreation: R.Uint16,
      create: Kube.ClientResult) returns (err: Error)
      requires Valid() && o in Objects(elems) && ResultsHold(results, w) && ObjectsHold(elems, w)
      modifies results, o`createObj, o`calls
      ensures Valid()
      ensures var r := CreateIn(w, o, maxCreation, create); ResultsHold(results, r.0) && ObjectsHold(elems, r.0) && err == r.1
    {
      ghost var r := CreateIn(w, o, maxCreation, create);
      label L:
      err := Create(o, maxCreation, create);
      forall o' | o' in Objects(elems)
        ensures o'.createObj == Flag(r.0.createObj, o')
      {
        if o' != o {
          assert o'.createObj == old@L(o'.createObj);
        }
      }
    }

    /** One entry of CreateAllResources: the entry is created when it is still to create, skipped (ran is false) otherwise. */
    method CreateEntry(ghost elems: seq<Reg.Resource>, ghost w: World, i: nat, o: RO.ResourceObject, maxCreation: R.Uint16,
      creates: nat -> Kube.ClientResult) returns (ran: bool, err: Error)
      requires Valid() && i < |elems| && o == elems[i].Object() && ResultsHold(results, w) && ObjectsHold(elems, w)
      modifies results, o`createObj, o`calls
      ensures Valid()
      ensures var s := CreateAt(elems, maxCreation, creates)(w, i);
        && ran == s.Some?
        && ResultsHold(results, if ran then s.value.0 else w) && ObjectsHold(elems, if ran then s.value.0 else w)
        && (ran ==> err == s.value.1)
    {
      assert o in Objects(elems);
      if o.IsCreation() {
        assert CreateAt(elems, maxCreation, creates)(w, i) == Some(CreateIn(w, o, maxCreation, creates(i)));
        err := CreateTracked(elems, w, o, maxCreation, creates(i));
        return true, err;
      }
      return false, Nil;
    }

    /** CreateAllResources; creates(i) is what the cluster answers to creating the i-th entry. */
    method CreateAllResources(maxCreation: R.Uint16, stopOnError: bool, creates: nat -> Kube.ClientResult)
      returns (err: Error)
      requires Valid()
      modifies results, Objects(registry.elems)
      ensures Valid()
      ensures var r := CreateAll(registry.elems, old(WorldOf(results, registry.elems)), maxCreation, stopOnError, creates);
        ResultsHold(results, r.0) && ObjectsHold(registry.elems, r.0) && err == r.1
    {
      var elems := registry.Entries();
      ghost var w0 := WorldOf(results, elems);
      ghost var w := w0;
      HoldsOfWorldOf(results, elems);
      var c := results.ConsolidatedError();
      if c.0 {
        return c.1;
      }
      ghost var step := CreateAt(elems, maxCreation, creates);
      err := Nil;
      for i := 0 to |elems|
        invariant results.Valid()
        invariant ResultsHold(results, w) && ObjectsHold(elems, w)
        invariant RunFrom(|elems|, 0, w0, step, stopOnError, Nil) == RunFrom(|elems|, i, w, step, stopOnError, err)
      {
        RunFromStep(|elems|, i, w, step, stopOnError, err);
        var ran, e := CreateEntry(elems, w, i, elems[i].Object(), maxCreation, creates);
        if ran {
          w, err := step(w, i).value.0, e;
          if err != Nil && stopOnError {
            return;
          }
        }
      }
    }
  }
}
