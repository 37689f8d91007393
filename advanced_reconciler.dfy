// The advanced reconciler: the basic one plus the mutation and the update of mutable
// resources. The resources' mutation hooks and the cluster calls are not performed:
// what they report is supplied by the caller, one per registry position.

module AdvancedReconciler {
  import opened Wrappers
  import opened Errors
  import Kube
  import Ngvk
  import Hash
  import R = Results
  import RO = ResourceObjects
  import MO = MutableObjects
  import Reg = Registry
  import BR = BasicReconciler

  // ---------------------------------------------------------------------------
  // Update

  /**
   * Update, given the resource's "needs resync" and "to create" flags: an object in sync
   * is recorded as untouched; otherwise UpdatePeer runs (and fails for an object not yet
   * created), its error being recorded with a 3 s requeue. The flag returned is the new
   * "needs resync".
   */
  function UpdateStep(needResync: bool, creation: bool, o: RO.ResourceObject, update: Kube.ClientResult): BR.Step {
    if !needResync then
      BR.Step(R.NewEntry(BR.InfoOf(o), R.None, Nil, 0), false, Nil)
    else if creation then
      var e := Plain(MO.PresumedNotCreatedMessage + o.Index());
      BR.Step(R.NewEntry(BR.InfoOf(o), R.CRUDError, e, BR.RequeueOnCRUDError), true, e)
    else if !update.Done? then
      BR.Step(R.NewEntry(BR.InfoOf(o), R.CRUDError, Kube.ClientError(update), BR.RequeueOnCRUDError), true, Kube.ClientError(update))
    else
      BR.Step(R.NewEntry(BR.InfoOf(o), R.Updated, Nil, 0), false, Nil)
  }

  /**
   * Update records one outcome and returns its error: None exactly when the object is in
   * sync, Updated exactly when the update reached the cluster and succeeded, a CRUD error
   * with a 3 s requeue otherwise; it stays in need of a resync exactly when it failed.
   */
  lemma UpdateStepMeaning(needResync: bool, creation: bool, o: RO.ResourceObject, update: Kube.ClientResult)
    ensures var s := UpdateStep(needResync, creation, o, update);
      && s.err == s.entry.error && !s.err.GiveUp? && R.IsEntry(s.entry) && s.entry.resource == BR.InfoOf(o)
      && (s.entry.operation == R.None <==> !needResync)
      && (s.entry.operation == R.Updated <==> needResync && !creation && update.Done?)
      && (s.err != Nil <==> s.entry.operation == R.CRUDError)
      && (s.err != Nil ==> s.entry.requeue && s.entry.requeueAfterSeconds == BR.RequeueOnCRUDError)
      && (s.flag <==> s.err != Nil)
  {
    var s := UpdateStep(needResync, creation, o, update);
    R.NewEntryIsEntry(BR.InfoOf(o), s.entry.operation, s.err, s.entry.requeueAfterSeconds);
  }

  // ---------------------------------------------------------------------------
  // Mutate

  /**
   * What a resource's mutation hooks report. The hooks are the resource's own code; the
   * reconciler sees their errors, the requeue delay MutateWithCR asks for, and the
   * hashable template before and after the mutation, and the namespace and name the hooks
   * leave the object with when they rename or move it (those of the hooks that run). A hook
   * may return any error, the give-up sentinel included.
   */
  datatype Hooks = Hooks(
    refBefore: Hash.Template,
    preMutate: Error,
    initialData: Error,
    requeueAfterSeconds: R.Uint16, withCR: Error,
    postMutate: Error,
    refAfter: Hash.Template,
    renamed: Option<Ngvk.NamespacedName>)

  /** The object's key once the hooks are done: a rename keeps its group/version/kind. */
  function AfterHooks(id: Ngvk.NGVK, h: Hooks): Ngvk.NGVK {
    if h.renamed.Some? then id.(key := h.renamed.value) else id
  }

  /** The part of a mutable resource that Mutate changes: its two flags and its object's annotations. */
  datatype MutableState = MutableState(needResync: bool, lastSyncState: bool, annotations: Option<map<string, string>>)

  /** UpdateSyncStatus on values. */
  function Sync(s: MutableState, ref: Hash.Template): MutableState {
    var changed := Hash.GetTemplateHashAnnotation(s.annotations) != Hash.Compute(ref);
    MutableState(s.needResync || changed, changed, Some(Hash.Regenerated(s.annotations, ref)))
  }

  /** The state Mutate's hooks see: an existing object's sync status is refreshed from the template first. */
  function Refreshed(creation: bool, s: MutableState, h: Hooks): MutableState {
    if creation then s else Sync(s, h.refBefore)
  }

  /** Whether Mutate applies the initial data: the object must be resynchronised or created. */
  predicate NeedsInitialData(creation: bool, s: MutableState, h: Hooks) {
    Refreshed(creation, s, h).needResync || creation
  }

  /**
   * What Mutate records, the state it leaves, the alarming reason it passes to
   * AddGiveupError (if it does) and the error it returns.
   */
  datatype Mutation = Mutation(entries: seq<R.OpResInfo>, state: MutableState, giveUp: Option<Error>, err: Error)

  /** The outcome of a give-up on an implementation concern. */
  function GiveUpEntry(info: R.ResourceInfo): R.OpResInfo {
    R.NewEntry(info, R.ImplementationConcern, GiveUp, 0)
  }

  /**
   * Mutate, given the "to create" flag, the resource's state and the outcome of its key
   * check: an existing object's sync status is refreshed first; the initial data are
   * applied when the object must be resynchronised or created; a failing hook or key
   * check gives up, a MutateWithCR error is recorded with its delay and returned, and a
   * successful mutation refreshes the sync status from the mutated template.
   */
  function MutateStep(creation: bool, s: MutableState, key: Reason, info: R.ResourceInfo, h: Hooks): Mutation {
    Mutated(creation, Refreshed(creation, s, h), key, info, h)
  }

  /** Mutate once the sync status is refreshed: the hooks up to MutateWithCR. */
  function Mutated(creation: bool, s1: MutableState, key: Reason, info: R.ResourceInfo, h: Hooks): Mutation {
    if h.preMutate != Nil then
      Mutation([GiveUpEntry(info)], s1, Some(h.preMutate), GiveUp)
    else if (s1.needResync || creation) && h.initialData != Nil then
      Mutation([GiveUpEntry(info)], s1, Some(h.initialData), GiveUp)
    else if h.withCR != Nil then
      Mutation([R.NewEntry(info, R.MutateWithCRError, h.withCR, h.requeueAfterSeconds)], s1, None, h.withCR)
    else
      Finished(s1, key, info, h)
  }

  /** Mutate after a successful MutateWithCR: the requeue request, then the rest. */
  function Finished(s1: MutableState, key: Reason, info: R.ResourceInfo, h: Hooks): Mutation {
    var c := Checked(s1, key, info, h);
    c.(entries := AskRequeue(info, h) + c.entries)
  }

  /** The requeue request of a successful MutateWithCR asking for a positive delay. */
  function AskRequeue(info: R.ResourceInfo, h: Hooks): seq<R.OpResInfo> {
    if h.requeueAfterSeconds > 0 then [R.NewEntry(info, R.MutateWithCRAskRequeue, Nil, h.requeueAfterSeconds)] else []
  }

  /** PostMutate, the key check and the new sync status. */
  function Checked(s1: MutableState, key: Reason, info: R.ResourceInfo, h: Hooks): Mutation {
    if h.postMutate != Nil then
      Mutation([GiveUpEntry(info)], s1, Some(h.postMutate), GiveUp)
    else if key != Nil then
      Mutation([GiveUpEntry(info)], s1, Some(key), GiveUp)
    else
      Mutation([R.NewEntry(info, R.MutationSuccess, Nil, 0)], Sync(s1, h.refAfter), None, Nil)
  }

  /**
   * PostMutate, the key check and the new sync status record a single outcome: a
   * MutationSuccess exactly when both pass, storing the mutated template's hash, and
   * the implementation-concern give-up otherwise.
   */
  lemma CheckedOutcome(s1: MutableState, key: Reason, info: R.ResourceInfo, h: Hooks)
    ensures var c := Checked(s1, key, info, h);
      && |c.entries| == 1 && R.IsEntry(c.entries[0]) && c.entries[0].resource == info
      && c.err == c.entries[0].error
      && (c.giveUp.Some? <==> c.err == GiveUp)
      && (c.giveUp.Some? ==> c.entries[0] == GiveUpEntry(info))
      && (c.err == Nil <==> h.postMutate == Nil && key == Nil)
      && (c.entries[0].operation == R.MutationSuccess <==> c.err == Nil)
      && (c.err == Nil ==> Hash.GetTemplateHashAnnotation(c.state.annotations) == Hash.Compute(h.refAfter))
  {
    R.NewEntryIsEntry(info, R.ImplementationConcern, GiveUp, 0);
    R.NewEntryIsEntry(info, R.MutationSuccess, Nil, 0);
    if h.postMutate == Nil && key == Nil {
      Hash.RegeneratedMeaning(s1.annotations, h.refAfter);
    }
  }

  /** The requeue request is at most one successful MutateWithCRAskRequeue outcome about the resource. */
  lemma AskRequeueOutcome(info: R.ResourceInfo, h: Hooks)
    ensures var a := AskRequeue(info, h);
      && |a| <= 1 && R.CountOp(a, R.MutationSuccess) == 0
      && (forall k :: 0 <= k < |a| ==> R.IsEntry(a[k]) && a[k].resource == info && a[k].error == Nil)
  {
    R.NewEntryIsEntry(info, R.MutateWithCRAskRequeue, Nil, h.requeueAfterSeconds);
    var a := AskRequeue(info, h);
    if a != [] {
      assert a[..0] == [];
    }
  }

  /**
   * How a mutation records: outcomes about its resource, all successes but the last,
   * whose error it returns; it gives up exactly when it returns the sentinel, and then
   * its last outcome is the implementation-concern give-up.
   */
  ghost predicate RecordsAbout(r: Mutation, info: R.ResourceInfo) {
    && |r.entries| > 0
    && r.err == r.entries[|r.entries| - 1].error
    && (forall k :: 0 <= k < |r.entries| - 1 ==> r.entries[k].error == Nil)
    && (forall k :: 0 <= k < |r.entries| ==> R.IsEntry(r.entries[k]) && r.entries[k].resource == info)
    && (r.giveUp.Some? <==> r.err == GiveUp && r.entries[|r.entries| - 1].operation == R.ImplementationConcern)
    && (r.giveUp.Some? ==> r.entries[|r.entries| - 1] == GiveUpEntry(info))
  }

  /** Finished is Checked behind the requeue request. */
  lemma FinishedAfterChecked(s1: MutableState, key: Reason, info: R.ResourceInfo, h: Hooks)
    ensures var f, c := Finished(s1, key, info, h), Checked(s1, key, info, h);
      f.entries == AskRequeue(info, h) + c.entries && f.state == c.state && f.giveUp == c.giveUp && f.err == c.err
  {
  }

  lemma AppendAssociates<T>(a: seq<T>, b: seq<T>, c: seq<T>)
    ensures a + b + c == a + (b + c)
  {
  }

  /** Mutate after a successful MutateWithCR: the requeue request, then the single outcome of Checked. */
  lemma FinishedOutcome(s1: MutableState, key: Reason, info: R.ResourceInfo, h: Hooks)
    ensures var f := Finished(s1, key, info, h);
      && RecordsAbout(f, info)
      && (f.err == Nil <==> h.postMutate == Nil && key == Nil)
      && R.CountOp(f.entries, R.MutationSuccess) == (if f.err == Nil then 1 else 0)
      && (f.err == Nil ==> Hash.GetTemplateHashAnnotation(f.state.annotations) == Hash.Compute(h.refAfter))
  {
    var c := Checked(s1, key, info, h);
    var a := AskRequeue(info, h);
    CheckedOutcome(s1, key, info, h);
    AskRequeueOutcome(info, h);
    assert c.entries == [c.entries[0]];
    R.CountsAppend(a, c.entries[0]);
  }

  /** The hooks up to MutateWithCR record as a mutation does. */
  lemma MutatedRecords(creation: bool, s1: MutableState, key: Reason, info: R.ResourceInfo, h: Hooks)
    ensures RecordsAbout(Mutated(creation, s1, key, info, h), info)
  {
    if h.preMutate != Nil || ((s1.needResync || creation) && h.initialData != Nil) {
      R.NewEntryIsEntry(info, R.ImplementationConcern, GiveUp, 0);
    } else if h.withCR != Nil {
      R.NewEntryIsEntry(info, R.MutateWithCRError, h.withCR, h.requeueAfterSeconds);
    } else {
      FinishedOutcome(s1, key, info, h);
    }
  }

  /**
   * Every Mutate records outcomes about its resource, all successes but the last, whose
   * error it returns; it gives up exactly when it returns the sentinel, and then its last
   * outcome is the implementation-concern give-up.
   */
  lemma MutateStepRecords(creation: bool, s: MutableState, key: Reason, info: R.ResourceInfo, h: Hooks)
    ensures var r := MutateStep(creation, s, key, info, h);
      && |r.entries| > 0
      && r.err == r.entries[|r.entries| - 1].error
      && (forall k :: 0 <= k < |r.entries| - 1 ==> r.entries[k].error == Nil)
      && (forall k :: 0 <= k < |r.entries| ==> R.IsEntry(r.entries[k]) && r.entries[k].resource == info)
      && (r.giveUp.Some? <==> r.err == GiveUp && r.entries[|r.entries| - 1].operation == R.ImplementationConcern)
      && (r.giveUp.Some? ==> r.entries[|r.entries| - 1] == GiveUpEntry(info))
  {
    MutatedRecords(creation, Refreshed(creation, s, h), key, info, h);
  }

  /**
   * Mutate succeeds exactly when no hook it calls fails and the key is intact; it then
   * records exactly one MutationSuccess (none otherwise) and stores the mutated
   * template's hash.
   */
  lemma MutateSucceedsIff(creation: bool, s: MutableState, key: Reason, info: R.ResourceInfo, h: Hooks)
    ensures var r := MutateStep(creation, s, key, info, h);
      && (r.err == Nil <==>
        h.preMutate == Nil && (h.initialData == Nil || !NeedsInitialData(creation, s, h))
        && h.withCR == Nil && h.postMutate == Nil && key == Nil)
      && R.CountOp(r.entries, R.MutationSuccess) == (if r.err == Nil then 1 else 0)
      && (r.err == Nil ==> Hash.GetTemplateHashAnnotation(r.state.annotations) == Hash.Compute(h.refAfter))
  {
    var s1 := Refreshed(creation, s, h);
    if h.preMutate != Nil || ((s1.needResync || creation) && h.initialData != Nil) {
      R.CountsAppend([], GiveUpEntry(info));
    } else if h.withCR != Nil {
      R.CountsAppend([], R.NewEntry(info, R.MutateWithCRError, h.withCR, h.requeueAfterSeconds));
    } else {
      FinishedOutcome(s1, key, info, h);
    }
  }

  /**
   * The initial data are applied only when needed: otherwise MutateWithInitialData's
   * outcome changes nothing; when needed, its failure gives up with its error.
   */
  lemma InitialDataOnlyWhenNeeded(creation: bool, s: MutableState, key: Reason, info: R.ResourceInfo, h: Hooks, e: Error)
    ensures !NeedsInitialData(creation, s, h) ==>
      MutateStep(creation, s, key, info, h.(initialData := e)) == MutateStep(creation, s, key, info, h)
    ensures NeedsInitialData(creation, s, h) && h.preMutate == Nil && h.initialData != Nil ==>
      MutateStep(creation, s, key, info, h) == Mutation([GiveUpEntry(info)], Refreshed(creation, s, h), Some(h.initialData), GiveUp)
  {
  }

  /**
   * A MutateWithCR error is recorded with the delay asked for and returned; PostMutate,
   * the key check and the second sync are skipped. Without an error, a positive delay
   * is recorded first as a requeue request.
   */
  lemma WithCRErrorSkipsTheRest(creation: bool, s: MutableState, key: Reason, info: R.ResourceInfo, h: Hooks,
    key': Reason, post: Error, ref: Hash.Template)
    requires h.preMutate == Nil && !(NeedsInitialData(creation, s, h) && h.initialData != Nil)
    ensures h.withCR != Nil ==>
      && MutateStep(creation, s, key, info, h)
        == Mutation([R.NewEntry(info, R.MutateWithCRError, h.withCR, h.requeueAfterSeconds)], Refreshed(creation, s, h), None, h.withCR)
      && MutateStep(creation, s, key', info, h.(postMutate := post, refAfter := ref)) == MutateStep(creation, s, key, info, h)
    ensures h.withCR == Nil && h.requeueAfterSeconds > 0 ==>
      var r := MutateStep(creation, s, key, info, h);
      |r.entries| == 2 && r.entries[0] == R.NewEntry(info, R.MutateWithCRAskRequeue, Nil, h.requeueAfterSeconds)
    ensures h.withCR == Nil && h.requeueAfterSeconds == 0 ==> |MutateStep(creation, s, key, info, h).entries| == 1
  {
  }

  /**
   * A hook may return the give-up sentinel itself. From PreMutate (and likewise from the
   * initial data or PostMutate) Mutate gives up as for any failure, passing the sentinel
   * as the alarming reason, so the reason stored before is kept. From MutateWithCR the
   * sentinel is recorded as the MutateWithCRError outcome, without a requeue, and
   * returned; that outcome gives up too and leaves the stored reason alone.
   */
  lemma SentinelFromHook(creation: bool, s: MutableState, key: Reason, info: R.ResourceInfo, h: Hooks, stored: Reason)
    ensures h.preMutate == GiveUp ==>
      var r := MutateStep(creation, s, key, info, h);
      && r == Mutation([GiveUpEntry(info)], Refreshed(creation, s, h), Some(GiveUp), GiveUp)
      && R.StoredReason(stored, r.giveUp.value) == stored
    ensures h.preMutate == Nil && !(NeedsInitialData(creation, s, h) && h.initialData != Nil) && h.withCR == GiveUp ==>
      var r := MutateStep(creation, s, key, info, h);
      && r.err == GiveUp && r.giveUp.None? && |r.entries| == 1
      && r.entries[0].operation == R.MutateWithCRError && r.entries[0].error == GiveUp
      && !r.entries[0].requeue && r.entries[0].requeueAfterSeconds == 0
  {
    R.NewEntryIsEntry(info, R.MutateWithCRError, GiveUp, h.requeueAfterSeconds);
  }

  /** Mutate never clears the "needs resync" flag. */
  lemma MutateNeverClearsResync(creation: bool, s: MutableState, key: Reason, info: R.ResourceInfo, h: Hooks)
    ensures s.needResync ==> MutateStep(creation, s, key, info, h).state.needResync
  {
  }

  /**
   * A successful mutation of an existing object detects a change exactly when the
   * mutation changed the template's hash, and asks for a resync when it was already
   * needed, when the cluster's copy carried another hash, or when the mutation changed it.
   * A created object is compared with the hash it carried.
   */
  lemma SuccessfulMutationTracksTemplate(creation: bool, s: MutableState, key: Reason, info: R.ResourceInfo, h: Hooks)
    ensures var r := MutateStep(creation, s, key, info, h);
      && (!creation && r.err == Nil ==>
        && (r.state.lastSyncState <==> Hash.Compute(h.refBefore) != Hash.Compute(h.refAfter))
        && (r.state.needResync <==>
          (s.needResync || Hash.GetTemplateHashAnnotation(s.annotations) != Hash.Compute(h.refBefore)
           || Hash.Compute(h.refBefore) != Hash.Compute(h.refAfter))))
      && (creation && r.err == Nil ==>
        && (r.state.lastSyncState <==> Hash.GetTemplateHashAnnotation(s.annotations) != Hash.Compute(h.refAfter))
        && (r.state.needResync <==> s.needResync || r.state.lastSyncState))
  {
    Hash.RegeneratedMeaning(s.annotations, h.refBefore);
  }

  // ---------------------------------------------------------------------------
  // The all-resources loops, on values

  /** A mutable resource's state as the loop's state holds it. */
  function StateIn(w: BR.World, m: MO.MutableResourceObject): MutableState {
    MutableState(BR.Flag(w.needResync, m), BR.Flag(w.lastSyncState, m), BR.AnnotationsOf(w, m.res.obj))
  }

  /** The loop's state once m's hooks have renamed its object, if they do. */
  function HooksRenamed(w: BR.World, m: MO.MutableResourceObject, h: Hooks): BR.World {
    var x := m.res.obj;
    if x in w.ids then w.(ids := w.ids[x := AfterHooks(w.ids[x], h)]) else w
  }

  /** The key check Mutate makes after the hooks, on the object as they leave it. */
  function KeyAfterHooks(w: BR.World, m: MO.MutableResourceObject, h: Hooks): Reason {
    BR.KeyCheckOf(HooksRenamed(w, m, h), m.res)
  }

  /** Mutate on the loop's state; a give-up also sets the results' give-up flag and reason. */
  function MutateIn(w: BR.World, m: MO.MutableResourceObject, h: Hooks): (BR.World, Error) {
    var r := MutateStep(BR.Flag(w.createObj, m.res), StateIn(w, m), KeyAfterHooks(w, m, h), BR.InfoOf(m.res), h);
    (Applied(HooksRenamed(w, m, h), m, r), r.err)
  }

  /** The loop's state once m's mutation r is done. */
  function Applied(w: BR.World, m: MO.MutableResourceObject, r: Mutation): BR.World {
    w.(rs := w.rs + r.entries,
       giveup := w.giveup || r.err == GiveUp,
       reason := if r.giveUp.Some? then R.StoredReason(w.reason, r.giveUp.value) else w.reason,
       needResync := w.needResync[m := r.state.needResync],
       lastSyncState := w.lastSyncState[m := r.state.lastSyncState],
       annotations := w.annotations[m.res.obj := r.state.annotations])
  }

  /**
   * Mutate changes no other object's key; the mutated object keeps its group/version/kind
   * and ends with the namespace and name the hooks leave it with.
   */
  lemma MutateInRenames(w: BR.World, m: MO.MutableResourceObject, h: Hooks)
    ensures var ids := MutateIn(w, m, h).0.ids;
      && ids.Keys == w.ids.Keys
      && (forall x :: x in w.ids && x != m.res.obj ==> ids[x] == w.ids[x])
      && (m.res.obj in w.ids ==>
        && ids[m.res.obj].gvk == w.ids[m.res.obj].gvk
        && ids[m.res.obj].key == if h.renamed.Some? then h.renamed.value else w.ids[m.res.obj].key)
  {
  }

  /**
   * The key check after the hooks catches a rename: for separator-free namespaces it passes
   * exactly when the object still has the namespaced name it was keyed with. So once the
   * hooks succeed, Mutate gives up exactly when they renamed or moved the object, with the
   * discrepancy as the reason.
   */
  lemma HookRenameGivesUp(w: BR.World, m: MO.MutableResourceObject, h: Hooks)
    requires m.res.obj in w.ids
    requires Ngvk.NoSeparator(m.res.key.key.namespace) && Ngvk.NoSeparator(w.ids[m.res.obj].key.namespace)
    requires h.renamed.Some? ==> Ngvk.NoSeparator(h.renamed.value.namespace)
    ensures KeyAfterHooks(w, m, h) == Nil <==>
      (if h.renamed.Some? then h.renamed.value else w.ids[m.res.obj].key) == m.res.key.key
    ensures h.preMutate == Nil && h.initialData == Nil && h.withCR == Nil && h.postMutate == Nil ==>
      var r := MutateIn(w, m, h);
      && (r.1 == GiveUp <==> KeyAfterHooks(w, m, h) != Nil)
      && (r.1 == GiveUp ==> r.0.giveup && r.0.reason == KeyAfterHooks(w, m, h))
  {
    RO.KeyCheckMeaning(m.res.key.key, AfterHooks(w.ids[m.res.obj], h));
  }

  /** MutateAllResources's iteration: only mutable entries are mutated. */
  function MutateAt(elems: seq<Reg.Resource>, hooks: nat -> Hooks): BR.LoopStep {
    (w: BR.World, i: nat) => if i < |elems| && elems[i].Mutable? then Some(MutateIn(w, elems[i].mutable, hooks(i))) else None
  }

  /** MutateAllResources on values; hooks(i) is what the i-th entry's hooks report. */
  function MutateAll(elems: seq<Reg.Resource>, w: BR.World, stopOnError: bool, hooks: nat -> Hooks): (BR.World, Error) {
    BR.RunAll(|elems|, w, MutateAt(elems, hooks), stopOnError)
  }

  lemma MutateRecordsItsError(elems: seq<Reg.Resource>, hooks: nat -> Hooks)
    ensures forall w, i :: MutateAt(elems, hooks)(w, i).Some? ==> BR.Records(w, MutateAt(elems, hooks)(w, i).value)
  {
    forall w: BR.World, i: nat | MutateAt(elems, hooks)(w, i).Some?
      ensures BR.Records(w, MutateAt(elems, hooks)(w, i).value)
    {
      assert MutateAt(elems, hooks)(w, i) == Some(MutateIn(w, elems[i].mutable, hooks(i)));
      MutateInRecords(w, elems[i].mutable, hooks(i));
    }
  }

  lemma MutateInRecords(w: BR.World, m: MO.MutableResourceObject, h: Hooks)
    ensures BR.Records(w, MutateIn(w, m, h))
  {
    var r := MutateStep(BR.Flag(w.createObj, m.res), StateIn(w, m), KeyAfterHooks(w, m, h), BR.InfoOf(m.res), h);
    MutateStepRecords(BR.Flag(w.createObj, m.res), StateIn(w, m), KeyAfterHooks(w, m, h), BR.InfoOf(m.res), h);
    AppliedRecords(HooksRenamed(w, m, h), m, r);
  }

  /** A mutation that records as Mutate does appends its outcomes to the loop's state. */
  lemma AppliedRecords(w: BR.World, m: MO.MutableResourceObject, r: Mutation)
    requires |r.entries| > 0 && r.err == r.entries[|r.entries| - 1].error
    requires forall k :: 0 <= k < |r.entries| - 1 ==> r.entries[k].error == Nil
    ensures BR.Records(w, (Applied(w, m, r), r.err))
  {
    var rs := Applied(w, m, r).rs;
    assert rs == w.rs + r.entries;
    assert rs[..|w.rs|] == w.rs;
    forall k | |w.rs| <= k < |rs| - 1
      ensures rs[k].error == Nil
    {
      assert rs[k] == r.entries[k - |w.rs|];
    }
  }

  /**
   * MutateAllResources returns the last mutation's error, or the give-up's reason at once,
   * and with stopOnError it stops at the first failed mutation.
   */
  lemma MutateAllReturnsLastError(elems: seq<Reg.Resource>, w: BR.World, stopOnError: bool, hooks: nat -> Hooks)
    ensures var r := MutateAll(elems, w, stopOnError, hooks);
      && (R.HasGiveUp(w.rs) ==> r == (w, w.reason))
      && (!R.HasGiveUp(w.rs) ==>
        && |w.rs| <= |r.0.rs| && r.0.rs[..|w.rs|] == w.rs
        && r.1 == (if |r.0.rs| == |w.rs| then Nil else r.0.rs[|r.0.rs| - 1].error)
        && (stopOnError ==> forall k :: |w.rs| <= k < |r.0.rs| - 1 ==> r.0.rs[k].error == Nil))
  {
    MutateRecordsItsError(elems, hooks);
    BR.AllLoopReturnsLastError(|elems|, w, MutateAt(elems, hooks), stopOnError);
  }

  /** Mutate on the loop's state clears no resource's "needs resync" flag. */
  lemma MutateInKeepsResync(w: BR.World, m: MO.MutableResourceObject, h: Hooks)
    ensures forall m' :: BR.Flag(w.needResync, m') ==> BR.Flag(MutateIn(w, m, h).0.needResync, m')
  {
    MutateNeverClearsResync(BR.Flag(w.createObj, m.res), StateIn(w, m), KeyAfterHooks(w, m, h), BR.InfoOf(m.res), h);
  }

  lemma {:induction false} MutateFromKeepsResync(elems: seq<Reg.Resource>, i: nat, w: BR.World, stopOnError: bool,
    hooks: nat -> Hooks, err: Error)
    requires i <= |elems|
    ensures var r := BR.RunFrom(|elems|, i, w, MutateAt(elems, hooks), stopOnError, err);
      forall m :: BR.Flag(w.needResync, m) ==> BR.Flag(r.0.needResync, m)
    decreases |elems| - i
  {
    if i < |elems| {
      var step := MutateAt(elems, hooks);
      BR.RunFromStep(|elems|, i, w, step, stopOnError, err);
      if elems[i].Mutable? {
        var m := elems[i].mutable;
        var w' := MutateIn(w, m, hooks(i));
        MutateInKeepsResync(w, m, hooks(i));
        MutateFromKeepsResync(elems, i + 1, w'.0, stopOnError, hooks, w'.1);
      } else {
        MutateFromKeepsResync(elems, i + 1, w, stopOnError, hooks, err);
      }
    }
  }

  /** MutateAllResources never clears a resource's "needs resync" flag. */
  lemma MutateAllKeepsResync(elems: seq<Reg.Resource>, w: BR.World, stopOnError: bool, hooks: nat -> Hooks)
    ensures var r := MutateAll(elems, w, stopOnError, hooks);
      forall m :: BR.Flag(w.needResync, m) ==> BR.Flag(r.0.needResync, m)
  {
    MutateFromKeepsResync(elems, 0, w, stopOnError, hooks, Nil);
  }

  /** Update on the loop's state. */
  function UpdateIn(w: BR.World, m: MO.MutableResourceObject, update: Kube.ClientResult): (BR.World, Error) {
    var s := UpdateStep(BR.Flag(w.needResync, m), BR.Flag(w.createObj, m.res), m.res, update);
    (w.(rs := w.rs + [s.entry], needResync := w.needResync[m := s.flag]), s.err)
  }

  /**
   * CreateOrUpdateAllResources's iteration: an entry still to create goes through Create
   * only; any other mutable entry goes through Update; an immutable one is skipped.
   */
  function CreateOrUpdateAt(elems: seq<Reg.Resource>, maxCreation: R.Uint16, creates: nat -> Kube.ClientResult,
    updates: nat -> Kube.ClientResult): BR.LoopStep
  {
    (w: BR.World, i: nat) =>
      if i >= |elems| then None
      else if BR.Flag(w.createObj, elems[i].Object()) then Some(BR.CreateIn(w, elems[i].Object(), maxCreation, creates(i)))
      else if elems[i].Mutable? then Some(UpdateIn(w, elems[i].mutable, updates(i)))
      else None
  }

  /** CreateOrUpdateAllResources on values; creates(i) and updates(i) are what the cluster answers for the i-th entry. */
  function CreateOrUpdateAll(elems: seq<Reg.Resource>, w: BR.World, maxCreation: R.Uint16, stopOnError: bool,
    creates: nat -> Kube.ClientResult, updates: nat -> Kube.ClientResult): (BR.World, Error)
  {
    BR.RunAll(|elems|, w, CreateOrUpdateAt(elems, maxCreation, creates, updates), stopOnError)
  }

  /**
   * The dispatch: an entry still to create records a creation outcome and leaves every
   * "needs resync" flag alone; any other mutable entry records an update outcome and
   * leaves every "to create" flag alone.
   */
  lemma CreateOrUpdateDispatch(elems: seq<Reg.Resource>, maxCreation: R.Uint16, creates: nat -> Kube.ClientResult,
    updates: nat -> Kube.ClientResult, w: BR.World, i: nat)
    requires i < |elems|
    ensures var r := CreateOrUpdateAt(elems, maxCreation, creates, updates)(w, i);
      && (r.Some? <==> BR.Flag(w.createObj, elems[i].Object()) || elems[i].Mutable?)
      && (r.Some? ==> |r.value.0.rs| == |w.rs| + 1 && r.value.0.rs[..|w.rs|] == w.rs)
      && (BR.Flag(w.createObj, elems[i].Object()) ==>
        && r.value.0.rs[|w.rs|].operation in {R.Created, R.CreateDelayed, R.CRUDError}
        && r.value.0.needResync == w.needResync)
      && (!BR.Flag(w.createObj, elems[i].Object()) && elems[i].Mutable? ==>
        && r.value.0.rs[|w.rs|].operation in {R.None, R.Updated, R.CRUDError}
        && r.value.0.createObj == w.createObj)
  {
    var step := CreateOrUpdateAt(elems, maxCreation, creates, updates);
    var o := elems[i].Object();
    if BR.Flag(w.createObj, o) {
      assert step(w, i) == Some(BR.CreateIn(w, o, maxCreation, creates(i)));
      CreateInAppends(w, o, maxCreation, creates(i));
    } else if elems[i].Mutable? {
      assert step(w, i) == Some(UpdateIn(w, elems[i].mutable, updates(i)));
      UpdateInAppends(w, elems[i].mutable, updates(i));
    }
  }

  /** Create on the loop's state appends one creation outcome and leaves every "needs resync" flag alone. */
  lemma CreateInAppends(w: BR.World, o: RO.ResourceObject, maxCreation: R.Uint16, create: Kube.ClientResult)
    ensures var r := BR.CreateIn(w, o, maxCreation, create).0;
      && |r.rs| == |w.rs| + 1 && r.rs[..|w.rs|] == w.rs
      && r.rs[|w.rs|].operation in {R.Created, R.CreateDelayed, R.CRUDError}
      && r.needResync == w.needResync
  {
    var s := BR.CreateStep(R.CountOp(w.rs, R.Created) % 0x1_0000, BR.Flag(w.createObj, o), o, maxCreation, create);
    BR.CreateStepMeaning(R.CountOp(w.rs, R.Created) % 0x1_0000, BR.Flag(w.createObj, o), o, maxCreation, create);
    assert (w.rs + [s.entry])[..|w.rs|] == w.rs;
  }

  /** Update on the loop's state appends one update outcome and leaves every "to create" flag alone. */
  lemma UpdateInAppends(w: BR.World, m: MO.MutableResourceObject, update: Kube.ClientResult)
    ensures var r := UpdateIn(w, m, update).0;
      && |r.rs| == |w.rs| + 1 && r.rs[..|w.rs|] == w.rs
      && r.rs[|w.rs|].operation in {R.None, R.Updated, R.CRUDError}
      && r.createObj == w.createObj
  {
    var s := UpdateStep(BR.Flag(w.needResync, m), BR.Flag(w.createObj, m.res), m.res, update);
    UpdateStepMeaning(BR.Flag(w.needResync, m), BR.Flag(w.createObj, m.res), m.res, update);
    assert (w.rs + [s.entry])[..|w.rs|] == w.rs;
  }

  lemma CreateOrUpdateRecordsItsError(elems: seq<Reg.Resource>, maxCreation: R.Uint16, creates: nat -> Kube.ClientResult,
    updates: nat -> Kube.ClientResult)
    ensures forall w, i :: CreateOrUpdateAt(elems, maxCreation, creates, updates)(w, i).Some? ==>
      BR.Records(w, CreateOrUpdateAt(elems, maxCreation, creates, updates)(w, i).value)
  {
    forall w: BR.World, i: nat | CreateOrUpdateAt(elems, maxCreation, creates, updates)(w, i).Some?
      ensures BR.Records(w, CreateOrUpdateAt(elems, maxCreation, creates, updates)(w, i).value)
    {
      var o := elems[i].Object();
      if BR.Flag(w.createObj, o) {
        assert CreateOrUpdateAt(elems, maxCreation, creates, updates)(w, i) == Some(BR.CreateIn(w, o, maxCreation, creates(i)));
        BR.CreateStepMeaning(R.CountOp(w.rs, R.Created) % 0x1_0000, true, o, maxCreation, creates(i));
      } else {
        var m := elems[i].mutable;
        assert CreateOrUpdateAt(elems, maxCreation, creates, updates)(w, i) == Some(UpdateIn(w, m, updates(i)));
        UpdateStepMeaning(BR.Flag(w.needResync, m), BR.Flag(w.createObj, m.res), m.res, updates(i));
      }
    }
  }

  /**
   * CreateOrUpdateAllResources returns the last call's error, or the give-up's reason at
   * once, and with stopOnError it stops at the first failed call.
   */
  lemma CreateOrUpdateAllReturnsLastError(elems: seq<Reg.Resource>, w: BR.World, maxCreation: R.Uint16, stopOnError: bool,
    creates: nat -> Kube.ClientResult, updates: nat -> Kube.ClientResult)
    ensures var r := CreateOrUpdateAll(elems, w, maxCreation, stopOnError, creates, updates);
      && (R.HasGiveUp(w.rs) ==> r == (w, w.reason))
      && (!R.HasGiveUp(w.rs) ==>
        && |w.rs| <= |r.0.rs| && r.0.rs[..|w.rs|] == w.rs
        && r.1 == (if |r.0.rs| == |w.rs| then Nil else r.0.rs[|r.0.rs| - 1].error)
        && (stopOnError ==> forall k :: |w.rs| <= k < |r.0.rs| - 1 ==> r.0.rs[k].error == Nil))
  {
    CreateOrUpdateRecordsItsError(elems, maxCreation, creates, updates);
    BR.AllLoopReturnsLastError(|elems|, w, CreateOrUpdateAt(elems, maxCreation, creates, updates), stopOnError);
  }

  /** Which flags a pass has settled so far, against the state w0 it started from. */
  ghost predicate SettledUpTo(elems: seq<Reg.Resource>, i: nat, w0: BR.World, w: BR.World)
    requires i <= |elems|
  {
    && (forall o :: o in w.createObj && BR.Flag(w.createObj, o) ==> BR.Flag(w0.createObj, o))
    && (forall m :: m in w.needResync && BR.Flag(w.needResync, m) ==> BR.Flag(w0.needResync, m))
    && (forall j :: 0 <= j < i ==> !BR.Flag(w.createObj, elems[j].Object()))
    && (forall j :: 0 <= j < i && elems[j].Mutable? && !BR.Flag(w0.createObj, elems[j].Object()) ==>
      !BR.Flag(w.needResync, elems[j].mutable))
  }

  /** A creation the cluster accepts, without a limit, settles the entry's "to create" flag. */
  lemma SettleCreate(elems: seq<Reg.Resource>, i: nat, w0: BR.World, w: BR.World, create: Kube.ClientResult)
    requires i < |elems| && create.Done? && SettledUpTo(elems, i, w0, w) && BR.Flag(w.createObj, elems[i].Object())
    ensures var r := BR.CreateIn(w, elems[i].Object(), 0, create); r.1 == Nil && SettledUpTo(elems, i + 1, w0, r.0)
  {
    var o := elems[i].Object();
    var w1 := BR.CreateIn(w, o, 0, create).0;
    assert w1 == w.(rs := w1.rs, createObj := w.createObj[o := false]);
  }

  /** An update the cluster accepts settles the entry's "needs resync" flag. */
  lemma SettleUpdate(elems: seq<Reg.Resource>, i: nat, w0: BR.World, w: BR.World, update: Kube.ClientResult)
    requires i < |elems| && update.Done? && SettledUpTo(elems, i, w0, w)
    requires !BR.Flag(w.createObj, elems[i].Object()) && elems[i].Mutable?
    ensures var r := UpdateIn(w, elems[i].mutable, update); r.1 == Nil && SettledUpTo(elems, i + 1, w0, r.0)
  {
    var m := elems[i].mutable;
    var w1 := UpdateIn(w, m, update).0;
    assert w1 == w.(rs := w1.rs, needResync := w.needResync[m := false]);
  }

  /** One call of a pass where the cluster accepts everything and creation is unlimited. */
  lemma SettleStep(elems: seq<Reg.Resource>, i: nat, w0: BR.World, w: BR.World, stopOnError: bool,
    creates: nat -> Kube.ClientResult, updates: nat -> Kube.ClientResult)
    requires i < |elems| && creates(i).Done? && updates(i).Done?
    requires SettledUpTo(elems, i, w0, w)
    ensures var step := CreateOrUpdateAt(elems, 0, creates, updates);
      && (step(w, i).None? ==> SettledUpTo(elems, i + 1, w0, w))
      && (step(w, i).Some? ==> step(w, i).value.1 == Nil && SettledUpTo(elems, i + 1, w0, step(w, i).value.0))
  {
    var step := CreateOrUpdateAt(elems, 0, creates, updates);
    var o := elems[i].Object();
    if BR.Flag(w.createObj, o) {
      assert step(w, i) == Some(BR.CreateIn(w, o, 0, creates(i)));
      SettleCreate(elems, i, w0, w, creates(i));
    } else if elems[i].Mutable? {
      assert step(w, i) == Some(UpdateIn(w, elems[i].mutable, updates(i)));
      SettleUpdate(elems, i, w0, w, updates(i));
    } else {
      assert step(w, i).None?;
    }
  }

  lemma {:induction false} SettleFrom(elems: seq<Reg.Resource>, i: nat, w0: BR.World, w: BR.World, stopOnError: bool,
    creates: nat -> Kube.ClientResult, updates: nat -> Kube.ClientResult)
    requires i <= |elems|
    requires forall j :: 0 <= j < |elems| ==> creates(j).Done? && updates(j).Done?
    requires SettledUpTo(elems, i, w0, w)
    ensures var r := BR.RunFrom(|elems|, i, w, CreateOrUpdateAt(elems, 0, creates, updates), stopOnError, Nil);
      r.1 == Nil && SettledUpTo(elems, |elems|, w0, r.0)
    decreases |elems| - i
  {
    if i < |elems| {
      var step := CreateOrUpdateAt(elems, 0, creates, updates);
      BR.RunFromStep(|elems|, i, w, step, stopOnError, Nil);
      SettleStep(elems, i, w0, w, stopOnError, creates, updates);
      if step(w, i).Some? {
        SettleFrom(elems, i + 1, w0, step(w, i).value.0, stopOnError, creates, updates);
      } else {
        SettleFrom(elems, i + 1, w0, w, stopOnError, creates, updates);
      }
    }
  }

  /**
   * When the cluster accepts every call and creation is unlimited, CreateOrUpdateAllResources
   * returns nil, leaves no registered object to create and no mutable resource that was
   * already on the cluster in need of a resync (one created in this pass keeps its flag),
   * and raises no flag.
   */
  lemma CreateOrUpdateSettlesEverything(elems: seq<Reg.Resource>, w: BR.World, stopOnError: bool,
    creates: nat -> Kube.ClientResult, updates: nat -> Kube.ClientResult)
    requires !R.HasGiveUp(w.rs)
    requires forall j :: 0 <= j < |elems| ==> creates(j).Done? && updates(j).Done?
    ensures var r := CreateOrUpdateAll(elems, w, 0, stopOnError, creates, updates);
      && r.1 == Nil
      && (forall j :: 0 <= j < |elems| ==> !BR.Flag(r.0.createObj, elems[j].Object()))
      && (forall j :: 0 <= j < |elems| && elems[j].Mutable? && !BR.Flag(w.createObj, elems[j].Object()) ==>
        !BR.Flag(r.0.needResync, elems[j].mutable))
      && (forall o :: BR.Flag(r.0.createObj, o) ==> BR.Flag(w.createObj, o))
      && (forall m :: BR.Flag(r.0.needResync, m) ==> BR.Flag(w.needResync, m))
  {
    R.ConsolidatedGiveUpIff(w.rs);
    SettleFrom(elems, 0, w, w, stopOnError, creates, updates);
  }

  // ---------------------------------------------------------------------------
  // The reconciler

  /** A mutable resource's state as the heap holds it. */
  ghost function StateOf(m: MO.MutableResourceObject): MutableState
    reads m, m.res.obj`annotations
  {
    MutableState(m.needResync, m.lastSyncState, m.res.obj.annotations)
  }

  /** The heap holds the loop's state after a mutation of m that left every other object alone. */
  twostate lemma AppliedHolds(new results: R.ResultList, elems: seq<Reg.Resource>, new w: BR.World,
    new m: MO.MutableResourceObject, new mr: Mutation)
    requires old(allocated(results)) && old(allocated(w))
    requires m in BR.Mutables(elems) && old(BR.Holds(results, elems, w))
    requires results.opResInfoList == old(results.opResInfoList) + mr.entries
    requires results.giveup == (old(results.giveup) || mr.err == GiveUp)
    requires results.giveUpReason == (if mr.giveUp.Some? then R.StoredReason(old(results.giveUpReason), mr.giveUp.value) else old(results.giveUpReason))
    requires StateOf(m) == mr.state
    requires forall m': MO.MutableResourceObject :: old(allocated(m')) && m' != m ==>
      m'.needResync == old(m'.needResync) && m'.lastSyncState == old(m'.lastSyncState)
    requires forall x: Kube.Object :: old(allocated(x)) && x != m.res.obj ==> x.annotations == old(x.annotations)
    requires forall o: RO.ResourceObject :: old(allocated(o)) ==> o.createObj == old(o.createObj)
    ensures BR.Holds(results, elems, Applied(w, m, mr))
  {
    var j :| 0 <= j < |elems| && elems[j].Mutable? && elems[j].mutable == m;
    assert elems[j].Object() == m.res;
    assert m.res in BR.Objects(elems) && m.res.obj in BR.KubeObjects(elems);
    var w1 := Applied(w, m, mr);
    forall m' | m' in BR.Mutables(elems)
      ensures m'.needResync == BR.Flag(w1.needResync, m') && m'.lastSyncState == BR.Flag(w1.lastSyncState, m')
    {
      if m' != m {
        assert old(m'.needResync == BR.Flag(w.needResync, m') && m'.lastSyncState == BR.Flag(w.lastSyncState, m'));
      }
    }
    forall x | x in BR.KubeObjects(elems)
      ensures x.annotations == BR.AnnotationsOf(w1, x)
    {
      if x != m.res.obj {
        assert old(x.annotations == BR.AnnotationsOf(w, x));
      }
    }
  }

  /** Whether the heap holds the loop's state does not depend on the objects' keys. */
  lemma HoldsWithoutIds(results: R.ResultList, elems: seq<Reg.Resource>, w: BR.World, ids: map<Kube.Object, Ngvk.NGVK>)
    requires BR.Holds(results, elems, w)
    ensures BR.Holds(results, elems, w.(ids := ids))
  {
  }

  /** The objects have the keys of the loop's state once m's object is renamed as the hooks say. */
  lemma RenamedIdsHold(elems: seq<Reg.Resource>, w: BR.World, m: MO.MutableResourceObject, h: Hooks)
    requires m.res.obj in w.ids && Ngvk.New(m.res.obj) == AfterHooks(w.ids[m.res.obj], h)
    requires forall x :: x in BR.KubeObjects(elems) && x != m.res.obj ==> x in w.ids && w.ids[x] == Ngvk.New(x)
    ensures IdsHold(elems, HooksRenamed(w, m, h))
  {
  }

  /**
   * The heap follows the loop's state through an Update of m: the outcome is appended,
   * m's "needs resync" flag is the one Update returns, and nothing else moves.
   */
  twostate lemma UpdatedHolds(new results: R.ResultList, elems: seq<Reg.Resource>, new w: BR.World,
    new m: MO.MutableResourceObject, new s: BR.Step)
    requires old(allocated(results)) && old(allocated(w))
    requires m in BR.Mutables(elems)
    requires old(BR.ResultsHold(results, w) && BR.ObjectsHold(elems, w) && BR.MutablesHold(elems, w))
    requires results.opResInfoList == old(results.opResInfoList) + [s.entry]
    requires results.giveup == old(results.giveup) && results.giveUpReason == old(results.giveUpReason)
    requires m.needResync == s.flag && m.lastSyncState == old(m.lastSyncState)
    requires forall m': MO.MutableResourceObject :: old(allocated(m')) && m' != m ==>
      m'.needResync == old(m'.needResync) && m'.lastSyncState == old(m'.lastSyncState)
    requires forall o: RO.ResourceObject :: old(allocated(o)) ==> o.createObj == old(o.createObj)
    ensures var w1 := w.(rs := w.rs + [s.entry], needResync := w.needResync[m := s.flag]);
      BR.ResultsHold(results, w1) && BR.ObjectsHold(elems, w1) && BR.MutablesHold(elems, w1)
  {
  }

  /** The Kubernetes objects have the keys the loop's state says. */
  ghost predicate IdsHold(elems: seq<Reg.Resource>, w: BR.World)
    reads BR.KubeObjects(elems)`namespace, BR.KubeObjects(elems)`name, BR.KubeObjects(elems)`group
    reads BR.KubeObjects(elems)`version, BR.KubeObjects(elems)`kind
  {
    forall x :: x in BR.KubeObjects(elems) ==> x in w.ids && w.ids[x] == Ngvk.New(x)
  }

  /** AdvancedObject: the basic reconciler, which it embeds, plus the mutable resources' mutation and update. */
  class AdvancedObject {
    const basic: BR.BasicObject

    ghost predicate Valid()
      reads basic.results
    {
      basic.results.Valid()
    }

    constructor (basic: BR.BasicObject)
      requires basic.Valid()
      ensures this.basic == basic && Valid()
    {
      this.basic := basic;
    }

    /** Update; update is what the cluster answers if it is asked. */
    method Update(resource: MO.MutableResourceObject, update: Kube.ClientResult) returns (err: Error)
      requires Valid()
      modifies basic.results, resource`needResync, resource.res`calls
      ensures Valid()
      ensures var s := UpdateStep(old(resource.needResync), resource.res.createObj, resource.res, update);
        && basic.results.opResInfoList == old(basic.results.opResInfoList) + [s.entry]
        && resource.needResync == s.flag && err == s.err
      ensures basic.results.giveup == old(basic.results.giveup) && basic.results.giveUpReason == old(basic.results.giveUpReason)
      ensures resource.res.calls ==
        if old(resource.needResync) && !resource.res.createObj then old(resource.res.calls) + [Kube.Update] else old(resource.res.calls)
    {
      var info := BR.InfoOf(resource.res);
      if resource.NeedResync() {
        var e := resource.UpdatePeer(update);
        if e != Nil {
          err := basic.results.AddOp(info, R.CRUDError, e, BR.RequeueOnCRUDError);
          return;
        }
        basic.results.AddOpSuccess(info, R.Updated);
        return Nil;
      }
      basic.results.AddOpSuccess(info, R.None);
      return Nil;
    }

    /**
     * Mutate; h is what the entry's hooks report. The key check is that of the object
     * as the hooks leave it.
     */
    method Mutate(entry: MO.MutableResourceObject, h: Hooks) returns (err: Error)
      requires Valid()
      modifies basic.results, entry`needResync, entry`lastSyncState, entry.res.obj`annotations
      modifies entry.res.obj`namespace, entry.res.obj`name
      ensures Valid()
      ensures Ngvk.New(entry.res.obj) == AfterHooks(old(Ngvk.New(entry.res.obj)), h)
      ensures var r := MutateStep(entry.res.createObj, old(StateOf(entry)), entry.res.CheckExpectedKey(), BR.InfoOf(entry.res), h);
        && basic.results.opResInfoList == old(basic.results.opResInfoList) + r.entries
        && StateOf(entry) == r.state && err == r.err
        && basic.results.giveup == (old(basic.results.giveup) || r.err == GiveUp)
        && basic.results.giveUpReason ==
          (if r.giveUp.Some? then R.StoredReason(old(basic.results.giveUpReason), r.giveUp.value) else old(basic.results.giveUpReason))
    {
      if !entry.res.IsCreation() {
        var _ := entry.UpdateSyncStatus(h.refBefore);
      }
      if h.renamed.Some? {
        entry.res.obj.namespace, entry.res.obj.name := h.renamed.value.namespace, h.renamed.value.name;
      }
      err := MutateWithHooks(entry, h);
    }

    /** Mutate's hooks, once the sync status is refreshed and the object is as the hooks leave it. */
    method MutateWithHooks(entry: MO.MutableResourceObject, h: Hooks) returns (err: Error)
      requires Valid()
      modifies basic.results, entry`needResync, entry`lastSyncState, entry.res.obj`annotations
      ensures Valid()
      ensures var r := Mutated(entry.res.createObj, old(StateOf(entry)), entry.res.CheckExpectedKey(), BR.InfoOf(entry.res), h);
        && basic.results.opResInfoList == old(basic.results.opResInfoList) + r.entries
        && StateOf(entry) == r.state && err == r.err
        && basic.results.giveup == (old(basic.results.giveup) || r.err == GiveUp)
        && basic.results.giveUpReason ==
          (if r.giveUp.Some? then R.StoredReason(old(basic.results.giveUpReason), r.giveUp.value) else old(basic.results.giveUpReason))
    {
      var info := BR.InfoOf(entry.res);
      if h.preMutate != Nil {
        err := basic.results.AddGiveupError(info, R.ImplementationConcern, h.preMutate);
        return;
      }
      if entry.NeedResync() || entry.res.IsCreation() {
        if h.initialData != Nil {
          err := basic.results.AddGiveupError(info, R.ImplementationConcern, h.initialData);
          return;
        }
      }
      if h.withCR != Nil {
        err := basic.results.AddOp(info, R.MutateWithCRError, h.withCR, h.requeueAfterSeconds);
        return;
      }
      err := FinishMutation(entry, h);
    }

    /** Mutate after a successful MutateWithCR. */
    method FinishMutation(entry: MO.MutableResourceObject, h: Hooks) returns (err: Error)
      requires Valid()
      modifies basic.results, entry`needResync, entry`lastSyncState, entry.res.obj`annotations
      ensures Valid()
      ensures var r := Finished(old(StateOf(entry)), entry.res.CheckExpectedKey(), BR.InfoOf(entry.res), h);
        && basic.results.opResInfoList == old(basic.results.opResInfoList) + r.entries
        && StateOf(entry) == r.state && err == r.err
        && basic.results.giveup == (old(basic.results.giveup) || r.err == GiveUp)
        && basic.results.giveUpReason ==
          (if r.giveUp.Some? then R.StoredReason(old(basic.results.giveUpReason), r.giveUp.value) else old(basic.results.giveUpReason))
    {
      var info := BR.InfoOf(entry.res);
      ghost var before := basic.results.opResInfoList;
      if h.requeueAfterSeconds > 0 {
        var _ := basic.results.AddOp(info, R.MutateWithCRAskRequeue, Nil, h.requeueAfterSeconds);
      }
      assert basic.results.opResInfoList == before + AskRequeue(info, h);
      err := CheckMutation(entry, h);
      ghost var s1, key := old(StateOf(entry)), entry.res.CheckExpectedKey();
      FinishedAfterChecked(s1, key, info, h);
      AppendAssociates(before, AskRequeue(info, h), Checked(s1, key, info, h).entries);
    }

    /** PostMutate, the key check and the new sync status. */
    method CheckMutation(entry: MO.MutableResourceObject, h: Hooks) returns (err: Error)
      requires Valid()
      modifies basic.results, entry`needResync, entry`lastSyncState, entry.res.obj`annotations
      ensures Valid()
      ensures var r := Checked(old(StateOf(entry)), entry.res.CheckExpectedKey(), BR.InfoOf(entry.res), h);
        && basic.results.opResInfoList == old(basic.results.opResInfoList) + r.entries
        && StateOf(entry) == r.state && err == r.err
        && basic.results.giveup == (old(basic.results.giveup) || r.err == GiveUp)
        && basic.results.giveUpReason ==
          (if r.giveUp.Some? then R.StoredReason(old(basic.results.giveUpReason), r.giveUp.value) else old(basic.results.giveUpReason))
    {
      var info := BR.InfoOf(entry.res);
      if h.postMutate != Nil {
        err := basic.results.AddGiveupError(info, R.ImplementationConcern, h.postMutate);
        return;
      }
      var key := entry.res.CheckExpectedKey();
      if key != Nil {
        err := basic.results.AddGiveupError(info, R.ImplementationConcern, key);
        return;
      }
      var _ := entry.UpdateSyncStatus(h.refAfter);
      basic.results.AddOpSuccess(info, R.MutationSuccess);
      return Nil;
    }
  
    /** Mutate, with the mutation it performs. */
    method MutateRecorded(ghost elems: seq<Reg.Resource>, m: MO.MutableResourceObject, h: Hooks,
      ghost creation: bool, ghost s: MutableState, ghost w: BR.World)
      returns (err: Error, ghost mr: Mutation)
      requires Valid()
      requires m.res.createObj == creation && StateOf(m) == s
      requires IdsHold(elems, w) && m.res.obj in BR.KubeObjects(elems)
      modifies basic.results, m`needResync, m`lastSyncState, m.res.obj`annotations, m.res.obj`namespace, m.res.obj`name
      ensures Valid()
      ensures forall m': MO.MutableResourceObject :: old(allocated(m')) && m' != m ==>
        m'.needResync == old(m'.needResync) && m'.lastSyncState == old(m'.lastSyncState)
      ensures forall x: Kube.Object :: old(allocated(x)) && x != m.res.obj ==> x.annotations == old(x.annotations)
      ensures forall o: RO.ResourceObject :: old(allocated(o)) ==> o.createObj == old(o.createObj)
      ensures IdsHold(elems, HooksRenamed(w, m, h))
      ensures mr == MutateStep(creation, s, KeyAfterHooks(w, m, h), BR.InfoOf(m.res), h)
      ensures basic.results.opResInfoList == old(basic.results.opResInfoList) + mr.entries
      ensures StateOf(m) == mr.state && err == mr.err
      ensures basic.results.giveup == (old(basic.results.giveup) || mr.err == GiveUp)
      ensures basic.results.giveUpReason ==
        (if mr.giveUp.Some? then R.StoredReason(old(basic.results.giveUpReason), mr.giveUp.value) else old(basic.results.giveUpReason))
    {
      mr := MutateStep(m.res.createObj, StateOf(m), KeyAfterHooks(w, m, h), BR.InfoOf(m.res), h);
      err := Mutate(m, h);
      RenamedIdsHold(elems, w, m, h);
    }

    /** Mutate, followed on the loop's state. */
    method MutateTracked(ghost elems: seq<Reg.Resource>, ghost w: BR.World, m: MO.MutableResourceObject, h: Hooks)
      returns (err: Error)
      requires Valid() && m in BR.Mutables(elems)
      requires BR.Holds(basic.results, elems, w) && IdsHold(elems, w)
      modifies basic.results, m`needResync, m`lastSyncState, m.res.obj`annotations, m.res.obj`namespace, m.res.obj`name
      ensures Valid()
      ensures var r := MutateIn(w, m, h); BR.Holds(basic.results, elems, r.0) && IdsHold(elems, r.0) && err == r.1
    {
      ghost var j :| 0 <= j < |elems| && elems[j].Mutable? && elems[j].mutable == m;
      assert elems[j].Object() == m.res;
      assert m.res in BR.Objects(elems) && m.res.obj in BR.KubeObjects(elems);
      assert StateOf(m) == StateIn(w, m) && m.res.createObj == BR.Flag(w.createObj, m.res);
      ghost var w1 := HooksRenamed(w, m, h);
      HoldsWithoutIds(basic.results, elems, w, w1.ids);
      ghost var mr;
      err, mr := MutateRecorded(elems, m, h, BR.Flag(w.createObj, m.res), StateIn(w, m), w);
      AppliedHolds(basic.results, elems, w1, m, mr);
      assert Applied(w1, m, mr).ids == w1.ids;
    }

    /** One entry of MutateAllResources: a mutable resource is mutated, anything else is skipped (ran is false). */
    method MutateEntry(ghost elems: seq<Reg.Resource>, ghost w: BR.World, i: nat, r: Reg.Resource, hooks: nat -> Hooks)
      returns (ran: bool, err: Error)
      requires Valid() && i < |elems| && r == elems[i] && BR.Holds(basic.results, elems, w)
      requires IdsHold(elems, w)
      modifies basic.results, BR.Mutables(elems)`needResync, BR.Mutables(elems)`lastSyncState
      modifies BR.KubeObjects(elems)`annotations, BR.KubeObjects(elems)`namespace, BR.KubeObjects(elems)`name
      ensures Valid()
      ensures var s := MutateAt(elems, hooks)(w, i);
        && ran == s.Some?
        && BR.Holds(basic.results, elems, if ran then s.value.0 else w)
        && IdsHold(elems, if ran then s.value.0 else w)
        && (ran ==> err == s.value.1)
    {
      if r.Mutable? {
        var m := r.mutable;
        assert m in BR.Mutables(elems) && r.Object() == m.res && m.res.obj in BR.KubeObjects(elems);
        assert MutateAt(elems, hooks)(w, i) == Some(MutateIn(w, m, hooks(i)));
        err := MutateTracked(elems, w, m, hooks(i));
        return true, err;
      }
      return false, Nil;
    }

    /** MutateAllResources; hooks(i) is what the i-th entry's hooks report. */
    method MutateAllResources(stopOnError: bool, hooks: nat -> Hooks) returns (err: Error)
      requires Valid()
      modifies basic.results, BR.Mutables(basic.registry.elems)`needResync, BR.Mutables(basic.registry.elems)`lastSyncState
      modifies BR.KubeObjects(basic.registry.elems)`annotations
      modifies BR.KubeObjects(basic.registry.elems)`namespace, BR.KubeObjects(basic.registry.elems)`name
      ensures Valid()
      ensures var r := MutateAll(basic.registry.elems, old(BR.WorldOf(basic.results, basic.registry.elems)), stopOnError, hooks);
        BR.Holds(basic.results, basic.registry.elems, r.0) && IdsHold(basic.registry.elems, r.0) && err == r.1
    {
      var elems := basic.registry.Entries();
      ghost var w0 := BR.WorldOf(basic.results, elems);
      ghost var w := w0;
      BR.HoldsOfWorldOf(basic.results, elems);
      var c := basic.results.ConsolidatedError();
      if c.0 {
        return c.1;
      }
      ghost var step := MutateAt(elems, hooks);
      assert IdsHold(elems, w0);
      err := Nil;
      for i := 0 to |elems|
        invariant basic.results.Valid()
        invariant BR.Holds(basic.results, elems, w) && IdsHold(elems, w)
        invariant BR.RunFrom(|elems|, 0, w0, step, stopOnError, Nil) == BR.RunFrom(|elems|, i, w, step, stopOnError, err)
      {
        BR.RunFromStep(|elems|, i, w, step, stopOnError, err);
        if elems[i].Mutable? {
          var o := elems[i].mutable.res;
          assert o in BR.Objects(elems);
        }
        var ran, e := MutateEntry(elems, w, i, elems[i], hooks);
        if ran {
          w, err := step(w, i).value.0, e;
          if err != Nil && stopOnError {
            return;
          }
        }
      }
    }

    /** Update, followed on the loop's state. */
    method UpdateTracked(ghost elems: seq<Reg.Resource>, ghost w: BR.World, m: MO.MutableResourceObject,
      update: Kube.ClientResult) returns (err: Error)
      requires Valid() && m in BR.Mutables(elems)
      requires BR.ResultsHold(basic.results, w) && BR.ObjectsHold(elems, w) && BR.MutablesHold(elems, w)
      modifies basic.results, m`needResync, m.res`calls
      ensures Valid()
      ensures var r := UpdateIn(w, m, update);
        BR.ResultsHold(basic.results, r.0) && BR.ObjectsHold(elems, r.0) && BR.MutablesHold(elems, r.0) && err == r.1
    {
      ghost var j :| 0 <= j < |elems| && elems[j].Mutable? && elems[j].mutable == m;
      assert elems[j].Object() == m.res && m.res in BR.Objects(elems);
      ghost var s := UpdateStep(BR.Flag(w.needResync, m), BR.Flag(w.createObj, m.res), m.res, update);
      err := Update(m, update);
      UpdatedHolds(basic.results, elems, w, m, s);
    }

    /** Create, followed on the loop's state, which leaves the mutable resources alone. */
    method CreateTracked(ghost elems: seq<Reg.Resource>, ghost w: BR.World, o: RO.ResourceObject, maxCreation: R.Uint16,
      create: Kube.ClientResult) returns (err: Error)
      requires Valid() && o in BR.Objects(elems)
      requires BR.ResultsHold(basic.results, w) && BR.ObjectsHold(elems, w) && BR.MutablesHold(elems, w)
      modifies basic.results, o`createObj, o`calls
      ensures Valid()
      ensures var r := BR.CreateIn(w, o, maxCreation, create);
        BR.ResultsHold(basic.results, r.0) && BR.ObjectsHold(elems, r.0) && BR.MutablesHold(elems, r.0) && err == r.1
    {
      err := basic.CreateTracked(elems, w, o, maxCreation, create);
    }

    /**
     * One entry of CreateOrUpdateAllResources: a resource still to create is created,
     * another mutable resource is updated, anything else is skipped (ran is false).
     */
    method CreateOrUpdateEntry(ghost elems: seq<Reg.Resource>, ghost w: BR.World, i: nat, r: Reg.Resource,
      maxCreation: R.Uint16, creates: nat -> Kube.ClientResult, updates: nat -> Kube.ClientResult)
      returns (ran: bool, err: Error)
      requires Valid() && i < |elems| && r == elems[i]
      requires BR.ResultsHold(basic.results, w) && BR.ObjectsHold(elems, w) && BR.MutablesHold(elems, w)
      modifies basic.results, BR.Objects(elems)`createObj, BR.Objects(elems)`calls, BR.Mutables(elems)`needResync
      ensures Valid()
      ensures var s := CreateOrUpdateAt(elems, maxCreation, creates, updates)(w, i);
        && ran == s.Some?
        && (var w' := if ran then s.value.0 else w;
            BR.ResultsHold(basic.results, w') && BR.ObjectsHold(elems, w') && BR.MutablesHold(elems, w'))
        && (ran ==> err == s.value.1)
    {
      var o := r.Object();
      assert o in BR.Objects(elems);
      ghost var step := CreateOrUpdateAt(elems, maxCreation, creates, updates);
      if o.IsCreation() {
        assert step(w, i) == Some(BR.CreateIn(w, o, maxCreation, creates(i)));
        err := CreateTracked(elems, w, o, maxCreation, creates(i));
        return true, err;
      }
      if r.Mutable? {
        assert r.mutable in BR.Mutables(elems);
        assert step(w, i) == Some(UpdateIn(w, r.mutable, updates(i)));
        err := UpdateTracked(elems, w, r.mutable, updates(i));
        return true, err;
      }
      return false, Nil;
    }

    /**
     * CreateOrUpdateAllResources; creates(i) and updates(i) are what the cluster answers
     * to creating and to updating the i-th entry.
     */
    method CreateOrUpdateAllResources(maxCreation: R.Uint16, stopOnError: bool,
      creates: nat -> Kube.ClientResult, updates: nat -> Kube.ClientResult) returns (err: Error)
      requires Valid()
      modifies basic.results, BR.Objects(basic.registry.elems)`createObj, BR.Objects(basic.registry.elems)`calls
      modifies BR.Mutables(basic.registry.elems)`needResync
      ensures Valid()
      ensures var r := CreateOrUpdateAll(basic.registry.elems, old(BR.WorldOf(basic.results, basic.registry.elems)),
          maxCreation, stopOnError, creates, updates);
        && BR.ResultsHold(basic.results, r.0) && BR.ObjectsHold(basic.registry.elems, r.0)
        && BR.MutablesHold(basic.registry.elems, r.0) && err == r.1
    {
      var elems := basic.registry.Entries();
      ghost var w0 := BR.WorldOf(basic.results, elems);
      ghost var w := w0;
      BR.HoldsOfWorldOf(basic.results, elems);
      var c := basic.results.ConsolidatedError();
      if c.0 {
        return c.1;
      }
      ghost var step := CreateOrUpdateAt(elems, maxCreation, creates, updates);
      err := Nil;
      for i := 0 to |elems|
        invariant basic.results.Valid()
        invariant BR.ResultsHold(basic.results, w) && BR.ObjectsHold(elems, w) && BR.MutablesHold(elems, w)
        invariant BR.RunFrom(|elems|, 0, w0, step, stopOnError, Nil) == BR.RunFrom(|elems|, i, w, step, stopOnError, err)
      {
        BR.RunFromStep(|elems|, i, w, step, stopOnError, err);
        var ran, e := CreateOrUpdateEntry(elems, w, i, elems[i], maxCreation, creates, updates);
        if ran {
          w, err := step(w, i).value.0, e;
          if err != Nil && stopOnError {
            return;
          }
        }
      }
    }
  }
}
