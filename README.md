# Operators-Karma-Tools, modelled in Dafny

Operators-Karma-Tools is a Go toolkit for writing Kubernetes operators. A reconciler built
with it has the following parts:

- **Results aggregator.** Every operation is recorded as an outcome. The aggregator keeps a
  consolidated outcome as it goes: the first error, a give-up that overrides it, and the
  shortest requeue delay. It turns that consolidated outcome into the controller runtime's
  reconcile result. It also keeps uint16 counters per operation.
- **Give-up sentinel.** An error value that stops the reconciliation. It carries an alarming
  reason, which whoever gives up may set. Go shares one sentinel between all aggregators; the
  model keeps the reason with each aggregator (see "## Left out").
- **Graph state machine.** It walks a graph of steps, selecting the next child by the
  priority of the current events. It keeps a printable path of the states visited and folds
  oscillations between two states into a single group.
- **Stepper engine.** It runs the reconciliation graph (CRChecker, ObjectsGetter, Mutator,
  Updater, SuccessManager, CRFinalizer, ErrorManager, GiveupManager, End), and derives its
  events from the aggregator.
- **Basic and advanced reconcilers.**
  - They fetch the custom resource (CR) and remove its finalizer.
  - They create every registered resource, under a creation limit.
  - They mutate every mutable resource through user hooks, tracking the template's hash to
    decide whether a resync is needed, and update the resources that need it.
- **Resource helpers.**
  - A registry of resources.
  - Resource objects and mutable resource objects.
  - A hash annotation helper.
  - The Secret mutation helper.
  - Finalizer list helpers.
  - The `ngvk` namespace/name/group/version/kind key.
- **`okt-gen-resource` CLI.** It derives a resource name from a manifest path, finds a free
  backup name, and chooses the stub file to generate.

## How the model is laid out

There is one module per source file.

**Code that updates objects in place** is modelled with classes whose methods have
`modifies` clauses:

- the aggregator (`Results.ResultList`);
- the machine (`StateMachine.Machine`);
- the stepper (`Engines.Stepper`);
- the registry;
- resource objects and mutable resource objects;
- the Secret helper;
- the two reconcilers.

Each method is specified against a pure function of the old state. The properties the
source promises are then proved about those functions.

**Loops** are methods with invariants:

- the finalizer removal;
- the event search;
- the path compaction;
- the backup-name search;
- the Secret merge;
- the stepper's run loop;
- the reconcilers' all-resources loops.

**How external inputs are modelled:**

- **Cluster calls.** The answers to Get, Create and Update are parameters (`Kube.ClientResult`). A ghost log records which calls are made.
- **User hooks.** What the hooks do is also a parameter: a `Hooks` value for a mutation, and an `Engines.Hook` for the stepper's steps. A step hook is the sequence of aggregator calls it makes in that step (AddOp, AddOpSuccess, AddGiveupError, ResetAllResults, and setting the give-up reason); see "## Left out" for what else a Go hook could do.
- **Hashing.** The 32-bit FNV-1 hash of a template is an uninterpreted value (`Hash.Template`).
- **File system.** It is a predicate `fileExists`.

## Model

| member | source | states |
|---|---|---|
| Finalizers.HasFinalizer | tools/k8sapi/finalizer.go:36-44 | true exactly when the finalizer is in the object's list |
| Finalizers.AddFinalizer | tools/k8sapi/finalizer.go:46-55 | the list becomes `Added(old, name)`: appended only when absent |
| Finalizers.RemoveFinalizer | tools/k8sapi/finalizer.go:57-67 | the in-place loop leaves exactly `Without(old, name)`: every occurrence removed, the rest in order |
| Finalizers.WithoutRemovesAll | tools/k8sapi/finalizer.go:57-67 | after removal the name no longer occurs |
| Finalizers.WithoutCounts | tools/k8sapi/finalizer.go:57-67 | removal keeps the multiplicity of every other entry |
| Finalizers.WithoutAppend | tools/k8sapi/finalizer.go:57-67 | removal distributes over concatenation, so relative order is kept |
| Finalizers.WithoutAbsent | tools/k8sapi/finalizer.go:57-67 | removing an absent name changes nothing |
| Finalizers.WithoutIdempotent | tools/k8sapi/finalizer.go:57-67 | removing twice is removing once |
| Finalizers.AddedIdempotent | tools/k8sapi/finalizer.go:46-55 | adding twice is adding once, and the name is then present |
| Finalizers.WithoutAdded | tools/k8sapi/finalizer.go:46-67 | add then remove equals remove |
| Ngvk.New | tools/ngvk/ngvk.go:77-84 | the key holds the object's namespace, name, group, version and kind |
| Ngvk.EqualIsEquivalence | tools/ngvk/ngvk.go:58-64 | Equal (comparison of key strings) is reflexive, symmetric and transitive |
| Ngvk.EqualIffSame | tools/ngvk/ngvk.go:23-64 | for keys whose fields contain no separator, Equal holds exactly for identical keys |
| Ngvk.IsForIffOwnKey | tools/ngvk/ngvk.go:66-75 | IsFor holds exactly when the key is the object's own key |
| Ngvk.SpaceInNameCollides | tools/ngvk/ngvk.go:23-26 | without `WellFormed`, composing is not injective: every key whose name holds a space composes to the same string as a different key, so Equal confuses them |
| Ngvk.KNDeterminesKindAndName | tools/ngvk/ngvk.go:39-42 | the kind/name string determines kind and name |
| Ngvk.NamespacedNameStringInjective | tools/ngvk/ngvk.go:44-47 | the namespace/name string determines both parts |
| Registry.FirstWithIndex | registry/registry.go:35-42 | the position found holds the index, and no earlier entry does; none means absent |
| Registry.GetEntryOf | registry/registry.go:35-42 | the loop returns the first entry with the index, or nothing |
| Registry.FirstIsUnique | registry/registry.go:35-42 | an entry with no earlier duplicate is the one found |
| Registry.Registry.New | registry/registry.go:74-79 | a new registry is empty |
| Registry.Registry.Reset | registry/registry.go:56-60 | Reset empties the registry |
| Registry.Registry.AddEntry | registry/registry.go:62-72 | the entry is appended, duplicates included, and no error is returned |
| Registry.Registry.GetEntry | registry/registry.go:44-47 | the first entry with that index, or nothing |
| Registry.AddedEntryIsFound | registry/registry.go:62-72 | a newly added entry with a fresh index is found at its position |
| Registry.AppendKeepsFirst | registry/registry.go:35-72 | appending never changes what an existing index finds |
| Hash.Compute | tools/hash/hash.go:98-108 | the hash string is a non-empty decimal number |
| Hash.SetHashAnnotation | tools/hash/hash.go:38-44 | the key is set to the template's hash (a nil map is created); every other key is kept |
| Hash.GetAfterSet | tools/hash/hash.go:32-49 | reading the annotation back gives the template's hash |
| Hash.RegeneratedMeaning | tools/hash/hash.go:59-88 | regenerating stores the hash and keeps all other annotations |
| Hash.GenerateNew | tools/hash/hash.go:59-88 | no metadata is an error; otherwise the hash is stored and isNew holds exactly when the stored hash differed |
| Hash.FirstGenerationIsNew | tools/hash/hash.go:70-87 | an object with no hash yet is always reported as new |
| Hash.SecondGenerationIsNotNew | tools/hash/hash.go:70-87 | regenerating with the same template reports no change and stores the same annotations |
| Decimal.NatToString | tools/hash/hash.go:107 | a non-empty string of digits with no leading zero |
| Decimal.IntToString | tools/statemachine/sm.go:28-30 | a non-empty string, digits for a non-negative number, a leading minus otherwise |
| Decimal.ParseNatToString | tools/hash/hash.go:107 | reading the rendering back gives the number |
| Decimal.NatToStringInjective | tools/hash/hash.go:107 | distinct numbers render differently |
| Decimal.IntToStringInjective | tools/statemachine/sm.go:28-30 | distinct integers render differently |
| Results.Inc16 | results/result_list.go:81-87 | Go's `++` on a uint16 wraps modulo 2^16 |
| Results.SetRequeueMeaning | results/result_list.go:100-123 | a give-up never requeues; otherwise the delay is capped at 21600 s, and a requeue is requested on an error or a positive delay |
| Results.NewEntryIsEntry | results/result_list.go:162-177 | a built outcome keeps its resource, operation and error, and satisfies the requeue invariant |
| Results.InitialConsolidated | results/result_list.go:192-203 | the reset consolidated outcome has no operation, error, resource or requeue |
| Results.ConsolidatedGiveUpIff | results/result_list.go:133-160 | the consolidated error is the sentinel exactly when some outcome gave up |
| Results.ConsolidatedErrorNilIff | results/result_list.go:133-160 | with no give-up, the consolidated error is nil exactly when every outcome succeeded |
| Results.ConsolidatedErrorIsFirstError | results/result_list.go:138-143 | with no give-up, the consolidated error and resource are those of the first failure |
| Results.ConsolidatedRequeueIsMinimum | results/result_list.go:145-154 | with no same-status error, the consolidated requeue is requested exactly when some outcome asks for one, with the smallest delay asked for |
| Results.SameStatusErrorImposesDelay | results/result_list.go:148-153 | a same-status error imposes its own delay, even a longer one |
| Results.CountsAppend | results/result_list.go:133-160 | one more outcome increases its operation's count and, on an error, the error count; the consolidated outcome takes it in |
| Results.Counted | results/result_list.go:81-87 | opMap's entry for the operation is incremented with wrap-around; no other entry changes |
| Results.CountersAgreeAppend | results/result_list.go:81-87 | addToCounters keeps the counters equal to the counts over the list, modulo 2^16 |
| Results.CountOpPositiveIff | results/result_list.go:51-54 | an operation's count is positive exactly when some outcome has that operation |
| Results.CountsBounded | results/result_list.go:46-60 | counts never exceed the number of outcomes |
| Results.SigsK8S | results/result_list.go:125-131 | a give-up gives no error and no requeue; otherwise the error, the requeue flag and the delay in nanoseconds |
| Results.GiveUpStopsRequeue | results/result_list.go:125-160 | once anything gave up, the reconcile result is "no error, no requeue" whatever follows |
| Results.GiveUpMessage | results/giveup_error.go:39-44 | the sentinel's message shows the reason, or the not-alarming text when there is none |
| Results.GiveUpMessageAsWritten | results/giveup_error.go:39-44 | the message of a sentinel whose reason may be any error: it ends exactly when the reason is not the sentinel itself, and is then `GiveUpMessage` |
| Results.SentinelAsOwnReasonAsWritten | results/giveup_error.go:28-44 | Reason as written (`ReasonAsWritten`), given the sentinel, loses the reason stored before, and the message of the reason it stores never ends |
| Results.StoredReason | results/giveup_error.go:28-31 | the corrected Reason: a sentinel argument keeps the reason stored before; any other error is stored |
| Results.StoredReasonMessageEnds | results/giveup_error.go:28-44 | after the corrected Reason the message always ends; given the sentinel, it is the message of the reason stored before |
| Results.ConsolidatedErrorMeaning | results/result_list.go:205-214 | give-up exactly when some outcome gave up, reported with the stored reason; otherwise nil exactly when all succeeded, else an error that was recorded |
| Results.FirstErrorExists | results/result_list.go:138-143 | a failed list without a give-up has an outcome carrying the consolidated error |
| Results.ResultList.constructor | results/result_list.go:241-247 | a new list is empty, with no give-up and its counters in agreement |
| Results.ResultList.OpsCount | results/result_list.go:51-54 | the number of outcomes of the operation, modulo 2^16 |
| Results.ResultList.ErrorsCount | results/result_list.go:46-49 | the number of failed outcomes, modulo 2^16 |
| Results.ResultList.TotalOpsCount | results/result_list.go:56-60 | the number of distinct operations, and the number of outcomes modulo 2^16 |
| Results.ResultList.OpsKeys | results/result_list.go:56-60 | opMap's keys are exactly the operations recorded |
| Results.ResultList.ConsolidatedError | results/result_list.go:205-214 | equals `ConsolidatedErrorOf` of the list and the stored reason |
| Results.ResultList.ConsolidatedSigsK8S | results/result_list.go:216-223 | the reconcile result of the consolidated outcome; no error and no requeue once anything gave up |
| Results.ResultList.SetGiveUpReason | results/giveup_error.go:25-31 | returns the sentinel and changes nothing but the reason; any error is accepted, and the stored reason is `StoredReason` of it, so the sentinel keeps the reason stored before |
| Results.ResultList.AddToCounters | results/result_list.go:81-87 | each counter is incremented (the error count only on an error), with wrap-around |
| Results.ResultList.AddEntry | results/result_list.go:133-160 | appends the outcome, folds it into the consolidated outcome and counters, keeps Valid, and passes its error on |
| Results.ResultList.AddOp | results/result_list.go:162-177 | builds the outcome with its requeue, adds it, sets the give-up flag on the sentinel, and returns the error |
| Results.ResultList.AddOpSuccess | results/result_list.go:179-183 | adds a successful outcome with no requeue |
| Results.ResultList.AddGiveupError | results/result_list.go:185-190 | takes any error as the reason and stores it as `SetGiveUpReason` does, adds a give-up outcome, sets the give-up flag and returns the sentinel |
| Results.ResultList.ResetAllResults | results/result_list.go:192-203 | an empty list, the initial consolidated outcome and zeroed counters; the give-up flag and reason are kept |
| Results.UnitTestSequence | results/results_test.go:44-100 | the unit test's sequence: success, then an error with a 123 s requeue, then a give-up that wins over it, with the error count 2 |
| ResourceObjects.KeyCheck | resources/k8s/0kt_resource_object.go:225-237 | checkKeys on a built key: nil exactly when the recorded key string is that key's namespaced name |
| ResourceObjects.CheckKeys | resources/k8s/0kt_resource_object.go:225-237 | nil exactly when the recorded key string is still the object's own |
| ResourceObjects.KeyCheckMeaning | resources/k8s/0kt_resource_object.go:225-237 | for separator-free namespaces, the check passes exactly when the key names the recorded namespace and name |
| ResourceObjects.ResourceObject.Init | resources/k8s/0kt_resource_object.go:61-79 | names the object, keys it, enables the owner reference, makes no call |
| ResourceObjects.ResourceObject.SetOwnerReference | resources/k8s/0kt_resource_object.go:128-148 | no-op when disabled; a missing owner's metadata is an error; otherwise the controller-reference result |
| ResourceObjects.ResourceObject.SyncFromPeer | resources/k8s/0kt_resource_object.go:179-198 | an object already to create makes no call; otherwise one Get, with "to create" set exactly on NotFound and the error only on failure |
| ResourceObjects.ResourceObject.CreatePeer | resources/k8s/0kt_resource_object.go:210-223 | only an object to create is created: one Create call, cleared on success; otherwise the presumed-existing error |
| ResourceObjects.ResourceObject.CheckExpectedKeyMeaning | resources/k8s/0kt_resource_object.go:239-245 | the check fails exactly when the object was renamed or moved |
| MutableObjects.MutableResourceObject.constructor | resources/k8s/0kt_mutable_object.go:25-30 | a fresh mutable object needs no resync |
| MutableObjects.MutableResourceObject.UpdateSyncStatus | resources/k8s/0kt_mutable_object.go:38-54 | stores the template's hash; lastSyncState is whether it changed; needResync accumulates it |
| MutableObjects.MutableResourceObject.UpdatePeer | resources/k8s/0kt_mutable_object.go:70-81 | an object not yet created is refused without a call; otherwise one Update, and success clears needResync |
| SecretHelpers.Secret.constructor | resources/k8s/secret_mutation_helper.go:48-63 | the Secret holds the given Data and StringData, the two fields the helper reads and writes |
| SecretHelpers.MergedMeaning | resources/k8s/secret_mutation_helper.go:55-66 | every StringData key lands in Data with its bytes, and every other Data entry is kept |
| SecretHelpers.MergedEmpty | resources/k8s/secret_mutation_helper.go:55-66 | with nothing to merge, Data is unchanged, nil included |
| SecretHelpers.MergedIdempotent | resources/k8s/secret_mutation_helper.go:55-66 | merging twice is merging once |
| SecretHelpers.SecretMutationHelper.constructor | resources/k8s/secret_mutation_helper.go:27-29 | the helper works on the expected Secret |
| SecretHelpers.SecretMutationHelper.PreMutate | resources/k8s/secret_mutation_helper.go:46-52 | a nil StringData becomes an empty map; nothing else changes |
| SecretHelpers.SecretMutationHelper.PostMutate | resources/k8s/secret_mutation_helper.go:55-66 | the map loop leaves Data equal to the merge, whatever the key order |
| StateMachine.StateName | tools/statemachine/sm.go:64-70 | a state's display name is never empty |
| StateMachine.UnnamedStatesHaveDistinctNames | tools/statemachine/sm.go:64-70 | two unnamed states never share a display name |
| StateMachine.Contains | tools/statemachine/sm.go:119-126 | the search is true exactly when the state is among the events |
| StateMachine.IsTriggeringState | tools/statemachine/sm.go:128-134 | a child is triggered when it is an event itself, or is the fallback and the wildcard is an event |
| StateMachine.FirstTriggered | tools/statemachine/sm.go:168-184 | the selected child is triggered, and no higher-priority child is |
| StateMachine.WildcardAlwaysSelects | tools/statemachine/sm.go:128-184 | with the wildcard among the events, a child is always selected |
| StateMachine.FallbackIffNoHigherPriorityEvent | tools/statemachine/sm.go:168-184 | under the wildcard, the fallback is chosen exactly when no other child is an event |
| StateMachine.ClampedLimit | tools/statemachine/sm.go:209-216 | the limit is clamped to [5, 1024] |
| StateMachine.WithPathEnabled | tools/statemachine/sm.go:186-195 | the path restarts as `>`, with the limit defaulting to 512 |
| StateMachine.Appended | tools/statemachine/sm.go:226-232 | tokens are appended and the two oldest are dropped when the limit is exceeded; the result is a suffix |
| StateMachine.Compacted | tools/statemachine/sm.go:259-270 | the loop rewrite keeps the path's length, writes the marker last, `<<>>` third from last and `>(` at the loop's start (when the loop spans two states or more), and leaves every other token as it was |
| StateMachine.WithStateInPathAsWritten | tools/statemachine/sm.go:243-272 | addStateToPath as written fails (an index panic) exactly on a loop entry whose path is too short |
| StateMachine.WithStateInPath | tools/statemachine/sm.go:243-272 | the corrected addStateToPath keeps the machine well formed, changes only the path and the loop count, and bounds the path's length |
| StateMachine.CorrectionAgreesAsWritten | tools/statemachine/sm.go:243-272 | wherever the code as written does not panic, the corrected version agrees with it |
| StateMachine.Entering | tools/statemachine/sm.go:138-165 | a leaf turns the machine OFF; any other state becomes current, with the previous one recorded |
| StateMachine.SettingState | tools/statemachine/sm.go:101-110 | a state is entered unless the machine is ON and already there; otherwise nothing changes |
| StateMachine.NextTransition | tools/statemachine/sm.go:168-184 | a move happens exactly when a child is selected; otherwise nothing changes |
| StateMachine.OffMachineCannotAdvance | tools/statemachine/sm.go:160-184 | an OFF machine never advances by itself |
| StateMachine.LoopEntryKeepsPathLength | tools/statemachine/sm.go:259-270 | re-entering the previous state folds the loop: same length, loop count +1, and the marker at the end |
| StateMachine.OtherEntryResetsLoopCount | tools/statemachine/sm.go:250-257 | any other entry resets the loop count |
| StateMachine.OrdinaryEntry | tools/statemachine/sm.go:254-257 | an ordinary entry appends the name and a separator |
| StateMachine.LoopEntry | tools/statemachine/sm.go:259-270 | a loop entry rewrites the path in place |
| StateMachine.LeafEntry | tools/statemachine/sm.go:250-253 | a leaf entry appends its name and turns the machine OFF |
| StateMachine.SetStateOnPreviousStatePanicsAsWritten | tools/statemachine/sm.go:101-110 | SetState on the previous state with the path enabled reaches the panic |
| StateMachine.SetStateRestartsPath | tools/statemachine/sm.go:101-110 | in the corrected model, SetState restarts the path with that state alone |
| StateMachine.ConcatAppend | tools/statemachine/sm.go:218-224 | the path's string is the concatenation of its parts |
| StateMachine.Machine.constructor | tools/statemachine/sm.go:79-87 | a new machine is OFF with no path |
| StateMachine.Machine.SetOFF | tools/statemachine/sm.go:94-97 | current and previous become the sentinel; nothing else changes |
| StateMachine.Machine.EnablePathInGraph | tools/statemachine/sm.go:186-195 | the new state is `WithPathEnabled(old)` |
| StateMachine.Machine.DisablePathInGraph | tools/statemachine/sm.go:197-199 | the path is dropped and disabled |
| StateMachine.Machine.SetPathLengthLimit | tools/statemachine/sm.go:209-216 | the limit becomes the clamped request |
| StateMachine.Machine.GetPathInGraph | tools/statemachine/sm.go:218-224 | the joined path tokens |
| StateMachine.Machine.AppendToPath | tools/statemachine/sm.go:226-232 | the path becomes `Appended(old path, tokens, limit)` |
| StateMachine.Machine.AddStateToPath | tools/statemachine/sm.go:243-272 | the state becomes `WithStateInPath(old)` |
| StateMachine.Machine.EnterInState | tools/statemachine/sm.go:138-165 | the state becomes `Entering(old, s)` |
| StateMachine.Machine.SetState | tools/statemachine/sm.go:101-110 | the result and new state are `SettingState(old, s)` |
| StateMachine.Machine.EnterNextState | tools/statemachine/sm.go:168-184 | the result and new state are `NextTransition(old, events)`, returning the child entered |
| StateMachine.TestGraphShape | tools/statemachine/sm_test.go:32-62 | the unit test's graph has the stated nodes |
| StateMachine.TestGraphRunAndServicing | tools/statemachine/sm_test.go:32-62 | Run and Servicing in that graph have the names and children the oscillation uses |
| StateMachine.CompactedFive | tools/statemachine/sm.go:259-270 | a five-token loop is folded into `>(`, name, `<<>>`, name, marker |
| StateMachine.TwoStateLoopTransition | tools/statemachine/sm.go:168-184 | stepping back to the previous state on a five-token path folds the loop |
| StateMachine.BackToRun | tools/statemachine/sm_test.go:141-145 | the wildcard event takes Servicing back to Run |
| StateMachine.BackToService | tools/statemachine/sm_test.go:147-149 | the Service event takes Run to Servicing and completes a round |
| StateMachine.OscillationRound | tools/statemachine/sm_test.go:140-150 | one round moves the oscillation forward by one |
| StateMachine.ElevenRounds | tools/statemachine/sm_test.go:140-150 | eleven rounds leave a single folded group |
| StateMachine.UnitTestOpening | tools/statemachine/sm_test.go:102-138 | the unit test's opening: Start, End (OFF), a refused step, Run, a refused step, Servicing |
| StateMachine.UnitTestClosing | tools/statemachine/sm_test.go:152-166 | Stop outranks Run, and the wildcard reaches End with the path `>(Run<<>>Servicing)x12>Stopping>End` |
| Engines.RecGraphShape | tools/statemachine/examples/stepper.go:131-195 | the reconciliation graph has the stated children, errors and give-ups first |
| Engines.EventsListMeaning | tools/statemachine/examples/stepper.go:199-222 | each event is raised exactly when its outcome holds, and the wildcard comes last |
| Engines.EventsOfOutcomes | tools/statemachine/examples/stepper.go:199-222 | the events are those of the recorded outcomes |
| Engines.EnterStep | tools/statemachine/examples/stepper.go:100-113 | entering a step records it and runs the hook, except for GiveupManager and End |
| Engines.Advance | tools/statemachine/examples/stepper.go:100-113 | the machine enters the child, stays well formed, and the child is recorded |
| Engines.Next | tools/statemachine/examples/stepper.go:256-261 | a turn keeps the machine well formed |
| Engines.LoopTurn | tools/statemachine/examples/stepper.go:256-267 | one turn of Run's loop: stop, or continue with one fewer turn; the last turn gives up |
| Engines.Started | tools/statemachine/examples/stepper.go:246-252 | Run starts well formed on CRChecker |
| Engines.ChildIsDeeper | tools/statemachine/examples/stepper.go:131-195 | every edge of the graph goes one step closer to End, so the graph has no cycle |
| Engines.StepDescends | tools/statemachine/examples/stepper.go:131-195 | every turn goes one step closer to End |
| Engines.LoopIsWalk | tools/statemachine/examples/stepper.go:249-267 | with more turns left than steps to End, the loop breaker never fires |
| Engines.WalkEndsOff | tools/statemachine/examples/stepper.go:256-261 | every walk reaches End with the machine OFF |
| Engines.RunEndsOff | tools/statemachine/examples/stepper.go:246-267 | every Run ends in End with the machine OFF, never through the breaker |
| Engines.RecGraphRunEndsOff | tools/statemachine/examples/stepper.go:131-267 | the same for the reconciliation graph |
| Engines.AlarmingGiveUpAtUpdater | tools/statemachine/examples/stepper_test.go:46-81 | in the unit test's run, the give-up at Updater routes through ErrorManager and GiveupManager to End; the counts are 2 errors, 2 mutations, 1 give-up and 1 MutateWithCRError; the consolidated error is the alarming reason |
| Engines.Stepper.constructor | tools/statemachine/examples/stepper.go:272-277 | a new stepper has a fresh OFF machine |
| Engines.Stepper.Apply | tools/statemachine/examples/stepper.go:100-113 | a hook action is applied through the aggregator's own operation: the new state is `ApplyAction(old, a)` |
| Engines.Stepper.Record | tools/statemachine/examples/stepper.go:100-113 | an action that records an outcome appends it, folds it into the consolidated outcome and counts it |
| Engines.Stepper.Perform | tools/statemachine/examples/stepper.go:100-113 | the hook's actions are applied in order |
| Engines.Stepper.Enter | tools/statemachine/examples/stepper.go:100-113 | the new state is `EnterStep(old, s)` |
| Engines.Stepper.Start | tools/statemachine/examples/stepper.go:246-252 | the new state is `Started(old)` |
| Engines.Stepper.CurrentEvents | tools/statemachine/examples/stepper.go:199-222 | the events of the current outcomes |
| Engines.Stepper.BreakLoop | tools/statemachine/examples/stepper.go:263-266 | the breaker records its give-up |
| Engines.Stepper.EnterChild | tools/statemachine/examples/stepper.go:258-266 | the child is entered, and the breaker gives up on the last allowed turn |
| Engines.Stepper.Turn | tools/statemachine/examples/stepper.go:256-267 | keeps Progress toward the loop's final state |
| Engines.Stepper.RunLoop | tools/statemachine/examples/stepper.go:256-267 | the loop ends in `Loop(old, 1000)` |
| Engines.Stepper.Run | tools/statemachine/examples/stepper.go:246-268 | Run ends in `RunSpec(old)`, which ends OFF |
| BasicReconciler.MissingCRIsQuietGiveUp | reconciler/basic_object.go:250-256 | a missing CR gives up quietly, with no error and no requeue |
| BasicReconciler.UnreadableCRRequeues | reconciler/basic_object.go:257-258 | an unreadable CR is an error with a requeue |
| BasicReconciler.FinalizingCRRaisesFinalizerEvent | reconciler/basic_object.go:260-268 | a CR being finalized raises the CRFinalizer event, with no error event |
| BasicReconciler.CreateStepMeaning | reconciler/basic_object.go:331-344 | creation happens within the limit; past it the creation is delayed; the flag, entry and error agree |
| BasicReconciler.RunFromReturnsLastError | reconciler/basic_object.go:351-369 | the loop appends outcomes and returns the last error |
| BasicReconciler.AllLoopReturnsLastError | reconciler/basic_object.go:351-369 | the same behind the give-up guard, which returns at once |
| BasicReconciler.CreateRecordsItsError | reconciler/basic_object.go:351-369 | each creation records its error last |
| BasicReconciler.CreateAllReturnsLastError | reconciler/basic_object.go:351-369 | CreateAllResources returns the last error; a stopping loop has only successes before it |
| BasicReconciler.CreationLimitStep | reconciler/basic_object.go:332-336 | one creation counts as created up to the limit plus one, and is delayed past it |
| BasicReconciler.CreateInDone | reconciler/basic_object.go:332-336 | a successful creation under a limit is recorded as created or delayed |
| BasicReconciler.CreationLimitFrom | reconciler/basic_object.go:332-336 | the loop creates min(n, limit + 1) resources and delays the rest |
| BasicReconciler.CreationLimitAdmitsOneMore | reconciler/basic_object.go:332-336 | the creation limit lets one more than the limit through |
| BasicReconciler.NoLimitFrom | reconciler/basic_object.go:331-344 | without a limit, successful creations clear every flag |
| BasicReconciler.NoLimitCreatesEverything | reconciler/basic_object.go:331-344 | without a limit and when the cluster accepts everything, everything is created |
| BasicReconciler.HoldsOfWorldOf | reconciler/basic_object.go:351-369 | the heap holds its own value abstraction |
| BasicReconciler.BasicObject.constructor | reconciler/basic_object.go:172-192 | a fresh reconciler has no CR fetched and no name |
| BasicReconciler.BasicObject.FetchCR | reconciler/basic_object.go:247-270 | records the fetch outcome; NotFound gives up quietly; the name and finalizing flag are set on success |
| BasicReconciler.BasicObject.AddFetchOutcome | reconciler/basic_object.go:250-268 | the fetch's outcomes are appended and its error returned |
| BasicReconciler.BasicObject.GetName | reconciler/basic_object.go:238-243 | the name once the CR is fetched, "" before |
| BasicReconciler.BasicObject.RemoveCRFinalizer | reconciler/basic_object.go:274-283 | removes the finalizer, updates, and records an error only on failure |
| BasicReconciler.BasicObject.Create | reconciler/basic_object.go:331-344 | records `CreateStep`; a Create call is made only within the limit and for an object to create |
| BasicReconciler.BasicObject.CreateTracked | reconciler/basic_object.go:331-344 | Create followed on the value abstraction |
| BasicReconciler.BasicObject.CreateEntry | reconciler/basic_object.go:358-366 | one iteration: created when to create, skipped otherwise |
| BasicReconciler.BasicObject.CreateAllResources | reconciler/basic_object.go:351-369 | the loop ends in `CreateAll(old)` |
| AdvancedReconciler.UpdateStepMeaning | reconciler/advanced_object.go:125-138 | update only when a resync is needed, refused before creation; the error and requeue agree |
| AdvancedReconciler.CheckedOutcome | reconciler/advanced_object.go:77-92 | PostMutate and the key check give one outcome: success exactly when both pass, the give-up otherwise |
| AdvancedReconciler.AskRequeueOutcome | reconciler/advanced_object.go:72-74 | the requeue request is at most one successful outcome |
| AdvancedReconciler.FinishedOutcome | reconciler/advanced_object.go:72-93 | after MutateWithCR: the request, then one outcome; the hash is stored on success |
| AdvancedReconciler.MutatedRecords | reconciler/advanced_object.go:44-94 | the hooks record as a mutation does |
| AdvancedReconciler.MutateStepRecords | reconciler/advanced_object.go:44-94 | outcomes about the resource, all successes but the last, which holds the returned error; an AddGiveupError happens exactly when the last outcome is the implementation-concern give-up |
| AdvancedReconciler.MutateSucceedsIff | reconciler/advanced_object.go:44-94 | success exactly when no hook fails and the key is intact; then one MutationSuccess and the new hash |
| AdvancedReconciler.InitialDataOnlyWhenNeeded | reconciler/advanced_object.go:59-63 | initial data are applied only when needed; their failure gives up |
| AdvancedReconciler.WithCRErrorSkipsTheRest | reconciler/advanced_object.go:65-75 | a MutateWithCR error is recorded and returned and skips the rest; a positive delay records a requeue |
| AdvancedReconciler.SentinelFromHook | reconciler/advanced_object.go:52-70 | a hook returning the sentinel gives up: from PreMutate through AddGiveupError, which keeps the stored reason; from MutateWithCR as a MutateWithCRError outcome without requeue |
| AdvancedReconciler.MutateNeverClearsResync | reconciler/advanced_object.go:44-94 | Mutate never clears needResync |
| AdvancedReconciler.SuccessfulMutationTracksTemplate | reconciler/advanced_object.go:44-94 | the sync flags follow the hash changes |
| AdvancedReconciler.MutateInRenames | reconciler/advanced_object.go:44-94 | a mutation changes no other object's key; the mutated object keeps its group/version/kind and takes the namespace and name the hooks leave it with |
| AdvancedReconciler.HookRenameGivesUp | reconciler/advanced_object.go:80-84 | the key check after the hooks passes exactly when the object still has its recorded namespace and name; once the hooks succeed, Mutate gives up exactly on a rename or move, with the discrepancy as the reason |
| AdvancedReconciler.MutateInKeepsResync | reconciler/advanced_object.go:44-94 | one mutation clears no "needs resync" flag |
| AdvancedReconciler.HoldsWithoutIds | reconciler/advanced_object.go:100-119 | the heap's agreement with the loop's state does not depend on the objects' keys |
| AdvancedReconciler.RenamedIdsHold | reconciler/advanced_object.go:44-94 | after hooks that renamed only the mutated object, the heap's objects have the keys of the renamed loop state |
| AdvancedReconciler.MutateRecordsItsError | reconciler/advanced_object.go:100-119 | each mutation records its error last |
| AdvancedReconciler.MutateInRecords | reconciler/advanced_object.go:44-94 | Mutate on the value abstraction records as a mutation |
| AdvancedReconciler.AppliedRecords | reconciler/advanced_object.go:44-94 | applying a mutation appends its outcomes |
| AdvancedReconciler.MutateAllReturnsLastError | reconciler/advanced_object.go:100-119 | MutateAllResources returns the last error |
| AdvancedReconciler.MutateFromKeepsResync | reconciler/advanced_object.go:100-119 | the loop never clears needResync |
| AdvancedReconciler.MutateAllKeepsResync | reconciler/advanced_object.go:100-119 | the same for the whole pass |
| AdvancedReconciler.CreateOrUpdateDispatch | reconciler/advanced_object.go:152-168 | an object to create is created, a mutable one is updated, anything else skipped |
| AdvancedReconciler.CreateInAppends | reconciler/advanced_object.go:152-168 | Create appends one outcome and keeps the resync flags |
| AdvancedReconciler.UpdateInAppends | reconciler/advanced_object.go:152-168 | Update appends one outcome and keeps the creation flags |
| AdvancedReconciler.CreateOrUpdateRecordsItsError | reconciler/advanced_object.go:145-172 | each call records its error last |
| AdvancedReconciler.CreateOrUpdateAllReturnsLastError | reconciler/advanced_object.go:145-172 | the pass returns the last error |
| AdvancedReconciler.SettleCreate | reconciler/advanced_object.go:152-168 | an accepted creation settles the "to create" flag |
| AdvancedReconciler.SettleUpdate | reconciler/advanced_object.go:152-168 | an accepted update settles the resync flag |
| AdvancedReconciler.SettleStep | reconciler/advanced_object.go:145-172 | one accepted call settles its entry |
| AdvancedReconciler.SettleFrom | reconciler/advanced_object.go:145-172 | the rest of the pass settles every remaining entry |
| AdvancedReconciler.CreateOrUpdateSettlesEverything | reconciler/advanced_object.go:145-172 | when the cluster accepts everything, nothing is left to create or resync |
| AdvancedReconciler.AppliedHolds | reconciler/advanced_object.go:44-94 | the heap holds the abstraction after a mutation |
| AdvancedReconciler.UpdatedHolds | reconciler/advanced_object.go:125-138 | the heap holds the abstraction after an update |
| AdvancedReconciler.AdvancedObject.constructor | reconciler/advanced_object.go:23-25 | wraps the basic reconciler |
| AdvancedReconciler.AdvancedObject.Update | reconciler/advanced_object.go:125-138 | records `UpdateStep` |
| AdvancedReconciler.AdvancedObject.Mutate | reconciler/advanced_object.go:44-94 | records `MutateStep` and leaves its state, for hooks returning any error; the object ends with the namespace and name the hooks leave it with, and the key check is made on it; it gives up exactly when it returns the sentinel, and stores a failing hook's error as the reason (`StoredReason`) |
| AdvancedReconciler.AdvancedObject.MutateWithHooks | reconciler/advanced_object.go:52-75 | the hooks, up to MutateWithCR, for hooks returning any error, the sentinel included |
| AdvancedReconciler.AdvancedObject.FinishMutation | reconciler/advanced_object.go:72-93 | the part after a successful MutateWithCR, for a PostMutate returning any error |
| AdvancedReconciler.AdvancedObject.CheckMutation | reconciler/advanced_object.go:77-93 | PostMutate, the key check and the sync, for a PostMutate returning any error |
| AdvancedReconciler.AdvancedObject.MutateRecorded | reconciler/advanced_object.go:44-94 | Mutate together with the mutation it performs, whose key check is on the key the hooks leave; the objects end with the keys of the loop state renamed as the hooks say (only the mutated object moves) |
| AdvancedReconciler.AdvancedObject.MutateTracked | reconciler/advanced_object.go:44-94 | Mutate followed on the abstraction, objects' keys included |
| AdvancedReconciler.AdvancedObject.MutateEntry | reconciler/advanced_object.go:107-115 | one iteration: mutate a mutable entry, skip anything else |
| AdvancedReconciler.AdvancedObject.MutateAllResources | reconciler/advanced_object.go:100-119 | the loop ends in `MutateAll(old)` |
| AdvancedReconciler.AdvancedObject.UpdateTracked | reconciler/advanced_object.go:125-138 | Update followed on the abstraction |
| AdvancedReconciler.AdvancedObject.CreateTracked | reconciler/advanced_object.go:152-168 | Create followed on the abstraction |
| AdvancedReconciler.AdvancedObject.CreateOrUpdateEntry | reconciler/advanced_object.go:152-168 | one iteration of CreateOrUpdateAllResources |
| AdvancedReconciler.AdvancedObject.CreateOrUpdateAllResources | reconciler/advanced_object.go:145-172 | the loop ends in `CreateOrUpdateAll(old)` |
| GenResource.Strip | tools/cli/okt-gen-resource/main.go:152 | dashes are removed, and no new character appears |
| GenResource.StripAbsent | tools/cli/okt-gen-resource/main.go:152 | a string without a dash is unchanged |
| GenResource.AfterLast | tools/cli/okt-gen-resource/main.go:143 | the tail after the last separator contains no separator |
| GenResource.AfterLastSeparated | tools/cli/okt-gen-resource/main.go:143 | the tail of `a/b` is b |
| GenResource.TrimTrailingSlashes | tools/cli/okt-gen-resource/main.go:143 | trailing slashes are dropped, giving a prefix |
| GenResource.BaseOfFileInDirectory | tools/cli/okt-gen-resource/main.go:143 | the base of `dir/file` is file |
| GenResource.Split | tools/cli/okt-gen-resource/main.go:144 | there is at least one piece, and no piece holds the separator |
| GenResource.JoinSplit | tools/cli/okt-gen-resource/main.go:144 | joining the pieces gives the string back |
| GenResource.SplitAbsent | tools/cli/okt-gen-resource/main.go:144 | without the separator there is one piece |
| GenResource.SplitFirst | tools/cli/okt-gen-resource/main.go:144 | the first piece is split off |
| GenResource.ResourceName | tools/cli/okt-gen-resource/main.go:142-155 | the resource name has no dash |
| GenResource.ResourceNameOfManifest | tools/cli/okt-gen-resource/main.go:142-155 | `dir/stem.ext` gives the stem without dashes |
| GenResource.ResourceNameWithoutDot | tools/cli/okt-gen-resource/main.go:142-155 | a plain name is kept whole, without its dashes |
| GenResource.ResourceNameCharacters | tools/cli/okt-gen-resource/main.go:142-155 | there is no dot, and no slash except for "/" itself |
| GenResource.ResourceNameIdempotent | tools/cli/okt-gen-resource/main.go:142-155 | applying it twice is applying it once |
| GenResource.ResourceNameOfEmpty | tools/cli/okt-gen-resource/main.go:142-155 | the empty path gives "" |
| GenResource.ResourceNameOfSlashes | tools/cli/okt-gen-resource/main.go:142-155 | "/" gives "/" |
| GenResource.GetNewBackupName | tools/cli/okt-gen-resource/main.go:72-86 | the first free of ten backup names, or an error exactly when none is free |
| GenResource.StubPlanMeaning | tools/cli/okt-gen-resource/main.go:123-127 | an unknown type is refused; a known one writes `<type>ResourceStub.go` with its entry |

The following are modelled as plain functions or accessors, without contracts of their own. Their
properties are stated by the lemmas and methods that use them.

- `GenResource.OutputFileName` (tools/cli/okt-gen-resource/main.go:157-159), `GenResource.StubFileName` (main.go:119-121) and the dictionary `GenResource.Lookup` (main.go:49-62).
- `Ngvk.NGVK.String`, `Ngvk.NGVK.KN`, `Ngvk.NGVK.Equal` and `Ngvk.NGVK.IsFor`, with `Ngvk.Compose` (tools/ngvk/ngvk.go:23-75). Their properties are in the Ngvk lemmas above.
- `ResourceObjects.ResourceObject.Index`, `KindName`, `NamespacedName`, `IsCreation` and `CheckExpectedKey` (resources/k8s/0kt_resource_object.go:169-208, 239-245). `CheckExpectedKey`'s meaning is in `CheckExpectedKeyMeaning`.
- `Hash.SetTemplateHashAnnotation` and `Hash.GetTemplateHashAnnotation` (tools/hash/hash.go:32-36, 46-49), covered by `Hash.GetAfterSet`.
- `MutableObjects.MutableResourceObject.NeedResync` and `LastSyncState` (resources/k8s/0kt_mutable_object.go:56-65).
- `Registry.Registry.Entries` (registry/registry.go:49-52).
- `StateMachine.Machine.IsOFF`, `GetState` and `IsPathInGraphEnabled` (tools/statemachine/sm.go:89-92, 113-115, 201-203).
- `Engines.Stepper.GetState` (tools/statemachine/examples/stepper.go:95-98).
- `SecretHelpers.SecretMutationHelper.GetObjectSpec` (resources/k8s/secret_mutation_helper.go:41-43).
- `Results.ResultList.AlarmingReasonToGiveup` (results/giveup_error.go:33-37).
- The specification functions `Finalizers.Without` and `Finalizers.Added`, whose properties are the Finalizers lemmas above.

## Left out

- Logging, `DisplayCounters`, `DisplayOpList`, `DisplayPathOfStates` and every `fmt` print: they have no effect on state.
- Reconcile, ManageSuccess and ManageError of the reconcilers: they are the user's implementation through hooks. The hooks are parameters (`Engines.Hook`, `AdvancedReconciler.Hooks`).
- BasicObject.Init's `StatusEnabled` record: status handling is not part of this model.
- BasicObject.FetchCR: the deletion timestamp (`IsBeingDeleted`) is a parameter, and filling the CR from the cluster is not modelled. Only the call's outcome is.
- The YAML/template machinery: `CopyTpl`, `CopyGOStruct`, `SetData`/`GetData`, `GetHashableRef`, and the manifest reader and writer of the CLI. The CLI dictionary's `comment` field is dropped from `GenResource.Lookup`'s entries, because only the templates use it.
- `RegisterResource` and the registry's reflection-based typing: entries are built directly as `Registry.Resource` values.
- Hash.Compute: the 32-bit FNV-1 hash (`fnv.New32`) of the `spew` rendering is an uninterpreted value. Only its decimal rendering is modelled.
- Results.ResultList.TotalOpsCount: does not model the truncation of `uint16(len(opMap))`, since at most 2^16 operation kinds would be needed to reach it.
- Results: the reference to the resource object that each outcome keeps is replaced by its index and kind/name (`ResourceInfo`).
- The Actions.Enter hook call is made by the stepper after each state change, rather than by the machine itself (see `StateMachine.Machine.EnterNextState`). Its error, ignored by the source, is not modelled.
- MutableObjects.MutableResourceObject.UpdateSyncStatus: always succeeds in this model. Every modelled object has metadata, so the accessor's error branch never occurs.
- StateMachine.LoopMarker: the float32 arithmetic of the repeat count is written as the integer `loops / 2 + 1` with a parity test. This agrees with the float32 computation for loops ≤ 2^24 − 2. At 2^24 − 1 the float32 value 2^23 + 0.5 rounds to a whole number, which the model does not reproduce.
- Registry.Registry.AddEntry: the doc comment promises to refuse duplicates, but the code appends always. The model follows the code.
- Engines.Hook: a step hook is modelled as the aggregator calls it makes in that step: AddOp, AddOpSuccess, AddGiveupError, ResetAllResults, and setting the give-up reason. A Go `StepperEngineHook` receives the whole `Stepper`. It could also replace the stepper's results with SetResults, touch the machine, or call the cluster. None of that is modelled. The stepper lemmas hold for every hook of the modelled kind.
- Results: errors are compared as values (`Error.Plain(text)` and the `GiveUp` sentinel). Go compares error interfaces by identity (result_list.go:140), so two distinct Go errors with the same text are distinct there and equal here. The give-up test is exact, since the sentinel is a single value.
- Results.ResultList: the give-up reason is a field of each aggregator, which starts at nil. In Go it lives in the one shared sentinel (giveup_error.go:47), which neither NewResultList (result_list.go:242-247) nor ResetAllResults resets, so a reason set during one reconciliation is still there in the next one, and in every other aggregator.
- AdvancedReconciler.Hooks: the hooks' renaming of the object is one namespace and name, the one the hooks that run leave it with; it is applied before PreMutate, which changes nothing that is read before the key check. Other changes the hooks make to the object are only seen through the template hashes.
- AdvancedReconciler.Hooks: a hook is modelled by the error it returns. A Go hook that returns `ErrGiveUpReconciliation.Reason(err)` has set the shared reason to `err` itself before returning; the model does not capture that write, so with the corrected `StoredReason` the reason kept is the one stored before the hook ran.
- Concurrency and the controller runtime's own scheduling.

## Findings

| source | as written | input that shows it | evidently intended | confidence | as-written member | corrected member |
|---|---|---|---|---|---|---|
| tools/statemachine/sm.go:243-272 | SetState on the machine's previous state, while ON with the path enabled, first resets the path to `[">"]`. It then enters the state as a loop (loopPathLength 2) and indexes `pathLen-5` = -4, which panics. | Test graph, machine ON in Servicing after Run, path `>Run>Servicing>`; call `SetState(Run)` (`SetStateOnPreviousStatePanicsAsWritten`) | A restarted path has no loop to fold. The state is appended like any other entry (`SetStateRestartsPath`), and the corrected version agrees with the code wherever the code does not panic (`CorrectionAgreesAsWritten`). | not executed | StateMachine.WithStateInPathAsWritten | StateMachine.WithStateInPath |
| results/giveup_error.go:28-44 | Reason stores any error, the sentinel included. Mutate passes a hook's error to AddGiveupError (advanced_object.go:53, 61, 78), which calls Reason with it; a hook returning the sentinel therefore makes the sentinel its own reason. The alarming error is lost, and `Error()` calls itself without end. | A MutateWithInitialData hook that returns `ErrGiveUpReconciliation.Reason(err)`, the documented idiom (statefulset_test.go:273-277); the GiveupManager step then logs `ErrGiveUpReconciliation.Error()` (stepper.go:50) (`SentinelAsOwnReasonAsWritten`) | Reason leaves the stored reason alone when given the sentinel, so the message ends and shows the alarming error (`StoredReasonMessageEnds`). | not executed | Results.GiveUpMessageAsWritten | Results.StoredReason |
