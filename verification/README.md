# fluent-pvc-operator: the lifecycle protocol

The operator gives every labelled pod a PersistentVolumeClaim of its own. When the pod is over, it runs a
finalizer Job on the claim and releases the claim only after that Job has succeeded. Five actors share the
work through the API server: the pod webhook creates claim and `FluentPVCBinding`; the binding controller
turns what it sees of pod, claim and Job into conditions; the PVC controller applies the Job and releases the
claim; the FluentPVC controller holds the top finalizer; the pod controller deletes pods whose sidecar
stopped. This project models their code and proves what they guarantee together.

## How it is built

- `Conditions.dfy`: the condition list of a binding and the phase derived from it.
- `Injection.dfy`, `SpecRewriting.dfy`: the inject-or-replace functions on a pod specification edited in
  place, and the passes the webhook and the PVC controller make with them.
- `Kube.dfy`: objects, and the API server: updates compare UID and resourceVersion, status updates leave
  metadata alone, an object vanishes only when it is being deleted and holds no finalizer, UIDs are not reused.
- `Client.dfy`, `BindingController.dfy`, `PVCController.dfy`, `OtherControllers.dfy`: the reconcilers and the
  webhook as classes whose methods follow the Go code branch by branch. Each method is proved to do to the
  server exactly what a function of (server, reads, key) says; the theorems are about these functions.
- `Decisions.dfy`: the same decisions stated outcome by outcome in the fields of the objects read, independent of
  the order of the branches. `Effects.dfy`: what each operation leaves on the server and answers, in the fields
  of the objects stored.
- `Protocol.dfy`: the protocol as a transition system over any number of objects. Every write of the operator
  is one step, and the tables it was decided on may each come from a different earlier state. The other steps
  are users, kubelet, Job controller, garbage collector and clock.
- `Invariants.dfy`, `Preservation.dfy`, `Runs.dfy`: what every run keeps, however stale the reads.
  `Histories.dfy`: what was seen before a binding was given up or recorded its pod, and who takes other people's
  finalizers away.
- `StaleReads.dfy`, `FinalizerChains.dfy`: the guarantees that hang on single reads, each with the one or two
  reads that have to be recent enough, all others being as stale as may be.
- `Reconciles.dfy`, `FreshRuns.dfy`, `Atomic.dfy`: whole reconciles are a few steps of the protocol and touch
  only their own objects; runs on present reads; runs in which no reconcile is interrupted, which refine them.
- `Convergence.dfy`, `Outcomes.dfy`, `Surroundings.dfy`: a measure that every fair round of reconciles shrinks,
  exactly which bindings come to their end, and what the rest of the cluster may do meanwhile.
- `Schedules.dfy`, `DeadEnds.dfy`: runs from the initial state that show where the guarantees end.
- `WebhookAgreement.dfy`: the pods the webhook emits are the pods the binding controller accepts.

## What is assumed of the cluster

Stated as `Protocol.Enabled`: the name generated by a webhook call is new in the whole cluster; a terminal pod
phase and a finished Job stay as they are; only the operator creates Jobs that are owned by bindings, while
anyone may create others under any name; nobody but the operator edits the operator's finalizers, except that anyone may strip
pvc-protection from a PVC (a step of its own, recorded as `stripped`). Users may create, edit and delete
FluentPVCs, PVCs, pods and Jobs and delete bindings at any time.

## What was found

- A pod that turns up after PodMissing was set makes the binding Ready as well, and the PVC is released under
  the running pod (`ReleasedUnderARunningPod`). Data safety therefore speaks of bindings that are Ready
  without PodMissing. A pod that comes and goes unseen never makes its binding Ready.
- With a list of pods older than the pod a Job is applied beside a running pod (`JobBesideARunningPod`). That
  is the only way: with pod lists that know the pod the two exclude each other, however stale all other reads
  are (`StaleMutualExclusion`).
- With a list of PVCs older than the PVC a binding becomes Unknown, which is final, beside a PVC nobody has
  touched (`UnknownBesideItsPVC`). Otherwise Unknown for want of the PVC means that someone stripped it
  (`MissingPVCHasACause`). The same old list lets a binding go before its PVC, which then stays for ever
  (`DroppedBeforeItsPVC`); otherwise no binding goes before its PVC (`BindingOutlivesPVC`).
- With a list of bindings older than the binding a FluentPVC loses its finalizer under a binding that still
  holds its own (`UnguardedTooEarly`, `FinalizerChain`).
- With a stale binding a second Job is applied after a failed one was deleted, both outcomes are recorded, and
  the two controllers wait for each other for ever (`SucceededAndFailed`, `BothOutcomesForever`); when Jobs are
  judged by present reads this cannot happen (`OneOutcome`).
- If pvc-protection is removed but the deletion of the PVC does not get through, the binding can go first and
  the PVC stays for ever (`LeftBehindForever`).
- A FluentPVC deleted before its controller has set its finalizer leaves a binding every reconcile of which
  fails (`OrphanedForever`).
- Jobs are looked up by the name of their owner in all namespaces: were names not unique, a namesake's Job
  would release the PVC of a binding that never had one (`NamesakesJobReleasesThePVC`).
- A stranger's Job under the name of a binding is never adopted, since the API server refuses to change the
  specification of a Job; it blocks the binding until it is deleted (`StrangersJobBlocks`).
- `InjectOrReplaceEnv` lacks the `continue` of its siblings and inserts before the old entry instead of
  replacing it (`MissingContinueCount`, `RepeatedCallsDouble`); `MissingContinueHarmlessIff` says when that
  makes no difference.
- For the same reason, of two common variables of one name the first takes effect (`FirstCommonWins`), while of two
  common volumes or mounts of one name the last does (`PassesLaw`).
- A FluentPVC that is being deleted without its finalizer cannot get it any more: while a binding holds its own, the
  reconciles of the FluentPVC fail (`FluentPVCReconcileExactly`).
- A comment after `fillPodUID` announces a wait for the next reconcile (controllers/fluentpvcbinding_controller.go:226-228);
  the caller goes on in the same one, and so does the model.
- README.md:60 of the repository says pods are deleted when the sidecar ends with an exit code other than 0;
  the code deletes them when it ended or restarted at all (controllers/pod_controller.go:77), and so does the
  model.

## Model

| member | source | states |
|---|---|---|
| Conditions.SetStatusCondition | api/v1alpha1/helpers.go:99-107 | setting one kind leaves status, reason and transition time of every other kind alone; the time of the kind set moves only when it becomes True |
| Conditions.PhaseOf | api/v1alpha1/helpers.go:109-126 | the loop and the unstable sort leave Pending when nothing is True, else some True condition that none is newer than |
| Conditions.PlayKeepsKindsUnique | api/v1alpha1/helpers.go:99-107 | after any history of calls each kind occurs at most once |
| Conditions.PlayFollowsHistory | api/v1alpha1/helpers.go:99-107 | a kind is True iff the history last made it so, since the moment it last became True |
| Conditions.PhaseIsMaximal | api/v1alpha1/helpers.go:109-126 | whatever the clock does, the phase names a True condition none is newer than, and is Pending iff none is True |
| Conditions.PhaseIsLatest | api/v1alpha1/helpers.go:99-126 | with a strictly increasing clock the phase is the one condition that most recently became True |
| Conditions.EqualTimesLeavePhaseOpen | api/v1alpha1/helpers.go:117-125 | two calls at one instant admit two different phases |
| Injection.PodSpecObject.InjectOrReplaceContainer | utils/pod/injection.go:7-22 | the loop makes the container list its keyed update |
| Injection.PodSpecObject.InjectOrReplaceVolume | utils/pod/injection.go:24-39 | the loop makes the volume list its keyed update |
| Injection.PodSpecObject.InjectOrReplaceVolumeMount | utils/pod/injection.go:41-62 | the nested loops update the mounts of every container and nothing else of it |
| Injection.PodSpecObject.InjectOrReplaceEnv | utils/pod/injection.go:64-84 | the nested loops, without the continue, insert before the old entries |
| Injection.UpsertLaw | utils/pod/injection.go:7-62 | afterwards the new entry is the only one of its name, other entries keep value and place |
| Injection.UpsertDistinct | utils/pod/injection.go:7-62 | distinct names stay distinct |
| Injection.UpsertIdempotent | utils/pod/injection.go:7-62 | doing it twice is doing it once |
| Injection.UpsertsCommute | utils/pod/injection.go:7-62 | updates of different names agree up to the order of appended entries |
| Injection.UpsertIsMapUpdate | utils/pod/injection.go:7-62 | read as a map, the list is updated at one key |
| Injection.ContinueGivesUpsert | utils/pod/injection.go:70-77 | with the missing continue the env function would be the keyed update of its siblings |
| Injection.MissingContinueKeepsOld | utils/pod/injection.go:70-77 | every old entry of the name is kept, directly after a new one |
| Injection.MissingContinueCount | utils/pod/injection.go:64-84 | n > 0 entries of the name become 2n, none becomes one |
| Injection.RepeatedCallsDouble | utils/pod/injection.go:64-84 | k calls on n > 0 entries leave n times 2 to the k |
| Injection.MissingContinueHarmlessIff | utils/pod/injection.go:64-84 | the result is that of the keyed update iff the name was not there |
| Injection.MissingContinueKeepsEffective | utils/pod/injection.go:64-84 | a variable already set keeps the value that takes effect |
| SpecRewriting.PatchPod | webhooks/pod_webhook.go:116-142 | the webhook's passes, in its order, compute the patched pod |
| SpecRewriting.BuildFinalizerJobSpec | controllers/pvc_controller.go:126-148 | the PVC controller's passes over the Job template compute the Job's spec |
| SpecRewriting.PassesLaw | webhooks/pod_webhook.go:116-138 | common entries then the PVC's own: the PVC's is the only one of its name even if a common entry has it; the last common entry wins every other name; the rest is untouched |
| SpecRewriting.PatchedPodLaw | webhooks/pod_webhook.go:116-142 | every container, sidecar included, mounts the PVC and has the common variables beside its own; the PVC volume is the claim; containers not named like the sidecar keep place and count |
| SpecRewriting.FinalizerJobSpecLaw | controllers/pvc_controller.go:126-148 | the same for the Job, whose containers keep name, image, order and count; the rest of the template is as it was |
| SpecRewriting.DressedSetsEnvs | webhooks/pod_webhook.go:140-142 | a container ends up with its own variables and the common ones and no others; its own keep their effective values; distinct common ones it lacked stand at the end in order |
| SpecRewriting.FirstCommonWins | webhooks/pod_webhook.go:140-142 | of several common variables of a name the container lacked, the first takes effect |
| SpecRewriting.MissingAreAppended | webhooks/pod_webhook.go:140-142 | distinct common variables: those the container lacked are appended in order, whatever the others do |
| SpecRewriting.FreshEnvsAreAppended | webhooks/pod_webhook.go:140-142 | common variables new to a container are appended in order |
| SpecRewriting.SetEnvsKeepTheirValue | webhooks/pod_webhook.go:140-142 | a variable a container sets itself keeps its effective value through all passes |
| Utils.GetFinishedStatus | controllers/utils.go:69-76 | the loop finds the first finishing condition |
| Utils.FinishedStatusIsFirst | controllers/utils.go:69-86 | a Job has succeeded, or failed, iff a condition of that kind holds and no finishing condition before it does |
| Utils.FindContainerStatusByName | controllers/utils.go:92-99 | the first status of that name, or none exists |
| Client.FluentPVCBinding.SetCondition | api/v1alpha1/helpers.go:99-107 | condition list and phase of the copy in memory after one call |
| BindingController.FluentPVCBindingReconciler.Reconcile | controllers/fluentpvcbinding_controller.go:48-188 | the whole new state of the server and the answer, for any reads |
| BindingController.FluentPVCBindingReconciler.FulfillPod | controllers/fluentpvcbinding_controller.go:190-235 | by label without a pod name, by name with one; fills a missing identity, ignores a pod of another UID |
| BindingController.FluentPVCBindingReconciler.FillPodUID | controllers/fluentpvcbinding_controller.go:265-293 | records the pod iff it mounts the claim and carries the FluentPVC's label |
| BindingController.FluentPVCBindingReconciler.UpdateControllerFluentPVC | controllers/fluentpvcbinding_controller.go:254-263 | owner and identity of the FluentPVC are refreshed unless another object controls the binding |
| BindingController.FluentPVCBindingReconciler.Conclude | controllers/fluentpvcbinding_controller.go:84-187 | the cascade of checks from the PVC lookup on |
| BindingController.FluentPVCBindingReconciler.UpdateConditionByFinalizerJobStatus | controllers/fluentpvcbinding_controller.go:404-471 | none, one or several Jobs |
| BindingController.FluentPVCBindingReconciler.ClearJobConditions | controllers/fluentpvcbinding_controller.go:411-430 | Applied and Failed are withdrawn in one update |
| BindingController.FluentPVCBindingReconciler.RecordJobStatus | controllers/fluentpvcbinding_controller.go:444-470 | Applied and the outcome are recorded in one update |
| BindingController.FluentPVCBindingReconciler.DeleteFluentPVCBinding | controllers/fluentpvcbinding_controller.go:295-309 | finalizer first, then deletion of the version that answer described |
| PVCController.PVCReconciler.Reconcile | controllers/pvc_controller.go:44-184 | the whole new state of the server and the answer, for any reads |
| PVCController.PVCReconciler.ApplyJob | controllers/pvc_controller.go:106-153 | the Job request that is sent, or the reason there is none; the list of Jobs and the later lookup by name may differ |
| PVCController.PVCReconciler.RemoveAndDelete | controllers/pvc_controller.go:168-183 | pvc-protection first, then deletion; a conflict ends the reconcile |
| FluentPVCController.FluentPVCReconciler.Reconcile | controllers/fluentpvc_controller.go:37-74 | the loop sets the finalizer iff some binding of this FluentPVC holds its own |
| PodController.PodReconciler.Reconcile | controllers/pod_controller.go:37-98 | deletes the version that was read iff the pod runs, its FluentPVC asks for it and its sidecar stopped at least once |
| PodWebhook.PodMutator.Handle | webhooks/pod_webhook.go:52-149 | nothing is created for a refused request; otherwise PVC, then binding, then the patch, unless the status update in between conflicts; denied iff there is no container or no label; the user's labels stay |
| Decisions.AdoptsExactlyWhen | controllers/fluentpvcbinding_controller.go:58-68 | the owner is refreshed iff the FluentPVC exists and is not the controller by UID, and nobody else is; only owner and identity change |
| Decisions.FillsExactlyWhen | controllers/fluentpvcbinding_controller.go:190-293 | a pod is recorded iff it is the only labelled one, or the one of the known name, and mounts the claim and carries the FluentPVC's label |
| Decisions.FailsExactlyWhen | controllers/fluentpvcbinding_controller.go:58-81 | exactly when a binding reconcile fails before writing anything |
| Decisions.JudgesWhatItSees | controllers/fluentpvcbinding_controller.go:70-89 | which pod, or none, a controlled binding is judged by; an Unknown one is left alone |
| Decisions.DropsExactlyWhen | controllers/fluentpvcbinding_controller.go:91-114 | a binding is let go iff its PVC is gone and it is PodMissing or Succeeded, or it is Succeeded and its PVC is unprotected |
| Decisions.SetsReadyExactlyWhen | controllers/fluentpvcbinding_controller.go:159-166 | exactly when a binding becomes Ready |
| Decisions.SetsPodMissingExactlyWhen | controllers/fluentpvcbinding_controller.go:117-126 | exactly when: no pod, never Ready, made more than 3600 seconds ago, PVC not lost |
| Decisions.GivesUpExactlyWhen | controllers/fluentpvcbinding_controller.go:48-126 | the same for a whole reconcile: its FluentPVC controls it, it is not Unknown, and no pod of its label, name or UID is seen |
| Decisions.SetsOutOfUseExactlyWhen | controllers/fluentpvcbinding_controller.go:133-139 | exactly when, and with which reason |
| Decisions.SetsUnknownExactlyWhen | controllers/fluentpvcbinding_controller.go:99-157 | exactly when, and with which of the five reasons |
| Decisions.RecordsJobExactlyWhen | controllers/fluentpvcbinding_controller.go:444-470 | exactly when Applied, Succeeded and Failed are recorded, by the first finishing condition of the only Job |
| Decisions.WithdrawsExactlyWhen | controllers/fluentpvcbinding_controller.go:411-430 | only Applied and Failed are ever withdrawn, exactly when no Job is listed, never after Succeeded |
| Decisions.SavesAreStamped | controllers/fluentpvcbinding_controller.go:311-402 | a status update changes conditions only, stamps what it sets with the present time and its reason, keeps older times, and succeeds unless there are several Jobs |
| Decisions.PVCReconcileExactly | controllers/pvc_controller.go:70-183 | a reconcile releases exactly when it may, else applies the Job exactly when it is time and it can, else does nothing |
| Decisions.PVCReconcileAnswers | controllers/pvc_controller.go:47-165 | a reconcile that does nothing fails, ends or comes back exactly when stated |
| Decisions.AsksForNoJobExactlyWhen | controllers/pvc_controller.go:106-149 | no Job is requested iff one is listed, the FluentPVC is missing, or the name belongs to another controller |
| Decisions.RequestedJob | controllers/pvc_controller.go:106-149 | a Job is requested only when none is listed; it is owned by the binding and in every container mounts the PVC and sets the common variables |
| Effects.ReleaseExactly | controllers/pvc_controller.go:167-183 | a release takes pvc-protection only and asks for deletion: held by others the PVC stays, terminating; nothing else changes |
| Effects.OutdatedReleaseIsRefused | controllers/pvc_controller.go:169-178 | on a conflict nothing is written and the answer is that of the branch; a PVC that is gone is no failure |
| Effects.DropExactly | controllers/fluentpvcbinding_controller.go:295-309 | a binding loses its own finalizer only and is deleted; held by others it stays, terminating |
| Effects.OutdatedBindingIsLeftAlone | controllers/fluentpvcbinding_controller.go:48-188 | a reconcile on another version of the binding than the stored one writes nothing, and fails if it had something to write |
| Effects.PlannedIsStored | controllers/fluentpvcbinding_controller.go:48-188 | on the stored version it leaves exactly what was planned, and answers accordingly |
| Effects.RecordedIsJudged | controllers/fluentpvcbinding_controller.go:221-229 | after recording a pod the same reconcile goes on with the stored binding and that pod |
| Effects.CreatedJob | controllers/pvc_controller.go:123-152 | the Job is stored as requested, without finalizers and status, iff its name is free |
| Effects.UpdateOfAJobIsRefused | controllers/pvc_controller.go:126-152 | CreateOrUpdate on an existing Job never changes it |
| Effects.FluentPVCReconcileExactly | controllers/fluentpvc_controller.go:46-73 | the own finalizer, and no other, is there afterwards iff a binding owned by kind and name holds its own; it cannot be added to a FluentPVC being deleted |
| Effects.OutdatedFluentPVCIsLeftAlone | controllers/fluentpvc_controller.go:70-72 | on another version than the stored one it writes nothing and fails |
| Effects.PodReconcileExactly | controllers/pod_controller.go:40-97 | a pod is marked for deletion iff it is labelled and running, its FluentPVC asks for it, and the first status named like the sidecar shows a restart or a termination; else nothing changes |
| Effects.OutdatedPodIsLeftAlone | controllers/pod_controller.go:92-96 | a pod replaced or changed since it was read is not deleted |
| Effects.PodReconcileFailsExactlyWhen | controllers/pod_controller.go:61-78 | fails without writing iff the FluentPVC is missing or the sidecar has no status |
| Invariants.ChangeKeeps | controllers/fluentpvcbinding_controller.go:99-179 | every status update keeps the order of the conditions and withdraws nothing that must stay |
| Preservation.StepKeeps | controllers/pvc_controller.go:44-184 | the inductive step for stale reads: any action on reads of any past states keeps the invariant |
| Runs.DataSafety | controllers/pvc_controller.go:70-183 | a bound PVC of a binding Ready without PodMissing loses pvc-protection, unless stripped, only after a Job owned by that binding stood complete |
| Runs.OnlyReleaseUnprotects | controllers/pvc_controller.go:168-179 | only the release and a strip take pvc-protection away, and the release only what its reads allowed |
| Runs.OperatorNeverCausesMissingPVC | controllers/fluentpvcbinding_controller.go:128-157 | a binding Unknown for want of its PVC never lost it to the operator, before or after |
| Runs.ConditionsInOrder | controllers/fluentpvcbinding_controller.go:404-470 | Succeeded and Failed imply Applied, Applied implies OutOfUse, OutOfUse implies Ready, Ready implies a recorded pod |
| Runs.BindingsOnlyAdvance | controllers/fluentpvcbinding_controller.go:70-73 | identities and creation time settle once and for all, lasting conditions last, Unknown freezes all of them, PodMissing never follows Ready |
| Runs.AtMostOneJob | controllers/fluentpvcbinding_controller.go:431-443 | at most one Job per binding, so MultipleFinalizerJobsFound is never written |
| StaleReads.StaleMutualExclusion | controllers/pvc_controller.go:97-126 | with any stale reads but pod lists older than the pod: once a Job of a binding exists its pod has ended, then and ever after |
| StaleReads.BrokenExclusionHasAnOldPodList | controllers/fluentpvcbinding_controller.go:132-139 | a Job beside a live pod goes back to a binding write on a list of pods older than that pod |
| StaleReads.MissingPVCHasACause | controllers/fluentpvcbinding_controller.go:128-157 | Unknown for want of the PVC: someone else stripped it, or a binding write went by a list of PVCs older than the PVC |
| StaleReads.OneOutcome | controllers/fluentpvcbinding_controller.go:444-464 | Succeeded and Failed exclude each other, and while Failed every Job of the binding has failed, when two reads at that key are present |
| StaleReads.UnknownStopsTheOperator | controllers/pvc_controller.go:93-96 | Unknown without PodMissing: no step of the operator changes conditions, PVC or Job, when the PVC controller goes by the present binding |
| StaleReads.UnknownStopsTheOperatorForGood | controllers/fluentpvcbinding_controller.go:70-73 | the same for every later step of a run |
| Histories.GivenUpAfterAnHour | controllers/fluentpvcbinding_controller.go:117-126 | with any stale reads no binding is PodMissing before it is 3600 seconds old |
| Histories.RecordedPodMountedItsClaim | controllers/fluentpvcbinding_controller.go:265-293 | with any stale reads the recorded pod was, in an earlier state, the pod of that name in its namespace, mounting the claim and labelled with the FluentPVC |
| Histories.ForeignHoldOnPVC | controllers/pvc_controller.go:168-180 | no step but that of its owners takes a foreign finalizer from a PVC, nor the PVC from under it |
| Histories.ForeignFinalizersGoByTheirOwners | controllers/pvc_controller.go:168-180 | over whole runs, the loss of a foreign finalizer goes back to a step of its owners, before which the PVC was there |
| Histories.ForeignHoldOnBinding | controllers/fluentpvcbinding_controller.go:295-309 | no step takes a finalizer other than its own from a binding, nor the binding from under it |
| Histories.OperatorSparesFluentPVCsAndPods | controllers/fluentpvc_controller.go:57-72 | the operator takes no finalizer but its own from a FluentPVC and removes no pod |
| FinalizerChains.BindingOutlivesPVC | controllers/fluentpvcbinding_controller.go:295-309 | a binding without its finalizer has a PVC that is gone or unprotected, unless a list of PVCs was older than the PVC |
| FinalizerChains.ProtectedPVCHasItsBinding | controllers/fluentpvcbinding_controller.go:91-114 | a bound PVC still protected has its binding, protected too |
| FinalizerChains.FinalizerChain | controllers/fluentpvc_controller.go:50-72 | only its controller takes a FluentPVC's finalizer away, and a listed binding it owns has let go by then, its PVC gone or unprotected |
| FreshRuns.FreshReadsSuffice | controllers/fluentpvcbinding_controller.go:48-188 | present reads meet every provision above |
| FreshRuns.MutualExclusion | controllers/pvc_controller.go:97-126 | mutual exclusion with present reads |
| FreshRuns.SucceededExcludesFailed | controllers/fluentpvcbinding_controller.go:444-464 | one outcome with present reads |
| FreshRuns.FreshFinalizerChain | controllers/fluentpvc_controller.go:50-72 | with present reads a FluentPVC loses its finalizer only when every binding it owns has let go and their PVCs are gone or unprotected |
| FreshRuns.MissingPVCWasStripped | controllers/fluentpvcbinding_controller.go:128-157 | with present reads Unknown for want of the PVC means someone else stripped it |
| Reconciles.BindingReconcileIsSteps | controllers/fluentpvcbinding_controller.go:48-188 | a whole reconcile, with stale reads, is its first write and at most two more steps of the protocol |
| Reconciles.PVCReconcileIsSteps | controllers/pvc_controller.go:44-184 | a whole reconcile is a Job write, or a release with or without the deletion, or nothing |
| Reconciles.BindingReconcileFrame | controllers/fluentpvcbinding_controller.go:48-188 | only the binding of the key changes |
| Reconciles.PVCReconcileFrame | controllers/pvc_controller.go:44-184 | only the PVC and the Job of the key change |
| Reconciles.PVCReconcileElsewhere | controllers/pvc_controller.go:107-109 | with unique names, a reconcile of another name shows the reconciles of this one nothing new |
| Reconciles.DecisionsAreLocal | controllers/fluentpvcbinding_controller.go:404-410 | views that agree around a key lead to the same decisions |
| Atomic.BindingReconcileIsFresh | controllers/fluentpvcbinding_controller.go:48-188 | an uninterrupted reconcile is a path of fresh steps of the protocol |
| Atomic.PVCReconcileIsFresh | controllers/pvc_controller.go:44-184 | the same for the PVC controller |
| Atomic.AtomicRunIsFresh | controllers/pvc_controller.go:44-184 | a run of uninterrupted reconciles is, at any two of its moments, a run on present reads |
| Atomic.AtomicMutualExclusion | controllers/pvc_controller.go:97-126 | mutual exclusion in every run of uninterrupted reconciles, then and ever after |
| Atomic.AtomicRunsAreSafe | controllers/fluentpvcbinding_controller.go:295-309 | one outcome, and no binding goes before its PVC, in every run of uninterrupted reconciles |
| Atomic.AtomicFinalizerChain | controllers/fluentpvc_controller.go:50-72 | the chain in every run of uninterrupted reconciles: a FluentPVC loses its finalizer only when every binding it owns has let go and their PVCs are gone or unprotected |
| Convergence.RoundAdvances | controllers/fluentpvcbinding_controller.go:91-185 | a round in which each controller has a turn shrinks the measure, in any order, whatever finalizers others keep on the PVC, and whatever else happens that spares the binding |
| Convergence.Converges | controllers/fluentpvcbinding_controller.go:91-185 | as many fair rounds as the measure says end with PVC and binding gone |
| Outcomes.UnknownStays | controllers/fluentpvcbinding_controller.go:70-73 | no move takes a binding out of Unknown |
| Outcomes.FailingStays | controllers/pvc_controller.go:162-165 | a failed Job that stays keeps its binding where it is |
| Outcomes.ConvergesIff | controllers/fluentpvcbinding_controller.go:91-185 | thirteen fair rounds end with PVC and binding gone iff the binding is neither Unknown nor held up by a failed Job |
| Outcomes.NotStrippedIsAccounted | controllers/pvc_controller.go:70-183 | a PVC that nobody stripped is protected, or its binding is PodMissing or Succeeded |
| Outcomes.RunsConverge | controllers/pvc_controller.go:70-183 | the same from every state of every run in which Jobs were judged by present reads, all other reads being stale |
| Outcomes.AtomicRunsConverge | controllers/pvc_controller.go:70-183 | the same from every reachable state of every run of uninterrupted reconciles |
| Surroundings.ApartIsSpared | controllers/fluentpvcbinding_controller.go:404-410 | every action of the protocol on other names, other pods, PVCs and Jobs, and on FluentPVCs but the deletion of its own, spares a binding |
| Schedules.ReleasedUnderARunningPod | controllers/fluentpvcbinding_controller.go:159-166 | a run with PodMissing and Ready that releases the PVC under a running pod without any Job |
| Schedules.UnknownBesideItsPVC | controllers/fluentpvcbinding_controller.go:145-149 | a run with one old list of PVCs that makes a binding Unknown beside its untouched PVC |
| Schedules.JobBesideARunningPod | controllers/fluentpvcbinding_controller.go:132-139 | a run with one old list of pods that applies the Job beside the running pod |
| Schedules.SucceededAndFailed | controllers/pvc_controller.go:106-126 | a run with one stale binding that records both outcomes |
| DeadEnds.DeadEndsStay | controllers/pvc_controller.go:154-165 | both outcomes recorded, binding gone before its PVC, FluentPVC gone: no sequence of reconciles leads on |
| DeadEnds.BothOutcomesForever | controllers/fluentpvcbinding_controller.go:106-110 | the run to both outcomes, and nothing leads on from it |
| DeadEnds.OrphanedForever | controllers/fluentpvcbinding_controller.go:59-61 | a run to a protected binding whose FluentPVC is gone for good |
| DeadEnds.LeftBehindForever | controllers/pvc_controller.go:59-62 | a run in which the release is not followed by its deletion, and the PVC stays |
| DeadEnds.DroppedBeforeItsPVC | controllers/fluentpvcbinding_controller.go:91-97 | a run with one old list of PVCs in which the binding goes while its PVC is protected, and the PVC stays |
| DeadEnds.UnguardedTooEarly | controllers/fluentpvc_controller.go:46-69 | a run with one old list of bindings in which a FluentPVC loses its finalizer under a protected binding |
| DeadEnds.NamesakesJobReleasesThePVC | controllers/fluentpvcbinding_controller.go:407-410 | a complete Job of the same owner name in another namespace releases the PVC within two reconciles |
| DeadEnds.StrangersJobBlocks | controllers/pvc_controller.go:122-151 | an unowned Job of the binding's name makes the PVC reconcile fail and change nothing |
| WebhookAgreement.EmittedPodCanFill | controllers/fluentpvcbinding_controller.go:265-287 | every pod the webhook emits passes the volume and label checks for its own binding |
| WebhookAgreement.AdmittedBinding | webhooks/pod_webhook.go:77-107 | an admission succeeds iff both names are free; PVC and binding are then created protected, bound by name and UID, controlled by the FluentPVC, and nothing else changes |
| WebhookAgreement.AdmissionIsSteps | webhooks/pod_webhook.go:75-107 | a call to the webhook is the protocol's two creations, the second only after the first |
| WebhookAgreement.AdmittedPodGetsBound | controllers/fluentpvcbinding_controller.go:190-229 | the next reconcile after the pod appears records exactly that pod |

## Left out

- BindingController.FluentPVCBindingReconciler.Reconcile: status.phase is computed on the copy a controller edits
  (`Client.FluentPVCBinding.SetCondition`) but is not part of the stored binding: no controller reads it, and
  which phase an unstable sort leaves is not determined.
- One reconcile reads every table once, and the PVC controller the Jobs twice; in the protocol every table of a
  step may come from a different past state, but the reads of one reconcile are not spread over several steps.
- The second write of a reconcile (a deletion with UID and resourceVersion) is not an action of its own in the
  protocol: `DeletePVC` and `DeleteBinding` may happen at any time and cover it, as `Reconciles` shows.
- Convergence grants that the pod is over, the FluentPVC present, the binding held by no finalizer but its own,
  the Job at the binding's key its own and not being deleted (`Outcomes.Undisturbed`), and that foreign
  finalizers are lifted from a PVC that is being deleted.
- Selectors given in the Job template: the server's own selector stands for them.
- Generated names and hashes (`ComputeHash`, random suffix): replaced by a new name per webhook call.
- A binding without a controller reference makes the PVC controller dereference nil
  (controllers/pvc_controller.go:119); the model answers with an error. No reachable binding is in that state.
- Users creating or editing bindings, and other finalizers on bindings, FluentPVCs and Jobs.
- The FluentPVC validator and the pod validator, JSON decoding and patch responses.
- Manager wiring, field indexes as data structures, leader election, event predicates, requeue delays, paging
  and the ticker of the binding watcher: any key may be reconciled at any time.
- Messages of conditions, logging, pod and PVC specifications beyond name, image, mounts, environment and
  volumes; init containers are untouched by the code.
