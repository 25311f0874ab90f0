# Meteor operator: a verified model

The Meteor operator turns custom resources into builds on a Kubernetes cluster. This project models its
three controllers as step-level protocols against an API server that can refuse calls, lose answers and
serve stale reads, and proves what every run of them keeps.

* **Meteor** (`MeteorApi`, `Cluster`, `MeteorPass`, `MeteorController`). A pass reads a Meteor, computes
  its phase and expiry, may delete it, adds or removes the finalizer, creates and records one Coma for
  each external namespace, drives one Tekton run for each listed pipeline, and writes the status back.
* **CustomRuntimeEnvironment** (`CreApi`, `CreNames`, `CreCluster`, `CrePass`, `CreController`). A pass
  names and creates the Tekton run of one generation and folds what Tekton says into conditions.
* **Shower** (`ShowerPass`, `ShowerController`). A pass runs an unbounded list of create-or-update
  actions, two of them for each external namespace.

Shared vocabulary (conditions, API results, phases) is in `Kube`.

## How to read the model

The API server is a value (`World`, `CreWorld`, `Store`). Every client call first consumes a plan: the
events other parties cause before the call (users, Tekton, other controllers, the clock) and what becomes
of the call (it works, it fails without effect, it takes effect but the answer is lost, a read returns any
version ever stored or misses the object, the operator crashes). A pass is thus a function of the starting
state and a script of plans, and a theorem about all scripts is a theorem about all interleavings and all
faults. Nothing is assumed about scripts unless a theorem says so: `QuietScript` means no faults and no
interference, `MeteorProgress.Assumed` and `CreProgress.TameJobs` name the restrictions of single
theorems. What a pass has read (`Seen`, `CreSys.seen`) and what landed with its status write (`landed`) are
kept as history only.

The controllers themselves are classes whose methods overwrite their fields step by step, as the
source does, with loops and early returns. Each method is proved equal to a specification function of the
same name in the `Pass` module; the theorems are proved about these functions. What they say is in terms of
what is stored, logged or answered: names, fields and references are spelled out, not taken from the functions.

No proof relies on automatic induction: lemmas that it would apply to carry `{:induction false}`.

Writes are optimistic: `Update` and `Status().Update` commit only when the resource version matches;
`Delete` marks an object that has finalizers and removes one that has none; `Create` refuses existing
keys and hands out fresh UIDs. Every change of the store is logged with its cause.

### Assumptions about libraries and other systems

* `meta.SetStatusCondition` replaces the condition of the same type in place, else appends;
  `meta.RemoveStatusCondition` drops every condition of the type (`Kube`).
* `strings.Title` is modelled on ASCII, with `-` a word separator.
* `Update` leaves the in-memory status alone; it refreshes the resource version only.
* Others may edit finalizers, but not the operator's own, and may add none during deletion. Comas have no
  finalizers. A Meteor may be deleted and created anew under the same name.
* Tekton: a run with a completion time has at least one condition; for a Meteor's runs, completion and its
  reason are permanent.
* A Coma that was just created may or may not come back with an API version (`processed`).
* The API server accepts every well-formed Shower object; refusing to change an immutable field counts as
  a fault.

### Where the code departs from what it seems to intend

The model follows the code. The theorems then say exactly when the evident intention is met:

* With several Showers, the address of the loop variable is stored, so any match selects the last Shower
  (`MeteorPass.PickedShowerMatchesIff`). A Shower that was never found ends the process.
* A recorded Coma that is already gone counts as a failure, so a half-done deletion never completes
  (`MeteorLiveness.DeletionPassCompletesIff`, `MeteorLiveness.StuckDeletionStaysStuck`,
  `MeteorWitness.LostAnswerSticks`).
* The owner of a Coma is written once for each pass and namespace served, and a failed write is ignored, so a
  recorded Coma may stay without an owner (`MeteorOwners.ComaIsOwnedIff`, `MeteorWitness.RecordedComaWithoutOwner`).
* A time to live that is lifted leaves its expiry in the status (`MeteorRequests.StatusTellsExpiry`).
* Delete names no version, so a stale read may remove a Meteor whose TTL was extended meanwhile
  (`MeteorSafety.DeletionHitsExpiredIff`, `MeteorWitness.DeletionHitsUnexpired`).
* The phase is computed before the conditions of the same write, so a stored Succeeded may stand beside a
  condition that is not accepted (`MeteorProgress.SucceededWriteAgreesIff`,
  `MeteorWitness.SucceededBesideFailure`).
* Run names carry no UID, so a Meteor made anew takes over the runs of its predecessor and may claim
  Succeeded before each of its pipelines has run (`MeteorWitness.SucceededOverOldRun`).
* The controller puts a run among the succeeded ones for the reason `Succeeded` only, the phase also
  accepts `Completed`; hence the results on the phase do not speak of stage lists.
* `ReconcileComas` may return after creating a Coma and before recording it, so the no-leak theorem
  speaks of recorded Comas.
* A stale read may find a completed run unfinished and list it twice (`MeteorStages.StageListsPartitionIff`,
  `MeteorWitness.StaleReadListsTwice`).
* The created condition of a CustomRuntimeEnvironment is set even when the create failed; a git repository
  has no success condition (`CreWitness.GitSuccessStoredAsFailed`); a success of another build type lingers
  (`CreWitness.FailedBuildStoredAsSucceeded`, `CreHistory.PhaseAgreesIff`); its result is never ready.
* The Route's drift test lacks a negation and writes into maps that may be nil
  (`ShowerConverges.GoalSatisfiedIff`, `ShowerConverges.PassConverges`); the Deployment is always written.

## Model

| member | source | states |
|---|---|---|
| MeteorController.MeteorReconciler.Reconcile | controllers/meteor/meteor_controller.go:70-124 | The whole pass, with its early returns and the two status writes, has the effect and the outcome of the specified pass; gauge, kept Shower and in-memory Meteor included. |
| MeteorController.MeteorReconciler.Proceed | controllers/meteor/meteor_controller.go:95-123 | From the expiry check on: delete, finalizers, Comas, pipelines in order, one status write; a nil Shower ends the process. |
| MeteorController.MeteorReconciler.UpdateStatusNow | controllers/meteor/meteor_controller.go:127-134 | A failed status write asks for a requeue and swallows the original error; a successful one refreshes the in-memory Meteor. |
| MeteorController.MeteorReconciler.SetPipelineCondition | controllers/meteor/meteor_controller.go:137-145 | Sets the condition of a pipeline under its titled type and nothing else. |
| MeteorController.MeteorReconciler.FindOwnerShower | controllers/meteor/meteor_controller.go:195-232 | The loop over Showers with its shared loop variable picks what the specification says; no match keeps the previous Shower. |
| MeteorController.MeteorReconciler.EnsureFinalizers | controllers/meteor/meteor_controller.go:147-176 | Adds the finalizer to a living Meteor, tears down the Comas of a dying one before giving it up; an in-memory edit stays when the write fails. |
| MeteorController.MeteorReconciler.ReconcileComas | controllers/meteor/coma_reconciler.go:14-60 | The service loop: skip blanks, get or create, stop at an unprocessed Coma, record, write the owner. |
| MeteorController.MeteorReconciler.DeleteComas | controllers/meteor/coma_reconciler.go:62-75 | Deletes the recorded Comas in order up to the first failure. |
| MeteorController.MeteorReconciler.StatusIndex | controllers/meteor/pipelinerun_reconciler.go:36-49 | Finds the result of a pipeline or appends a fresh one. |
| MeteorController.MeteorReconciler.ReconcilePipelineRun | controllers/meteor/pipelinerun_reconciler.go:25-194 | Get, create or observe one run, with every error branch, as specified. |
| MeteorController.ContainsString | controllers/meteor/meteor_controller.go:178-185 | The loop finds exactly membership. |
| MeteorController.ContainsComa | controllers/meteor/coma_reconciler.go:77-84 | The loop finds a reference with the same namespace, name and UID. |
| MeteorController.AppendUniqueTo | controllers/meteor/pipelinerun_reconciler.go:210-217 | Appends only what is not there. |
| MeteorController.RemoveFrom | controllers/meteor/pipelinerun_reconciler.go:219-226 | Drops the first occurrence and keeps the rest in order. |
| MeteorApi.ScanIsDecidedByEarliest | api/v1alpha1/meteor_types.go:154-172 | The earliest condition that is not accepted alone decides between Failed and Building. |
| MeteorApi.SucceededIffAllAccepted | api/v1alpha1/meteor_types.go:149-173 | Succeeded is claimed exactly for a non-empty list of accepted conditions. |
| MeteorApi.SucceededIgnoresOrder | api/v1alpha1/meteor_types.go:149-173 | The Succeeded verdict does not depend on order or repetition of conditions. |
| MeteorApi.ExpirationExactIff | api/v1alpha1/meteor_types.go:144-146 | With 64-bit wrap-around, expiry is creation plus TTL seconds exactly for TTLs up to 9223372036 in magnitude. |
| MeteorApi.NextTTLWrapsBeforeCreation | api/v1alpha1/meteor_types.go:133-146 | The bound is tight: the next TTL expires before the Meteor was created. |
| MeteorApi.TTLReachedMeaning | api/v1alpha1/meteor_types.go:133-138 | For exact TTLs, expiry means that more than TTL seconds have passed; once reached, it stays reached. |
| MeteorApi.CondKindInjective | controllers/meteor/meteor_controller.go:137-145 | Lower-case pipelines never share a condition type. |
| MeteorApi.CondKindSpelling | controllers/meteor/meteor_controller.go:137-145 | A condition type is `PipelineRun` and the pipeline name with every letter at its start or after a separator in upper case. |
| MeteorApi.RunNameInjective | controllers/meteor/pipelinerun_reconciler.go:27-28 | Pipelines of one Meteor never share a run name. |
| MeteorApi.RemoveMeaning | controllers/meteor/pipelinerun_reconciler.go:219-226 | On a list without repetition, removal takes out exactly the element. |
| MeteorPass.PickedShowerMatchesIff | controllers/meteor/meteor_controller.go:213-223 | Among several Showers with a match, the matching one is picked exactly when it comes last. |
| MeteorWitness.WrongShowerPicked | controllers/meteor/meteor_controller.go:214-223 | Two Showers of which the selected one is passed over. |
| MeteorSafety.NoRecordedComaOutlivesItsMeteor | controllers/meteor/coma_reconciler.go:62-75 | In every state of every run, a Coma that was ever on a stored list and still exists belongs to a stored Meteor that lists it and holds the finalizer. |
| MeteorSafety.FinalizerGoesLast | controllers/meteor/meteor_controller.go:160-173 | The finalizer is given up only when every Coma on the stored list is gone. |
| MeteorSafety.FinalizerBeforeComa | controllers/meteor/meteor_controller.go:104-115 | Every Coma is created under the Meteor's name in a real namespace, behind a committed, undeleted version with the finalizer. |
| MeteorSafety.StoredStatusesAreSound | controllers/meteor/coma_reconciler.go:44-51 | In every version ever stored: the Coma list grows while the Meteor lives, repeats nothing and names only this Meteor's Comas; results are unique, carry their own run name, and are ready exactly when listed as succeeded; condition types and stage lists have no repetition. |
| MeteorSafety.DeletionHitsExpiredIff | controllers/meteor/meteor_controller.go:95-102 | The operator deletes on a stored version that had a TTL, had expired and was not being deleted. The Meteor it hits is expired too whenever UID and TTL are still those of that version, in particular when its resource version is; so an unexpired one (TTL zero or not yet passed, by definition) is hit only after UID or TTL has changed. |
| MeteorSafety.UnexpiredHitWasExtended | controllers/meteor/meteor_controller.go:95-102 | For one incarnation and exact TTLs: the Meteor hit is unexpired exactly when its TTL was lifted, or extended beyond the one read and not yet used up. |
| MeteorWitness.DeletionHitsUnexpired | controllers/meteor/meteor_controller.go:95-102 | A run in which the operator removes a live, unexpired Meteor: its TTL is extended after expiry, and the read is stale. |
| MeteorSafety.TraceIsComplete | controllers/meteor/meteor_controller.go:70-124 | The logged changes form an unbroken chain from the initial to the final store, so statements about the trace are about every state. |
| MeteorRequests.UpdateTouchesOwnFinalizerOnly | controllers/meteor/meteor_controller.go:147-176 | Every update of every run: a living Meteor keeps its finalizers and gets the operator's behind them; a dying one loses that one only, and goes exactly when it held no other; specification, selector and status stay. |
| MeteorRequests.OwnerIsTheMeteor | controllers/meteor/coma_reconciler.go:53-57 | Every owner written to a Coma, in every run: namespace and name of the Meteor, UID of a committed, undeleted version with the finalizer, controller flag set; nothing else changes. |
| MeteorRequests.RunAsksForTheMeteor | controllers/meteor/pipelinerun_reconciler.go:51-158 | Every run created, in every run of the operator: stored under `<Meteor>-<pipeline>`, for a pipeline, url and ref of one committed version; owned by the Meteor's Comas and then the Meteor, not as controller; services of a Shower that had been listed, and its persistent host exactly when there is one and no time to live. |
| MeteorRequests.StatusTellsExpiry | controllers/meteor/meteor_controller.go:83-88 | Every status write: only the status changes; it names the stored generation and, with a time to live, the moment from which the stored Meteor counts as expired; without one the old expiry stays. |
| MeteorStatusLemmas.ResultsHaveOwnRuns | controllers/meteor/pipelinerun_reconciler.go:36-49 | No two results of one Meteor share a run. |
| MeteorStatusLemmas.ObserveSound | controllers/meteor/pipelinerun_reconciler.go:169-192 | Finding a run, in whatever state, keeps results, Ready flags and stage lists in step. |
| MeteorLiveness.TeardownCompletesIff | controllers/meteor/coma_reconciler.go:62-75 | Without faults the teardown loop ends well exactly when the listed keys are distinct and all present, and then removes those Comas and nothing else. |
| MeteorLiveness.DeletionPassCompletesIff | controllers/meteor/meteor_controller.go:160-173 | A fault-free deletion pass gives up the finalizer exactly when the recorded Comas are distinct and all present. |
| MeteorLiveness.StuckDeletionStaysStuck | controllers/meteor/coma_reconciler.go:69-72 | Otherwise no number of fault-free passes ever completes the deletion. |
| MeteorWitness.LostAnswerSticks | controllers/meteor/coma_reconciler.go:69-72 | A run in which one lost answer during teardown leaves the deletion stuck for good. |
| MeteorLiveness.ExpiredIsGoneAfterTwoPasses | controllers/meteor/meteor_controller.go:95-111 | With any finalizers: after two fault-free passes an expired Meteor is gone exactly when it had no finalizer but the operator's and, if it had that, its recorded Comas were distinct and present. Such Comas are gone, and the operator's finalizer given up, even when others still hold the Meteor. |
| MeteorLiveness.SetupLoop | controllers/meteor/coma_reconciler.go:14-60 | One fault-free run of the service loop lists a Coma for every namespace or creates one that was missing. |
| MeteorLiveness.SetupPass | controllers/meteor/meteor_controller.go:104-123 | With whatever Shower is picked, one fault-free pass completes the set-up or creates a missing Coma, and loses nothing that is listed. |
| MeteorLiveness.SetupTerminates | controllers/meteor/coma_reconciler.go:14-60 | With m Comas missing, m + 1 fault-free passes leave every external namespace with a recorded Coma, for any service list with repeats and blanks. |
| MeteorOwners.ComaIsOwnedIff | controllers/meteor/coma_reconciler.go:14-60 | After a fault-free pass that had no Coma to create, a Coma carries the stored Meteor as owner exactly when the Shower serves its namespace or it did before; and a listed pipeline has a run exactly when one was there or a Coma is recorded. |
| MeteorOwners.EverythingIsHandedOver | controllers/meteor/coma_reconciler.go:14-60 | With m Comas missing, m + 1 fault-free passes leave in every external namespace a recorded Coma that carries the Meteor as owner, and a run for every listed pipeline if there is any such namespace. |
| MeteorWitness.RecordedComaWithoutOwner | controllers/meteor/coma_reconciler.go:49-57 | A run after which a recorded Coma has no owner: the write failed, and the Shower no longer serves its namespace when the next pass is fault-free. |
| MeteorOutcomes.NoStatusIsLostInSilence | controllers/meteor/meteor_controller.go:70-134 | In any run: a pass content to be called later has stored exactly what it holds; one that asks for nothing found no Meteor, died, holds a dying one, or has just deleted it; otherwise it asks to be repeated or reports an error. |
| MeteorOutcomes.ProceedAnswers | controllers/meteor/meteor_controller.go:95-134 | Past expiry and finalizers, an error is reported only together with a status that landed; a refused status write swallows it. |
| MeteorOutcomes.AnswerTellsOfTheRuns | controllers/meteor/pipelinerun_reconciler.go:51-165 | Under any faults: without an error every listed pipeline's run was read, in order; with one, the pass stopped at the first run it could not read or create, and the status says so, or it read none. |
| MeteorWitness.RefusedComaStopsThePass | controllers/meteor/coma_reconciler.go:24-37 | A run in which a Coma cannot be created: no run is created, and the error is reported with the status written. |
| MeteorOutcomes.ShowerOfAPass | controllers/meteor/meteor_controller.go:211-225 | A single Shower is taken whatever the Meteor selects; among several a match brings in the last; otherwise the Shower of an earlier pass stays. |
| MeteorOutcomes.NoShowerIsOnRecord | controllers/meteor/meteor_controller.go:90-92 | If no Shower is listed, or several without a match and none is kept, the first change of a fault-free pass is to write the refreshed status, even when it goes on with a Shower kept from before. |
| MeteorOutcomes.PassWithoutShower | controllers/meteor/meteor_controller.go:90-113 | Without any Shower, now or before, a fault-free pass writes the refreshed status, sets the finalizer, and ends the process before any Coma or run. |
| MeteorGauge.PassLightsOne | controllers/common/metrics.go:51-67 | The two gauge calls of a pass with a current read leave at most one label lit, and if the Meteor was read exactly the aggregate of what was read, even when every write of the pass is lost. |
| MeteorGauge.ExactlyOnePhaseIsLit | controllers/meteor/meteor_controller.go:82-93 | For one incarnation with current reads, exactly one phase label is lit after every pass that read the Meteor, whichever status writes are lost. |
| MeteorProgress.CoveredAndGroundedMeansReported | api/v1alpha1/meteor_types.go:149-173 | The invariant of the stored status: an all-accepted list has a condition for every pipeline, each going back to a report of Tekton; so Succeeded is earned. |
| MeteorTally.TallyDecides | controllers/meteor/pipelinerun_reconciler.go:51-175 | While a pass over an all-accepted list reads its runs, the conditions stay all accepted exactly when each run's last telling read was good. |
| MeteorTally.PipelinesTally | controllers/meteor/meteor_controller.go:117-121 | The loop over pipelines keeps that tally: its reads are those of the first listed pipelines, in order. |
| MeteorProgress.PassKeepsEvidence | controllers/meteor/meteor_controller.go:113-123 | A pass that lands its write whenever it created a run keeps that invariant, and every state and status write inside it is honest. |
| MeteorProgress.SucceededIsNeverEarly | controllers/meteor/pipelinerun_reconciler.go:51-175 | Assuming lower-case pipelines that stay while a Meteor lives, runs made by the operator only, no status write lost after a create, and a Meteor made anew only when no run of its pipelines is on record: in every state, a stored Succeeded goes back to a committed version whose conditions were all accepted, with one of its own for every listed pipeline; every listed pipeline still has its own condition; and Tekton has reported success for each. |
| MeteorWitness.SucceededOverOldRun | controllers/meteor/pipelinerun_reconciler.go:51-57 | Why the last assumption is there: a run in which a Meteor made anew finds the old run of its first pipeline and stores Succeeded, while its second pipeline has no condition and never had a run. |
| MeteorProgress.SucceededWriteAgreesIff | controllers/meteor/meteor_controller.go:83-123 | Every status write that claims Succeeded was made from such a version, the one its pass had read; the conditions beside the phase are still all accepted exactly when each run's last telling read was good, which without repeated pipelines means that every run read of the pass found a run that has no condition or says success. |
| MeteorWitness.SucceededBesideFailure | controllers/meteor/pipelinerun_reconciler.go:163-167 | A run within those assumptions in which one failed read stores Succeeded beside a False condition for the only pipeline. |
| MeteorReads.PlacingFits | controllers/meteor/pipelinerun_reconciler.go:177-192 | Placing what one more read found keeps the lists in step with the history of reads: ever won, ever lost, last at work. |
| MeteorStages.StageListsTellTheReads | controllers/meteor/pipelinerun_reconciler.go:177-192 | In every run, under stale reads, deleted runs and re-created Meteors: the stored lists are free of repetition; Succeeded holds exactly the runs a landed pass ever found won, Failed those ever found lost, Running those found at work when last found. |
| MeteorStages.ResultsTellTheReads | controllers/meteor/pipelinerun_reconciler.go:36-49 | In every run: one result for each run ever looked for, under its pipeline; ready exactly when a landed pass ever found the run won, its url the first result of the run as it was when last found won with a text. |
| MeteorReads.PartitionIffAgreed | controllers/meteor/pipelinerun_reconciler.go:177-192 | Lists that grow out of a history partition its runs by their latest observation exactly when every completion observed is what its run was found as last; being disjoint takes no less. |
| MeteorReads.AlwaysAgreedIff | controllers/meteor/pipelinerun_reconciler.go:177-192 | That holds at every point of a history exactly when no observation contradicts an earlier completion. |
| MeteorReads.ContradictionMayHeal | controllers/meteor/pipelinerun_reconciler.go:177-192 | A history with a contradiction whose lists are disjoint again at the end, but were not on the way. |
| MeteorStages.StageListsPartitionIff | controllers/meteor/pipelinerun_reconciler.go:177-192 | The stored lists partition the runs by their latest landed observation exactly when the landed reads agree in that sense; in particular when no landed observation contradicts an earlier landed completion. |
| MeteorReads.InOrderIsUncontradicted | controllers/meteor/pipelinerun_reconciler.go:51-192 | By Tekton's promise, reads of one run object that never go back to an older version never contradict a completion. |
| MeteorStages.ReadsInOrderPartition | controllers/meteor/pipelinerun_reconciler.go:177-192 | So the stored lists partition the runs as long as landed reads of each run never go back and find the same run object; they may lag, and runs may be deleted. |
| MeteorWitness.StaleReadListsTwice | controllers/meteor/pipelinerun_reconciler.go:177-192 | A run in which one stale read lists a run both as running and as succeeded. |
| MeteorFixpoint.ObserveAllTwice | controllers/meteor/pipelinerun_reconciler.go:169-192 | Observing the same runs a second time changes no condition, result or stage list, even when pipelines share a condition type. |
| MeteorFixpoint.SetUpPass | controllers/meteor/meteor_controller.go:113-123 | With whatever Shower is picked, a fault-free pass over a Meteor that is set up observes every run and changes nothing but the status. |
| MeteorFixpoint.StatusReachesFixpoint | controllers/meteor/meteor_controller.go:83-123 | Two such passes reach a status that no later one changes, and its phase is the aggregate of its own conditions. |
| MeteorFixpoint.SettledPhaseIsExact | controllers/meteor/meteor_controller.go:83-123 | Once all is set up, with lower-case pipelines, two fault-free passes make the stored phase Succeeded if and only if every listed pipeline's run that has a condition says success, every other stored condition is accepted, leftovers of pipelines no longer listed included, and there is any condition to go by. |
| MeteorFixpoint.AllWellOfListed | api/v1alpha1/meteor_types.go:149-173 | With a condition on every run and no leftovers, that comes down to every listed pipeline's run saying success. |
| Kube.LookupAfterSet | controllers/meteor/meteor_controller.go:137-145 | Assumed library operation: setting a condition is a map update on condition types. |
| Kube.SetAllTwice | controllers/meteor/meteor_controller.go:137-145 | Setting the same conditions again changes nothing, even when several share a type. |
| CreController.CustomRuntimeEnvironment.AggregatePhase | api/v1alpha1/customruntimeenvironment_types.go:151-204 | The loop with four flags and two early returns computes the declarative table of priorities. |
| CreController.CustomRuntimeEnvironment.BuildRunParams | controllers/cre/controller.go:143-233 | The appended parameter list is the specified one for each build type. |
| CreController.CreReconciler.Reconcile | controllers/cre/controller.go:55-88 | The whole pass: skip when deleting, aggregate, reconcile the run, aggregate again, one status write. |
| CreController.CreReconciler.ReconcilePipelineRun | controllers/cre/controller.go:102-373 | Get or create the run of this generation and edit the conditions, one library call after the other; the code after the early return is proved unreachable. |
| CreController.CreReconciler.EnsureResult | controllers/cre/controller.go:123-136 | Appends the result of the resource unless it is there. |
| CreController.CreReconciler.ReadRun | controllers/cre/controller.go:286-353 | The conclusions drawn from the first condition of the run, for both outcomes and all pipelines. |
| CreApi.PhaseIgnoresOrder | api/v1alpha1/customruntimeenvironment_types.go:151-204 | Any reordering or repetition of conditions leaves the phase alone. |
| CreApi.ValidateAnnotation | api/v1alpha1/customruntimeenvironment_webhook.go:107-117 | Reports an annotation exactly when it is missing. |
| CreApi.ValidatePackageList | api/v1alpha1/customruntimeenvironment_webhook.go:119-139 | Which rule of a package list is reported, and when. |
| CreApi.Validate | api/v1alpha1/customruntimeenvironment_webhook.go:79-105 | A resource is admitted exactly when it meets every rule; each missing annotation is reported. |
| CreApi.ParamNamesUnique | controllers/cre/controller.go:143-233 | No run is ever given a parameter twice. |
| CreApi.PackageParamsCompleteIff | controllers/cre/controller.go:177-218 | A package-list run has complete parameters exactly when there are packages and a base image or a whole runtime. |
| CreApi.AdmittedPackageListIsComplete | api/v1alpha1/customruntimeenvironment_webhook.go:119-139 | Every admitted package list yields unique names, a non-empty package array, and a base image or all three runtime fields, never a mixture. |
| CreNames.DecimalReadsBack | controllers/cre/controller.go:113-113 | Printed generations are canonical and read back. |
| CreNames.PrintedRunReadsBack | controllers/cre/controller.go:104-119 | Parsing undoes printing of run names, for all names, generations and build types. |
| CreNames.ParsedRunPrintsBack | controllers/cre/controller.go:104-119 | Printing undoes parsing: nothing but a printed name parses. |
| CreNames.RunNamesAreDistinct | controllers/cre/controller.go:104-119 | Two resources, generations or build types never share a run name. |
| CreHistory.FoldReadsAsHistory | controllers/cre/controller.go:247-353 | Condition types stay unique and each reads as its part of the history: created while a create attempt is newer than every terminal observation, completed once a run was seen finished, the two readiness conditions as the last outcome of their pipeline. |
| CreHistory.PhaseOfHistory | api/v1alpha1/customruntimeenvironment_types.go:151-204 | The phase of any history, from failed creates down to outcomes. |
| CreHistory.CreateErrorIsForever | controllers/cre/controller.go:247-258 | A stored create error makes every later phase Failed. |
| CreHistory.PhaseAgreesIff | controllers/cre/controller.go:287-353 | Without create errors, the phase is that of the simple outcome machine exactly when no success of another build type lingers over it and a success has a readiness condition. |
| CreHistory.OneBuildTypeRefinesMachine | controllers/cre/controller.go:287-353 | With one build type that has a readiness condition the phase is that of the machine, and Running exactly while a create is pending. |
| CreHistory.GitSuccessShowsFailed | controllers/cre/controller.go:316-316 | The history of a git repository build that succeeds is reported as Failed. |
| CreHistory.FailureHidesBehindOtherBuildType | api/v1alpha1/customruntimeenvironment_types.go:195-200 | The history of create, won import, create, lost package list is reported as Succeeded. |
| CreWitness.GitSuccessStoredAsFailed | controllers/cre/controller.go:287-316 | A fault-free run from an empty cluster: an admitted git repository whose only run succeeds, seen by the pass that stores Failed. |
| CreWitness.FailedBuildStoredAsSucceeded | api/v1alpha1/customruntimeenvironment_types.go:195-200 | A fault-free run from an empty cluster: an admitted import that worked is edited into an admitted package list whose run fails, seen by the pass that stores Succeeded. |
| CreSafety.MatchMeansStored | controllers/cre/controller.go:86-86 | A status write whose resource version matches was made from the version that is stored. |
| CreSafety.CommitSound | controllers/cre/controller.go:74-86 | Such a write extends the history of the resource by what its pass learnt, and keeps every stored status the fold of its history. |
| CreSafety.ConditionsAreHistory | controllers/cre/controller.go:247-353 | In every reachable state, stored conditions are exactly the fold of the landed observations, whatever was stale, refused, lost or deleted; the phase is the aggregate of the resource's own conditions after one landed pass; the one result is never ready. |
| CreRequests.StoredRunsAskForAVersion | controllers/cre/controller.go:104-233 | With runs made by the operator only, every stored run carries name, generation and build type of one committed version, and exactly its values: the image to import; repository and ref; base image or each runtime field, with the packages; the three annotations. |
| CreRequests.ResultsNameOwnRuns | controllers/cre/controller.go:123-136 | The one result names the resource and the run of a version it had. |
| CreRequests.QuietAnswerMeansWritten | controllers/cre/controller.go:55-88 | In any run: no error means that the version read is stored with its generation observed and the phase of its own conditions, or that there was nothing to work on; a resource gone or being deleted is left alone. |
| CreProgress.AtMostOneRunEach | controllers/cre/controller.go:138-247 | With runs made by the operator only, every run is stored under the name of its resource, generation and build type, and at most one exists for each at a time, stale reads notwithstanding. |
| CreProgress.PhaseRefinesMachine | controllers/cre/controller.go:287-353 | With a fixed build type of import or package list and no stored create error, the stored phase is that of the outcome machine, across generations, run deletions, stale reads and lost writes. |
| ShowerController.ShowerReconciler.Reconcile | controllers/shower/shower_controller.go:76-130 | The whole pass: prepare the status, run the action list with early exit, write the status. |
| ShowerController.ShowerReconciler.BuildActions | controllers/shower/shower_controller.go:102-121 | The list grows by a role and a binding for each non-empty external namespace. |
| ShowerController.ShowerReconciler.UpdateStatusNow | controllers/shower/shower_controller.go:144-155 | A failed write asks for a requeue; otherwise the original error is returned. |
| ShowerController.ShowerReconciler.SetCondition | controllers/shower/shower_controller.go:133-141 | Sets the Deployment condition and nothing else. |
| ShowerController.ShowerReconciler.ReconcileRole | controllers/shower/role_reconciler.go:22-60 | Create or update a Role, as the one specified action. |
| ShowerController.ShowerReconciler.ReconcileRolebinding | controllers/shower/rolebinding_reconciler.go:17-58 | Create or update a RoleBinding, as the one specified action. |
| ShowerController.ShowerReconciler.Run | controllers/shower/role_reconciler.go:62-139 | Each action works with its own name, namespace and desired fields. |
| ShowerController.ShowerReconciler.ReconcileDeployment | controllers/shower/deployment_reconciler.go:19-110 | Create or overwrite the Deployment and take the readiness condition from its first Available condition. |
| ShowerController.ShowerReconciler.ReconcileRoute | controllers/shower/route_reconciler.go:18-92 | Create the Route, or merge and write it under the literal drift test, with the nil-map exit and the status address. |
| ShowerController.ShowerReconciler.IsRouteDrifted | controllers/shower/route_reconciler.go:63-68 | Decides the literal drift test, two loops included. |
| ShowerController.ShowerReconciler.WriteRoute | controllers/shower/route_reconciler.go:70-85 | Merges maps and fields into the Route and writes it, unless a map that needs an entry is nil, which ends the process before any call. |
| ShowerController.IsSubset | controllers/shower/route_reconciler.go:94-104 | The loop decides whether every desired entry is present with its value. |
| ShowerController.Merge | controllers/shower/route_reconciler.go:70-75 | Entry by entry, the desired values over the existing ones. |
| ShowerController.ShowerReconciler.ReconcileServiceAccount | controllers/shower/serviceaccount_reconciler.go:16-46 | Create the account when it is missing. |
| ShowerController.ShowerReconciler.ReconcileService | controllers/shower/service_reconciler.go:18-71 | Create or update the Service. |
| ShowerController.ShowerReconciler.ReconcileServiceMonitor | controllers/shower/servicemonitor_reconciler.go:17-68 | Create or update the ServiceMonitor. |
| ShowerConverges.GoalSatisfiedIff | controllers/shower/route_reconciler.go:63-84 | What a successful action makes of its object has all desired fields, unless it is a Route whose target and port have both drifted with all else matching. |
| ShowerConverges.OverlookedRouteStays | controllers/shower/route_reconciler.go:63-68 | A Route that points elsewhere, and still does after a fault-free pass. |
| ShowerConverges.DeadlyRouteEndsProcess | controllers/shower/route_reconciler.go:70-75 | A Route on which a fault-free pass writes into a nil map and ends the process. |
| ShowerConverges.GoalTwice | controllers/shower/deployment_reconciler.go:91-99 | Reaching the goal again changes nothing. |
| ShowerConverges.KeysAreOwn | controllers/shower/rolebinding_reconciler.go:60-111 | No two different actions work on the same object, for any namespaces and names. |
| ShowerConverges.ActOnOwnObject | controllers/shower/role_reconciler.go:22-60 | Whatever the faults, an action changes its own object at most, and only to its goal. |
| ShowerConverges.RunMakesProgress | controllers/shower/shower_controller.go:123-127 | Whatever the faults, actions before the failing one reached their goals, later ones have not been touched, and no later action undoes an earlier one. |
| ShowerConverges.PassConverges | controllers/shower/shower_controller.go:102-129 | From any store, a fault-free pass runs to its end exactly when no nil map is written, and then every managed object has its desired fields, for any list of external services; nobody else's objects change. |
| ShowerConverges.SecondPassChangesNothing | controllers/shower/shower_controller.go:102-129 | A second fault-free pass leaves the contents of the store as they are. |
| ShowerConverges.FailedPassStopsThere | controllers/shower/shower_controller.go:123-127 | A pass that fails at one action leaves every earlier object as a whole pass would and every later object as it was. |
| ShowerObjects.ManagedObjectsExist | controllers/shower/shower_controller.go:102-121 | From any store, a fault-free pass that ends well leaves an object of each of the seven kinds under `meteor-shower-<name>`, Role and RoleBinding `meteor-pipeline-<name>`, and Role and RoleBinding `meteor-external-<namespace>-<name>` in each external namespace; every other key is as it was. |
| ShowerObjects.BindingsGrantExistingRoles | controllers/shower/rolebinding_reconciler.go:60-111 | Then each managed RoleBinding grants the Role of its own namespace and name, which exists with the rules of its purpose, to the Shower's account, which exists, or to the pipelines' account. |
| ShowerObjects.SelectorsMeetTheirPods | controllers/shower/deployment_reconciler.go:26-62 | Then the Deployment runs under the existing account with the wanted image, environment and replicas; Deployment, Service and ServiceMonitor select by exactly the labels of its pods, which name this Shower. |
| ShowerObjects.RouteMeetsTheService | controllers/shower/route_reconciler.go:23-85 | Then the Route serves the wanted host and path from the http port of the existing Service, with all wanted annotations and labels, unless it was overlooked and is as before. |
| ShowerObjects.UnmanagedPartsStay | controllers/shower/route_reconciler.go:70-79 | Objects that were there keep all that the operator does not manage, a Route's other annotations and labels included. |
| ShowerStatus.StatusTellsOfObjects | controllers/shower/shower_controller.go:93-129 | Then the status has the image of the Deployment, the address of the stored Route if it was there before, the generation read, and the Deployment condition of one just created, available, or as before. |
| ShowerStatus.PhaseAfterTwoPasses | api/v1alpha1/shower_types.go:124-138 | The stored phase is one pass behind: after two fault-free passes it is Pending for a Deployment that was missing, Succeeded for one that was available, else what the conditions of before say. |
| ShowerStatus.AnswerTellsOfThePass | controllers/shower/shower_controller.go:123-155 | Under any faults: not asking to be repeated means the status is written for the generation read, and an error, with a later call, is reported exactly when some action was not done. |
| ShowerStatus.NothingToDo | controllers/shower/shower_controller.go:79-91 | A Shower that is gone or being deleted is left alone in silence; one that cannot be read is an error and asks to be repeated. |
| ShowerStatus.RefusedDeploymentIsOnRecord | controllers/shower/deployment_reconciler.go:66-87 | A missing Deployment is on record as created or as refused, according to the answer. |

## Left out

- CreApi.Validate: an absent package list and an empty one are one value, because no reader tells them apart.
- MeteorController.RemoveFrom: works on a value, so the shift inside a shared backing array is not captured; no other slice refers to it.
- ShowerConverges.PassConverges: other parties act between Shower passes, not inside one.
- Condition messages, transition times and observed generations of conditions: no property depends on them.
- Counters and the remaining-time histogram of the metrics, and logging.
- JSON text of owner references and external services: the sequences before serialisation are kept.
- Controller owner references on Meteors, runs and Shower objects, and garbage collection by Kubernetes.
- Workspaces, volumes, resource limits and RBAC verb lists: opaque parts of an object.
- `IsReady` and the pull-secret check of a CustomRuntimeEnvironment: nothing calls them in the modelled code.
- Negative generations, non-ASCII pipeline names, and Meteors or Showers of different names that share a generated name.
- Queueing, watches, retries and real time: a clock value, explicit outcomes and one pass at a time for each controller.
- Manager set-up, flags, schemes, generated deep copies, CRD, pipeline and bundle YAML, and scripts.
