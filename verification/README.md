# kube-llmops: a verified model

kube-llmops runs large language models on Kubernetes. An operator reconciles three kinds of custom resource against
systems that keep state of their own:

- **LLMPlatform** is installed and upgraded as a Helm release.
- **ModelDeployment** becomes a volume claim, a Deployment and a Service, and is registered with the LiteLLM gateway.
- **FineTuneRun** becomes an Argo workflow whose phase it reports.

A command line edits the same objects by get-modify-update. Every reconcile is a series of separate API calls; any of
them can fail, the operator can crash between any two, and users, other controllers, Helm and Argo act in between.

The model has three layers.

1. **Protocols** (`PlatformProtocol`, `ModelDeploymentProtocol`, `ChildrenProtocol`, `FineTuneProtocol`) are state
   machines with one action per API or Helm call and one for everything that can happen between calls: spec edits, other
   writers, deletes, failed calls, crashes, Argo moving on. A run is *any* sequence of actions (an action that is not
   enabled changes nothing), so a statement about `Run(actions)` is about every interleaving. `Kubernetes` says what the
   API server promises: `Update` is a compare-and-swap on resourceVersion, a spec change bumps the generation,
   `Status().Update` touches the status only, an object with a finalizer does not vanish.
2. **Safety and results** (`PlatformSafety`, `PlatformRecovery`, `PlatformResults`, `PlatformValues`,
   `PlatformSessions`, `ModelDeploymentSafety`, `ModelDeploymentResults`, `ChildrenResults`, `ChildrenOutcomes`,
   `FineTuneResults`) prove the invariants of every run and what follows from them; for each reconcile, what it stores
   when nobody interferes is said in the source's own constants. Where a property the code seems to promise fails, a
   lemma gives a failing run and another the exact condition under which it holds: an edit between the first Get and
   the first refetch (`EditInTheWindowIsHidden`, `ReadyDeploysTheFetchedSpec`), a re-creation during a reconcile
   (`ReplacementIsHidden`), a report lost between the two status writes (`LostReport`), a failed query before a Helm
   call (`HelmIsCalledOnSoundReleases`), a failing Uninstall (`FailingUninstallLoops`, `SecondFixExactly`), a failing
   deregistration (`FailedDeregistrationLeaks`, `ReleaseLeaks`), a rename after a crash (`RenameAfterCrashDuplicates`,
   `OrphanIsNeverAdopted`), a recorded workflow submitted again by somebody else (`LifeCycleOnlyAdvances`,
   `TrainingFallsBack`), children the API server refuses (`AdmissionExactly`): for an engine the builders do not know
   (`MixtralIsNeverDeployed`), for a name (`NamesThatAreRefused`, `DottedNamesGetNoService`), for the very platform
   the command line initialises (`CommandLinePlatformBlocks`), and what a failed List then does
   (`FailedListDeploysBare`); an engine change (`ServiceKeepsItsEngine`).
3. **Code** (`PlatformController`, `ModelDeploymentClients`, `ChildrenController`, `FineTuneController`) are the
   reconcilers and commands as imperative classes against an API server between whose calls everybody else acts at
   will. Ghost state ties every call to one protocol step, so each method is proved to be a piece of a protocol run and
   inherits everything the protocol keeps. `faults` counts failed calls and panics: an error is only returned
   after one.

The remaining modules are smaller cores: Helm values, what they say and their migration back (`HelmValues`,
`Translation`, `HelmMeaning`, `Migrate`), the platform update command (`PlatformUpdate`), engine resolution with its two
regular expressions (`EngineResolver`), engine arguments (`EngineArgs`), the model slug (`ModelSlug`), the emitted DAG
(`Workflow`), rule resolution (`RuleResolution`), the interpolated percentile (`Percentile`), conditions (`Conditions`),
the ModelDeployment resource with its webhook (`Api`) and builders (`Builders`), and what the API server asks of what
they build (`Admission`).

Where code and comments disagree the model follows the code: FixStuckRelease's comment speaks of the last good version
(operator/internal/helmbridge/client.go:128), but version 0 is the revision before the current one, whatever became of
it.

`dafny verify dfyconfig.toml` checks everything.

## Model

| member | source | states |
|---|---|---|
| PlatformSafety.RunsKeepInv | operator/internal/controller/llmplatform_controller.go:48-199 | every run keeps: conditions, history, Helm, the accounting of repairs, what a reconcile remembers of the object it fetched and what a stored Ready deploys, whatever happens to the object; and for an object no earlier object's reconcile has written to, what store, in-memory copy and budget of Helm calls say of each other |
| PlatformResults.ReadyIsTruthful | operator/internal/controller/llmplatform_controller.go:53-67 | if no edit lands between a reconcile's first Get and its first refetch and no re-creation during a reconcile, a stored Ready at generation g means the release is deployed with exactly the translation of the spec at g, at the recorded revision, in every interleaving of edits, deletes, conflicts, failures, crashes and repairs |
| PlatformResults.ReadyMeansDeployed | operator/internal/controller/llmplatform_controller.go:104-132 | in every run without exception: a stored Ready means the release is deployed, at the recorded revision, with the translation of the spec that the reporting reconcile fetched, which is that of the stored spec if and only if the two translate alike |
| PlatformResults.ReadyDeploysTheFetchedSpec | operator/internal/controller/llmplatform_controller.go:89-132 | unless the reconcile that reported it had fetched an earlier object: Ready at g means the release carries the spec of the generation first fetched, which is g if and only if no edit fell in the window, and the translation at g if and only if the two specs translate alike; clean reconciles regain it after a stale write |
| PlatformValues.OperatorReadyUpToCanonicalSpecs | operator/internal/helmbridge/values.go:9-147 | with the operator's own translation: under a stored Ready the deployed values are those of the stored spec if and only if it agrees with the fetched one on everything that is written into the values; likewise for the reported generation |
| PlatformResults.SpecsAreTheHistory | operator/internal/controller/llmplatform_controller.go:53-64 | the history the results refer to is real: at any point of an object's life its entry for the current generation is the stored spec |
| PlatformResults.EditInTheWindowIsHidden | operator/internal/controller/llmplatform_controller.go:192-199 | the window condition is needed: one edit between Get and refetch, and Ready is reported for generation 2 while the release carries generation 1, with the guard skipping from then on |
| PlatformResults.ReplacementIsHidden | operator/internal/controller/llmplatform_controller.go:104-132 | so is the other: a delete and re-creation during the install, and Ready at generation 1 is reported on the new object while the release carries the values of the old one, which are the new one's if and only if the two translate alike |
| PlatformResults.SkippedIsFrozen | operator/internal/controller/llmplatform_controller.go:60-64 | once the guard skips, no sequence of reconciles, failures or crashes without an edit or a delete changes status or release |
| PlatformResults.LostReport | operator/internal/controller/llmplatform_controller.go:60-104 | after a reconcile that ended between the two status writes: if the guard lets the object pass, one fault-free reconcile, after a repairing one if the release is pending, brings status and release to the stored spec; if it skips, both stay as they are without an edit; it skips if and only if the object is the fetched one and unedited since |
| PlatformRecovery.FaultFreeConverges | operator/internal/controller/llmplatform_controller.go:48-187 | from any state with an idle reconciler and a stored object whose generation is not observed or whose phase is unset or Failed, whatever state the release is in: one fault-free reconcile, or a repairing one and another, ends Ready at the stored generation and at Helm's revision, with the release deployed with the values of the stored spec |
| PlatformRecovery.GuardLetsPass | operator/internal/controller/llmplatform_controller.go:60-64 | for every stored object: a reconcile goes on if and only if the observed generation differs from the generation or the phase is unset or Failed; otherwise it is done and has changed nothing |
| PlatformRecovery.AnnouncesTheCall | operator/internal/controller/llmplatform_controller.go:84-104 | what is stored when a call begins: Installing if there was no release and Upgrading otherwise, for the fetched generation, the condition False with that reason and the other conditions, revision and spec as they were; the release pending with the new values on top |
| PlatformRecovery.FailureIsReported | operator/internal/controller/llmplatform_controller.go:105-118 | a call that fails is an error and stored as Failed at the fetched generation, the condition False with the reason of the call made, the recorded revision as it was; the release is failed with the tried values on top |
| PlatformRecovery.FailureIsRetried | operator/internal/controller/llmplatform_controller.go:60-132 | from any state: the fault-free reconcile after a failed one ends Ready with the release deployed with the stored spec's values |
| PlatformRecovery.FailedInstallIsRetried | operator/internal/controller/llmplatform_controller.go:48-187 | from creation, for every spec: a first install that fails is reported as Failed, and the next reconcile ends Ready at generation 1 with two revisions of the same values |
| PlatformRecovery.RepairLeaves | operator/internal/helmbridge/client.go:116-140 | a repair leaves nothing of a pending install or of a release with one revision; otherwise a new deployed revision with the values of the one before the current one, the object untouched and the reconcile requeued |
| PlatformRecovery.FailedRollbackUninstalls | operator/internal/helmbridge/client.go:128-138 | a rollback that Helm refuses or that fails in the middle falls back on Uninstall, which leaves no release |
| PlatformRecovery.InterruptedUpgradeIsUndone | operator/internal/helmbridge/client.go:116-140 | an upgrade cut short by a crash is undone: after an edit, the next reconcile deploys again the values that were current when the upgrade began |
| PlatformResults.WaysToLoseTheReport | operator/internal/controller/llmplatform_controller.go:181-184 | a crash, a failed refetch, a failed write and a write that meets somebody else's annotation all end it so |
| PlatformResults.HelmCallsArePaidFor | operator/internal/controller/llmplatform_controller.go:89-118 | installs and upgrades made for an object so far, plus one if its stored phase is Failed, never exceed observedGeneration plus failed Helm calls, over all runs with crashes and lost status writes; observedGeneration never exceeds generation |
| PlatformResults.ObservedGenerationNeverFalls | operator/internal/controller/llmplatform_controller.go:167-184 | no step of any run lowers the stored observedGeneration of an object no earlier object's reconcile has written to |
| PlatformResults.HelmIsCalledOnSoundReleases | operator/internal/controller/llmplatform_controller.go:84-150 | in every run, whenever Helm is about to be called: Install finds no release and Upgrade one with no pending operation if and only if no query of this reconcile failed on a release that mattered |
| PlatformResults.RepairsArePaidFor | operator/internal/helmbridge/client.go:116-140 | repairs, plus one for a release still pending, never exceed interrupted Helm calls plus repairs whose Uninstall failed on a pending release |
| PlatformResults.SecondFixExactly | operator/internal/controller/llmplatform_controller.go:76-82 | the next reconcile repairs again if and only if Uninstall failed and the release is still pending; a rollback that ran and failed does not loop |
| PlatformResults.NoSecondFix | operator/internal/controller/llmplatform_controller.go:76-82 | from any idle point of any run: with no pending release no repair is made before Helm is called again, whatever fails or crashes; with one, the next reconcile of an unskipped object repairs |
| PlatformResults.FailingUninstallLoops | operator/internal/helmbridge/client.go:123-126 | for every n, a run from creation in which a cut-short install, an edit and a failing Uninstall lead to n repairs with the release as pending as before |
| PlatformResults.ConditionTracksPhase | operator/internal/controller/llmplatform_controller.go:92-178 | in every run the platform's condition types are unique and HelmRelease is True exactly when the phase is Ready |
| PlatformController.LLMPlatformReconciler.Reconcile | operator/internal/controller/llmplatform_controller.go:48-187 | one reconcile, under any interference, is a piece of a protocol run that starts with a fetch, ends idle and returns what the protocol returns; an error means that a call failed |
| PlatformController.LLMPlatformReconciler.RefetchAndUpdateStatus | operator/internal/controller/llmplatform_controller.go:192-199 | the status written is the computed one on the freshly read object; the in-memory object, generation included, becomes the stored one |
| PlatformController.LLMPlatformReconciler.Fetch | operator/internal/controller/llmplatform_controller.go:51-67 | the guard goes on exactly when the protocol does, with the translation of the fetched spec |
| PlatformController.LLMPlatformReconciler.Roll | operator/internal/controller/llmplatform_controller.go:84-186 | install or upgrade between the two status writes follows the protocol to its end |
| PlatformController.Cluster.FixStuckRelease | operator/internal/helmbridge/client.go:116-140 | true exactly when the protocol's repair branch ended the reconcile with a requeue, false leaves it at the lookup |
| PlatformController.Cluster.Deploy | operator/internal/helmbridge/client.go:35-76 | an install or upgrade leaves the in-memory status of a success or a failure according to how the call ended |
| PlatformUpdate.Draft.SetModule | operator/internal/cli/cmd/platform.go:166-177 | toggles the named module, ignores other names |
| PlatformUpdate.Draft.Update | operator/internal/cli/cmd/platform.go:112-117 | all of enable, then all of disable |
| PlatformUpdate.UpdateMeans | operator/internal/cli/cmd/platform.go:112-117 | for all argument lists: a module is on afterwards if and only if it is not disabled and was on or is enabled, so disabling wins and order and repetition do not matter; nothing else of the spec changes |
| PlatformUpdate.UpdateSays | operator/internal/cli/cmd/platform.go:166-177 | the same field by field under the four names of the command line, the rest of the spec equal |
| PlatformUpdate.InitIsUpdated | operator/internal/cli/cmd/platform.go:137-164 | for every list of names, a platform initialised with them is one initialised without and updated to enable them; store, database and node port are as fixed by the command |
| PlatformSessions.RunsAreRuns | operator/internal/cli/cmd/platform.go:102-128 | seen without its update sessions, every run is a run of the platform protocol in which a landed update is a spec edit, so every invariant and result holds beside any number of updates |
| PlatformSessions.UpdatesAreNeverLost | operator/internal/cli/cmd/platform.go:106-126 | for any number of racing updates, edits, status writes, crashes, deletes and re-creations, the stored spec is the created one with the edits and the landed updates applied in the order they landed |
| PlatformSessions.CommitActsOnTheStoredSpec | operator/internal/cli/cmd/platform.go:112-126 | a landed update acts on the spec stored at that moment: on exactly what is not disabled and was on or is enabled, the rest of the spec, status and release untouched; one that does not land changes nothing |
| PlatformSessions.WritesInBetweenRefuse | operator/internal/cli/cmd/platform.go:124-126 | once the object was written since the session fetched it, by anybody and if only its status, or deleted, the update is refused, however late it comes |
| ModelDeploymentSafety.RunsKeepInv | operator/internal/controller/modeldeployment_controller.go:60-249 | every run keeps: a copy whose version is current equals the stored spec and finalizers; stored specs are the fold of the commits; registered names are held; statuses are coherent and measure the replicas some committed version of the spec asked for |
| ModelDeploymentResults.EditsAreNeverLost | operator/internal/cli/cmd/canary.go:34-44 | for any number of racing commands, reconciler writes, deletes and crashes, the stored spec is the fold in commit order of the commands whose Update succeeded, and every committed promote or rollback found a canary |
| ModelDeploymentResults.CommitActsOnTheStoredSpec | operator/internal/cli/cmd/canary.go:71-141 | a successful commit changes the spec that is stored when it lands: rollback clears the canary there was and promote moves its source in and clears it, both only where there is one; scale and canary set exactly their own field to their own argument, target and weight included; nothing else of that or any other object changes; a refused commit changes nothing |
| ModelDeploymentResults.CanaryIsUndoneOrTakenOver | operator/internal/cli/cmd/canary.go:130-141 | after any commands: canary then rollback gives back a spec that had no canary, canary then promote the spec with the target as its source |
| ModelDeploymentResults.CommandsTouchOnly | operator/internal/cli/cmd/canary.go:130-141 | over any commands but edits: only source, replicas and canary change, replicas by scale alone, source by promote alone and only to a source that was there or asked for |
| ModelDeploymentResults.LastScaleWins | operator/internal/cli/cmd/scale.go:35-39 | the replicas are those of the last scale unless the whole spec was edited since |
| ModelDeploymentResults.SecondCommitIsRefused | operator/internal/cli/cmd/scale.go:35-47 | of two commands on the same fetched version, the second is refused once the first committed a change |
| ModelDeploymentResults.CommandsOnValidSpecs | operator/api/v1alpha1/modeldeployment_webhook.go:24-51 | on a valid spec the webhook admits every promote and rollback, a scale if and only if the count is not negative, a canary if and only if it has a source and a weight in range |
| ModelDeploymentResults.RegisteredNamesAreHeld | operator/internal/controller/modeldeployment_controller.go:72-95 | in every run, for every name no object holds: it is registered if and only if it was registered and its own last deregistration failed |
| ModelDeploymentResults.ReleaseLeaks | operator/internal/controller/modeldeployment_controller.go:72-87 | releasing a deleted object leaves its name in the gateway if and only if it was there and the deregistration failed, and touches no other name |
| ModelDeploymentResults.RegistrationFollowsReady | operator/internal/controller/modeldeployment_controller.go:212-246 | a name enters the gateway only while its object is stored with the finalizer and phase Ready, and with as many ready replicas as the committed spec asked for, a positive number, for which that status was computed, even if deletion is requested in the middle of the reconcile |
| ModelDeploymentResults.HeldObjectsStay | operator/internal/controller/modeldeployment_controller.go:72-87 | an object holding the finalizer loses it, or the store, only through the reconciler's removal after a delete |
| ModelDeploymentResults.OtherFinalizersStay | operator/internal/controller/modeldeployment_controller.go:72-95 | no step of any run adds or removes a finalizer that is not the operator's own, and an object that has one stays |
| ModelDeploymentResults.FailedDeregistrationLeaks | operator/internal/controller/modeldeployment_controller.go:75-82 | such a leak from an empty cluster: created, Ready, registered, deleted and released, no object is left and the name is |
| ModelDeploymentResults.ConditionTracksPhase | operator/internal/controller/modeldeployment_controller.go:185-210 | in every run condition types are unique, Ready is True exactly when the phase is Ready, and the phase is Ready or Degraded exactly when the status counts ready replicas |
| ModelDeploymentResults.PhaseMeasuresACommittedSpec | operator/internal/controller/modeldeployment_controller.go:179-193 | in every run a stored phase that is set is Ready exactly when the ready replicas reach the positive number some committed version of the spec asked for (one if it says nothing), Degraded exactly when some are ready and not that, Deploying exactly when none is |
| ModelDeploymentResults.StatusIsReported | operator/internal/controller/modeldeployment_controller.go:179-221 | after the children are ensured, with nothing in between: phase, counts and condition with its reason are stored as just said of the spec at hand, and registration is next if and only if the phase is Ready |
| ModelDeploymentResults.LiveReconcile | operator/internal/controller/modeldeployment_controller.go:89-249 | a whole fault-free reconcile from any state: finalizer added, that status stored, spec and other objects untouched, and the name registered if and only if it was or the model is Ready |
| ModelDeploymentClients.RunCommand | operator/internal/cli/cmd/canary.go:26-47 | a command that reports success is exactly one whose commit landed on the version it fetched; dry runs, missing objects and missing canaries commit nothing |
| ModelDeploymentClients.Draft.ApplyCanary | operator/internal/cli/cmd/canary.go:130-132 | sets the canary to target and weight and changes nothing else |
| ModelDeploymentClients.Draft.ApplyPromote | operator/internal/cli/cmd/canary.go:134-137 | makes the canary's source the source and clears the canary, changes nothing else |
| ModelDeploymentClients.Draft.ApplyRollback | operator/internal/cli/cmd/canary.go:139-141 | clears the canary and keeps the source, changes nothing else |
| ModelDeploymentClients.Draft.SetReplicas | operator/internal/cli/cmd/scale.go:35-39 | sets the replica count and changes nothing else |
| ModelDeploymentClients.ModelDeploymentReconciler.Reconcile | operator/internal/controller/modeldeployment_controller.go:60-249 | one reconcile, under any interference, is a piece of a protocol run that starts with a fetch and ends idle; it errs only when a call failed and otherwise takes every step |
| ModelDeploymentClients.ModelDeploymentReconciler.Release | operator/internal/controller/modeldeployment_controller.go:72-87 | deregister and remove the finalizer follow the protocol, gateway errors dropped |
| ModelDeploymentClients.ModelDeploymentReconciler.UpdateFinalizers | operator/internal/controller/modeldeployment_controller.go:89-95 | the finalizer write goes on only when the compare-and-swap succeeded, with the written object in memory |
| ModelDeploymentClients.ModelDeploymentReconciler.ReportStatus | operator/internal/controller/modeldeployment_controller.go:212-221 | the computed status is put on the refetched object and written; Ready leads on to registration |
| ChildrenResults.CrashAndRetry | operator/internal/controller/modeldeployment_controller.go:89-163 | after any number of reconciles stopped, refused or panicked at any call, one fault-free reconcile leaves the same finalizer, claim, Deployment spec and labels, and Service as one uninterrupted reconcile would have, namely the target, and a further one changes none of them; provided no List failed, or the platform it hid is not one that would be refused |
| ChildrenResults.FailedListDeploysBare | operator/internal/controller/modeldeployment_controller.go:100-105 | the proviso is needed and exact: behind a platform that would be refused, one failed List deploys a new model without a loader if and only if name and spec pass by themselves, which a fault-free reconcile leaves so and without the failure would not be |
| ChildrenResults.WholeReachesTheTarget | operator/internal/controller/modeldeployment_controller.go:89-163 | from any idle state, whatever was edited or deleted before, one uninterrupted reconcile leaves exactly the target, and the Deployment is that of the stored spec and platform if and only if the engine is in the table, the quantities and the name pass and an enabled model store has an image |
| ChildrenOutcomes.WholeDeploysTheSpec | operator/internal/builder/deployment.go:43-140 | field by field: if name, spec and platform pass, one uninterrupted reconcile from any idle state leaves a Deployment with the replicas, memory and cpu of the stored spec, the image and port of its engine, its selector, labels and claim |
| ChildrenOutcomes.ScaleReaches | operator/internal/builder/deployment.go:115-116 | once a scale to n is stored, a reconcile leaves the Deployment it would have left anyway, but asking for n replicas |
| ChildrenOutcomes.WholeMakesTheClaim | operator/internal/builder/pvc.go:12-45 | a claim that is missing is made if and only if name and engine are label values, with the storage of its engine; one that is there stays |
| ChildrenOutcomes.WholeMakesTheService | operator/internal/builder/service.go:12-58 | a Service that is missing is made if and only if the name is a Service name, on the engine's port, selecting the model's pods of that engine; one that is there stays |
| ChildrenOutcomes.ReplicaCountsStay | operator/internal/controller/modeldeployment_controller.go:139-146 | over any run: overwriting a Deployment keeps the status its own controller wrote |
| ChildrenOutcomes.SteadyIsNotWritten | operator/internal/controller/modeldeployment_controller.go:139-146 | once the Deployment is that of the stored spec, a further reconcile leaves it as it is, resource version included |
| ChildrenOutcomes.FinalizersOnlyGrow | operator/internal/controller/modeldeployment_controller.go:89-95 | over any run the making of children adds the operator's own finalizer and takes none away |
| ChildrenResults.Wired | operator/internal/builder/deployment.go:115-126 | in every run the Deployment's selector is the same and selects its own pods, which mount the claim; the Service selects them if and only if it was created for the engine last deployed |
| ChildrenResults.SteadyEnginesAreRouted | operator/internal/builder/service.go:33-58 | while edits keep the resolved engine, the Service selects the pods and all ports agree; an engine outside the table, for admitted specs an auto-detected sglang, never gets a Deployment or a Service |
| ChildrenResults.MixtralIsNeverDeployed | operator/internal/builder/deployment.go:43-97 | such a spec: admitted, resolved to sglang, and deployed in no run without edits |
| ChildrenResults.AdmissionExactly | operator/internal/controller/modeldeployment_controller.go:107-163 | in every run, a reconcile passes the claim if and only if it exists or name and engine are label values, the Deployment if and only if name, spec and the platform it found pass, the immutable selector never in the way, and the Service comes to be if and only if it exists or the name is also a Service name |
| ChildrenResults.NamesThatAreRefused | operator/internal/builder/service.go:22-58 | with a name that is no label value there is in no run a claim or a Deployment, with one that is no Service name in no run a Service |
| ChildrenResults.DottedNamesGetNoService | operator/internal/builder/service.go:33-58 | under the rules of Kubernetes a model whose name has a dot never gets a Service; qwen2.5-7b is such a name |
| ChildrenResults.CommandLinePlatformBlocks | operator/internal/cli/cmd/platform.go:137-164 | beside the platform that the command line initialises, whose enabled model store names no image, a fault-free reconcile neither creates nor changes a Deployment or Service, whatever the model and the past |
| ChildrenResults.ServiceKeepsItsEngine | operator/internal/controller/modeldeployment_controller.go:148-163 | an existing Service is left as it is, so after a reconcile whose Deployment passes it selects the pods if and only if it was created for that engine, or there was none and the name is a Service name |
| ChildrenController.ChildrenReconciler.Reconcile | operator/internal/controller/modeldeployment_controller.go:63-163 | one reconcile of the children, under any interference, is a piece of a protocol run that starts with a fetch and ends idle, at once for an object that is gone or being deleted; it errs only when a call failed and otherwise takes every step |
| ChildrenController.ChildrenReconciler.EnsurePVC | operator/internal/controller/modeldeployment_controller.go:107-122 | creates the claim exactly when it is missing and the API server takes it |
| ChildrenController.ChildrenReconciler.EnsureDeployment | operator/internal/controller/modeldeployment_controller.go:124-146 | creates the Deployment or overwrites spec and labels, keeping its status; a conflict on the resource version, a refusal, or a quantity that makes building it panic is an error |
| ChildrenController.ChildrenReconciler.EnsureService | operator/internal/controller/modeldeployment_controller.go:148-163 | creates the Service exactly when it is missing and the API server takes it |
| Builders.BuildDeployment | operator/internal/builder/deployment.go:43-140 | labels, selector, arguments, port, quantities, claim and loader, the arguments independent of map order; nothing exactly when a quantity does not parse and building panics |
| Builders.BuildContainerResources | operator/internal/builder/deployment.go:236-252 | panics exactly when a memory or cpu text that is not empty is no quantity |
| Builders.ArgsSay | operator/internal/builder/deployment.go:143-185 | the whole argument list of each engine: slug path, served name for vllm, address, port, prefix caching for vllm when asked for, then the user's pairs; an engine outside the table gets the user's pairs only |
| Admission.BuiltDeploymentIsAdmitted | operator/internal/builder/deployment.go:43-140 | the API server takes the Deployment that is built if and only if the engine is in the table, an enabled model store has an image, memory and cpu are empty or amounts that are not negative, replicas are not negative, and name and engine are label values; then building does not panic |
| Admission.AdmittedUnderKubernetes | operator/internal/builder/deployment.go:109-130 | with Kubernetes' own rule for label values the condition on labels is that the name is one |
| Builders.LoaderReadsTheStore | operator/internal/builder/deployment.go:264-312 | a loader is built if and only if the store is enabled; endpoint and bucket are the model's where it overrides them and the store's otherwise, concurrency is the store's or 4, keys, token and image are the platform's, and the slug names the source if and only if it can be undone |
| Builders.PortsAgree | operator/internal/builder/ports.go:4-9 | for every engine name: the three port functions agree if and only if the engine is in the table |
| Builders.ValidPortsAgree | operator/api/v1alpha1/modeldeployment_webhook.go:24-51 | for every spec the webhook admits: the ports agree if and only if the resolved engine is not sglang, which is then auto-detected |
| Builders.ServiceSelects | operator/internal/builder/service.go:33-58 | a Service built for one engine selects pods built for another if and only if the engines are equal; the pods are selected by their own Deployment and mount the claim by its name |
| FineTuneResults.RunsKeepInv | operator/internal/controller/finetunerun_controller.go:59-200 | every run keeps: stored and in-memory statuses are backed by what Argo has said, a computed status follows the stored one, workflows are counted |
| FineTuneResults.LifeCycleOnlyAdvances | operator/internal/controller/finetunerun_controller.go:71-143 | no step of any run changes a terminal status or a recorded workflow name, or lowers the phase rank (unset, Pending, Training, terminal) unless somebody else has submitted the recorded workflow again after a delete |
| FineTuneResults.SyncReports | operator/internal/controller/finetunerun_controller.go:76-143 | from any state with a recorded workflow, one fault-free reconcile stores Succeeded if and only if Argo says Succeeded, Failed if and only if it says Failed or Error or the workflow is gone, Training if and only if it runs, Pending otherwise; completed for a workflow that ended, the condition with its reason, done exactly when it ended or is gone |
| FineTuneResults.SubmitReports | operator/internal/controller/finetunerun_controller.go:145-199 | from any state without one: a workflow that can be created is, and is recorded as Pending and started; a missing CRD, or an error that reads as one, is stored as Failed without a completion time and is done; any other error changes nothing and is one |
| FineTuneResults.GuardDecides | operator/internal/controller/finetunerun_controller.go:71-76 | a reconcile ends at once if and only if the phase is Succeeded or Failed, synchronises if and only if a workflow is recorded, and creates one otherwise |
| FineTuneResults.ResubmissionStartsOver | operator/internal/controller/finetunerun_controller.go:76-143 | the condition is exact: a recorded workflow deleted and submitted again between two reconciles sets the phase back to Pending, so the rank falls if and only if it was Training |
| FineTuneResults.TrainingFallsBack | operator/internal/controller/finetunerun_controller.go:108-123 | for every run name and spec, a run from creation in which the stored phase falls from Training to Pending |
| FineTuneResults.SucceededIsBacked | operator/internal/controller/finetunerun_controller.go:108-132 | Succeeded is stored only after Argo reported the recorded workflow as succeeded and always with a completion time; condition types are unique and WorkflowReady is True exactly then |
| FineTuneResults.AtMostOneWorkflow | operator/internal/controller/finetunerun_controller.go:145-178 | unless an edit changes the workflow's name before one is recorded: all workflows created bear one name, two never live at once, and creations never exceed deletions of that workflow plus one if it lives, crashes and lost status writes included |
| FineTuneResults.DoneMeansTerminal | operator/internal/controller/finetunerun_controller.go:138-142 | a reconcile that neither requeues nor errs leaves a terminal phase or no object |
| FineTuneResults.RenameAfterCrashDuplicates | operator/internal/builder/workflow.go:18-23 | from creation: after a crash before the name is recorded and an edit, a second workflow lives beside the first if and only if the first eight bytes of the output names differ, up to trailing dashes |
| FineTuneResults.OrphanIsNeverAdopted | operator/internal/controller/finetunerun_controller.go:145-178 | and without a rename: over all continuations that leave the workflow, its name and the CRD alone, the status stays empty and no workflow is created |
| FineTuneController.FineTuneRunReconciler.Reconcile | operator/internal/controller/finetunerun_controller.go:59-200 | one reconcile, under any interference, is a piece of a protocol run that starts with a fetch, ends idle and returns what the protocol returns; an error means that a call failed |
| FineTuneController.FineTuneRunReconciler.SyncWorkflow | operator/internal/controller/finetunerun_controller.go:76-143 | the recorded workflow's phase, or its absence, becomes the protocol's status |
| FineTuneController.FineTuneRunReconciler.SubmitWorkflow | operator/internal/controller/finetunerun_controller.go:145-199 | creation, a missing CRD and every other error lead where the protocol says |
| FineTuneController.FineTuneRunReconciler.MapPhase | operator/internal/controller/finetunerun_controller.go:108-123 | Argo's Succeeded, Failed or Error, and Running become Succeeded, Failed and Training, anything else Pending; the completion time is set exactly for a workflow that ended |
| Workflow.DagTask | operator/internal/builder/workflow.go:173-186 | the dependencies are copied in order |
| Workflow.NamesShareAWorkflow | operator/internal/builder/workflow.go:18-23 | two output names of a run give the same workflow if and only if their first eight bytes agree up to trailing dashes; a name never ends in a dash |
| Workflow.NameIs | operator/internal/builder/workflow.go:18-23 | the name is the run's name, a dash and the first eight bytes of the output name, without the dashes at the end, all of them and nothing else |
| Workflow.BuildDag | operator/internal/builder/workflow.go:107-119 | the six tasks in order, each depending on the one before, with the templates and the entrypoint |
| Workflow.SucceededIsAPrefix | operator/internal/builder/workflow.go:107-119 | in every dependency-respecting execution with any failures, the succeeded tasks are a prefix of the chain in chain order and at most the next task is running |
| Workflow.DeployIsLast | operator/internal/builder/workflow.go:107-119 | deploy starts only after the five other steps, evaluate and quality-gate among them, succeeded in order |
| Workflow.TopologicalOrderIsUnique | operator/internal/builder/workflow.go:107-119 | any dependency-respecting order of the tasks is the chain |
| Workflow.ReferencesResolve | operator/internal/builder/workflow.go:151-161 | entrypoint, templates and dependencies all name something that exists, dependencies something earlier |
| Translation.TranslateValues | operator/internal/helmbridge/values.go:9-147 | filling the maps key by key yields the tree the round trips are proved about, and reading it back recovers the spec but for what is never written |
| HelmMeaning.TranslationReadsBack | operator/internal/helmbridge/values.go:9-147 | exactly what the values say of a spec: everything but the Langfuse keys of a gateway without Langfuse, the class and host of a disabled ingress, and replicas that are not positive |
| HelmMeaning.TranslationIsExact | operator/internal/helmbridge/values.go:9-147 | two specs give Helm the same values if and only if they agree on all of that |
| HelmMeaning.TranslationSeparates | operator/internal/helmbridge/values.go:9-147 | field by field: two specs give Helm the same values if and only if they differ at most in the Langfuse keys of gateways without Langfuse, in the class and host of disabled ingresses and in replicas that are not positive |
| Translation.TranslateGlobal | operator/internal/helmbridge/values.go:12-76 | the global section, its models in order |
| Translation.TranslateModel | operator/internal/helmbridge/values.go:42-65 | one model's map, optional keys only when set |
| Translation.TranslateGateway | operator/internal/helmbridge/values.go:78-97 | reading the gateway's map back recovers the gateway, but for the keys of a disabled Langfuse |
| Migrate.MigratePlatform | operator/internal/cli/cmd/migrate.go:70-97 | for every values tree, malformed ones included, the platform resource the round trip is proved about |
| Migrate.GeneratePlatform | operator/cmd/migrate/main.go:66-101 | the same resource as the other migrator on every tree |
| Migrate.MigrateModelDeployment | operator/internal/cli/cmd/migrate.go:99-113 | the loop over optional keys: the same resource as the other migrator on every tree |
| Migrate.GenerateModelDeployment | operator/cmd/migrate/main.go:103-128 | the unrolled conditionals: the same resource as the other migrator on every tree |
| Migrate.MigrateModels | operator/internal/cli/cmd/migrate.go:44-57 | one resource per entry that is a map, in order, other entries skipped |
| Migrate.PlatformIsSelected | operator/internal/cli/cmd/migrate.go:70-97 | for every tree, malformed ones included: which five sections the resource has, each exactly when its source is a map, and what is in them |
| Migrate.ModelIsSelected | operator/internal/cli/cmd/migrate.go:99-113 | for every map: name and source whatever they are, and the four optional keys exactly when present |
| Migrate.OthersAreSkipped | operator/internal/cli/cmd/migrate.go:44-57 | an entry that is no map leaves no trace wherever it stands |
| Migrate.ModelsSurviveTheRoundTrip | operator/internal/cli/cmd/migrate.go:44-57 | for every platform spec, migrating its translated values yields one ModelDeployment per model, in order, with the same name, source, engine, resources, engineArgs and positive replicas |
| Migrate.PlatformSurvivesTheRoundTrip | operator/internal/cli/cmd/migrate.go:70-97 | exactly what survives of the platform: gateway and observability enablement, modules, node port, and the model store but for its enabled flag |
| Migrate.RetranslationAgrees | operator/internal/helmbridge/values.go:9-147 | translating the migrated platform again agrees with the first translation on all of those sections |
| EngineResolver.ScannerIsExact | operator/internal/engine/resolver.go:9-12 | for every string and every such pattern: a greedy scanner without backtracking accepts if and only if some substring is prefix, digits, separator, digits, suffix |
| EngineResolver.Scan | operator/internal/engine/resolver.go:100-103 | the search over starting positions decides the scanner |
| EngineResolver.AutoResolution | operator/internal/engine/resolver.go:28-67 | for every auto source, with every mark spelled out: llamacpp if and only if GGUF, else tei if and only if embedding or reranker, else sglang if and only if a MoE or VLM pattern occurs, vllm otherwise |
| EngineResolver.ResolvesToKnown | operator/internal/engine/resolver.go:16-18 | an explicit engine is itself, an auto one of four |
| EngineArgs.BuildEngineArgs | operator/internal/builder/deployment.go:143-185 | whatever order the map is visited in, the arguments are the engine's own followed by the pairs of the sorted keys |
| EngineArgs.CollectKeys | operator/internal/builder/deployment.go:173-178 | every key once, in increasing order |
| EngineArgs.RenderingIgnoresMapOrder | operator/internal/builder/deployment.go:172-182 | there is only one such list of keys, so only one rendering |
| EngineArgs.ReadBack | operator/internal/builder/deployment.go:172-182 | reading the user part in pairs recovers the map |
| EngineArgs.ParseEngineArgs | operator/internal/cli/cmd/deploy.go:108-115 | the loop computes the map of the assignments cut at their first '=' |
| EngineArgs.CutBare | operator/internal/cli/cmd/deploy.go:108-115 | an argument is its own key if and only if it has no '=', and then its value is empty |
| EngineArgs.LastWins | operator/internal/cli/cmd/deploy.go:108-115 | the last assignment of a key decides its value |
| EngineArgs.OnlyGivenKeys | operator/internal/cli/cmd/deploy.go:108-115 | no key appears that was not assigned |
| EngineArgs.ParseInvertsAssignments | operator/internal/cli/cmd/deploy.go:108-115 | parsing the assignments of a map gives the map back if and only if no key contains '=' |
| ModelSlug.SlugRoundTrip | operator/internal/builder/deployment.go:36-40 | turning each "--" back into "/" from the left undoes the slug if and only if no '-' is followed by '-' or '/' |
| ModelSlug.SlugIsInjective | operator/internal/builder/deployment.go:36-40 | two such sources never share a slug |
| ModelSlug.SlugsCollide | operator/internal/builder/deployment.go:36-40 | outside they do: org/model and org--model always collide |
| RuleResolution.MatchRule | images/model-resolver/resolver.py:31-38 | early return or not, true if and only if every condition the rule has equals the attribute, a missing one counting as None |
| RuleResolution.ResolveEngine | images/model-resolver/resolver.py:41-71 | the loop returns the first matching rule's choice, nothing when it lacks a key, with the CPU and default fallbacks |
| RuleResolution.ResolutionMeans | images/model-resolver/resolver.py:41-71 | exactly what comes out: without a GPU the CPU fallback or else the fallback, nothing without either; with one the engine, image and arguments of the first rule that matches, or of the fallback with vllm for what it lacks; nothing exactly when a key that is read is missing |
| RuleResolution.FallbackIsHonoured | images/model-resolver/resolver.py:64-71 | with no matching rule the fallback's own engine, image and arguments are used where it has them |
| RuleResolution.FirstMatchIsLeast | images/model-resolver/resolver.py:54-62 | the chosen rule matches and no earlier one does |
| RuleResolution.ShadowedRuleIsDead | images/model-resolver/resolver.py:54-71 | deleting a rule whose conditions include all those of an earlier one changes no model's resolution |
| RuleResolution.PruningPreservesMeaning | images/model-resolver/resolver.py:54-71 | neither does deleting all shadowed rules at once |
| Percentile.Between | tests/load/llm-inference.py:33-38 | indexes stay in range and the value lies between the two neighbouring samples |
| Percentile.Monotone | tests/load/llm-inference.py:33-38 | the value is non-decreasing in the position, across segment boundaries |
| Percentile.PercentileIsMonotone | tests/load/llm-inference.py:33-38 | p = 0 and p = 100 give minimum and maximum, and percentiles are non-decreasing in p |
| Percentile.PercentileIsBetweenNeighbours | tests/load/llm-inference.py:33-38 | the result lies between the samples at and after (n-1)p/100, and is the sample when that is whole |
| Percentile.PercentileInterpolates | tests/load/llm-inference.py:33-38 | for every list, sorted or not: with (n-1)p = 100f + r, the result is exactly r hundredths of the way from sample f to the next |
| Conditions.SetIsMapUpdate | operator/internal/controller/modeldeployment_controller.go:252-260 | for every slice, repeated types included, setCondition is one update of the map it represents |
| Conditions.SetKeepsOthers | operator/internal/controller/modeldeployment_controller.go:252-260 | all other conditions stay in place and order, the length grows only for a new type, uniqueness is kept |
| Conditions.ConditionList.SetCondition | operator/internal/controller/modeldeployment_controller.go:252-260 | the loop that writes into the slice computes that update |

## Left out

- Operating the Helm release by anybody but the reconciler, be it by hand, and foreign finalizers on an LLMPlatform:
  its delete removes it at once.
- Of the API server's rules for a ModelDeployment's children: images of containers and init containers, ports,
  quantities, replicas, label values, Service names and the immutable selector are modelled; MIG resource names,
  environment, probes and volumes are not. What resource.MustParse reads is a parameter of every result, and so are the
  rules for names but in `KubernetesRules`. A panic ends the reconcile, as controller-runtime recovers it.
- The admission webhooks between a command and the stored object: any edit of a spec may land.
- Re-creating a FineTuneRun under the same name within one run; LLMPlatforms and ModelDeployments may be re-created.
- Informer caches, leader election, real time, condition timestamps and messages: reads are linearizable and each
  controller works on one object at a time.
- Helm is modelled through the SDK client: statuses other than deployed, failed and the three pending ones do not occur,
  Uninstall is one step, and a failed Uninstall leaves the release. The mock client's GetRelease, which always reports a
  release, is not part of this model.
- Progress of an unedited LLMPlatform after a lost report and repair of a Service after an engine change: the code has
  neither; `PlatformResults.LostReport` and `ChildrenResults.ServiceKeepsItsEngine` say exactly when.
- ModelDeploymentClients.ModelDeploymentReconciler.Reconcile: creating the children is one step there, with any replica
  counts as its answer; their calls are modelled in `ChildrenProtocol`, for one ModelDeployment.
- Owner references and garbage collection of children, removal of the finalizer by other users.
- Probes, volumes, the GPU count and its resource name, tolerations, claim access modes, and the engine and endpoint of
  the status.
- YAML and JSON encoding, output file names, and API-server defaulting in the migrators: a values tree is a recursive
  datatype, decoded by key.
- ResolveModelType and the gateway's provider prefix. Lower-casing distinguishes beyond ASCII only what the patterns can
  see.
- Workflow.NamesShareAWorkflow: a character stands for a byte, as the name is cut at a byte.
- Percentile.PercentileIsMonotone: exact real arithmetic; floating-point rounding is not modelled.
- Percentile.PercentileIsBetweenNeighbours: exact real arithmetic, likewise.
- Percentile.Between: exact real arithmetic, likewise.
- Percentile.Monotone: exact real arithmetic, likewise.
- Percentile.PercentileInterpolates: exact real arithmetic, likewise.
- RuleResolution.ResolveEngine: a KeyError is no result; engine maps whose entries have other types are not modelled.
- FixStuckRelease's own errors, which Reconcile drops.
- The other two webhooks, printers, port-forwarding, logs, RAG, canary traffic splitting, KEDA and the charts.
