# Map generations of the OSRM operator

The operator serves road maps with OSRM. Every profile of an `OSRMCluster` (car, foot, ...) has a
worker Deployment that mounts a PersistentVolumeClaim; a Job fills the claim with a map built from
`spec.pbfUrl`. When the URL changes, the operator builds the next *generation* of claims and Jobs
beside the served one, moves the workers over, and deletes the old generation.

No generation counter is stored anywhere. Each reconciliation reads the *active* generation from the
name of a mounted claim, the *future* one from the highest claim name, decides on a phase, runs the
phase's builders, records the spec in an annotation, reads everything again and collects garbage.
Every property of the protocol therefore rests on an invariant that ties together phase, builders,
garbage collection and the naming scheme. This project states and proves that invariant and what
follows from it.

## Layout

Objects keyed by (profile, generation):

- `Protocol.dfy`: the World, one pass, the environment's steps, runs.
- `Safety.dfy`: the invariant of all runs of complete passes.
- `Service.dfy`: between complete passes the served generation is monotone, lagging reads are harmless,
  collection is idempotent; what an edit does to an update.
- `UrlConsistency.dfy`: workers open the file that the Job on their claim wrote; which edits that needs.
- `Interruptions.dfy`: passes that stop before their annotation, any number of times, while status
  moves on; exactly when the next pass takes the work up again.
- `FailedReads.dfy`: passes whose first reads fail and count as empty.
- `MountSafety.dfy`: no worker loses its claim, with passes that stop anywhere and read what they can;
  the exact condition for one pass from any state.
- `Recovery.dfy`: what stopped passes leave behind, and exactly when the next complete pass restores
  the invariant, keeps what it has made, and honours a changed URL.
- `Leftovers.dfy`: two runs with stopped passes: an update deleted by the pass that starts it, and a
  cluster that never deploys again.
- `Monotone.dfy`: the served generation is monotone with stopped passes and failed reads, too.
- `CarefulStops.dfy`: workers open the file of their Job's URL although passes stop anywhere.
- `PassResult.dfy`: which claims, Jobs and workers a complete pass leaves, and with which values.
- `Convergence.dfy`: two rounds deploy every state from which a pass restores the invariant; a deployed
  cluster reaches a fixpoint.

Names and objects as Kubernetes has them:

- `Strings.dfy`, `FileNames.dfy`, `Names.dfy`: Go's string functions, the file names of operator and
  map-builder script, the codec of child names.
- `Objects.dfy`: the loops over lists of claims, Jobs and Deployments.
- `Children.dfy`, `Builders.dfy`: the builder lists, the other children, the gateway.
- `Encoding.dfy`: when named objects stand for a World, and why parsing names finds its generations.
- `Instance.dfy`: the `OSRMInstance` controller takes the protocol's decisions on one profile named "".
- `Phases.dfy`: when each phase is chosen, for a World, for a cluster's lists and for an instance.
- `ChildrenResult.dfy`: which other children a pass leaves, by kind and name, completed or stopped.
- `Listing.dfy`, `Deletions.dfy`, `Passes.dfy`: what the controllers list and expect, what single
  writes and deletions amount to, and the ways in which a pass can end.
- `Controller.dfy`: both controllers as a class, one API request at a time, each of which may fail; a
  complete pass is the protocol's pass, any other ends in one of its interruptions.
- `Runs.dfy`: runs of that class from creation, with edits, reports of status and passes.
- `Conditions.dfy`, `Ownership.dfy`, `RoutedOptions.dfy`: status conditions over a history; owners
  sharing a namespace; flags printed from a Go map.

`dafny verify dfyconfig.toml` checks everything.

## What the code does not do

Each of these is proved, most with the exact condition.

- A URL edit while a map is being built is recorded as applied, but the Job that exists keeps its URL.
  `UrlChangeHonoured` says exactly when a pass honours a changed URL, and `NotRetried` that no Job is
  created or changed afterwards until the next edit. `FilesMatchExactly` says exactly when a pass
  leaves every worker on the file that its Job wrote; `OneCarelessEdit` is a run that does not.
- An edit during an update keeps what the update has made if and only if the served generation is
  finished for the whole new spec (`EditDuringUpdate`); adding a profile therefore abandons the update.
- Expected names are not kept per kind. The worker of a removed profile named `q-speed-updates` is kept
  while profile `q` has speed updates (`WorkerSurvives`), and all its claims are deleted
  (`StrayKept`). The invariant survives a pass if and only if there is no such worker
  (`PassKeepsInvExactly`); it is enough that no profile is ever given a name with that ending
  (`NamesSuffice`).
- `PassSparesMounts` says exactly when a complete pass, whatever it could read, spares every mounted
  claim, from any state at all. While workers are on different generations, an edit (`ImpatientEdit`),
  a failed read (`BlindPass`) or status that goes back (`RegressingStatus`) can cost a mounted claim.
  Without these, no stop anywhere does (`PatientRunIsSafe`); while the workers agree, all of them are
  harmless.
- A stopped pass can leave claims or Jobs of a generation beyond the next one. An update is then
  *overtaken*: garbage collection keeps the highest generation and deletes the one that the same pass
  has just started. From any state, a pass keeps what it has made if and only if its update is not
  overtaken (`AppliedSurvives`); otherwise the URL is recorded all the same and the update is lost
  (`StartedAndDeleted`). The invariant of complete passes comes back with the next complete pass if and
  only if none of those leftovers belong to a profile of the spec (`PassRestoresInv`). If they do, the
  cluster can be stuck for good, with nothing failing any more (`StuckRun`, `StuckForGood`).
- A Job that garbage collection has not reached outlives its claim. A profile that is removed and added
  again then counts as built on an empty claim (`EmptyClaim`). If edits wait until nothing is left over,
  stopped passes do not separate workers from their Jobs' files (`CarefulHistoryIsConsistent`).
- After interruptions the next pass decides on the same work if and only if that work is still due
  (`InterruptedThenComplete`). A map that is finished before its URL is recorded is built once more,
  as the next generation (`UnrecordedMapIsRebuilt` is a run from creation).
- The errors of the first three reads are ignored, and a pending update is lost by it (`UpdateTakenUp`
  from any state, `UpdateLost` from those of complete passes, with the exact conditions).
- An autoscaler outlives its bounds: once `minReplicas` or `maxReplicas` is taken out of a profile, no pass
  writes it any more and none deletes it, as its name stays expected (`AutoscalerStays`).
- The hash on the gateway's template is that of the previous pass (`GatewayCatchesUp`). Without exposed
  services all specs have one configuration (`UnexposedAreAlike`).
- Profiles share all their names if and only if they differ by one dash at the end (`NamesCollide`).
- As soon as two of a worker's flags are set, two passes over the same spec can print them in different
  orders and so rewrite its template (`SameEveryTime`); elsewhere workers are compared up to that order.
- An instance without `maxReplicas` panics in every deploying phase (`CutShort`), although the comment
  on the field (api/v1alpha1/osrminstance_types.go:39) says that setting it is what enables scaling.

## Hypotheses

- The owner's name and the profile names are non-empty and do not end in a dash. Order and
  duplicates of profiles do not matter.
- Nobody but the operator creates or deletes children of an owner, and no two owners of different
  kinds share a name.
- `persistence.storage` is set, as the claim builder dereferences it.
- Generations stay below the largest value of Go's int.

Theorems about runs name what else they need: edits that leave no worker looking like a CronJob
(`Unclashing`), careful edits (`CarefulRun`, `CarefulHistory`), a patient environment (`PatientRun`).

## Model

| member | source | states |
|---|---|---|
| Safety.RunKeepsInv | controllers/osrmcluster_controller.go:194-269 | any interleaving of complete passes, status changes and edits that leave no removed worker looking like a CronJob keeps: all workers mount one generation g (1 if there are none), every claim and Job is of generation g or g+1, and every mounted claim exists |
| Safety.RunFromCreation | controllers/osrmcluster_controller.go:126-274 | the same from the creation of the cluster |
| Safety.RunWithPlainNames | controllers/osrmcluster_controller.go:126-274 | the same for any run at all in which no profile is given a name that ends in -speed-updates |
| Safety.PassKeepsInvExactly | controllers/osrmcluster_controller.go:590-762 | a pass keeps the invariant if and only if no worker of a removed profile looks like a CronJob of the spec |
| Safety.StrayKept | controllers/osrmcluster_controller.go:632-633 | such a worker is kept as it is, and every claim and Job of its profile is deleted |
| Safety.PassKeepsInv | controllers/osrmcluster_controller.go:587-765 | the step of the invariant over one pass, naming the generation served afterwards |
| Safety.ActiveServes | controllers/osrmcluster_controller.go:424-439 | the generation read from the first worker is the served one if some deployed profile is in the spec, and 1 otherwise |
| Safety.ActiveIgnoresOrder | controllers/osrmcluster_controller.go:445-464 | the order and duplicates of profiles do not change the generation found |
| Safety.FutAfter | internal/resource/osrm_resource_builder.go:96-108 | the future generation of garbage collection is the one the builders aimed at: next to the served one while updating, the served one when mounting |
| PassResult.KeysLeft | controllers/osrmcluster_controller.go:725-762 | after a complete pass from any state, the claims and Jobs are those of the spec's profiles in the generations that the phase calls for: the active one while building; while updating the next one too, or, if a later one is left, what there is of that; the newest alone when workers are moved; none without profiles |
| PassResult.ValuesLeft | internal/resource/job.go:30-122 | claims and Jobs that were there are as they were, new claims are not bound, new Jobs have the URL of the spec |
| PassResult.WorkersLeft | internal/resource/deployment.go:44-127 | in the phases that move workers every profile of the spec has one, on the newest generation and the spec's file and with the replicas it had; otherwise they stay as they are; others go, but for those with a CronJob's name |
| PassResult.RestLeft | controllers/osrmcluster_controller.go:228-263 | the phase determined and the URL of the spec are recorded, and the spec is untouched |
| Phases.PhaseExactly | controllers/osrmcluster_controller.go:330-390 | for each phase, the conditions on URL, finished claims and Jobs, newest generation, first deployed worker and ready replicas under which a World is in it, both ways |
| Phases.DeployedExactly | controllers/osrmcluster_controller.go:375-389 | redeployed if and only if everything of the spec is finished and up on one generation of at least 2 that is the newest, deployed if and only if on generation 1 |
| Service.PassMonotone | controllers/osrmcluster_controller.go:424-439 | from a state of complete passes, a pass raises the active generation by at most one and never lowers it |
| Service.StepMonotone | controllers/osrmcluster_controller.go:194-269 | while a deployed profile stays in the spec, edits and status leave the served generation alone and a pass raises it by at most one |
| Service.FallsOnlyWithoutWorkers | controllers/osrmcluster_controller.go:424-439 | the served generation falls only to 1, and only when an edit leaves no deployed profile |
| Service.RunMonotone | controllers/osrmcluster_controller.go:126-274 | over a whole run of complete passes the served generation rises by at most the number of passes |
| Monotone.PatientRunMonotone | controllers/osrmcluster_controller.go:126-274 | the same over every patient run, passes stopped anywhere and reads failed included, while a deployed profile stays in the spec, from a state with no claim more than one generation ahead; there never is such a claim on the way |
| Monotone.FirstWorkersCap | controllers/osrmcluster_controller.go:351-390 | such runs begin with the first workers: whatever was left over before, the pass that deploys them, stopped or not, leaves no claim more than one generation ahead |
| Service.AnyActiveWillDo | controllers/osrmcluster_controller.go:725-742 | while workers are moved, from any state and whichever generation garbage collection reads as active, every mounted claim is kept if and only if no removed worker looks like a CronJob |
| Service.LaggingCollectionIsSafe | controllers/osrmcluster_controller.go:710-742 | in every phase, from the states of complete passes: whichever mix of old and new Deployments garbage collection reads, every mounted claim is kept |
| Service.PassCollectsAll | controllers/osrmcluster_controller.go:587-765 | from the states of complete passes, a second garbage collection after a pass deletes nothing |
| Recovery.AppliedSurvives | controllers/osrmcluster_controller.go:725-742 | from any state at all, every claim, Job and worker that a pass makes or updates is still there after its own garbage collection, if and only if it does not start an update while a claim of a later generation is left |
| Recovery.PassRestoresInv | controllers/osrmcluster_controller.go:587-765 | after any patient run, a complete pass restores the invariant of complete passes, naming the generation served, if and only if no update is overtaken by a claim or Job of a profile of the spec |
| Recovery.UrlChangeHonoured | controllers/osrmcluster_controller.go:343-349 | from any state, a pass over a changed URL ends with a Job of the new URL in the next generation for every profile, if and only if the served map is finished, no claim of a later generation is left, and no Job of the next one is left from another URL |
| Recovery.UpdateTakenUp | controllers/osrmcluster_controller.go:194-230 | from any state with an update due: if the served generation is not mistaken for the first, its claims and Jobs are there after the pass if and only if claims and Jobs were read and no later generation is left; if it is mistaken, no Job of the next generation is made |
| Recovery.RebuiltSurvives | controllers/osrmcluster_controller.go:259-269 | a map that is built once more, because passes stopped before recording its URL, outlives its own pass if and only if no later generation was left when the first of them began |
| Leftovers.StartedAndDeleted | controllers/osrmcluster_controller.go:725-762 | a patient run with one stopped pass and every read successful, after which a complete pass starts an update, deletes it again and records its URL |
| Leftovers.StuckRun | internal/resource/osrm_resource_builder.go:96-108 | a patient run with two stopped passes that leaves a claim of a later generation without a Job |
| Leftovers.StuckForGood | controllers/osrmcluster_controller.go:343-349 | from there every undisturbed run leads back to the same objects, with everything up, an update due and no worker |
| Service.EditDuringUpdate | controllers/osrmcluster_controller.go:339-349 | after any edit during an update, its Jobs for the profiles of the new spec survive the next pass, unchanged, if and only if the served generation is finished for all of them; otherwise only Jobs of the active generation remain and the URL counts as applied |
| UrlConsistency.CarefulRunIsConsistent | internal/resource/job.go:54-57 | along every careful run each worker opens the file that the Job on its claim wrote, and in a deployed phase that Job was given the URL of the spec |
| UrlConsistency.PassKeepsUrlInv | internal/resource/deployment.go:44-48 | one pass keeps the URL invariant: the Jobs of the served and the next generation and the workers' file names agree |
| UrlConsistency.FilesMatchExactly | internal/resource/deployment.go:47-48 | after a pass every worker opens the file of the URL its Job was given, if and only if those Jobs already had the URL that the workers are given or keep and no removed worker looks like a CronJob |
| CarefulStops.CarefulHistoryIsConsistent | internal/resource/job.go:54-57 | along every careful history from creation, with passes stopped anywhere: each worker opens the file of the URL that the Job on its claim was given, and in a deployed phase, once the workers agree, that is the URL of the spec |
| CarefulStops.EmptyClaim | controllers/osrmcluster_controller.go:744-762 | a collection that stops between a removed profile's claim and Job, and the profile put back: its new claim counts as built, although no Job has run on it |
| Convergence.NotRetried | controllers/reconciler_helpers.go:161-173 | after a pass from a state of complete passes, honoured or not, no Job is created and no Job's URL changes until the next edit |
| UrlConsistency.OneCarelessEdit | internal/resource/job.go:112-122 | a run with one edit during a build ends with a worker opening the file of the second URL on the map of the first, whatever the URLs |
| Interruptions.WorkExactly | controllers/osrmcluster_controller.go:238-257 | after any part of the builders and any forward status, the next pass decides on the same work if and only if it is still due |
| Interruptions.InterruptedThenComplete | controllers/osrmcluster_controller.go:238-269 | after any interleaving of stops before the annotation and forward status that leaves the work due up to its last event: the next pass decides on the same work if and only if it is due after that event too, a complete pass then leaves the same claims, Jobs and mounts as an undisturbed one, and otherwise its builders build an unrecorded map again, as the next generation, or roll out a finished update |
| Interruptions.StoppedThenComplete | controllers/osrmcluster_controller.go:238-269 | after stops alone, the next complete pass leaves the very objects, status included, of an undisturbed one |
| Interruptions.InterruptedKeeps | controllers/osrmcluster_controller.go:238-263 | before the annotation nothing is deleted and a URL change stays pending |
| Interruptions.UnrecordedMapIsRebuilt | controllers/osrmcluster_controller.go:259-263 | from creation: a finished first map is deployed if its pass was recorded and built again as generation 2 if it was not |
| MountSafety.PassSparesMounts | controllers/osrmcluster_controller.go:590-762 | from any state and with any reads, a complete pass keeps every mounted claim if and only if no removed worker looks like a CronJob and its build phase finds the spec's workers on the generations it keeps |
| MountSafety.RewrittenWorkersAreBuilt | controllers/osrmcluster_controller.go:343-353 | from any state and with any reads, a worker created or changed by a pass mounts a generation whose claims were bound and Jobs complete for every profile when the pass began |
| MountSafety.DeletedInOrder | controllers/osrmcluster_controller.go:628-762 | a collection that stops has deleted no Job but those whose claims are gone, and no claim or Job before all stray workers |
| MountSafety.PatientRunIsSafe | controllers/osrmcluster_controller.go:194-269 | no claim of a worker is ever deleted in runs of complete passes, passes stopped anywhere in builders or garbage collection, failed first reads, edits and any status changes, provided that edits, failed reads and regressing status come only while workers agree and that no edit makes a removed worker look like a CronJob |
| MountSafety.PatientFromCreation | controllers/osrmcluster_controller.go:126-274 | the same from the creation of the cluster |
| MountSafety.ImpatientEdit | controllers/osrmcluster_controller.go:720-750 | a stopped redeployment and then an added profile make the next pass delete the claim a worker mounts |
| MountSafety.BlindPass | controllers/osrmcluster_controller.go:194-195 | a stopped redeployment and then a pass whose Job list failed do the same, without any edit |
| MountSafety.RegressingStatus | controllers/osrmcluster_controller.go:288-305 | a stopped redeployment and then a claim that is no longer bound do the same, without an edit or a failed read |
| MountSafety.RolloutHappens | controllers/osrmcluster_controller.go:351-353 | for any two profiles there is a state in which a redeployment is due, the start of the three runs above |
| FailedReads.PassSeeingKeepsInv | controllers/osrmcluster_controller.go:194-196 | from the states of complete passes, whichever first reads fail, a complete pass keeps the invariant and every mounted claim |
| FailedReads.UpdateLost | controllers/osrmcluster_controller.go:194-230 | from the states of complete passes, a due update is taken up if and only if claims and Jobs were read and the served generation was not mistaken; otherwise its URL counts as applied and nothing of it remains |
| Convergence.RoundAdvances | controllers/osrmcluster_controller.go:330-390 | any undisturbed sequence with a pass in it starts the maps of the spec from every state that a patient run leads to, if its first pass finds no update overtaken by leftovers of the spec's profiles, and rolls them out from a state where they are finished |
| Convergence.TwoRoundsDeploy | controllers/osrmcluster_controller.go:330-390 | from such a state, a round that finishes the maps and a round that brings up the workers lead to a deployed phase with every profile on the newest generation |
| Convergence.InvRecovers | controllers/osrmcluster_controller.go:330-390 | every state of complete passes is such a state for every undisturbed run |
| Convergence.RoundExists | controllers/osrmcluster_controller.go:330-390 | from every state there is such a round: a pass and a report |
| Convergence.StaysDeployed | controllers/osrmcluster_controller.go:366-389 | without edits the cluster is deployed again whenever its workers are up |
| Convergence.RolledIsFixed | internal/resource/osrm_resource_builder.go:140-165 | once rolled out, the second pass changes no claim, Job or worker |
| FileNames.ReplaceAgree | api/v1alpha1/osrmcluster_types.go:93-95 | replacing every match equals replacing the first if and only if there is at most one |
| FileNames.WorkerOpensBuiltFile | docker/map-builder/run.sh:31-32 | for a URL that is one shell word without query, the worker opens the file the script writes if and only if the URL's last segment is non-empty and contains osm.pbf at most once |
| FileNames.UsualFileName | api/v1alpha1/osrmcluster_types.go:88-95 | the file that a worker opens is what follows the last slash of the URL with its one "osm.pbf" replaced by "osrm" |
| FileNames.LeftmostReplaced | docker/map-builder/run.sh:31-32 | the operator replaces the leftmost match and goes on behind it, the script replaces that one only |
| Strings.AtoiItoa | controllers/reconciler_helpers.go:77-80 | parsing the decimal of a generation gives it back, within Go's int |
| Strings.ItoaInjective | controllers/osrmcluster_controller.go:351 | comparing generations as strings is comparing them as numbers |
| Strings.ItoaIsDecimal | controllers/reconciler_helpers.go:86 | a printed generation is the decimal numeral of its value, without leading zeros |
| Strings.AtoiIs | controllers/reconciler_helpers.go:77-80 | a string parses if and only if it is at most one sign and then decimal digits of a value that 64 bits hold, and to that value |
| Names.SuffixOfClaim | controllers/osrmcluster_controller.go:93-96 | the last dash-separated token of a claim's name is its generation, whatever the owner and profile are called |
| Names.WorkerNameIs | api/v1alpha1/osrmcluster_types.go:339-342 | the name with both trims spelled out, for the anonymous profile too |
| Names.ClaimNameIs | api/v1alpha1/osrminstance_types.go:158-161 | likewise for the claim of a generation |
| Names.WorkerNameInjective | api/v1alpha1/osrmcluster_types.go:339-342 | two profiles have the same worker name only if they are the same |
| Names.ClaimNameInjective | api/v1alpha1/osrmcluster_types.go:339-342 | two claims have the same name only if profile and generation are the same |
| Names.ClaimRebuilt | internal/resource/persistent_volume_claim.go:30-31 | the name built from a suffix read off a claim is that claim |
| Names.NamesCollide | api/v1alpha1/osrmcluster_types.go:339-342 | for any names, two profiles share a worker's name, or a claim's of one generation, if and only if they are the same but for one dash at the end |
| Objects.IsJobCompleted | internal/status/status.go:96-107 | true exactly for a Job with a true Complete condition |
| Objects.BuiltListsAre | controllers/osrmcluster_controller.go:282-328 | a generation counts as built if and only if every profile has a claim and a Job of the name, and all of the name have status Bound and a condition Complete that is True |
| Objects.NextIs | internal/resource/osrm_resource_builder.go:167-174 | for any string, the successor of its number, wrapping around after the largest, and 1 if it is no number |
| Objects.ComputeFutureMapGeneration | controllers/reconciler_helpers.go:74-87 | the decimal of the largest of 1 and all generations in the names; an error exactly if some name does not end in an integer |
| Objects.HighestIgnoresOrder | controllers/reconciler_helpers.go:74-87 | the newest generation does not depend on the order of the list |
| Objects.AreVolumesBound | controllers/osrmcluster_controller.go:288-305 | true exactly if for every profile some claim has the name and all that have it are bound |
| Objects.AreMapsBuilt | controllers/osrmcluster_controller.go:307-325 | the same of Jobs and completion |
| Objects.IsMapBuildingInProgress | controllers/osrmcluster_controller.go:282-328 | false exactly if every profile has its claims bound and its Jobs complete, duplicates included |
| Objects.ComputePhase | controllers/osrmcluster_controller.go:330-390 | the phase that the protocol's case distinction gives on the lists |
| Phases.ListedPhaseExactly | controllers/osrmcluster_controller.go:330-390 | for each phase, the conditions under which it is computed from any lists, both ways; generations beyond the first are those that parse to more than 1 |
| Encoding.HighestIsNewest | controllers/reconciler_helpers.go:74-87 | the number parsed from the listed names is the newest generation of the World they stand for |
| Encoding.SuffixIsActive | controllers/osrmcluster_controller.go:424-464 | the suffix read from the Deployments is the World's active generation |
| Encoding.BuiltListsIs | controllers/osrmcluster_controller.go:282-328 | the building check on lists is "every profile has a bound claim and a complete Job" |
| Encoding.PhaseOfListsIs | controllers/osrmcluster_controller.go:330-390 | the phase determined from named lists is the protocol's phase |
| Encoding.NewsIs | internal/status/status.go:92-107 | whatever is reported, a claim stands for a bound one if and only if its status is Bound, and a Job for a finished map if and only if some condition of it is Complete and True |
| Encoding.ObjectsReported | internal/status/status.go:92-107 | objects take over all conditions and replicas reported of them, and are otherwise as they were |
| Encoding.ClaimAdded | internal/resource/persistent_volume_claim.go:30-66 | ensuring a named claim is ensuring a key of the World |
| Encoding.JobAdded | internal/resource/job.go:30-122 | ensuring a named Job is ensuring a key; an existing Job keeps its URL |
| Encoding.WorkerRewritten | internal/resource/deployment.go:44-127 | rewriting a Deployment moves the worker's claim and file name and keeps its status |
| Builders.MapPhaseBuilders | internal/resource/osrm_resource_builder.go:83-109 | the loop yields a claim and a Job per profile, in the order of the spec |
| Builders.RedeployingWorkersPhaseBuilders | internal/resource/osrm_resource_builder.go:111-121 | the loop yields the Deployments on the future generation |
| Builders.DeployingWorkersPhaseBuilders | internal/resource/osrm_resource_builder.go:123-138 | the loop yields Deployment, Service, disruption budget and guarded autoscaler per profile |
| Builders.WorkersDeployedPhaseBuilders | internal/resource/osrm_resource_builder.go:140-165 | likewise with guarded CronJobs, and the gateway last |
| Builders.PhaseListExactly | internal/resource/osrm_resource_builder.go:66-165 | for each phase and each builder, whether it is in the list: maps while building and updating, workers while moving, Services, budgets and autoscalers with both bounds from deploying on, CronJobs and the gateway only once deployed |
| Builders.PhaseListInOrder | internal/resource/osrm_resource_builder.go:83-138 | each list grows by the builders of one more profile, in their order |
| Builders.DeployedListInOrder | internal/resource/osrm_resource_builder.go:140-165 | likewise once deployed, with the gateway last |
| Builders.NextIsSuccessor | internal/resource/osrm_resource_builder.go:167-174 | the string of the next generation is that of the successor |
| Builders.MountsInOrder | internal/resource/osrm_resource_builder.go:111-138 | wherever a pass stops in its builders, the workers rewritten are the first ones of the spec |
| Builders.PhaseBuildersEffects | internal/resource/osrm_resource_builder.go:66-81 | each phase's list has exactly the effects of the protocol's phase, on names of the right generation |
| Children.CollectionIsExact | controllers/osrmcluster_controller.go:590-694 | exactly the children with expected names remain, everything built in the pass among them with the value built, and once is enough |
| Children.CronJobSurvives | controllers/osrmcluster_controller.go:597-599 | a CronJob survives if and only if its profile has speed updates or another profile bears its name |
| Children.WorkerSurvives | controllers/osrmcluster_controller.go:590-633 | a worker's name is expected if and only if its profile is in the spec or it looks like the CronJob of one |
| ChildrenResult.ExpectedExactly | controllers/osrmcluster_controller.go:590-606 | a name is expected if and only if it is the owner's and there are profiles, a profile's, or that of the CronJob of a profile with speed updates |
| ChildrenResult.OutMakes | internal/resource/cron_job.go:45-105 | every child that a builder of a phase writes, with its contents: bounds of autoscalers, one replica less than the minimum or 1 for budgets, URL, schedule, file and claim of CronJobs, text and hash of the gateway |
| ChildrenResult.DoneExactly | controllers/osrmcluster_controller.go:615-694 | for clusters and instances: after a completed pass a child is there if and only if the phase makes it, or it was there under an expected name or as an instance's ConfigMap; it is what the phase makes, or as it was |
| ChildrenResult.ServedProfile | internal/resource/osrm_resource_builder.go:123-165 | after a completed pass in a phase that deploys, every profile has its Service and budget, its autoscaler if both bounds are set, and once deployed its CronJob if it has speed updates |
| ChildrenResult.DeployedGateway | internal/resource/osrm_resource_builder.go:157-163 | after a completed pass in a deployed phase with profiles, the gateway's ConfigMap holds the spec's configuration, its Deployment carries the hash of the text found, and its Service is there |
| ChildrenResult.NothingLeft | controllers/osrmcluster_controller.go:590-606 | after a completed pass over a cluster without profiles no child is left, the gateway included |
| ChildrenResult.NothingUnasked | internal/resource/osrm_resource_builder.go:123-165 | a child that a completed pass has not found is one that the spec and the phase ask for |
| ChildrenResult.AutoscalerStays | controllers/osrmcluster_controller.go:590-595 | an autoscaler of a profile that no longer has both bounds is kept as it is by every completed pass |
| ChildrenResult.StoppedChildren | controllers/osrmcluster_controller.go:238-257 | a pass that stops in its builders deletes no child and changes none but as the phase makes it |
| ChildrenResult.CollectingChildren | controllers/osrmcluster_controller.go:615-694 | a pass that stops in garbage collection has made all that the phase makes and deleted nothing expected |
| Children.GatewayCatchesUp | internal/resource/gateway_deployment.go:127-140 | children are fixed after the second deployed pass, after the first if and only if the ConfigMap already held the text of the spec's configuration; the hash is then that of this text |
| Children.GetNginxLocations | internal/resource/gateway_config_map.go:79-89 | the nested loops yield the locations of every profile and, within it, of every exposed service, in the order of the spec |
| Children.LocationIs | internal/resource/gateway_config_map.go:91-103 | a location proxies the service under the profile's endpoint to the Service of that very profile, under the internal endpoint if there is one |
| Children.EnvVariableIs | internal/resource/utils.go:8-10 | the environment variable of a Service, character by character |
| Children.LocationsInOrder | internal/resource/gateway_config_map.go:79-89 | the locations of a list of profiles are those of its parts, one after the other |
| Children.UnexposedAreAlike | internal/resource/gateway_config_map.go:61-89 | two specs without exposed services have the same configuration text, a server without locations |
| Listing.GetProfilesDeployments | controllers/osrmcluster_controller.go:445-464 | the loop of Gets yields the existing Deployments in the order of the spec |
| Listing.ExpectedResources | controllers/osrmcluster_controller.go:590-606 | the expected names of children without a generation |
| Listing.ExpectedResourcesOfInstance | controllers/osrminstance_controller.go:443-451 | an instance's expected names are those of a cluster with one profile named "", although it has no gateway |
| Listing.ExpectedGenerations | controllers/osrmcluster_controller.go:725-742 | the loop yields the names of every profile in the kept generations |
| Listing.ExpectedGenerationsOfInstance | controllers/osrminstance_controller.go:547-562 | the same names for one profile named "" |
| Listing.ExpectedClaim | controllers/osrmcluster_controller.go:725-742 | a claim's name is expected if and only if its generation is active, or future in a phase that keeps it |
| Listing.ReadFuture | controllers/osrmcluster_controller.go:441-443 | on objects that stand for a World the result is the decimal of its newest generation, without error |
| Listing.ClusterReads | controllers/osrmcluster_controller.go:424-439 | on objects that stand for a World the active generation is read without error or panic |
| Passes.WorkDoes | internal/resource/osrm_resource_builder.go:66-81 | the builders of a pass have the protocol's effects for clusters and instances, rewrite workers in the order of the spec, and never panic for a cluster |
| Passes.ClusterChildrenEnd | controllers/osrmcluster_controller.go:587-694 | after a completed cluster pass the other children are exactly the expected ones |
| Passes.EndIsEvent | controllers/osrmcluster_controller.go:126-274 | however a pass ends, with whatever reads, it is one event of the interrupted runs |
| Controller.Reconciler.EnsureClaim | internal/resource/persistent_volume_claim.go:30-66 | a claim that exists is left alone, a new one is pending |
| Controller.Reconciler.EnsureJob | internal/resource/job.go:30-122 | a new Job gets the URL of the spec, an existing one keeps its own |
| Controller.Reconciler.RewriteWorker | internal/resource/deployment.go:44-127 | the worker mounts the claim of the given generation and opens the file of the spec's URL; its status stays |
| Controller.Reconciler.CreateOrUpdate | controllers/osrmcluster_controller.go:246-256 | one builder has its one effect, or the request failed and nothing changed |
| Controller.Reconciler.RunBuilders | controllers/osrmcluster_controller.go:238-257 | the builders up to the first failed request or panic have had their effects, no others |
| Controller.Reconciler.DeleteKind | controllers/osrmcluster_controller.go:615-626 | of one kind exactly the unexpected children go, or the List or a Delete failed and only some of them did |
| Controller.Reconciler.DeleteDeployments | controllers/osrmcluster_controller.go:628-640 | the same of the gateway and the workers, in step with the World |
| Controller.Reconciler.DeleteClaims | controllers/osrmcluster_controller.go:744-752 | only claims with unexpected names go, and all that were listed if no request fails |
| Controller.Reconciler.DeleteJobs | controllers/osrmcluster_controller.go:754-762 | the same of Jobs |
| Controller.Reconciler.CollectNamed | controllers/osrmcluster_controller.go:615-694 | kind by kind; no expected child is deleted even if it stops, exactly the unexpected ones if it does not |
| Controller.Reconciler.CollectGenerations | controllers/osrmcluster_controller.go:695-762 | only unexpected claims and Jobs are deleted, Jobs only after all such claims, all of them if none of the reads and deletions fails |
| Controller.Reconciler.GarbageCollection | controllers/osrmcluster_controller.go:587-765 | completed, it is the protocol's collection; stopped, it has deleted a legal part of it in order |
| Controller.Reconciler.Generations | controllers/osrminstance_controller.go:118-133 | for both controllers, the strings read are the decimals of the World's active and newest generation |
| Controller.Reconciler.Decide | controllers/osrmcluster_controller.go:194-217 | generations and phase are those of the World as it was read, failed reads counting as empty, for both controllers |
| Controller.Reconciler.UpdatePhase | controllers/osrmcluster_controller.go:228-234 | the phase is stored, or the request failed and nothing changed |
| Controller.Reconciler.RecordSpec | controllers/reconciler_helpers.go:161-173 | the URL is recorded as applied, or the request failed and nothing changed |
| Controller.Reconciler.CarryOut | controllers/osrmcluster_controller.go:236-269 | from the first builder on: stopped, panicked, collecting or done, each with the World and the children it leaves |
| Controller.Reconciler.Reconcile | controllers/osrmcluster_controller.go:126-274 | a completed pass of either controller is the protocol's pass on claims, Jobs and workers and leaves the other children exactly; one that fails had a failed request or, for an instance only, a panic, and ends in an interruption of the protocol; the requests that a pass can use are bounded by its builders and the objects there are, and with more than that it completes, unless a builder panics; a paused, deleted or uninitialised owner is left alone, but for the finalizer |
| Controller.Reconciler.constructor | controllers/osrmcluster_controller.go:170-175 | a new owner, waiting for its finalizer, stands for the initial World |
| Controller.Reconciler.Report | internal/status/status.go:92-107 | after any report of claim statuses, Job conditions of whatever kind and ready replicas, the objects have what was reported and stand for the World after that status |
| Runs.PassBecomes | controllers/osrmcluster_controller.go:126-274 | a pass of a running owner is nothing only without a single request, else one event with the reads it was given, and with enough requests the complete pass, unless a builder of an instance panics |
| Runs.CalmExactly | controllers/osrmcluster_controller.go:194-269 | which moments are calm enough, in terms of the World: one generation for an edit that leaves no worker looking like a CronJob; one generation or forward status for a report; one generation or successful reads for a pass |
| Runs.TurnExactly | controllers/osrmcluster_controller.go:126-274 | what each operation does to spec, finalizer and World, with the number of requests that is enough for a complete pass |
| Runs.Step | controllers/osrmcluster_controller.go:126-274 | one operation at a calm moment becomes its edit, its report or its pass, and takes spec, finalizer and objects from one moment to the next; at any other moment nothing happens |
| Runs.Drive | controllers/osrmcluster_controller.go:126-274 | any edits, reports and passes, operation by operation: each becomes its events, every worker Deployment mounts a claim that exists by name at every moment, and the Worlds behind the objects go through a patient run |
| Runs.FromCreation | controllers/osrmcluster_controller.go:126-274 | the same from the creation of a cluster or an instance |
| Instance.IsMapBuildingInProgressForInstance | controllers/osrminstance_controller.go:215-241 | false exactly if the first claim and the first Job of the name are finished |
| Phases.InstanceBuiltIs | controllers/osrminstance_controller.go:215-241 | that is: status Bound of the first claim, and a condition Complete that is True of the first Job |
| Phases.InstancePhaseExactly | controllers/osrminstance_controller.go:243-281 | for each phase, the conditions under which an instance is in it, both ways |
| Instance.InstanceListExactly | internal/resource/osrm_instance_resource_builder.go:59-122 | for each phase and each builder, whether an instance gets it: like a cluster, without a gateway, and with the autoscaler even without minReplicas |
| Instance.BuiltTheSame | controllers/osrminstance_controller.go:215-241 | the cluster's check is the instance's check and all later objects of the name finished too |
| Instance.SamePhaseAsCluster | controllers/osrminstance_controller.go:243-281 | with unique names the instance's case distinction gives the cluster's phase on one profile named "" |
| Instance.GetInstanceMapGeneration | controllers/osrminstance_controller.go:315-332 | the cluster's answer, except that "1" replaces the panic |
| Instance.InstanceDoes | internal/resource/osrm_instance_resource_builder.go:59-122 | the instance's builders have the effects of the protocol's phase for one profile named "" |
| Instance.CutShort | internal/resource/osrm_instance_resource_builder.go:100-122 | a pass panics if and only if maxReplicas is missing in a deploying phase; the worker is then written only while first deploying |
| Instance.InstanceReads | controllers/osrminstance_controller.go:315-332 | on objects that stand for a World with one profile named "", the active generation is read without error |
| Instance.InstanceRefinesProtocol | controllers/osrminstance_controller.go:118-149 | the instance reads the protocol's generations, decides on its phase and expects its claims |
| Conditions.AvailableCondition | internal/status/status.go:19-53 | true exactly if the first Deployment says so; the time is kept unless the status changes |
| Conditions.AllReplicasReadyCondition | internal/status/status.go:55-80 | true exactly if some Deployment has the replicas it wants; the time is kept unless the status changes |
| Conditions.Status.SetConditions | api/v1alpha1/osrmcluster_types.go:281-311 | the three conditions in order, each from the last old one of its type |
| Conditions.Status.SetCondition | api/v1alpha1/osrmcluster_types.go:313-325 | the first condition of the type takes over status and reason, and the time if the status differs |
| Conditions.SetSays | api/v1alpha1/osrmcluster_types.go:313-325 | the condition of the kind has the status and reason it was told, and the other two are unchanged |
| Conditions.RefreshSays | api/v1alpha1/osrmcluster_types.go:281-311 | Available and AllReplicasReady are true or false, with their reasons, as the resources say; ReconciliationSuccess is kept, and unknown at first |
| Conditions.LastOfIs | api/v1alpha1/osrmcluster_types.go:286-295 | of several old conditions of one kind the last one counts |
| Conditions.LastCallDecides | api/v1alpha1/osrmcluster_types.go:281-325 | over any history, each condition is what the last call that decides on it has left |
| Conditions.SuccessIsSet | controllers/reconciler_helpers.go:89-98 | over any history, ReconciliationSuccess has the status and reason of the last call that set it |
| Conditions.SuccessIsUnknown | api/v1alpha1/osrmcluster_types.go:297-302 | and is unknown, since the first refresh, as long as there was none |
| Conditions.ResourcesAreSeen | internal/status/status.go:19-80 | over any history, Available and AllReplicasReady say what the resources said at the last refresh, unless they were set by name since |
| Conditions.HistoryIsComplete | api/v1alpha1/osrminstance_types.go:100-144 | after any calls from the first SetConditions on, exactly the three types in fixed order |
| Conditions.TimesAreTransitions | api/v1alpha1/osrmcluster_types.go:281-325 | over any history each time is that of the call that last changed the status |
| RoutedOptions.ToString | api/v1alpha1/osrmcluster_types.go:169-189 | the flags that are set, each once, in some order |
| RoutedOptions.FlagsAre | api/v1alpha1/osrmcluster_types.go:174-180 | which option is printed as which flag, and with which number |
| RoutedOptions.JoinBoth | api/v1alpha1/osrmcluster_types.go:188 | single blanks between the flags |
| RoutedOptions.SameEveryTime | api/v1alpha1/osrmcluster_types.go:182-188 | the text is the same in every pass if and only if at most one option is set |
| Ownership.GetLabels | internal/metadata/labels.go:22-37 | the labels, whatever the order in which the owner's labels are visited |
| Ownership.LabelsAre | internal/metadata/labels.go:22-37 | every label of a child, and that there are no others |
| Ownership.NameLabelIsSafe | internal/metadata/labels.go:30-34 | no label of the owner overrides the name label; the generation label can be overridden |
| Ownership.OthersAreSpared | controllers/osrmcluster_controller.go:608-613 | whatever builders and garbage collections other owners run, the children that an owner controls stay exactly as they are |
| Ownership.WrittenAsOwn | internal/resource/service.go:61-63 | an object that nobody else controls is written with the owner's labels and reference, another owner's is left alone, and no third object changes |
| Ownership.CollectedByLabel | controllers/osrmcluster_controller.go:608-626 | garbage collection deletes exactly the unexpected objects whose name label is the owner's name |
| Ownership.NamesCanMeet | api/v1alpha1/osrmcluster_types.go:339-342 | different owners can ask for the same child name, so name and reference are needed |

## Left out

- Kubernetes itself: Get, List, CreateOrUpdate and Delete are operations on maps, and retries on conflict, caches and server-side defaulting are not part of this model; an API request either succeeds or fails.
- JSON: the annotation is modelled as the URL it carries, the only field that is read back.
- Pods: mounts are those of a Deployment's template; rolling updates and the protection of claims in use are the cluster's business. CronJobs keep naming the old claim until the workers are redeployed, so mount safety is about Deployments.
- Controller.Reconciler.Reconcile: requires every generation to be two below the largest value of Go's int.
- Controller.Reconciler.CreateOrUpdate: one request stands for the Get, Create or Update of one object; an unchanged object costs a request too.
- Safety.RunKeepsInv: is about complete passes that read everything; what stops half way or cannot read is the subject of Interruptions, FailedReads and MountSafety.
- Convergence.TwoRoundsDeploy: how long Kubernetes takes to finish maps and bring up workers is not modelled.
- FileNames.WorkerOpensBuiltFile: URLs that the shell would split or expand, and URLs with a query or fragment, are excluded; what the script does with those is not modelled.
- Conditions.AvailableCondition: the message text is not modelled, and neither is that the gateway is the first Deployment of a deployed cluster.
- Reading named Deployments of another owner: Get goes by name, so a clash of names (Ownership.NamesCanMeet) also lets an owner read the other's Deployment.
- The traffic-update annotation of workers, images, resources, environment, tolerations, probes and ports: values copied into templates.
- Children.GatewayCatchesUp: the text stands for its SHA-256 hash, and upper case is that of the letters a to z, as Service names have no others.
- CarefulStops.EmptyClaim: what a volume holds is not modelled; the lemma says that the claim is new and that no Job was created after it.
- Finalizers, deletion of the owner and `setReconciliationSuccess`: single steps that touch no child.
- The speed-updates script, `main.go`, RBAC, manifests and generated deep copies: no state of the protocol.
