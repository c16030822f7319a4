# A model of the Managed Fusion agent

The agent installs storage offerings on a cluster and takes them down again. Two controllers do the work: one
reconciles the agent's config Secret, the other the ManagedFusionOffering objects with their DataFoundation and
DataFoundationClient plugins. They cooperate only through API objects: finalizers, deletion timestamps, the StorageCluster
of a namespace, storage consumers and namespaces. This project models that behaviour in Dafny and proves what it guarantees.

Run `dafny verify dfyconfig.toml` in this directory.

## How it is organised

**The install and uninstall protocol.** `Cluster` is the API server: objects with resourceVersion, finalizers and deletion
mark, one function that serves a call, and one that performs what others may do. `OfferingMachine` and `SecretMachine` give the call each
controller issues next and what it does with the reply. `Runs` interleaves both controllers, everybody else, crashes and
restarts, one call at a time; the request or the reply of any call may be lost. On top of it:
`StorageSafety` and `UninstallSafety` (nothing is left behind), `LateOffering` (why an assumption is needed),
`ConcurrencyControl` (what versions protect), `TeardownOrder` (the whole call log), `Restarts` (CRD gates),
`UninstallProgress`, `UninstallRounds`, `UninstallOutcomes`, `UninstallEnabled`, `UninstallTurns` and `UninstallCompletes`
(what each complete reconcile of an uninstall achieves, when it moves, when it waits, what any run of the agent keeps, and that
every schedule comes to an end). `OfferingReconcilers` and `SecretReconcilers` hold the two reconcilers as imperative code on
receiver fields, calling the server through `Client`, and prove every execution to be such a run. `Transcripts` and
`SecretTranscripts` write out, for every state, what a whole reconcile calls, does and returns.

**The phases as transformations.** `Phases` is the theory: phases that each bring one object to its wanted state, run until
the first error, cut anywhere, resumed. `DataFoundationPhases` applies it to the two plugins' phases;
`DataFoundationReconciler` and `DataFoundationClientReconciler` are the phases as imperative code over the failing server of
`ObjectStore`, and `OfferingDeliveries` says when an attempt succeeds and what it leaves in every object. `AgentPhases`,
`AgentObjects`, `AgentHistory`, `AgentDeliveries` and `AgentReconciler` do the same for the agent's own eleven objects: which
exist after any history, what they refer to and contain, and what one reconcile inherits from the last.

**Data.** `EgressRules` and `Cidrs` (what the egress list means and how the VPC ranges reach it), `DeviceSets` and `Float64`
(the float ceiling, the rule against downscaling, the write through a pointer), `ObjectMeta` (finalizers, labels, owner references), `PodNames`,
`AlertMatcher`, `Backoff`, `Sets`, `Text`, `Wrappers`.

## Assumptions

- One worker for each controller and one agent process at a time. Reads are linearizable (no stale informer cache).
- Nobody but the agent takes the agent's finalizer off an object or creates a StorageCluster. Others may do anything else the
  modelled actions express: create, edit and mark offerings, edit, mark and purge StorageClusters, edit and mark
  the Secret, install and remove CRDs.
- Objects read from the server have a UID, and an offering's kind is one of the two its CRD admits.
- The completion results (`UninstallCompletes`) assume that the CRDs are installed, that each StorageCluster is being deleted or
  is tended by a DataFoundation offering with a config that decodes, that others create no offering and no Secret, and that, once
  every offering is marked, others do not take back what tends, what is ready or what is unused. Others act between the
  reconciles there, not during one. The other uninstall results do not assume this.
- Counts and capacities are unbounded integers: nothing the code computes with them leaves the range of a 64-bit integer. List
  order is arbitrary.

## What the code does that its comments do not say

- `reconcileRookCephOperatorConfig` compares a ConfigMap value with a pointer to one; `DeepEqual` is never true for these, so
  the ConfigMap is updated in every reconcile (`DataFoundationPhases.WritesAlways`).
- `initReconciler` of the agent's reconciler does not reset the remote write config
  (`AgentHistory.HistoryShowsIff`, `AgentHistory.RemovedTokenStays`).
- An offering created while the Secret is deleting can be installed before the agent lets go of the Secret
  (`LateOffering.ReleaseWithStorageLeft`).
- `getCSVByPrefix` takes the first CSV of a list whose order is not fixed; with two CSVs of the prefix, attempts can
  adopt different ones (`DataFoundationPhases.CrashConvergesIff`).
- After taking its finalizer off an offering and deleting the namespace, the offering reconcile goes on to decode the config and to run the
  plugin, which for a DataFoundation offering then fails to read the StorageCluster; the machine keeps this.
- When every offering is already marked, the Secret reconcile ends without asking for a requeue; the progress results
  therefore speak of reconciles that happen.

## Model

| member | source | states |
|---|---|---|
| StorageSafety.StorageIsAlwaysHeld | controllers/managedfusionoffering_controller.go:124-197 | In every world that any run reaches (both controllers interleaved call by call, lost requests and replies, crashes, conflicting edits, any number of offerings per namespace), a namespace with a StorageCluster has an offering that still carries the agent's finalizer |
| StorageSafety.RunKeepsInv | controllers/managedfusionoffering_controller.go:160-197 | The inductive invariant behind it: what each reconcile in flight remembers is still true of the server, or its next update fails on the resourceVersion |
| StorageSafety.DoKeepsInv | controllers/managedfusionoffering_controller.go:124-197 | One event of any kind (a call by either controller with any fate, a crash, a start, anybody else's action) preserves the invariant |
| ConcurrencyControl.AgentTouchesOnlyItsFinalizer | controllers/managedfusionoffering_controller.go:160-181 | Whatever others did between the agent's read and its write, an agent call changes no offering except for the agent's own finalizer, the version and the deletion mark; it creates none, and one vanishes only if nobody else's finalizer is on it |
| ConcurrencyControl.AgentNeverDownscales | controllers/datafoundation.go:269-322 | No agent call lowers the device-set count of any StorageCluster, even when others edit the cluster between the read and the write; a count it changes becomes the target that DeviceSets computes from the offering's capacity and the count it replaces |
| UninstallSafety.ReleaseIsSafeWithinItsWindow | controllers/managedfusion_controller.go:347-355 | The finalizer leaves the Secret only in a Secret reconcile that has read an empty offering list; unless an offering was created since that list, no offering and no StorageCluster is left |
| UninstallSafety.QuietReleaseLeavesNothing | controllers/managedfusion_controller.go:312-358 | If no offering is created once the Secret is deleting, no offering and no StorageCluster exists when the Secret's finalizer goes, before and after that call |
| UninstallSafety.QuietNamespaceDeletion | controllers/managedfusion_controller.go:881-891 | In such a run the same holds whenever the agent is about to delete its own namespace |
| LateOffering.ReleaseWithStorageLeft | controllers/managedfusion_controller.go:347-355 | The assumption is needed: from every world in which the Secret reconcile, with a current copy of the Secret, is about to drop the agent's finalizer, while no offering reconcile is under way and the two storage CRDs are recorded, an offering created now in any namespace without a StorageCluster can be installed before the Secret is let go |
| LateOffering.ReachableReleaseWithStorageLeft | controllers/managedfusion_controller.go:347-355 | And some run from the start does release the Secret with a StorageCluster present |
| TeardownOrder.EveryCallIsJustified | controllers/managedfusion_controller.go:312-358 | For every run and every position of its call log, each update, delete and namespace deletion was justified by what the same reconcile had seen earlier in the log |
| TeardownOrder.NamespacesGoLast | controllers/managedfusionoffering_controller.go:136-168 | The agent's namespace is deleted only after an empty offering list and after seeing the finalizer off the Secret; an offering's only after its StorageCluster read as NotFound and after seeing the finalizer off the offering; all in the same reconcile |
| TeardownOrder.StorageGoesOnlyWhenIdle | controllers/datafoundation.go:183-204 | A StorageCluster is deleted only by a reconcile that, in this order, read its offering as deleting, read phase Ready, and listed no storage consumer |
| TeardownOrder.StartsAreFresh | controllers/managedfusionoffering_controller.go:81-101 | A reconcile starts with a number that no entry of the log carries, so evidence under that number is its own |
| Restarts.ExitsAreBounded | main.go:175-202 | Over any run with crashes and CRDs coming and going, the missing-watch exits are at most the installations of gated CRDs |
| Restarts.GatedCallsAreRecorded | controllers/datafoundation.go:163-181 | No call of a gated phase of either plugin is issued while one of its two CRDs was unrecorded at the start of the process |
| UninstallProgress.PotentialDescends | controllers/managedfusion_controller.go:312-358 | With nothing new created, no event (failures and crashes included) raises the uninstall potential, and every productive one lowers it |
| UninstallProgress.ProductiveStepsAreBounded | controllers/managedfusion_controller.go:312-358 | So any run from a reachable world has at most Potential many productive steps, however long it is |
| UninstallEnabled.UnblockedMeansProgress | controllers/managedfusion_controller.go:312-358 | From any uninstall in which nobody else's finalizer is left, unless it is blocked one complete failure-free reconcile lowers the potential, for every list order, or restarts the process for a missing watch so that the next one does |
| UninstallEnabled.BlockedMeansWaiting | controllers/datafoundation.go:163-204 | Conversely, while every offering is marked and kept waiting by its StorageCluster or by a CRD that is neither recorded nor installed, no sequence of agent events, failures, crashes and restarts included, changes anything but versions |
| UninstallOutcomes.MarksEveryOffering | controllers/managedfusion_controller.go:318-346 | Whatever the order of the list, one complete Secret reconcile marks every offering and changes nothing else; those without a finalizer go |
| UninstallOutcomes.ReleasesTheSecret | controllers/managedfusion_controller.go:347-358 | With no offering left, one complete Secret reconcile makes the Secret vanish and the agent's namespace terminate, and changes nothing else |
| UninstallOutcomes.ReleasesTheOffering | controllers/managedfusionoffering_controller.go:125-159 | One complete reconcile of a marked offering without a StorageCluster removes exactly that offering and terminates its namespace, whatever CRDs are recorded |
| UninstallOutcomes.DeletesTheStorage | controllers/datafoundation.go:183-204 | One complete reconcile of a marked DataFoundation offering with a ready and unused StorageCluster deletes exactly that StorageCluster, or marks it if the operator guards it |
| UninstallOutcomes.RestartRecords | controllers/datafoundation.go:163-181 | With a CRD unrecorded but both installed, the reconcile ends the process without touching the cluster, and the next process has them recorded |
| UninstallRounds.OfferingRoundIsRun | controllers/managedfusionoffering_controller.go:81-101 | A complete offering reconcile terminates: it is a run of a start, served calls only, and a restart if the process exited, and it ends between two reconciles |
| UninstallRounds.SecretRoundIsRun | controllers/managedfusion_controller.go:213-253 | A complete Secret reconcile terminates and is a run of a start and served calls |
| UninstallTurns.AgentRunSettles | controllers/managedfusion_controller.go:312-358 | In an uninstall with the CRDs installed and every StorageCluster tended or on its way out, any run of the agent (both controllers interleaved, lost calls, crashes and restarts, offerings still to be marked included) keeps it so, adds no offering, keeps every offering's kind and config, and once all are marked and none is being installed adds no storage and makes none unready |
| UninstallCompletes.FullPassIsUseful | controllers/managedfusion_controller.go:312-358 | A full pass over the objects, with any other cooperating rounds in between and in any order, leaves less to do, whether or not offerings are marked when it begins. A full pass reconciles the Secret, reconciles every offering there was, and has the operator purge each deleted StorageCluster and make each unready one ready, and the consumers leave |
| UninstallCompletes.EveryScheduleCompletes | controllers/managedfusion_controller.go:312-358 | So every schedule with as many full passes as there was to do (the potential, storage to be settled, and one restart if a CRD is unrecorded) ends with the Secret gone |
| UninstallCompletes.FullPassExists | controllers/managedfusion_controller.go:312-358 | Until then a full pass can always be played |
| UninstallCompletes.SomeRoundIsUseful | controllers/managedfusion_controller.go:312-358 | Until then also some single round leaves less to do: a Secret reconcile, a reconcile of an offering, or what the operator or the consumers owe |
| UninstallCompletes.UninstallCompletes | controllers/managedfusion_controller.go:312-358 | So a schedule of at most that many rounds, all useful, ends the uninstall |
| OfferingReconcilers.OfferingReconciler.Reconcile | controllers/managedfusionoffering_controller.go:81-122 | From any values an earlier reconcile left in the receiver fields, one execution is a complete reconcile of this request in the world it finds: it starts once, issues exactly the machine's calls, ends with the call after which it is idle, and returns what that call decides |
| OfferingReconcilers.FieldsPlayNoPart | controllers/managedfusionoffering_controller.go:103-122 | Two such executions of one request in the same world that meet the same events in the same order run the same calls, leave the same world and return the same, whatever was left in the fields |
| OfferingReconcilers.RequeueIff | controllers/datafoundation.go:192-199 | A requeue is asked for if and only if the last call listed storage consumers and found some |
| OfferingReconcilers.FailureIsError | controllers/managedfusionoffering_controller.go:95-101 | A call that fails ends the reconcile with an error, whichever it is |
| OfferingReconcilers.NotFoundIsError | controllers/managedfusionoffering_controller.go:95-101 | So does a write, or a gate, that meets no object |
| OfferingReconcilers.GoneIsDeleted | controllers/managedfusionoffering_controller.go:270-275 | A namespace or StorageCluster that is gone already counts as deleted |
| Transcripts.RoundFollowsTheScript | controllers/managedfusionoffering_controller.go:124-197 | For every offering, cluster and set of recorded CRDs: the calls of a complete reconcile are exactly those of a written-out script (finalizer, OLM objects, the first missing gate, each plugin's phases in order, the deletion branch), and an offering that is not marked then holds the finalizer and is installed or refused, with nothing else changed |
| Transcripts.InstallsTheStorage | controllers/datafoundation.go:262-302 | After a complete reconcile of an unmarked DataFoundation offering with a usable config and recorded CRDs its namespace has a StorageCluster whose count is at least the one found and at least the one for the capacity, and one of the two; no other StorageCluster changed |
| Transcripts.ServedExecution | controllers/managedfusionoffering_controller.go:81-101 | Every execution whose calls are all served issues that script and returns what an outcome table says: finished, error, requeue, or the process ends |
| OfferingReconcilers.OfferingReconciler.ReconcilePhases | controllers/managedfusionoffering_controller.go:124-197 | Both branches on the deletion timestamp, the config decoding and the plugin follow the machine, whatever the replies are and whatever others do in between |
| OfferingReconcilers.OfferingReconciler.PluginReconcile | controllers/managedfusionoffering_controller.go:328-337 | The CRD gates and the two plugins follow the machine; a CRD found after the start ends the process |
| OfferingReconcilers.OfferingReconciler.ReconcileStorageCluster | controllers/datafoundation.go:262-302 | The last call of a successful CreateOrUpdate creates the StorageCluster with the count for the capacity when none was found, is the read when it is aligned and its count is no less (so nothing is written), and otherwise the versioned update to the larger count |
| OfferingReconcilers.OfferingReconciler.DeleteStorageCluster | controllers/datafoundation.go:183-204 | The guarded delete of the StorageCluster follows the machine, and returns what its last call decides: nothing to do when not ready, a requeue exactly when consumers were found |
| SecretReconcilers.SecretReconciler.Reconcile | controllers/managedfusion_controller.go:213-253 | From any Secret an earlier reconcile left in the receiver field, one execution is a complete reconcile of the Secret in the world it finds: it starts once, issues exactly the machine's calls, ends with the call after which it is idle, and returns what that call and the number of failed deletes decide |
| SecretReconcilers.SecretFieldsPlayNoPart | controllers/managedfusion_controller.go:255-309 | Two such executions in the same world that meet the same events in the same order run the same calls and return the same, whatever was left in the field |
| SecretReconcilers.AnyFailureIsError | controllers/managedfusion_controller.go:318-358 | Whichever call of a Secret reconcile fails, a delete in the loop included, it returns an error and never a requeue |
| SecretReconcilers.NotFoundIsError | controllers/managedfusion_controller.go:360-401 | A write or list that meets no object ends it with an error |
| SecretReconcilers.LoopIgnoresReplies | controllers/managedfusion_controller.go:327-339 | The loop goes on alike whatever a delete returned |
| SecretTranscripts.SecretRoundFollowsTheScript | controllers/managedfusion_controller.go:311-403 | For every Secret, every set of offerings and every list order: the calls of a complete Secret reconcile are exactly those of a written-out script (deletes of the unmarked offerings in list order; release and namespace; or finalizer, the nine common objects and each egress object whose own CRD was recorded) |
| SecretTranscripts.ServedSecretExecution | controllers/managedfusion_controller.go:213-253 | Every execution whose calls are all served issues that script and returns what an outcome table says: a requeue exactly while some offering had to be marked |
| SecretReconcilers.SecretReconciler.DeleteOfferings | controllers/managedfusion_controller.go:318-346 | The loop issues the machine's deletes, goes on after failures, and returns an error if any delete failed, else a requeue, and nothing to do exactly when every listed offering was already marked |
| SecretReconcilers.SecretReconciler.Uninstall | controllers/managedfusion_controller.go:312-358 | The deletion branch follows the machine from the list to the namespace deletion, and returns what its last call and the failed deletes decide |
| DataFoundationPhases.CrashConvergence | controllers/datafoundation.go:206-231 | Cut an attempt after any number of its writes, whatever errors it meets; the next full attempt ends with the same objects and the same error as a full attempt alone if and only if every phase that only the first one completed had nothing to change. This is so whenever the cut came before the CSV phase or both chose the same CSV; with the whole program as the cut, a second full attempt changes nothing |
| DataFoundationPhases.CrashConvergesIff | controllers/datafoundation.go:206-231 | In terms of the CSVs, for an error-free part of a first attempt and an error-free second one: they converge if and only if the cut came before the CSV phase, both chose the same CSV, or the first one's CSV needed no change |
| DataFoundationPhases.AttemptsConverge | controllers/datafoundation.go:206-231 | The same iff after any number of attempts, each cut anywhere |
| DataFoundationReconciler.ExecutionsConverge | controllers/datafoundation.go:206-231 | The same iff for any number of executed attempts, each ended anywhere by an error, a failing call or a crash; they converge outright when each was cut before its CSV phase or chose the same CSV |
| DataFoundationPhases.ClientCrashConvergence | controllers/datafoundationclient.go:126-145 | For a client offering, whatever errors occur: the attempts converge if and only if the first was cut before its CSV phase, both chose the same CSV, or the first one's CSV needed no change |
| DataFoundationPhases.ChangeIsIdempotent | controllers/datafoundation.go:236-466 | Each phase applied to its own result is the identity: owner reference, no-downscale count, resources, labels, Rook settings |
| Phases.ResumeSame | controllers/datafoundation.go:206-231 | Any list of idempotent phases, cut anywhere and run again from its start, gives the same objects and error as one run |
| Phases.ResumeIff | controllers/datafoundation.go:206-231 | After any run, cut or not, another list of phases ends as it would have alone if and only if every phase that only the first run completed had nothing to change |
| DataFoundationPhases.OrderOfListsDoesNotMatter | controllers/datafoundation.go:328-369 | Listing the monitors in another order, or with repetitions, changes neither result nor error of a full attempt |
| DataFoundationPhases.PassLabels | controllers/datafoundation.go:332-341 | One labelling loop puts the label on every listed object, keeps all else of it, and touches nothing else |
| DataFoundationPhases.OneCsvIsChosen | controllers/managedfusionoffering_controller.go:306-319 | With at most one CSV of the operator's prefix in the namespace, two attempts choose alike in whatever order it is listed |
| DataFoundationPhases.OneClientCsvIsChosen | controllers/datafoundationclient.go:173-187 | The same for the client operator's prefix |
| Phases.ExecPointwise | controllers/datafoundation.go:206-231 | A run without errors changes each object it names by its phase, once, and leaves every other object alone, independently of order |
| OfferingDeliveries.FullAttemptDelivers | controllers/datafoundation.go:206-231 | After an error-free attempt every object it is responsible for, by its name, is as promised and otherwise as it was found: the key between its marker lines without surrounding white space; one device set, the template's, with the count for the capacity, or that of the first set named default if larger; policies; the first listed CSV of the prefix with the same deployments and containers, each with its table entry; Rook config and labels with all other entries kept; OCSInitialization; other owners keep their references; every other object is untouched |
| OfferingDeliveries.FinishedRunDelivers | controllers/datafoundation.go:206-231 | Every executed attempt that finished has delivered the same |
| OfferingDeliveries.SecondAttemptRewrites | controllers/datafoundation.go:430-449 | After an error-free attempt the next one changes nothing and issues writes for exactly the existing monitors and the Rook ConfigMap |
| OfferingDeliveries.FullClientAttemptDelivers | controllers/datafoundationclient.go:148-251 | For a client offering: both claims refer to the StorageClient with their own types, the StorageClient carries ticket and endpoint, it and the KMS ConfigMap are owned as controller, the first listed client CSV gains only a plain owner, every other object is untouched |
| OfferingDeliveries.FinishedClientRunDelivers | controllers/datafoundationclient.go:126-145 | Every executed client attempt that finished has delivered the same |
| OfferingDeliveries.SecondClientAttemptRewrites | controllers/datafoundationclient.go:173-187 | The next client attempt writes exactly that CSV again and changes nothing |
| OfferingDeliveries.AttemptSucceedsIff | controllers/datafoundation.go:206-466 | An attempt has no error if and only if the key is not empty, the capacity is positive, a listed CSV of the prefix has only known containers, and the Rook ConfigMap and the OCSInitialization exist |
| OfferingDeliveries.ClientAttemptSucceedsIff | controllers/datafoundationclient.go:148-187 | A client attempt has no error if and only if endpoint and ticket are not empty and a client CSV is listed |
| OfferingDeliveries.FailedAttemptStops | controllers/datafoundation.go:206-231 | After an attempt that failed, every object that comes before the failing phase in the written-out order is as promised and every one after it is untouched |
| OfferingDeliveries.ProgramInOrder | controllers/datafoundation.go:206-231 | The program names its objects in that order, whatever the lists |
| OfferingDeliveries.ClientProgramInOrder | controllers/datafoundationclient.go:126-145 | A client attempt takes the CSV first and then its objects in that order |
| OfferingDeliveries.PublicKeyIs | controllers/datafoundation.go:247-250 | The stored key is the given one with white space cut off both ends, and nothing else, between the two marker lines |
| DataFoundationReconciler.DataFoundation.ReconcilePhases | controllers/datafoundation.go:206-231 | However it ends, the executed install branch has done a prefix of the program, writes included; all of it, with the same error, unless a call failed |
| DataFoundationReconciler.DataFoundation.ReconcileStorageCluster | controllers/datafoundation.go:262-302 | Refuses a capacity that is not positive before any call; otherwise leaves the object its phase wants, through the copied template, or is cut |
| DataFoundationReconciler.DataFoundation.ReconcileMonitoringResources | controllers/datafoundation.go:328-369 | Three list-and-update loops run their part of the program, or a prefix of it when a call fails |
| DataFoundationReconciler.DataFoundation.SizeDeployments | controllers/datafoundation.go:381-390 | The nested loops set the resources of every container exactly when the table lists all of them; otherwise they stop (the panic) |
| DataFoundationReconciler.DataFoundation.ReconcileCSV | controllers/datafoundation.go:371-397 | Refuses when no CSV has the prefix or a container is unknown; otherwise the CSV gets owner and resources, written only when it differs |
| DataFoundationReconciler.DataFoundation.ReconcileRookCephOperatorConfig | controllers/datafoundation.go:430-449 | Writes the ConfigMap with both CSI switches off whether or not it differed, also when it had no data, and refuses when it does not exist |
| DataFoundationReconciler.GetCSVByPrefix | controllers/managedfusionoffering_controller.go:306-319 | The first listed name with the prefix, if there is one |
| DataFoundationReconciler.Save | controllers/managedfusionoffering_controller.go:281-304 | Writes the mutated object exactly when it differs from the one found |
| DataFoundationClientReconciler.DataFoundationClient.ReconcilePhases | controllers/datafoundationclient.go:126-145 | The executed install branch of the client plugin has done a prefix of its program, and all of it, with the same error, unless a call failed |
| DataFoundationClientReconciler.DataFoundationClient.ReconcileStorageClient | controllers/datafoundationclient.go:148-171 | Refuses an empty endpoint, then an empty ticket, before any call; otherwise leaves the owned StorageClient with both |
| DeviceSets.CountIsExact | controllers/datafoundation.go:275 | For 0 < capacity <= 2^53 the two rounded float operations and the ceiling give exactly (capacity + 3) / 4, for every result that round-to-nearest-even (section 4.3.1 of IEEE 754-2019) allows |
| DeviceSets.DesiredCountIsTheFloatComputation | controllers/datafoundation.go:275 | For every capacity, DesiredCount is the only value the float expression can have with both operations rounded |
| DeviceSets.CountInTheNextBinade | controllers/datafoundation.go:275 | The bound is sharp: for 2^53 < capacity < 2^54 the computed count is the exact ceiling, and covers the capacity, if and only if capacity is not 1 modulo 4 |
| Float64.ConversionIsUnique | controllers/datafoundation.go:275 | Rounding an integer to nearest has one answer, the one with the 53 leading bits kept and ties to even |
| Float64.ConversionRounds | controllers/datafoundation.go:275 | That answer is indeed representable, nearest, and even on ties |
| Float64.QuarterIsExact | controllers/datafoundation.go:275 | Dividing a converted capacity by four loses nothing |
| DeviceSets.CountIsLeastCover | controllers/datafoundation.go:277-299 | After any sequence of requests the count is the least one that is at least the initial count and every valid request's ceiling |
| DeviceSets.CountNeverFalls | controllers/datafoundation.go:314-322 | Further requests never lower the count |
| DeviceSets.CapacityIsCovered | controllers/datafoundation.go:269-302 | Four TiB times the count covers the capacity of every valid request ever made, up to 2^53 |
| DeviceSets.StorageClusterObject.Reconcile | controllers/datafoundation.go:265-302 | The stored device sets become fresh copies of the template's with the target count in the default set; the shared template is unchanged; a capacity that is not positive changes nothing |
| DeviceSets.DesiredIsReadBack | controllers/datafoundation.go:277-281 | The count the next reconcile reads back is the one this reconcile wrote |
| DeviceSets.DesiredIsSized | controllers/datafoundation.go:275-292 | The sets written are the template with the count for the capacity, or the count found if larger; found is the first set named default, or 0 without one |
| DeviceSets.CopyWithCount | controllers/datafoundation.go:283-292 | The count written through the pointer into the deep copy appears in the copy, in the first set of the default name, and nowhere else |
| DeviceSets.FindStorageDeviceSet | controllers/datafoundation.go:304-312 | Returns the address of the first set of the name, or null when no set has it |
| DeviceSets.SetDeviceSetCount | controllers/datafoundation.go:314-322 | The count becomes the larger of the desired and the current one |
| DeviceSets.DeepCopy | controllers/datafoundation.go:284 | The copy has the same contents in cells that are all new and all distinct |
| AgentObjects.PrefixKeptIff | controllers/managedfusion_controller.go:369-401 | For every sequence of CRDs recorded by successive processes: all histories of failing reconciles and restarts that record them keep the managed objects a prefix of the enabled phase order if and only if no CRD recorded earlier is missing at the end and no process that had the policy CRD without the firewall CRD is followed by an end that has both |
| AgentObjects.ObjectsFormAPrefix | controllers/managedfusion_controller.go:369-401 | Histories whose recorded CRDs agree in this sense keep the whole prefix, whatever fails |
| AgentObjects.CommonObjectsFormAPrefix | controllers/managedfusion_controller.go:369-401 | With any changes of CRDs between restarts, the nine unconditional objects still form a prefix and an egress object exists only after all nine |
| AgentObjects.NoDanglingReferences | controllers/managedfusion_controller.go:511-598 | In every reachable state every Secret key that an existing Prometheus or AlertmanagerConfig refers to is there; the alertmanager Secret holds both keys non-empty; the e-mail receiver is complete whenever it is present |
| AgentHistory.CrashConvergence | controllers/managedfusion_controller.go:369-401 | Cut a reconcile after any number of phases; the next one of the same process ends with the same objects and error as one alone |
| AgentHistory.AlertmanagerReadsTheConfig | controllers/managedfusion_controller.go:511-598 | After an error-free reconcile the references of the AlertmanagerConfig lead to the service key and password of the config Secret, and the e-mail receiver exists if and only if there are addresses |
| AgentHistory.EgressObjectsAgree | controllers/managedfusion_controller.go:738-783 | With both CRDs, an error-free reconcile leaves a firewall and a network policy with the same verdict for all traffic |
| AgentHistory.HistoryShowsIff | controllers/managedfusion_controller.go:239-244 | Two runs from different leftovers of earlier reconciles have the same writes and error if and only if the leftovers agree, the reconcile is cut before the Prometheus phase, or it does not reach the token with the entry absent |
| AgentHistory.EntryMakesHistoryIrrelevant | controllers/managedfusion_controller.go:239-309 | Whenever the Secret carries remote_write_config, well formed or not, writes and error do not depend on earlier reconciles |
| AgentHistory.RemovedTokenStays | controllers/managedfusion_controller.go:467-474 | A token outlives its removal from the Secret as long as the process runs, and is dropped by a new process |
| AgentDeliveries.FullReconcileDelivers | controllers/managedfusion_controller.go:369-401 | After an error-free reconcile every object of the process is controlled by the config Secret and has the content that the Secret, the field it began with and what it read determine: relabel config, Prometheus with image, cluster id, token and reference, alertmanager Secret and config with every receiver field, egress objects that let through exactly the listed traffic; an egress object whose CRD was not recorded is untouched |
| AgentDeliveries.ReconcileSucceedsIff | controllers/managedfusion_controller.go:213-401 | A reconcile that is no uninstall succeeds if and only if the entries decode, each value a managed object needs is there, and no managed object belongs to another controller |
| AgentDeliveries.TokenIsUsed | controllers/managedfusion_controller.go:239-244 | Prometheus carries the token of the Secret, or without an entry the one the reconcile began with, and the next reconcile begins with the same |
| AgentDeliveries.EmptyTokenIsRefused | controllers/managedfusion_controller.go:461-465 | An empty token is refused at the Prometheus phase, which leaves Prometheus alone |
| AgentDeliveries.FieldLeftBehind | controllers/managedfusion_controller.go:225-244 | What any reconcile leaves in the field, refused ones included; a new process begins with none |
| AgentDeliveries.PhasesInOrder | controllers/managedfusion_controller.go:369-401 | The phases come in the written-out order for every set of CRDs |
| AgentReconciler.ManagedFusionReconciler.Reconcile | controllers/managedfusion_controller.go:213-309 | One execution, from any leftover fields and with any call failing, leaves the field and the objects of the modelled Reconcile or of that cut after some phases |
| AgentReconciler.ManagedFusionReconciler.ReconcilePhases | controllers/managedfusion_controller.go:369-401 | The straight-line phases, the two conditional ones included, run the enabled order or a prefix of it |
| AgentReconciler.ManagedFusionReconciler.ReconcilePrometheus | controllers/managedfusion_controller.go:408-485 | The checks come in the order own, image, cluster version, token, and nothing is written when one fails |
| AgentReconciler.ManagedFusionReconciler.ReconcileAlertmanagerSecret | controllers/managedfusion_controller.go:511-531 | Nothing is written unless both values are non-empty, the service key being looked at first |
| AgentReconciler.ManagedFusionReconciler.ReconcileAlertmanagerConfig | controllers/managedfusion_controller.go:533-598 | Nothing is written unless all seven checks pass; the e-mail receiver is there exactly when there are addresses |
| AgentReconciler.ManagedFusionReconciler.CheckAlerting | controllers/managedfusion_controller.go:541-567 | The first failing check decides the error |
| AgentReconciler.ManagedFusionReconciler.ReconcileEgressNetworkPolicy | controllers/managedfusion_controller.go:762-783 | Skipped without its CRD; otherwise the policy is the rule-by-rule translation of the built list |
| AgentReconciler.ManagedFusionReconciler.InitReconciler | controllers/managedfusion_controller.go:255-309 | Resets the two parsed configs and leaves the remote write field alone |
| EgressRules.BuiltMeaning | controllers/managedfusion_controller.go:785-849 | For every template, CIDR string, SMTP host and traffic: under first-match and default-allow semantics the built list allows it if and only if some allow rule matches or no deny rule does |
| EgressRules.OrderDoesNotMatter | controllers/managedfusion_controller.go:789-798 | Reordering or repeating template rules and CIDRs never changes a verdict |
| EgressRules.TemplateDeniesTheRest | templates/egressfirewall.go:23-52 | With the shipped template an IPv4 destination passes if and only if one of the named hosts, the fixed range, a VPC CIDR or the SMTP host matches |
| EgressRules.LinesAreAllowed | controllers/managedfusion_controller.go:814-825 | End to end from the metadata body: every non-empty line is an allowed range |
| EgressRules.BuiltTranslatesFaithfully | controllers/managedfusion_controller.go:851-879 | For every list built from a port-free template, the translated policy has the verdict of the firewall for all traffic |
| EgressRules.TranslationKeepsMeaning | controllers/managedfusion_controller.go:851-879 | The same for any port-free list, rule for rule in order |
| EgressRules.TranslationIff | controllers/managedfusion_controller.go:851-879 | For any list, with or without ports: the translation, which drops ports, keeps the verdict for all traffic if and only if from the first rule with ports on every rule not repeated from earlier allows |
| EgressRules.GetEgressFirewallDesiredState | controllers/managedfusion_controller.go:785-849 | The loops build a list if and only if the CIDR entry is there and the host is not empty; for all traffic it allows exactly what an allow rule of the template, a CIDR of that entry or that host matches, or no deny rule does |
| EgressRules.DesiredStateMeans | controllers/managedfusion_controller.go:785-849 | The same of the specified list |
| EgressRules.AppendCidrs | controllers/managedfusion_controller.go:814-825 | One allow rule for each non-empty field, in order, after what was there |
| EgressRules.ToEgressNetworkPolicy | controllers/managedfusion_controller.go:851-879 | One policy rule for each rule, in order, with its type and destination |
| Cidrs.DecodeEncodeIsFields | utils/imds.go:33 | Every metadata body is read back as its non-empty newline- or semicolon-delimited fields, in order |
| Cidrs.DecodeEncodeIsLines | utils/imds.go:33 | These are the non-empty lines if and only if the body has no semicolon |
| Cidrs.RoundTrip | utils/imds.go:33 | A list of CIDRs, one per line, comes back as it was |
| AlertMatcher.MatchesExactlyTheList | templates/alertmanagerconfig.go:126-128 | For every non-empty list of metacharacter-free names, the printed expression, parsed back and searched for, matches exactly the listed names |
| AlertMatcher.PrintedParsesBack | templates/alertmanagerconfig.go:126-128 | Splitting the printed text at the bars gives back one anchored branch for each name |
| AlertMatcher.EmptyListMatchesEmptyName | templates/alertmanagerconfig.go:126-128 | For the empty list it matches the empty name and nothing else |
| Backoff.Schedule | cmd/awsDataGather/main.go:81-100 | For every trace of outcomes each sleep is 300 after a success and min(2^(k-1), 300) after k failures in a row, and the backoff stays within [1, 300] |
| Backoff.ScheduleOfAnOutage | cmd/awsDataGather/main.go:81-100 | Wherever in a trace an outage begins, the sleeps over it are the same sequence |
| Backoff.OutageTotal | cmd/awsDataGather/main.go:81-100 | Total sleep over k failures in a row is 2^k - 1 up to nine and 511 + 300 (k - 9) beyond |
| Backoff.SleepsFollow | cmd/awsDataGather/main.go:81-100 | Step by step: 300 after a success, 1 after the first failure, and after each further one twice the last sleep, up to 300 |
| PodNames.DeploymentNameFromPodName | utils/utils.go:150-162 | The reassigned index computes the parse that the lemmas below are about |
| PodNames.ParserInvertsNaming | utils/utils.go:150-162 | For any deployment name, hyphens included, and hyphen-free hash and uid, the parser returns the deployment name |
| PodNames.FailsExactlyBelowTwoHyphens | utils/utils.go:150-162 | It fails if and only if the name has fewer than two hyphens |
| PodNames.AcceptedNamesDecompose | utils/utils.go:150-162 | Every accepted name is a pod name of the returned deployment |
| PodNames.DecompositionIsUnique | utils/utils.go:150-162 | In exactly one way |
| ObjectMeta.UpsertRefinesMap | utils/utils.go:118-148 | Writing an owner reference into the list is insertion into the map keyed by API version, kind, name and uid |
| ObjectMeta.UpsertIdempotent | utils/utils.go:118-148 | Repeating a call changes nothing |
| ObjectMeta.UpsertKeepsOthers | utils/utils.go:118-148 | References to other owners keep value and order |
| ObjectMeta.UpsertKeepsUnique | utils/utils.go:118-148 | Unique keys stay unique |
| ObjectMeta.LastCallWins | utils/utils.go:118-148 | After any sequence of calls each owner carries the reference, controller flag included, of the last call for it |
| ObjectMeta.UnmentionedOwnersStay | utils/utils.go:118-148 | Owners never mentioned keep their reference, and uniqueness survives any sequence |
| ObjectMeta.Metadata.AddOwnerReference | utils/utils.go:118-148 | The in-place loop is that insertion, and an unknown owner type changes nothing |
| ObjectMeta.Metadata.AddFinalizer | utils/utils.go:100-107 | Appends exactly when absent, and says so |
| ObjectMeta.Metadata.RemoveFinalizer | utils/utils.go:109-116 | Removes every copy, keeps the rest in order, and reports whether there was one |
| ObjectMeta.Metadata.AddLabel | utils/utils.go:82-89 | Sets one label, on objects without any labels too |
| ObjectMeta.WithoutIsExact | utils/utils.go:50-58 | Removal drops every copy of the string and no other element |
| ObjectMeta.WithoutUndoesAppend | utils/utils.go:50-58 | Removing undoes adding |
| ObjectMeta.Remove | utils/utils.go:50-58 | The loop is that removal |
| ObjectMeta.Contains | utils/utils.go:40-48 | True if and only if the string is in the list |

## Left out

- The Kubernetes client library, informer cache, watches, predicates and manager setup; the API server is `Cluster` or `ObjectStore` instead.
- Decoding of YAML and JSON, URL parsing, file reading and HTTP: their results are inputs that may be errors.
- Server-side defaulting, admission, garbage collection by owner reference and the ocs-operator: only as actions of others.
- In the protocol, a phase that plays no part in it (operator group, monitors, network policies and the like) is a single call
  that succeeds or fails; what these phases do to their objects is in `DataFoundationPhases` and `AgentPhases`, where nobody else acts during an attempt.
- The contents of the Prometheus, alertmanager, network policy and service templates, the resource table and the relabel config:
  parameters. The template of the alertmanager receivers is represented by the fields the agent fills in.
- The OLM objects (operator group, catalog source, subscription): one CreateOrUpdate each with static contents, so they would only add easy members.
- The e-mail addresses of the alertmanager receiver stay a list, which the code prints joined by commas.
- The search for the kube-rbac-proxy image in the agent's CSV: an input of the Prometheus phase.
- Scheduling of reconciles: completion is stated for schedules with enough full passes, not as something a scheduler must bring about.
- `getRelableRegex`, `Retry`, `MapItems`, `MarshalRookResourceRequirements`, `AddAnnotation`, generated code, RBAC and manifests.
- The byte encoding of strings: they are sequences of characters.
