/** One reconcile of a ManagedFusionOffering, as the API calls it issues and what it does
    with each reply (controllers/managedfusionoffering_controller.go, controllers/datafoundation.go,
    controllers/datafoundationclient.go). Nothing survives from one reconcile to the next. */
module OfferingMachine {
  import opened Wrappers
  import opened ObjectMeta
  import opened Cluster
  import DeviceSets

  /** Where the reconcile stands: the call it issues next. */
  datatype Pc =
    | CheckStorage          // dfIsReadyToBeRemoved
    | DropFinalizer
    | DropNamespace
    | AddFinalizer
    | Olm(step: nat)        // operator group, catalog source, subscription
    | Gate(crd: nat)        // look for a CRD installed after the agent started
    | ReadForDelete
    | CheckConsumers
    | DropStorage
    | OnboardingKey
    | ReadForUpdate         // the read half of CreateOrUpdate on the StorageCluster
    | WriteNewStorage
    | WriteStorage
    | AfterStorage(step: nat)
    | ClientPhase(step: nat)

  datatype Local =
    | Idle
    | Reading(rid: nat, key: Key)
    | Working(rid: nat, key: Key, pc: Pc, obj: Offering, sc: Option<StorageCluster>)

  /** Continue, or stop the whole process because a CRD has no watch (utils.HandleMissingWatch). */
  datatype Next = Go(local: Local) | Exit

  function Gates(kind: Kind): seq<string> {
    match kind
    case DF => [STORAGE_CLUSTER_CRD, OCS_INITIALIZATION_CRD]
    case DFC => [STORAGE_CLIENT_CRD, STORAGE_CLASS_CLAIM_CRD]
  }

  const OLM: seq<Resource> := [OperatorGroup, CatalogSource, Subscription]
  const AFTER_STORAGE: seq<Resource> :=
    [MonitoringLabels, OcsCsv, CephNetworkPolicy, ProviderNetworkPolicy, RookConfigMap, OcsInitialization]
  const CLIENT: seq<Resource> := [OcsClientCsv, StorageClient, BlockClaim, FilesystemClaim, KmsConfigMap]

  function Nth(phases: seq<Resource>, i: nat): Resource {
    if i < |phases| then phases[i] else OperatorGroup
  }

  function NthGate(kind: Kind, i: nat): string {
    if i == 0 then Gates(kind)[0] else Gates(kind)[1]
  }

  /** The count CreateOrUpdate writes, given the count now in the StorageCluster (0 if none). */
  function NewCount(config: Config, current: int): int {
    if config.Malformed? then current else DeviceSets.TargetCount(config.capacity, current)
  }

  /** The StorageCluster as read, with the agent's fields set. */
  function Desired(l: Local): StorageCluster
    requires l.Working?
  {
    var sc := if l.sc.Some? then l.sc.value else StorageCluster(0, false, false, false, 0, true);
    sc.(count := NewCount(l.obj.config, sc.count), aligned := true)
  }

  function NextCall(l: Local): Call
    requires !l.Idle?
  {
    if l.Reading? then GetOffering(l.key)
    else
      match l.pc
      case CheckStorage => GetStorage(l.key.ns)
      case DropFinalizer => UpdateOffering(l.key, l.obj.(finalizers := Without(l.obj.finalizers, FINALIZER)))
      case DropNamespace => Call.DeleteNamespace(l.key.ns)
      case AddFinalizer => UpdateOffering(l.key, l.obj.(finalizers := l.obj.finalizers + [FINALIZER]))
      case Olm(i) => Ensure(Nth(OLM, i))
      case Gate(i) => GetCrd(NthGate(l.obj.kind, i))
      case ReadForDelete => GetStorage(l.key.ns)
      case CheckConsumers => ListConsumers
      case DropStorage => DeleteStorage(l.key.ns)
      case OnboardingKey => Ensure(OnboardingSecret)
      case ReadForUpdate => GetStorage(l.key.ns)
      case WriteNewStorage => CreateStorage(l.key.ns, Desired(l).count)
      case WriteStorage => UpdateStorage(l.key.ns, Desired(l))
      case AfterStorage(i) => Ensure(Nth(AFTER_STORAGE, i))
      case ClientPhase(i) => Ensure(Nth(CLIENT, i))
  }

  /** The branch on DeletionTimestamp inside the plugin's reconcilePhases. */
  function EnterPlugin(l: Local): Local
    requires l.Working?
  {
    match l.obj.kind
    case DF =>
      if l.obj.deleting then l.(pc := ReadForDelete)
      else if l.obj.config.Malformed? || l.obj.config.validationKey == "" then Idle
      else l.(pc := OnboardingKey)
    case DFC =>
      if l.obj.deleting then Idle else l.(pc := ClientPhase(0))
  }

  /** Skip the gates whose CRD was recorded when the agent started. */
  function PassGates(l: Local, known: set<string>): Local
    requires l.Working?
  {
    var gates := Gates(l.obj.kind);
    if gates[0] !in known then l.(pc := Gate(0))
    else if gates[1] !in known then l.(pc := Gate(1))
    else EnterPlugin(l)
  }

  /** Decode the config, then run the plugin. */
  function EnterConfig(l: Local, known: set<string>): Local
    requires l.Working?
  {
    if l.obj.config.Malformed? then Idle else PassGates(l, known)
  }

  function Opened(rid: nat, key: Key, o: Offering): Local {
    Working(rid, key,
            if o.deleting then CheckStorage else if FINALIZER in o.finalizers then Olm(0) else AddFinalizer,
            o, None)
  }

  function AfterReply(l: Local, known: set<string>, r: Reply): Next
    requires !l.Idle?
  {
    if l.Reading? then Go(if r.AnOffering? then Opened(l.rid, l.key, r.offering) else Idle)
    else
      match l.pc
      case CheckStorage =>
        Go(if r.NotFound? then
             l.(pc := if FINALIZER in l.obj.finalizers then DropFinalizer else DropNamespace)
           else if r.AStorage? then EnterConfig(l, known)
           else Idle)
      case DropFinalizer =>
        Go(if r.AnOffering? then l.(pc := DropNamespace, obj := r.offering) else Idle)
      case DropNamespace =>
        Go(if r.Done? || r.NotFound? then EnterConfig(l, known) else Idle)
      case AddFinalizer =>
        Go(if r.AnOffering? then l.(pc := Olm(0), obj := r.offering) else Idle)
      case Olm(i) =>
        Go(if !r.Done? then Idle
           else if i < 2 then l.(pc := Olm(i + 1))
           else EnterConfig(l, known))
      case Gate(_) => if r.Done? then Exit else Go(Idle)
      case ReadForDelete =>
        Go(if r.AStorage? && r.sc.ready then l.(pc := CheckConsumers) else Idle)
      case CheckConsumers =>
        Go(if r.Count? && r.n == 0 then l.(pc := Pc.DropStorage) else Idle)
      case DropStorage => Go(Idle)
      case OnboardingKey =>
        Go(if r.Done? && l.obj.config.Config? && l.obj.config.capacity > 0 then l.(pc := ReadForUpdate) else Idle)
      case ReadForUpdate =>
        Go(if r.NotFound? then l.(pc := WriteNewStorage)
           else if r.AStorage? then
             var read := l.(sc := Some(r.sc));
             if Desired(read) == r.sc then read.(pc := AfterStorage(0)) else read.(pc := WriteStorage)
           else Idle)
      case WriteNewStorage => Go(if r.Done? then l.(pc := AfterStorage(0)) else Idle)
      case WriteStorage => Go(if r.Done? then l.(pc := AfterStorage(0)) else Idle)
      case AfterStorage(i) => Go(if r.Done? && i < 5 then l.(pc := AfterStorage(i + 1)) else Idle)
      case ClientPhase(i) =>
        Go(if !r.Done? || i >= 4 then Idle
           else if i == 0 && (l.obj.config.Malformed? || l.obj.config.endpoint == "" ||
             l.obj.config.ticket == "") then Idle
           else l.(pc := ClientPhase(i + 1)))
  }

  /** The program points of a reconcile of an offering that is being deleted. */
  predicate Teardown(pc: Pc) {
    pc.CheckStorage? || pc.DropFinalizer? || pc.DropNamespace? || pc.ReadForDelete? || pc.CheckConsumers? ||
      pc.DropStorage?
  }

  /** The program points that only an offering not marked for deletion reaches. */
  predicate Install(pc: Pc) {
    pc.AddFinalizer? || pc.Olm? || pc.OnboardingKey? || pc.ReadForUpdate? || pc.WriteNewStorage? || pc.WriteStorage?
    || pc.AfterStorage? || pc.ClientPhase?
  }

  /** The calls that write an object whose CRD the plugin gates. */
  predicate Gated(pc: Pc) {
    pc.DropStorage? || pc.OnboardingKey? || pc.WriteNewStorage? || pc.WriteStorage? || pc.AfterStorage? ||
      pc.ClientPhase?
  }
}
