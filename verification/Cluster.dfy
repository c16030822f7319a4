/** The API server as the two reconcilers see it: versioned objects with finalizers and
    deletion marks, the calls the agent issues, and how one call is served. */
module Cluster {
  import opened Wrappers
  import opened ObjectMeta

  const FINALIZER := "misf.ibm.com/finalizer"
  const AGENT_NAMESPACE := "managed-fusion"

  const STORAGE_CLUSTER_CRD := "storageclusters.ocs.openshift.io"
  const OCS_INITIALIZATION_CRD := "ocsinitializations.ocs.openshift.io"
  const STORAGE_CLIENT_CRD := "storageclients.ocs.openshift.io"
  const STORAGE_CLASS_CLAIM_CRD := "storageclassclaims.ocs.openshift.io"
  const EGRESS_FIREWALL_CRD := "egressfirewalls.k8s.ovn.org"
  const EGRESS_NETWORK_POLICY_CRD := "egressnetworkpolicies.network.openshift.io"

  datatype Kind = DF | DFC

  /** The offering's config string once decoded; decoding itself may fail. */
  datatype Config =
    | Malformed
    | Config(capacity: int, validationKey: string, ticket: string, endpoint: string)

  datatype Key = Key(ns: string, name: string)

  datatype Offering = Offering(
    version: nat, finalizers: seq<string>, deleting: bool, kind: Kind, config: Config)

  /** A StorageCluster. `guarded`: it carries finalizers of the ocs-operator.
      `aligned`: everything the agent writes except the count already has the desired value. */
  datatype StorageCluster = StorageCluster(
    version: nat, deleting: bool, guarded: bool, ready: bool, count: int, aligned: bool)

  /** The config Secret. `parses`: the three config entries can be decoded. */
  datatype Secret = Secret(version: nat, finalizers: seq<string>, deleting: bool, parses: bool)

  /** `storage` holds the ocs-storagecluster of each namespace that has one. `clock` is the
      next resourceVersion. */
  datatype Cluster = Cluster(
    offerings: map<Key, Offering>,
    storage: map<string, StorageCluster>,
    consumers: nat,
    secret: Option<Secret>,
    terminating: set<string>,
    crds: set<string>,
    clock: nat)

  /** Objects that the phases write and that play no part in the install/uninstall protocol. */
  datatype Resource =
    | OperatorGroup | CatalogSource | Subscription
    | OnboardingSecret | MonitoringLabels | OcsCsv | CephNetworkPolicy | ProviderNetworkPolicy
    | RookConfigMap | OcsInitialization
    | OcsClientCsv | StorageClient | BlockClaim | FilesystemClaim | KmsConfigMap
    | AgentObject(phase: nat)

  datatype Call =
    | GetOffering(key: Key)
    | UpdateOffering(key: Key, offering: Offering)
    | DeleteOffering(key: Key)
    | ListOfferings
    | GetStorage(ns: string)
    | CreateStorage(ns: string, count: int)
    | UpdateStorage(ns: string, sc: StorageCluster)
    | DeleteStorage(ns: string)
    | ListConsumers
    | GetSecret
    | UpdateSecret(secret: Secret)
    | DeleteNamespace(ns: string)
    | GetCrd(name: string)
    | Ensure(resource: Resource)

  datatype Item = Item(key: Key, deleting: bool)

  datatype Reply =
    | Failed
    | NotFound
    | Done
    | AnOffering(offering: Offering)
    | AStorage(sc: StorageCluster)
    | ASecret(secret: Secret)
    | Listed(items: seq<Item>)
    | Count(n: nat)

  /** Update by resourceVersion; the deletion mark is the server's. An object that is marked
      and holds no finalizer vanishes. */
  function PutOffering(c: Cluster, key: Key, o: Offering): Cluster {
    var stored := o.(version := c.clock);
    c.(offerings := if stored.deleting &&
      stored.finalizers == [] then c.offerings - {key} else c.offerings[key := stored],
       clock := c.clock + 1)
  }

  function PutSecret(c: Cluster, s: Secret): Cluster {
    var stored := s.(version := c.clock);
    c.(secret := if stored.deleting && stored.finalizers == [] then None else Some(stored),
       clock := c.clock + 1)
  }

  function PutStorage(c: Cluster, ns: string, sc: StorageCluster): Cluster {
    c.(storage := if sc.deleting && !sc.guarded then c.storage - {ns} else c.storage[ns := sc.(version := c.clock)],
       clock := c.clock + 1)
  }

  /** The items of a list reply, in the order the server happens to use. */
  function Items(c: Cluster, order: seq<Key>): seq<Item> {
    if order == [] || order[0] !in c.offerings then []
    else [Item(order[0], c.offerings[order[0]].deleting)] + Items(c, order[1..])
  }

  predicate Enumerates(c: Cluster, order: seq<Key>) {
    && (set key | key in order) == c.offerings.Keys
    && (forall i, j :: 0 <= i < j < |order| ==> order[i] != order[j])
  }

  /** Serve one call. `order` is the listing order; anything that is no listing of the
      offerings makes the list call fail. */
  function Serve(c: Cluster, call: Call, order: seq<Key>): (Cluster, Reply) {
    match call
    case GetOffering(key) =>
      (c, if key in c.offerings then AnOffering(c.offerings[key]) else NotFound)
    case UpdateOffering(key, o) =>
      if key !in c.offerings then (c, NotFound)
      else if c.offerings[key].version != o.version then (c, Failed)
      else (PutOffering(c, key, o.(deleting := c.offerings[key].deleting)),
            AnOffering(o.(deleting := c.offerings[key].deleting, version := c.clock)))
    case DeleteOffering(key) =>
      if key !in c.offerings then (c, NotFound)
      else (PutOffering(c, key, c.offerings[key].(deleting := true)), Done)
    case ListOfferings =>
      (c, if Enumerates(c, order) then Listed(Items(c, order)) else Failed)
    case GetStorage(ns) =>
      (c, if ns in c.storage then AStorage(c.storage[ns]) else NotFound)
    case CreateStorage(ns, count) =>
      if ns in c.storage then (c, Failed)
      else (PutStorage(c, ns, StorageCluster(0, false, false, false, count, true)), Done)
    case UpdateStorage(ns, sc) =>
      if ns !in c.storage then (c, NotFound)
      else if c.storage[ns].version != sc.version then (c, Failed)
      else (PutStorage(c, ns, c.storage[ns].(count := sc.count, aligned := sc.aligned)), Done)
    case DeleteStorage(ns) =>
      if ns !in c.storage then (c, NotFound)
      else (PutStorage(c, ns, c.storage[ns].(deleting := true)), Done)
    case ListConsumers => (c, Count(c.consumers))
    case GetSecret => (c, if c.secret.Some? then ASecret(c.secret.value) else NotFound)
    case UpdateSecret(s) =>
      if c.secret.None? then (c, NotFound)
      else if c.secret.value.version != s.version then (c, Failed)
      else (PutSecret(c, s.(deleting := c.secret.value.deleting)),
            ASecret(s.(deleting := c.secret.value.deleting, version := c.clock)))
    case DeleteNamespace(ns) => (c.(terminating := c.terminating + {ns}), Done)
    case GetCrd(name) => (c, if name in c.crds then Done else NotFound)
    case Ensure(_) => (c, Done)
  }

  /** What everybody but the agent may do between two of its calls. Nobody else takes the
      agent's finalizer off an object or creates a StorageCluster. */
  datatype Action =
    | CreateOffering(key: Key, finalizers: seq<string>, kind: Kind, config: Config)
    | EditOffering(key: Key, finalizers: seq<string>, kind: Kind, config: Config)
    | MarkOffering(key: Key)
    | EditStorage(ns: string, guarded: bool, ready: bool, count: int, aligned: bool)
    | MarkStorage(ns: string)
    | PurgeStorage(ns: string)
    | SetConsumers(n: nat)
    | CreateSecret(finalizers: seq<string>, parses: bool)
    | EditSecret(finalizers: seq<string>, parses: bool)
    | MarkSecret
    | InstallCrd(name: string)
    | RemoveCrd(name: string)
    | PurgeNamespace(ns: string)

  predicate KeepsFinalizer(before: seq<string>, after: seq<string>) {
    FINALIZER in before ==> FINALIZER in after
  }

  function Perform(c: Cluster, a: Action): Cluster {
    match a
    case CreateOffering(key, finalizers, kind, config) =>
      if key in c.offerings then c else PutOffering(c, key, Offering(0, finalizers, false, kind, config))
    case EditOffering(key, finalizers, kind, config) =>
      if key !in c.offerings || !KeepsFinalizer(c.offerings[key].finalizers, finalizers) then c
      else PutOffering(c, key, c.offerings[key].(finalizers := finalizers, kind := kind, config := config))
    case MarkOffering(key) =>
      if key !in c.offerings then c else PutOffering(c, key, c.offerings[key].(deleting := true))
    case EditStorage(ns, guarded, ready, count, aligned) =>
      if ns !in c.storage then c
      else PutStorage(c, ns, c.storage[ns].(guarded := guarded, ready := ready, count := count, aligned := aligned))
    case MarkStorage(ns) =>
      if ns !in c.storage then c else PutStorage(c, ns, c.storage[ns].(deleting := true))
    case PurgeStorage(ns) => c.(storage := c.storage - {ns})
    case SetConsumers(n) => c.(consumers := n)
    case CreateSecret(finalizers, parses) =>
      if c.secret.Some? then c else PutSecret(c, Secret(0, finalizers, false, parses))
    case EditSecret(finalizers, parses) =>
      if c.secret.None? || !KeepsFinalizer(c.secret.value.finalizers, finalizers) then c
      else PutSecret(c, c.secret.value.(finalizers := finalizers, parses := parses))
    case MarkSecret =>
      if c.secret.None? then c else PutSecret(c, c.secret.value.(deleting := true))
    case InstallCrd(name) => c.(crds := c.crds + {name})
    case RemoveCrd(name) => c.(crds := c.crds - {name})
    case PurgeNamespace(ns) => c.(terminating := c.terminating - {ns})
  }
}
