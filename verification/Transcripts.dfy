/** A whole offering reconcile, written out for every offering and every cluster it may find: which calls it issues, in
    which order and with which contents, what becomes of the cluster, and what it returns. */
module Transcripts {
  import opened Wrappers
  import opened ObjectMeta
  import opened Cluster
  import opened Runs
  import opened StorageSafety
  import opened UninstallRounds
  import opened Client
  import opened OfferingReconcilers
  import DeviceSets
  import Off = OfferingMachine

  // ----- the script -----

  /** CreateOrUpdate of the StorageCluster: create it with the count for the capacity, or raise the count and align
      the rest; no write when there is nothing to change. */
  function StorageScript(c: Cluster, ns: string, capacity: nat): seq<Call> {
    var wanted := DeviceSets.DesiredCount(capacity);
    [GetStorage(ns)] +
    if ns !in c.storage then [CreateStorage(ns, wanted)]
    else
      var sc := c.storage[ns];
      var count := if sc.count <= wanted then wanted else sc.count;
      if sc.aligned && count == sc.count then [] else [UpdateStorage(ns, sc.(count := count, aligned := true))]
  }

  function DataFoundationScript(c: Cluster, ns: string, config: Config): seq<Call>
    requires config.Config?
  {
    if config.validationKey == "" then []
    else if config.capacity <= 0 then [Ensure(OnboardingSecret)]
    else
      [Ensure(OnboardingSecret)] + StorageScript(c, ns, config.capacity) +
      [Ensure(MonitoringLabels), Ensure(OcsCsv), Ensure(CephNetworkPolicy), Ensure(ProviderNetworkPolicy),
       Ensure(RookConfigMap), Ensure(OcsInitialization)]
  }

  function ClientScript(config: Config): seq<Call>
    requires config.Config?
  {
    if config.endpoint == "" || config.ticket == "" then [Ensure(OcsClientCsv)]
    else
      [Ensure(OcsClientCsv), Ensure(StorageClient), Ensure(BlockClaim), Ensure(FilesystemClaim), Ensure(KmsConfigMap)]
  }

  /** Delete the StorageCluster if it is ready and has no consumers. */
  function DeletionScript(c: Cluster, ns: string): seq<Call> {
    [GetStorage(ns)] +
    if ns !in c.storage || !c.storage[ns].ready then []
    else if c.consumers > 0 then [ListConsumers]
    else [ListConsumers, DeleteStorage(ns)]
  }

  /** The plugin, behind its gates: the first CRD that was not recorded is looked for, and then nothing else. */
  function PluginScript(c: Cluster, known: set<string>, ns: string, o: Offering): seq<Call> {
    if o.config.Malformed? then []
    else
      match o.kind
      case DF =>
        if "storageclusters.ocs.openshift.io" !in known then [GetCrd("storageclusters.ocs.openshift.io")]
        else if "ocsinitializations.ocs.openshift.io" !in known then [GetCrd("ocsinitializations.ocs.openshift.io")]
        else if o.deleting then DeletionScript(c, ns)
        else DataFoundationScript(c, ns, o.config)
      case DFC =>
        if "storageclients.ocs.openshift.io" !in known then [GetCrd("storageclients.ocs.openshift.io")]
        else if "storageclassclaims.ocs.openshift.io" !in known then [GetCrd("storageclassclaims.ocs.openshift.io")]
        else if o.deleting then []
        else ClientScript(o.config)
  }

  function InstallScript(c: Cluster, known: set<string>, key: Key, o: Offering): seq<Call> {
    (if "misf.ibm.com/finalizer" in o.finalizers then []
     else [UpdateOffering(key, o.(finalizers := o.finalizers + ["misf.ibm.com/finalizer"]))]) +
    [Ensure(OperatorGroup), Ensure(CatalogSource), Ensure(Subscription)] + PluginScript(c, known, key.ns, o)
  }

  /** With its StorageCluster gone the offering is released and its namespace deleted; the plugin comes in any case. */
  function TeardownScript(c: Cluster, known: set<string>, key: Key, o: Offering): seq<Call> {
    [GetStorage(key.ns)] +
    (if key.ns in c.storage then []
     else
       (if "misf.ibm.com/finalizer" !in o.finalizers then []
        else [UpdateOffering(key, o.(finalizers := Without(o.finalizers, "misf.ibm.com/finalizer")))]) +
       [DeleteNamespace(key.ns)]) +
    PluginScript(c, known, key.ns, o)
  }

  function Script(c: Cluster, known: set<string>, key: Key): seq<Call> {
    [GetOffering(key)] +
    if key !in c.offerings then []
    else if c.offerings[key].deleting then TeardownScript(c, known, key, c.offerings[key])
    else InstallScript(c, known, key, c.offerings[key])
  }

  /** What an install does to the cluster: it installs the StorageCluster, or refuses and changes nothing. */
  ghost predicate InstallEffect(c: Cluster, d: Cluster, known: set<string>, ns: string, o: Offering) {
    if o.kind == DF && o.config.Config? && o.config.validationKey != "" && o.config.capacity > 0 &&
      "storageclusters.ocs.openshift.io" in known && "ocsinitializations.ocs.openshift.io" in known
    then StorageInstalled(c, d, ns, o.config.capacity)
    else d == c
  }

  // ----- what it returns -----

  /** The first of these CRDs that was not recorded decides: the process ends if it is installed by now. */
  function GateOutcome(c: Cluster, known: set<string>, first: string, second: string): Outcome {
    if (if first !in known then first else second) in c.crds then Exited else Error
  }

  function DeletionOutcome(c: Cluster, ns: string): Outcome {
    if ns !in c.storage then Error
    else if c.storage[ns].ready && c.consumers > 0 then Requeue
    else Finished
  }

  function PluginOutcome(c: Cluster, known: set<string>, ns: string, o: Offering): Outcome {
    if o.config.Malformed? then Error
    else
      match o.kind
      case DF =>
        if !({"storageclusters.ocs.openshift.io", "ocsinitializations.ocs.openshift.io"} <= known)
        then GateOutcome(c, known, "storageclusters.ocs.openshift.io", "ocsinitializations.ocs.openshift.io")
        else if o.deleting then DeletionOutcome(c, ns)
        else if o.config.validationKey != "" && o.config.capacity > 0 then Finished
        else Error
      case DFC =>
        if !({"storageclients.ocs.openshift.io", "storageclassclaims.ocs.openshift.io"} <= known)
        then GateOutcome(c, known, "storageclients.ocs.openshift.io", "storageclassclaims.ocs.openshift.io")
        else if o.deleting || (o.config.endpoint != "" && o.config.ticket != "") then Finished
        else Error
  }

  /** A reconcile without failing calls: nothing to do without an offering, and otherwise what the plugin says. */
  function RoundOutcome(c: Cluster, known: set<string>, key: Key): Outcome {
    if key !in c.offerings then Finished else PluginOutcome(c, known, key.ns, c.offerings[key])
  }

  // ----- what is issued -----

  /** The calls an offering reconcile still issues, every call served. */
  function Issued(w: World): seq<Call>
    decreases CallsLeft(w.off)
  {
    if !w.up || w.off.Idle? then []
    else
      CallsRunOut(w.off, w.known, Deliver(w.cluster, Off.NextCall(w.off), Served, []).1);
      [Off.NextCall(w.off)] + Issued(Do(w, OfferingCall(Served)))
  }

  /** What a reconcile returns, every call served. */
  function Returned(w: World): Outcome
    requires w.up && !w.off.Idle?
    decreases CallsLeft(w.off)
  {
    var reply := Deliver(w.cluster, Off.NextCall(w.off), Served, []).1;
    CallsRunOut(w.off, w.known, reply);
    var v := Do(w, OfferingCall(Served));
    if v.up && !v.off.Idle? then Returned(v) else OutcomeOf(Called(w.off, w.known, reply))
  }

  function Calls(log: seq<Entry>): (calls: seq<Call>)
    ensures |calls| == |log|
    ensures forall i :: 0 <= i < |log| ==> calls[i] == log[i].call
  {
    seq(|log|, i requires 0 <= i < |log| => log[i].call)
  }

  lemma {:induction false} IssuedIsLogged(w: World)
    ensures Calls(FinishOffering(w).log) == Calls(w.log) + Issued(w)
    decreases CallsLeft(w.off)
  {
    if w.up && !w.off.Idle? {
      CallsRunOut(w.off, w.known, Deliver(w.cluster, Off.NextCall(w.off), Served, []).1);
      var v := Do(w, OfferingCall(Served));
      IssuedIsLogged(v);
      assert Calls(v.log) == Calls(w.log) + [Off.NextCall(w.off)];
    }
  }

  /** The rest of the reconcile issues these calls, ends in this world, and returns this. Quantified, so that the three
      functions are in sight only where one of them is asked for. */
  ghost predicate Does(w: World, calls: seq<Call>, end: World, outcome: Outcome) {
    && w.up && !w.off.Idle?
    && forall u: World :: u == w ==> Issued(u) == calls && FinishOffering(u) == end && Returned(u) == outcome
  }

  /** One more call is served. */
  ghost predicate Moves(w: World, call: Call, v: World) {
    w.up && !w.off.Idle? && Off.NextCall(w.off) == call && v == Do(w, OfferingCall(Served))
  }

  lemma MovesOn(w: World, call: Call, v: World, calls: seq<Call>, end: World, outcome: Outcome)
    requires Moves(w, call, v) && Does(v, calls, end, outcome)
    ensures Does(w, [call] + calls, end, outcome)
  {
    assert Issued(v) == calls;
  }

  lemma MovesToTheEnd(w: World, call: Call, v: World)
    requires Moves(w, call, v) && (!v.up || v.off.Idle?)
    ensures Does(w, [call], v, OutcomeOf(Called(w.off, w.known, Serve(w.cluster, call, []).1)))
  {
    assert Issued(v) == [] && FinishOffering(v) == v;
  }

  // ----- the plugins -----

  const AFTER_STORAGE: seq<Call> := [
    Ensure(MonitoringLabels), Ensure(OcsCsv), Ensure(CephNetworkPolicy), Ensure(ProviderNetworkPolicy),
    Ensure(RookConfigMap), Ensure(OcsInitialization)]

  lemma {:induction false} AfterStorageDoes(w: World, i: nat) returns (end: World)
    requires w.up && w.off.Working? && w.off.pc == Off.AfterStorage(i) && i <= 5
    ensures Does(w, AFTER_STORAGE[i..], end, Finished) && end.cluster == w.cluster
    decreases 6 - i
  {
    var v := Do(w, OfferingCall(Served));
    assert Moves(w, AFTER_STORAGE[i], v) && v.cluster == w.cluster;
    if i < 5 {
      end := AfterStorageDoes(v, i + 1);
      MovesOn(w, AFTER_STORAGE[i], v, AFTER_STORAGE[i + 1..], end, Finished);
      assert AFTER_STORAGE[i..] == [AFTER_STORAGE[i]] + AFTER_STORAGE[i + 1..];
    } else {
      end := v;
      MovesToTheEnd(w, AFTER_STORAGE[i], v);
      assert AFTER_STORAGE[i..] == [AFTER_STORAGE[i]];
    }
  }

  const CLIENT: seq<Call> := [
    Ensure(OcsClientCsv), Ensure(StorageClient), Ensure(BlockClaim), Ensure(FilesystemClaim), Ensure(KmsConfigMap)]

  lemma {:induction false} ClientDoes(w: World, i: nat) returns (end: World)
    requires w.up && w.off.Working? && w.off.pc == Off.ClientPhase(i) && i <= 4 && w.off.obj.config.Config?
    requires w.off.obj.config.endpoint != "" && w.off.obj.config.ticket != ""
    ensures Does(w, CLIENT[i..], end, Finished) && end.cluster == w.cluster
    decreases 5 - i
  {
    var v := Do(w, OfferingCall(Served));
    assert Moves(w, CLIENT[i], v) && v.cluster == w.cluster;
    if i < 4 {
      end := ClientDoes(v, i + 1);
      MovesOn(w, CLIENT[i], v, CLIENT[i + 1..], end, Finished);
      assert CLIENT[i..] == [CLIENT[i]] + CLIENT[i + 1..];
    } else {
      end := v;
      MovesToTheEnd(w, CLIENT[i], v);
      assert CLIENT[i..] == [CLIENT[i]];
    }
  }

  lemma ClientInstallDoes(w: World) returns (end: World)
    requires w.up && w.off.Working? && w.off.pc == Off.ClientPhase(0) && w.off.obj.config.Config?
    ensures var config := w.off.obj.config;
            Does(w, ClientScript(config), end, if config.endpoint != "" && config.ticket != "" then Finished else Error)
    ensures end.cluster == w.cluster
  {
    if w.off.obj.config.endpoint != "" && w.off.obj.config.ticket != "" {
      end := ClientDoes(w, 0);
      assert CLIENT[0..] == ClientScript(w.off.obj.config);
    } else {
      end := Do(w, OfferingCall(Served));
      assert Moves(w, Ensure(OcsClientCsv), end);
      MovesToTheEnd(w, Ensure(OcsClientCsv), end);
    }
  }

  /** The StorageCluster of this namespace, before and after an install: there is one, with the larger of the count
      found and the count for the capacity; nothing else has changed. */
  ghost predicate StorageInstalled(c: Cluster, d: Cluster, ns: string, capacity: nat) {
    && d == c.(storage := d.storage, clock := d.clock)
    && d.storage - {ns} == c.storage - {ns} && ns in d.storage && d.storage[ns].aligned
    && (var n, found := d.storage[ns].count, if ns in c.storage then c.storage[ns].count else 0;
        && n >= found && n >= DeviceSets.DesiredCount(capacity)
        && (n == found || n == DeviceSets.DesiredCount(capacity)))
    && (ns in c.storage ==>
          d.storage[ns] == c.storage[ns].(count := d.storage[ns].count, aligned := true,
            version := d.storage[ns].version))
  }

  /** What writing the StorageCluster asks for. */
  predicate Writing(w: World) {
    && w.up && w.off.Working? && w.off.obj.config.Config? && w.off.obj.config.capacity > 0
    && WellFormedStorage(w.cluster, w.off.key.ns)
  }

  predicate WellFormedStorage(c: Cluster, ns: string) {
    ns in c.storage && c.storage[ns].deleting ==> c.storage[ns].guarded
  }

  lemma CreateDoes(w: World) returns (end: World)
    requires Writing(w) && w.off.pc.WriteNewStorage? && w.off.sc == None && w.off.key.ns !in w.cluster.storage
    ensures var wanted := DeviceSets.DesiredCount(w.off.obj.config.capacity);
            Does(w, [CreateStorage(w.off.key.ns, wanted)] + AFTER_STORAGE, end, Finished)
    ensures StorageInstalled(w.cluster, end.cluster, w.off.key.ns, w.off.obj.config.capacity)
  {
    var create := CreateStorage(w.off.key.ns, DeviceSets.DesiredCount(w.off.obj.config.capacity));
    var v := Do(w, OfferingCall(Served));
    DeviceSets.CountIsPositive(w.off.obj.config.capacity);
    assert Moves(w, create, v) && v.up && v.off == w.off.(pc := Off.AfterStorage(0));
    end := AfterStorageDoes(v, 0);
    assert AFTER_STORAGE[0..] == AFTER_STORAGE;
    MovesOn(w, create, v, AFTER_STORAGE, end, Finished);
  }

  lemma UpdateDone(w: World) returns (v: World)
    requires Writing(w) && w.off.pc.WriteStorage?
    requires w.off.key.ns in w.cluster.storage && w.off.sc == Some(w.cluster.storage[w.off.key.ns])
    ensures var sc, wanted := w.off.sc.value, DeviceSets.DesiredCount(w.off.obj.config.capacity);
            var count := if sc.count <= wanted then wanted else sc.count;
            Moves(w, UpdateStorage(w.off.key.ns, sc.(count := count, aligned := true)), v)
    ensures v.up && v.off == w.off.(pc := Off.AfterStorage(0))
    ensures StorageInstalled(w.cluster, v.cluster, w.off.key.ns, w.off.obj.config.capacity)
  {
    v := Do(w, OfferingCall(Served));
  }

  lemma UpdateDoes(w: World) returns (end: World)
    requires Writing(w) && w.off.pc.WriteStorage?
    requires w.off.key.ns in w.cluster.storage && w.off.sc == Some(w.cluster.storage[w.off.key.ns])
    ensures var sc, wanted := w.off.sc.value, DeviceSets.DesiredCount(w.off.obj.config.capacity);
            var count := if sc.count <= wanted then wanted else sc.count;
            Does(w, [UpdateStorage(w.off.key.ns, sc.(count := count, aligned := true))] + AFTER_STORAGE, end, Finished)
    ensures StorageInstalled(w.cluster, end.cluster, w.off.key.ns, w.off.obj.config.capacity)
  {
    var v := UpdateDone(w);
    end := AfterStorageDoes(v, 0);
    assert AFTER_STORAGE[0..] == AFTER_STORAGE;
    MovesOn(w, Off.NextCall(w.off), v, AFTER_STORAGE, end, Finished);
  }

  lemma StorageRead(w: World) returns (v: World)
    requires Writing(w) && w.off.pc.ReadForUpdate? && w.off.sc == None
    ensures Moves(w, GetStorage(w.off.key.ns), v) && v.up && v.cluster == w.cluster
    ensures v.off.Working? && v.off.key == w.off.key && v.off.obj == w.off.obj
    ensures if w.off.key.ns !in w.cluster.storage then v.off.pc.WriteNewStorage? && v.off.sc == None
            else
              var sc := w.cluster.storage[w.off.key.ns];
              && v.off.sc == Some(sc)
              && v.off.pc == if sc.aligned && sc.count >= DeviceSets.DesiredCount(w.off.obj.config.capacity)
                             then Off.AfterStorage(0) else Off.WriteStorage
  {
    v := Do(w, OfferingCall(Served));
  }

  lemma StorageDoes(w: World) returns (end: World)
    requires Writing(w) && w.off.pc.ReadForUpdate? && w.off.sc == None
    ensures Does(w, StorageScript(w.cluster, w.off.key.ns, w.off.obj.config.capacity) + AFTER_STORAGE, end, Finished)
    ensures StorageInstalled(w.cluster, end.cluster, w.off.key.ns, w.off.obj.config.capacity)
  {
    var ns, capacity := w.off.key.ns, w.off.obj.config.capacity;
    var v := StorageRead(w);
    var rest := StorageScript(w.cluster, ns, capacity)[1..] + AFTER_STORAGE;
    if v.off.pc.WriteNewStorage? {
      end := CreateDoes(v);
    } else if v.off.pc.WriteStorage? {
      end := UpdateDoes(v);
    } else {
      end := AfterStorageDoes(v, 0);
      assert rest == AFTER_STORAGE[0..];
      NothingToInstall(w.cluster, ns, capacity);
    }
    MovesOn(w, GetStorage(ns), v, rest, end, Finished);
    assert [GetStorage(ns)] + rest == StorageScript(w.cluster, ns, capacity) + AFTER_STORAGE;
  }

  lemma NothingToInstall(c: Cluster, ns: string, capacity: nat)
    requires ns in c.storage && c.storage[ns].aligned && c.storage[ns].count >= DeviceSets.DesiredCount(capacity)
    ensures StorageInstalled(c, c, ns, capacity)
  {
  }

  /** What an install by the DataFoundation plugin returns. */
  function KeyOutcome(config: Config): Outcome
    requires config.Config?
  {
    if config.capacity > 0 then Finished else Error
  }

  lemma KeyDoes(w: World) returns (end: World)
    requires w.up && w.off.Working? && w.off.pc.OnboardingKey? && w.off.obj.config.Config? && w.off.sc == None
    requires w.off.obj.config.validationKey != "" && WellFormedStorage(w.cluster, w.off.key.ns)
    ensures var config := w.off.obj.config;
            Does(w, DataFoundationScript(w.cluster, w.off.key.ns, config), end, KeyOutcome(config))
    ensures if w.off.obj.config.capacity > 0
            then StorageInstalled(w.cluster, end.cluster, w.off.key.ns, w.off.obj.config.capacity)
            else end.cluster == w.cluster
  {
    var ns, config := w.off.key.ns, w.off.obj.config;
    var v := KeyDone(w);
    if config.capacity > 0 {
      end := StorageDoes(v);
      var rest := StorageScript(w.cluster, ns, config.capacity) + AFTER_STORAGE;
      MovesOn(w, Ensure(OnboardingSecret), v, rest, end, Finished);
      assert [Ensure(OnboardingSecret)] + rest == DataFoundationScript(w.cluster, ns, config);
    } else {
      end := v;
      MovesToTheEnd(w, Ensure(OnboardingSecret), v);
    }
  }

  lemma KeyDone(w: World) returns (v: World)
    requires w.up && w.off.Working? && w.off.pc.OnboardingKey? && w.off.obj.config.Config?
    ensures Moves(w, Ensure(OnboardingSecret), v) && v.up && v.cluster == w.cluster
    ensures v.off == if w.off.obj.config.capacity > 0 then w.off.(pc := Off.ReadForUpdate) else Off.Idle
  {
    v := Do(w, OfferingCall(Served));
  }

  lemma DeletionDoes(w: World) returns (end: World)
    requires w.up && w.off.Working? && w.off.pc.ReadForDelete?
    ensures Does(w, DeletionScript(w.cluster, w.off.key.ns), end, DeletionOutcome(w.cluster, w.off.key.ns))
  {
    var ns, v := w.off.key.ns, Do(w, OfferingCall(Served));
    assert Moves(w, GetStorage(ns), v) && v.cluster == w.cluster && v.up;
    if ns !in w.cluster.storage || !w.cluster.storage[ns].ready {
      end := v;
      MovesToTheEnd(w, GetStorage(ns), v);
    } else {
      assert v.off == w.off.(pc := Off.CheckConsumers);
      end := ConsumersDo(v);
      MovesOn(w, GetStorage(ns), v, DeletionScript(w.cluster, ns)[1..], end, DeletionOutcome(w.cluster, ns));
    }
  }

  lemma ConsumersDo(w: World) returns (end: World)
    requires w.up && w.off.Working? && w.off.pc.CheckConsumers?
    ensures if w.cluster.consumers > 0 then Does(w, [ListConsumers], end, Requeue)
            else Does(w, [ListConsumers, DeleteStorage(w.off.key.ns)], end, Finished)
  {
    var v := Do(w, OfferingCall(Served));
    assert Moves(w, ListConsumers, v);
    if w.cluster.consumers == 0 {
      assert v.up && v.off == w.off.(pc := Off.Pc.DropStorage);
      end := DropDone(v);
      MovesOn(w, ListConsumers, v, [DeleteStorage(w.off.key.ns)], end, Finished);
    } else {
      end := v;
      MovesToTheEnd(w, ListConsumers, v);
    }
  }

  lemma DropDone(w: World) returns (end: World)
    requires w.up && w.off.Working? && w.off.pc.DropStorage?
    ensures Does(w, [DeleteStorage(w.off.key.ns)], end, Finished)
  {
    end := Do(w, OfferingCall(Served));
    MovesToTheEnd(w, DeleteStorage(w.off.key.ns), end);
  }

  lemma GateDoes(w: World, crd: string) returns (end: World)
    requires w.up && w.off.Working? && w.off.pc.Gate? && Off.NextCall(w.off) == GetCrd(crd)
    ensures Does(w, [GetCrd(crd)], end, if crd in w.cluster.crds then Exited else Error) && end.cluster == w.cluster
  {
    end := Do(w, OfferingCall(Served));
    assert (!end.up || end.off.Idle?) && end.cluster == w.cluster;
    MovesToTheEnd(w, GetCrd(crd), end);
  }

  /** About to decode the config, at whatever point the branch before it ended. */
  ghost predicate AtConfig(w: World, key: Key, o: Offering) {
    && w.up && WellFormedStorage(w.cluster, key.ns)
    && exists rid, pc :: w.off == Off.EnterConfig(Off.Working(rid, key, pc, o, None), w.known)
  }

  predicate Recorded(known: set<string>, kind: Kind) {
    Off.Gates(kind)[0] in known && Off.Gates(kind)[1] in known
  }

  /** What the plugin does, from the point where it has something to call. */
  ghost predicate PluginDone(w: World, key: Key, o: Offering, end: World) {
    && Does(w, PluginScript(w.cluster, w.known, key.ns, o), end, PluginOutcome(w.cluster, w.known, key.ns, o))
    && (!o.deleting ==> InstallEffect(w.cluster, end.cluster, w.known, key.ns, o))
  }

  lemma UnrecordedDoes(w: World, key: Key, o: Offering) returns (end: World)
    requires AtConfig(w, key, o) && o.config.Config? && !Recorded(w.known, o.kind)
    ensures PluginDone(w, key, o, end)
  {
    assert w.off.Working? && w.off.pc.Gate? && w.off.obj == o;
    end := GateDoes(w, Off.NthGate(o.kind, w.off.pc.crd));
  }

  lemma PluginDoes(w: World, key: Key, o: Offering) returns (end: World)
    requires AtConfig(w, key, o) && !w.off.Idle?
    ensures PluginDone(w, key, o, end)
  {
    assert o.config.Config?;
    if !Recorded(w.known, o.kind) {
      end := UnrecordedDoes(w, key, o);
    } else if o.kind == DFC {
      end := ClientInstallDoes(w);
    } else if o.deleting {
      end := DeletionDoes(w);
    } else {
      end := KeyDoes(w);
    }
  }

  /** The plugin has nothing to call. */
  lemma PluginIsIdle(w: World, key: Key, o: Offering)
    requires AtConfig(w, key, o) && w.off.Idle?
    ensures PluginScript(w.cluster, w.known, key.ns, o) == []
    ensures PluginOutcome(w.cluster, w.known, key.ns, o) == ConfigOutcome(o)
    ensures !o.deleting ==> InstallEffect(w.cluster, w.cluster, w.known, key.ns, o)
  {
  }

  /** A call after which the config is decoded. */
  lemma PluginComesNext(w: World, call: Call, v: World, key: Key, o: Offering) returns (end: World)
    requires Moves(w, call, v) && AtConfig(v, key, o) && v.known == w.known
    requires v.off.Idle? ==> OutcomeOf(Called(w.off, w.known, Serve(w.cluster, call, []).1)) == ConfigOutcome(o)
    ensures Does(w, [call] + PluginScript(v.cluster, w.known, key.ns, o), end,
                 PluginOutcome(v.cluster, w.known, key.ns, o))
    ensures !o.deleting ==> InstallEffect(v.cluster, end.cluster, w.known, key.ns, o)
  {
    if v.off.Idle? {
      end := v;
      PluginIsIdle(v, key, o);
      MovesToTheEnd(w, call, v);
      assert [call] + [] == [call];
    } else {
      end := PluginDoes(v, key, o);
      MovesOn(w, call, v, PluginScript(v.cluster, v.known, key.ns, o), end,
        PluginOutcome(v.cluster, v.known, key.ns, o));
    }
  }

  // ----- the branches on the deletion mark -----

  const OLM: seq<Call> := [Ensure(OperatorGroup), Ensure(CatalogSource), Ensure(Subscription)]

  ghost predicate OlmDone(w: World, i: nat, end: World)
    requires w.off.Working? && i <= 2
  {
    && Does(w, OLM[i..] + PluginScript(w.cluster, w.known, w.off.key.ns, w.off.obj), end,
            PluginOutcome(w.cluster, w.known, w.off.key.ns, w.off.obj))
    && (!w.off.obj.deleting ==> InstallEffect(w.cluster, end.cluster, w.known, w.off.key.ns, w.off.obj))
  }

  lemma {:induction false} OlmDoes(w: World, i: nat) returns (end: World)
    requires w.up && w.off.Working? && i <= 2 && w.off.pc == Off.Olm(i) && w.off.sc == None
    requires WellFormedStorage(w.cluster, w.off.key.ns)
    ensures OlmDone(w, i, end)
    decreases 3 - i
  {
    var plugin := PluginScript(w.cluster, w.known, w.off.key.ns, w.off.obj);
    if i < 2 {
      var v := OlmMoves(w, i);
      end := OlmDoes(v, i + 1);
      MovesOn(w, OLM[i], v, OLM[i + 1..] + plugin, end, PluginOutcome(w.cluster, w.known, w.off.key.ns, w.off.obj));
      assert [OLM[i]] + (OLM[i + 1..] + plugin) == OLM[i..] + plugin;
    } else {
      end := SubscriptionDoes(w);
      assert OLM[2..] == [Ensure(Subscription)];
    }
  }

  lemma OlmMoves(w: World, i: nat) returns (v: World)
    requires w.up && w.off.Working? && i < 2 && w.off.pc == Off.Olm(i)
    ensures Moves(w, OLM[i], v) && v.up && v.known == w.known && v.cluster == w.cluster
    ensures v.off == w.off.(pc := Off.Olm(i + 1))
  {
    v := Do(w, OfferingCall(Served));
  }

  lemma SubscriptionDoes(w: World) returns (end: World)
    requires w.up && w.off.Working? && w.off.pc == Off.Olm(2) && w.off.sc == None
    requires WellFormedStorage(w.cluster, w.off.key.ns)
    ensures Does(w, [Ensure(Subscription)] + PluginScript(w.cluster, w.known, w.off.key.ns, w.off.obj), end,
                 PluginOutcome(w.cluster, w.known, w.off.key.ns, w.off.obj))
    ensures !w.off.obj.deleting ==> InstallEffect(w.cluster, end.cluster, w.known, w.off.key.ns, w.off.obj)
  {
    var v := Do(w, OfferingCall(Served));
    assert v.off == Off.EnterConfig(Off.Working(w.off.rid, w.off.key, w.off.pc, w.off.obj, None), v.known);
    assert Moves(w, Ensure(Subscription), v) && v.cluster == w.cluster && v.up && v.known == w.known;
    end := PluginComesNext(w, Ensure(Subscription), v, w.off.key, w.off.obj);
  }

  /** The plugin looks at the storage, the consumers, the CRDs and the config only. */
  lemma ScriptLooksAtStorage(c: Cluster, d: Cluster, known: set<string>, ns: string, o: Offering, p: Offering)
    requires d.storage == c.storage && d.consumers == c.consumers && d.crds == c.crds
    requires p.kind == o.kind && p.config == o.config && p.deleting == o.deleting
    ensures PluginScript(d, known, ns, p) == PluginScript(c, known, ns, o)
    ensures PluginOutcome(d, known, ns, p) == PluginOutcome(c, known, ns, o)
  {
  }

  /** The copy in memory is the offering as it is stored. */
  predicate Fresh(w: World) {
    && w.up && w.off.Working? && w.off.sc == None
    && w.off.key in w.cluster.offerings && w.off.obj == w.cluster.offerings[w.off.key]
    && WellFormedStorage(w.cluster, w.off.key.ns)
  }

  /** d is c, but the offering holds the finalizer. */
  ghost predicate Holding(c: Cluster, key: Key, d: Cluster) {
    && key in c.offerings && key in d.offerings
    && (var o := c.offerings[key];
        if "misf.ibm.com/finalizer" in o.finalizers then d == c
        else
          && d == c.(offerings := c.offerings[key := d.offerings[key]], clock := d.clock)
          && d.offerings[key] ==
             o.(finalizers := o.finalizers + ["misf.ibm.com/finalizer"], version := d.offerings[key].version))
  }

  /** The offering holds the finalizer, the install has had its effect, and nothing else has changed. */
  ghost predicate Installed(c: Cluster, d: Cluster, known: set<string>, key: Key) {
    exists held :: Holding(c, key, held) && InstallEffect(held, d, known, key.ns, c.offerings[key])
  }

  lemma InstallDoes(w: World) returns (end: World)
    requires Fresh(w) && !w.off.obj.deleting
    requires w.off.pc == if FINALIZER in w.off.obj.finalizers then Off.Olm(0) else Off.AddFinalizer
    ensures Does(w, InstallScript(w.cluster, w.known, w.off.key, w.off.obj), end,
                 PluginOutcome(w.cluster, w.known, w.off.key.ns, w.off.obj))
    ensures Installed(w.cluster, end.cluster, w.known, w.off.key)
  {
    if w.off.pc.AddFinalizer? {
      end := FirstInstallDoes(w);
    } else {
      end := OlmDoes(w, 0);
      assert Holding(w.cluster, w.off.key, w.cluster);
      assert OLM[0..] + PluginScript(w.cluster, w.known, w.off.key.ns, w.off.obj) ==
        InstallScript(w.cluster, w.known, w.off.key, w.off.obj);
    }
  }

  lemma FinalizerAdded(w: World) returns (v: World)
    requires Fresh(w) && !w.off.obj.deleting && w.off.pc.AddFinalizer? && FINALIZER !in w.off.obj.finalizers
    ensures var o := w.off.obj; Moves(w, UpdateOffering(w.off.key, o.(finalizers := o.finalizers + [FINALIZER])), v)
    ensures v.up && v.known == w.known && Holding(w.cluster, w.off.key, v.cluster)
    ensures v.off.Working? && v.off.pc == Off.Olm(0) && v.off.key == w.off.key && v.off.sc == None
    ensures !v.off.obj.deleting && v.off.obj.kind == w.off.obj.kind && v.off.obj.config == w.off.obj.config
  {
    v := Do(w, OfferingCall(Served));
  }

  lemma FirstInstallDoes(w: World) returns (end: World)
    requires Fresh(w) && !w.off.obj.deleting && w.off.pc.AddFinalizer? && FINALIZER !in w.off.obj.finalizers
    ensures Does(w, InstallScript(w.cluster, w.known, w.off.key, w.off.obj), end,
                 PluginOutcome(w.cluster, w.known, w.off.key.ns, w.off.obj))
    ensures Installed(w.cluster, end.cluster, w.known, w.off.key)
  {
    var o, update := w.off.obj, Off.NextCall(w.off);
    var v := FinalizerAdded(w);
    ScriptLooksAtStorage(w.cluster, v.cluster, w.known, w.off.key.ns, o, v.off.obj);
    end := OlmDoes(v, 0);
    var rest := OLM[0..] + PluginScript(w.cluster, w.known, w.off.key.ns, o);
    MovesOn(w, update, v, rest, end, PluginOutcome(w.cluster, w.known, w.off.key.ns, o));
    assert [update] + rest == InstallScript(w.cluster, w.known, w.off.key, o);
    assert InstallEffect(v.cluster, end.cluster, w.known, w.off.key.ns, o);
  }

  lemma NamespaceDoes(w: World) returns (end: World)
    requires w.up && w.off.Working? && w.off.pc.DropNamespace? && w.off.sc == None
    requires WellFormedStorage(w.cluster, w.off.key.ns)
    ensures Does(w, [DeleteNamespace(w.off.key.ns)] + PluginScript(w.cluster, w.known, w.off.key.ns, w.off.obj), end,
                 PluginOutcome(w.cluster, w.known, w.off.key.ns, w.off.obj))
  {
    var v := Do(w, OfferingCall(Served));
    assert v.off == Off.EnterConfig(Off.Working(w.off.rid, w.off.key, w.off.pc, w.off.obj, None), v.known);
    assert Moves(w, DeleteNamespace(w.off.key.ns), v) && v.up && v.known == w.known;
    ScriptLooksAtStorage(w.cluster, v.cluster, w.known, w.off.key.ns, w.off.obj, w.off.obj);
    end := PluginComesNext(w, DeleteNamespace(w.off.key.ns), v, w.off.key, w.off.obj);
  }

  lemma FinalizerDropped(w: World) returns (v: World)
    requires Fresh(w) && w.off.obj.deleting && w.off.pc.DropFinalizer?
    ensures var o := w.off.obj;
            Moves(w, UpdateOffering(w.off.key, o.(finalizers := Without(o.finalizers, FINALIZER))), v)
    ensures v.up && v.known == w.known && v.off.Working? && v.off.pc == Off.DropNamespace && v.off.key == w.off.key
    ensures v.off.sc == None
    ensures v.off.obj == w.off.obj.(finalizers := v.off.obj.finalizers, version := v.off.obj.version)
    ensures v.cluster.storage == w.cluster.storage && v.cluster.consumers == w.cluster.consumers
    ensures v.cluster.crds == w.cluster.crds
  {
    v := Do(w, OfferingCall(Served));
  }

  lemma ReleaseDoes(w: World) returns (end: World)
    requires Fresh(w) && w.off.obj.deleting && w.off.pc.DropFinalizer?
    ensures var o := w.off.obj;
            Does(w, [UpdateOffering(w.off.key, o.(finalizers := Without(o.finalizers, FINALIZER))),
                     DeleteNamespace(w.off.key.ns)] + PluginScript(w.cluster, w.known, w.off.key.ns, o), end,
                 PluginOutcome(w.cluster, w.known, w.off.key.ns, o))
  {
    var o, update := w.off.obj, Off.NextCall(w.off);
    var v := FinalizerDropped(w);
    ScriptLooksAtStorage(w.cluster, v.cluster, w.known, w.off.key.ns, o, v.off.obj);
    end := NamespaceDoes(v);
    var plugin := PluginScript(w.cluster, w.known, w.off.key.ns, o);
    MovesOn(w, update, v, [DeleteNamespace(w.off.key.ns)] + plugin, end,
      PluginOutcome(w.cluster, w.known, w.off.key.ns, o));
    assert [update] + ([DeleteNamespace(w.off.key.ns)] + plugin) == [update, DeleteNamespace(w.off.key.ns)] + plugin;
  }

  lemma StorageChecked(w: World) returns (v: World)
    requires Fresh(w) && w.off.obj.deleting && w.off.pc.CheckStorage?
    ensures Moves(w, GetStorage(w.off.key.ns), v) && v.cluster == w.cluster && v.known == w.known && v.up
    ensures v.off ==
            if w.off.key.ns in w.cluster.storage
            then Off.EnterConfig(Off.Working(w.off.rid, w.off.key, w.off.pc, w.off.obj, None), v.known)
            else w.off.(pc := if FINALIZER in w.off.obj.finalizers then Off.DropFinalizer else Off.DropNamespace)
  {
    v := Do(w, OfferingCall(Served));
  }

  lemma TeardownDoes(w: World) returns (end: World)
    requires Fresh(w) && w.off.obj.deleting && w.off.pc.CheckStorage?
    ensures Does(w, TeardownScript(w.cluster, w.known, w.off.key, w.off.obj), end,
                 PluginOutcome(w.cluster, w.known, w.off.key.ns, w.off.obj))
  {
    var v := StorageChecked(w);
    if w.off.key.ns in w.cluster.storage {
      end := PluginComesNext(w, GetStorage(w.off.key.ns), v, w.off.key, w.off.obj);
      assert [GetStorage(w.off.key.ns)] + PluginScript(w.cluster, w.known, w.off.key.ns, w.off.obj) ==
        TeardownScript(w.cluster, w.known, w.off.key, w.off.obj);
    } else {
      end := ReleasedDoes(w, v);
    }
  }

  lemma ReleasedDoes(w: World, v: World) returns (end: World)
    requires Fresh(w) && w.off.obj.deleting && Moves(w, GetStorage(w.off.key.ns), v) && Fresh(v)
    requires v.cluster == w.cluster && v.known == w.known && w.off.key.ns !in w.cluster.storage
    requires v.off == w.off.(pc := if FINALIZER in w.off.obj.finalizers then Off.DropFinalizer else Off.DropNamespace)
    ensures Does(w, TeardownScript(w.cluster, w.known, w.off.key, w.off.obj), end,
                 PluginOutcome(w.cluster, w.known, w.off.key.ns, w.off.obj))
  {
    var script := TeardownScript(w.cluster, w.known, w.off.key, w.off.obj);
    if FINALIZER in w.off.obj.finalizers {
      end := ReleaseDoes(v);
    } else {
      end := NamespaceDoes(v);
    }
    MovesOn(w, GetStorage(w.off.key.ns), v, script[1..], end,
      PluginOutcome(w.cluster, w.known, w.off.key.ns, w.off.obj));
    assert [GetStorage(w.off.key.ns)] + script[1..] == script;
  }

  lemma OfferingRead(w: World, key: Key) returns (reading: World, v: World)
    requires Inv(w) && w.up && w.off.Idle?
    ensures reading == Do(w, StartOffering(key)) && reading.log == w.log && reading.cluster == w.cluster
    ensures Moves(reading, GetOffering(key), v) && v.up && v.known == w.known && v.cluster == w.cluster
    ensures if key in w.cluster.offerings then v.off == Off.Opened(w.rids, key, w.cluster.offerings[key])
            else v.off.Idle? && OutcomeOf(Called(reading.off, reading.known,
                Serve(w.cluster, GetOffering(key), []).1)) == Finished
  {
    reading := Do(w, StartOffering(key));
    v := Do(reading, OfferingCall(Served));
  }

  lemma ReconcileDoes(w: World, key: Key) returns (end: World)
    requires Inv(w) && w.up && w.off.Idle?
    ensures Does(Do(w, StartOffering(key)), Script(w.cluster, w.known, key), end, RoundOutcome(w.cluster, w.known, key))
    ensures key in w.cluster.offerings && !w.cluster.offerings[key].deleting ==>
              Installed(w.cluster, end.cluster, w.known, key)
    ensures key !in w.cluster.offerings ==> end.cluster == w.cluster
  {
    var reading, v := OfferingRead(w, key);
    if key !in w.cluster.offerings {
      end := v;
      MovesToTheEnd(reading, GetOffering(key), v);
    } else {
      if w.cluster.offerings[key].deleting {
        end := TeardownDoes(v);
      } else {
        end := InstallDoes(v);
      }
      var script := Script(w.cluster, w.known, key);
      MovesOn(reading, GetOffering(key), v, script[1..], end, RoundOutcome(w.cluster, w.known, key));
      assert [GetOffering(key)] + script[1..] == script;
    }
  }

  /** Main result: whatever offering and cluster it finds, a complete reconcile issues exactly the script, and
      an offering that is not marked holds the finalizer afterwards and is installed, or refused. */
  lemma RoundFollowsTheScript(w: World, key: Key)
    requires Inv(w) && w.up && w.off.Idle?
    ensures Calls(OfferingRound(w, key).log) == Calls(w.log) + Script(w.cluster, w.known, key)
    ensures key in w.cluster.offerings && !w.cluster.offerings[key].deleting ==>
              Installed(w.cluster, OfferingRound(w, key).cluster, w.known, key)
    ensures key !in w.cluster.offerings ==> OfferingRound(w, key).cluster == w.cluster
  {
    var end := ReconcileDoes(w, key);
    IssuedIsLogged(Do(w, StartOffering(key)));
  }

  /** So an installed offering of a capacity has a StorageCluster that covers it, and that never got smaller. */
  lemma InstallsTheStorage(w: World, key: Key)
    requires Inv(w) && w.up && w.off.Idle? && key in w.cluster.offerings
    requires "storageclusters.ocs.openshift.io" in w.known && "ocsinitializations.ocs.openshift.io" in w.known
    requires var o := w.cluster.offerings[key];
             !o.deleting && o.kind == DF && o.config.Config? && o.config.capacity > 0 && o.config.validationKey != ""
    ensures var before, after := w.cluster.storage, OfferingRound(w, key).cluster.storage;
            var found := if key.ns in before then before[key.ns].count else 0;
            var wanted := DeviceSets.DesiredCount(w.cluster.offerings[key].config.capacity);
            && after.Keys == before.Keys + {key.ns} && after - {key.ns} == before - {key.ns}
            && found <= after[key.ns].count && wanted <= after[key.ns].count
            && (after[key.ns].count == found || after[key.ns].count == wanted)
  {
    RoundFollowsTheScript(w, key);
    var after := OfferingRound(w, key).cluster.storage;
    assert after.Keys == (after - {key.ns}).Keys + {key.ns};
  }

  // ----- executions -----

  ghost predicate AllServed(es: seq<Event>) {
    forall i :: 0 <= i < |es| ==> es[i] == OfferingCall(Served)
  }

  lemma {:induction false} NothingHappens(w: World, es: seq<Event>)
    requires (!w.up || w.off.Idle?) && AllServed(es)
    ensures Run(w, es) == w
  {
    if es != [] {
      NothingHappens(w, es[..|es| - 1]);
    }
  }

  lemma LastCallOfRest(w: World, e: Event, es: seq<Event>)
    requires es != []
    ensures LastCall(w, [e] + es) == LastCall(Do(w, e), es)
  {
    var all := [e] + es;
    assert all[..|all| - 1] == [e] + es[..|es| - 1] && all[|all| - 1] == es[|es| - 1];
    RunCons(w, e, es[..|es| - 1]);
  }

  /** A run of served calls up to the last one is the rest of the reconcile. */
  lemma {:induction false} ServedRun(w: World, es: seq<Event>)
    requires w.up && !w.off.Idle? && es != [] && AllServed(es)
    requires LastCall(w, es).Some? && Run(w, es).off.Idle?
    ensures OutcomeOf(LastCall(w, es).value) == Returned(w) && FinishOffering(w) == Run(w, es)
    decreases |es|
  {
    var v, rest := Do(w, OfferingCall(Served)), es[1..];
    assert es == [OfferingCall(Served)] + rest;
    RunCons(w, OfferingCall(Served), rest);
    if rest == [] {
      LastOfAll(w, es, v);
    } else {
      LastCallOfRest(w, OfferingCall(Served), rest);
      StillGoing(v, rest);
      ServedRun(v, rest);
      OneCallEarlier(w, v);
    }
  }

  lemma StillGoing(w: World, es: seq<Event>)
    requires es != [] && AllServed(es) && LastCall(w, es).Some?
    ensures w.up && !w.off.Idle?
  {
    if !w.up || w.off.Idle? {
      NothingHappens(w, es[..|es| - 1]);
    }
  }

  lemma OneCallEarlier(w: World, v: World)
    requires w.up && !w.off.Idle? && v == Do(w, OfferingCall(Served)) && v.up && !v.off.Idle?
    ensures Returned(w) == Returned(v) && FinishOffering(w) == FinishOffering(v)
  {
  }

  lemma LastOfAll(w: World, es: seq<Event>, v: World)
    requires w.up && !w.off.Idle? && es == [OfferingCall(Served)] && v == Do(w, OfferingCall(Served)) && v.off.Idle?
    ensures LastCall(w, es).Some? && OutcomeOf(LastCall(w, es).value) == Returned(w)
    ensures FinishOffering(w) == v == Run(w, es)
  {
    assert es[..|es| - 1] == [];
    assert FinishOffering(v) == v;
  }

  /** Main result, executions: one in which every call is served, and nobody else acts, follows the script and returns
      what the outcome table says. */
  lemma ServedExecution(w: World, key: Key, es: seq<Event>, outcome: Outcome)
    requires Inv(w) && w.up && w.off.Idle? && Execution(w, key, es, outcome) && AllServed(es[1..])
    ensures outcome == RoundOutcome(w.cluster, w.known, key)
    ensures Calls(Run(w, es).log) == Calls(w.log) + Script(w.cluster, w.known, key)
  {
    var calls := es[1..];
    var started := Do(w, StartOffering(key));
    assert es == [StartOffering(key)] + calls;
    RunCons(w, StartOffering(key), calls);
    assert es[|es| - 1].OfferingCall? && es[0] == StartOffering(key);
    LastCallOfRest(w, StartOffering(key), calls);
    var end := ReconcileDoes(w, key);
    ServedRun(started, calls);
    IssuedIsLogged(started);
  }
}
