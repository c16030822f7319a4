/** The DataFoundation sub-reconciler (controllers/datafoundation.go), phase by phase, over an API server on which
    any call may fail. An attempt is proved to be a run of the program of DataFoundationPhases, or of a prefix of it
    when a call fails. */
module DataFoundationReconciler {
  import opened Wrappers
  import opened ObjectMeta
  import opened DeviceSets
  import opened ObjectStore
  import opened Phases
  import opened DataFoundationPhases

  type Log = Store<Id, Object>

  lemma TailPieces(csvs: seq<string>, p: seq<Op<Id>>)
    requires p == Tail(csvs)
    ensures |p| == 5 && p[..5] == p && p[0..1] == [CsvOp(csvs)]
    ensures p[1..2] == [Put(CEPH_POLICY)] && p[2..3] == [Put(PROVIDER_POLICY)]
    ensures p[3..4] == [Put(ROOK_CONFIG)] && p[4..5] == [Put(OCS_INITIALIZATION)]
  {
  }

  lemma ListsAfterStore(inp: Input, ops: seq<Op<Id>>, s: Log, l: Listing)
    requires Lists(l, s.objects)
    ensures Lists(l, After(PlanOf(inp), ops, s).objects)
  {
    AfterIsExec(PlanOf(inp), ops, s);
    ListsAfter(inp, ops, s.objects, l);
  }

  function Ids(kind: Kind, names: seq<string>): (ids: seq<Id>)
    ensures |ids| == |names|
    ensures forall i :: 0 <= i < |names| ==> ids[i] == Id(kind, names[i])
  {
    seq(|names|, i requires 0 <= i < |names| => Id(kind, names[i]))
  }

  /** A list names an object once. */
  ghost predicate Once(l: Listing) {
    NoRepeats(l.podMonitors) && NoRepeats(l.serviceMonitors) && NoRepeats(l.rules)
  }

  ghost predicate NoRepeats(names: seq<string>) {
    forall i, j :: 0 <= i < j < |names| ==> names[i] != names[j]
  }

  // ----- any number of attempts -----

  /** One attempt from s to t, however it ended. */
  ghost predicate Attempt(inp: Input, l: Listing, s: Log, t: Log) {
    Lists(l, s.objects) && exists ending: Ending<Id> :: Ran(PlanOf(inp), Program(l), s, t, ending)
  }

  lemma AttemptIsPrefix(inp: Input, l: Listing, s: Log, t: Log) returns (k: nat)
    requires Attempt(inp, l, s, t)
    ensures k <= |Program(l)| && t.objects == Exec(PlanOf(inp), Program(l)[..k], s.objects).objects
  {
    var ending: Ending<Id> :| Ran(PlanOf(inp), Program(l), s, t, ending);
    k := RanIsPrefix(PlanOf(inp), Program(l), s, t, ending);
  }

  /** An attempt cut before its CSV phase, or that chose the same CSV. */
  predicate Harmless(l: Listing, p: seq<Op<Id>>, m: Listing) {
    |p| <= BeforeCsv(l) || CsvOp(l.csvs) == CsvOp(m.csvs)
  }

  /** Any number of executed attempts: some parts of their programs were run, and a full attempt converges exactly
      when every phase that only the earlier ones completed had nothing to change. It always does when
      each attempt was cut before its CSV phase or chose the same CSV. */
  lemma {:induction false} ExecutionsConverge(inp: Input, ls: seq<Listing>, ss: seq<Log>, m: Listing)
    returns (ps: seq<seq<Op<Id>>>)
    requires |ss| == |ls| + 1 && Lists(m, ss[0].objects)
    requires forall i :: 0 <= i < |ls| ==> Attempt(inp, ls[i], ss[i], ss[i + 1])
    ensures |ps| == |ls| && forall i :: 0 <= i < |ls| ==> ps[i] <= Program(ls[i])
    ensures ss[|ls|].objects == Final(PlanOf(inp), ps, ss[0].objects)
    ensures Exec(PlanOf(inp), Program(m), ss[|ls|].objects) == Exec(PlanOf(inp), Program(m), ss[0].objects) <==>
            forall op ::
              (op in AllDone(PlanOf(inp), ps, ss[0].objects) && op !in Done(PlanOf(inp), Program(m), ss[0].objects) ==>
                 Settled(PlanOf(inp), op, ss[0].objects))
    ensures (forall i :: 0 <= i < |ls| ==> Harmless(ls[i], ps[i], m)) ==>
              Exec(PlanOf(inp), Program(m), ss[|ls|].objects) == Exec(PlanOf(inp), Program(m), ss[0].objects)
  {
    ps := Cuts(inp, ls, ss, m);
    AttemptsConverge(inp, ps, m, ss[0].objects);
  }

  lemma OneCut(inp: Input, l: Listing, s: Log, t: Log, m: Listing) returns (p: seq<Op<Id>>)
    requires Attempt(inp, l, s, t) && Lists(m, s.objects)
    ensures p <= Program(l) && t.objects == Exec(PlanOf(inp), p, s.objects).objects && Lists(m, t.objects)
    ensures Harmless(l, p, m) ==> Exec(PlanOf(inp), Program(m), t.objects) == Exec(PlanOf(inp), Program(m), s.objects)
  {
    var k := AttemptIsPrefix(inp, l, s, t);
    p := Program(l)[..k];
    ListsAfter(inp, p, s.objects, m);
    CrashConvergence(inp, l, m, k, s.objects);
  }

  lemma {:induction false} Cuts(inp: Input, ls: seq<Listing>, ss: seq<Log>, m: Listing) returns (ps: seq<seq<Op<Id>>>)
    requires |ss| == |ls| + 1 && Lists(m, ss[0].objects)
    requires forall i :: 0 <= i < |ls| ==> Attempt(inp, ls[i], ss[i], ss[i + 1])
    ensures |ps| == |ls| && forall i :: 0 <= i < |ls| ==> ps[i] <= Program(ls[i])
    ensures ss[|ls|].objects == Final(PlanOf(inp), ps, ss[0].objects) && Lists(m, ss[|ls|].objects)
    ensures (forall i :: 0 <= i < |ls| ==> Harmless(ls[i], ps[i], m)) ==>
              Exec(PlanOf(inp), Program(m), ss[|ls|].objects) == Exec(PlanOf(inp), Program(m), ss[0].objects)
    decreases |ls|
  {
    ps := [];
    if ls != [] {
      assert Attempt(inp, ls[0], ss[0], ss[0 + 1]);
      var p := OneCut(inp, ls[0], ss[0], ss[1], m);
      forall i | 0 <= i < |ls[1..]| ensures Attempt(inp, ls[1..][i], ss[1..][i], ss[1..][i + 1]) {
        assert Attempt(inp, ls[i + 1], ss[i + 1], ss[i + 1 + 1]);
      }
      var rest := Cuts(inp, ls[1..], ss[1..], m);
      ps := [p] + rest;
      assert ps[1..] == rest;
      if forall i :: 0 <= i < |ls| ==> Harmless(ls[i], ps[i], m) {
        forall i | 0 <= i < |rest| ensures Harmless(ls[1..][i], rest[i], m) {
          assert rest[i] == ps[i + 1] && ls[1..][i] == ls[i + 1];
        }
      }
    }
  }

  /** A fetched object, mutated in place before it is written back. */
  class Resource {
    const meta: Metadata
    var data: Option<map<string, string>>
    var deviceSets: seq<DeviceSet>
    var deployments: seq<seq<Container>>
    var enableCephTools: bool
    var onboarding: Option<Onboarding>
    var client: Option<string>
    var spec: string

    constructor (o: Object)
      ensures fresh(meta) && Value() == o
    {
      meta := new Metadata([], o.labels, o.owners);
      data, deviceSets, deployments := o.data, o.deviceSets, o.deployments;
      enableCephTools, onboarding, client, spec := o.enableCephTools, o.onboarding, o.client, o.spec;
    }

    function Value(): Object
      reads this, meta
    {
      Object(
        meta.ownerReferences, meta.labels, data, deviceSets, deployments, enableCephTools, onboarding, client, spec)
    }
  }

  /** The end of CreateOrUpdate and GetAndUpdate: write the mutated object if it differs. */
  method Save(api: Server<Id, Object>, inp: Input, id: Id, found: Option<Object>, r: Resource)
    returns (ending: Ending<Id>)
    requires !WritesAlways(inp, id)
    requires found == Lookup(api.store.objects, id) && Change(inp, id, found) == Ok(r.Value())
    modifies api
    ensures Ran(PlanOf(inp), [Put(id)], old(api.store), api.store, ending)
  {
    var o := r.Value();
    OneOp(PlanOf(inp), Put(id), api.store);
    if found == Some(o) {
      assert api.store.objects[id := o] == api.store.objects;
      return Finished;
    }
    var ok := api.Write(id, o);
    if ok {
      return Finished;
    }
    assert [Put(id)][..1] == [Put(id)];
    NothingRan(PlanOf(inp), [Put(id)], old(api.store));
    return Cut;
  }

  method GetCSVByPrefix(csvs: seq<string>, prefix: string) returns (name: Option<string>)
    ensures name == FirstWithPrefix(csvs, prefix)
  {
    for index := 0 to |csvs|
      invariant FirstWithPrefix(csvs, prefix) == FirstWithPrefix(csvs[index..], prefix)
    {
      if prefix <= csvs[index] {
        return Some(csvs[index]);
      }
    }
    return None;
  }

  class DataFoundation {
    const api: Server<Id, Object>
    const inp: Input
    const template: seq<DeviceSetCell>

    ghost predicate Valid()
      reads template
    {
      Contents(template) == TEMPLATE_SETS && inp.plugin.DataFoundation?
    }

    constructor (api: Server<Id, Object>, inp: Input, template: seq<DeviceSetCell>)
      ensures this.api == api && this.inp == inp && this.template == template
    {
      this.api, this.inp, this.template := api, inp, template;
    }

    method ReconcileOnboardingValidationSecret() returns (ending: Ending<Id>)
      modifies api
      ensures Ran(PlanOf(inp), [Put(KEY_SECRET)], old(api.store), api.store, ending)
    {
      OneOp(PlanOf(inp), Put(KEY_SECRET), api.store);
      if inp.validationKey == "" {
        return Refused(Failure(Put(KEY_SECRET), "invalid onboardingValidationKey"));
      }
      var got := api.Get(KEY_SECRET);
      if got.Failed? {
        NothingRan(PlanOf(inp), [Put(KEY_SECRET)], api.store);
        return Cut;
      }
      var found := if got.Found? then Some(got.value) else None;
      var secret := new Resource(if found.Some? then found.value else BLANK);
      var _ := secret.meta.AddOwnerReference(Some(inp.offering), true);
      secret.data := Some(map["key" := PublicKey(inp.validationKey)]);
      ending := Save(api, inp, KEY_SECRET, found, secret);
    }

    method ReconcileStorageCluster() returns (ending: Ending<Id>)
      requires Valid()
      modifies api
      ensures Valid() && Ran(PlanOf(inp), [Put(STORAGE_CLUSTER)], old(api.store), api.store, ending)
    {
      OneOp(PlanOf(inp), Put(STORAGE_CLUSTER), api.store);
      if inp.capacity <= 0 {
        return Refused(Failure(Put(STORAGE_CLUSTER), "invalid or missing field: UsableCapacityInTiB"));
      }
      var got := api.Get(STORAGE_CLUSTER);
      if got.Failed? {
        NothingRan(PlanOf(inp), [Put(STORAGE_CLUSTER)], api.store);
        return Cut;
      }
      var found := if got.Found? then Some(got.value) else None;
      var cluster := new Resource(if found.Some? then found.value else BLANK);
      MutateStorageCluster(cluster);
      ending := Save(api, inp, STORAGE_CLUSTER, found, cluster);
    }

    method MutateStorageCluster(cluster: Resource)
      requires Valid() && inp.capacity > 0
      modifies cluster, cluster.meta
      ensures var o := old(cluster.Value());
              cluster.Value() == Owned(inp, o, true).(
                deviceSets := Desired(TEMPLATE_SETS, o.deviceSets, inp.capacity), spec := inp.storageSpec)
    {
      var _ := cluster.meta.AddOwnerReference(Some(inp.offering), true);
      var sets := new StorageClusterObject(cluster.deviceSets);
      var _ := sets.Reconcile(template, inp.capacity);
      cluster.deviceSets := Contents(sets.deviceSets);
      cluster.spec := inp.storageSpec;
    }

    /** One turn of the loop: the label is set and the object written back. */
    method LabelOne(id: Id, found: Object) returns (ok: bool)
      requires Labelled(id.kind) && id in api.store.objects && api.store.objects[id] == found
      modifies api
      ensures Step(PlanOf(inp), Put(id), old(api.store).objects).error.None?
      ensures api.store == Advance(PlanOf(inp), Put(id), old(api.store)) || (!ok && api.store == old(api.store))
      ensures forall other :: other != id && other in old(api.store).objects ==>
                other in api.store.objects && api.store.objects[other] == old(api.store).objects[other]
    {
      var item := new Resource(found);
      item.meta.AddLabel(MON_LABEL_KEY, MON_LABEL_VALUE);
      ok := api.Write(id, item.Value());
    }

    /** One loop of reconcileMonitoringResources: the update is issued whether or not the label was there. */
    method LabelListed(kind: Kind, names: seq<string>) returns (ending: Ending<Id>)
      requires Labelled(kind) && forall i :: 0 <= i < |names| ==> Id(kind, names[i]) in api.store.objects
      requires NoRepeats(names)
      modifies api
      ensures Ran(PlanOf(inp), Puts(kind, names), old(api.store), api.store, ending)
    {
      ghost var ops, s := Puts(kind, names), api.store;
      var ok, items := api.List(Ids(kind, names));
      NothingRan(PlanOf(inp), ops, s);
      if !ok {
        return Cut;
      }
      for i := 0 to |names|
        invariant Exec(PlanOf(inp), ops[..i], s.objects).error.None? && api.store == After(PlanOf(inp), ops[..i], s)
        invariant forall j :: i <= j < |names| ==>
                    Id(kind, names[j]) in api.store.objects && items[j] == api.store.objects[Id(kind, names[j])]
      {
        ghost var before := api.store;
        ok := LabelOne(Id(kind, names[i]), items[i]);
        OneMore(PlanOf(inp), ops, i, s, before);
        if !ok {
          return Cut;
        }
      }
      assert ops[..|names|] == ops;
      return Finished;
    }

    method ReconcileMonitoringResources(l: Listing) returns (ending: Ending<Id>)
      requires Lists(l, api.store.objects) && Once(l)
      modifies api
      ensures Ran(PlanOf(inp), Labels(l), old(api.store), api.store, ending)
    {
      ghost var s := api.store;
      ghost var ab, c := Puts(PodMonitor, l.podMonitors) + Puts(ServiceMonitor, l.serviceMonitors),
        Puts(PrometheusRule, l.rules);
      assert Labels(l) == ab + c;
      ending := LabelMonitors(l);
      if !ending.Finished? {
        RanStops(PlanOf(inp), ab, c, s, api.store, ending);
        return;
      }
      ListsAfterStore(inp, ab, s, l);
      ghost var t := api.store;
      ending := LabelListed(PrometheusRule, l.rules);
      RanThen(PlanOf(inp), ab, c, s, t, api.store, ending);
    }

    /** The first two of the loops. */
    method LabelMonitors(l: Listing) returns (ending: Ending<Id>)
      requires Lists(l, api.store.objects) && Once(l)
      modifies api
      ensures Ran(PlanOf(inp), Puts(PodMonitor, l.podMonitors) + Puts(ServiceMonitor, l.serviceMonitors),
                  old(api.store), api.store, ending)
    {
      ghost var s, a, b := api.store, Puts(PodMonitor, l.podMonitors), Puts(ServiceMonitor, l.serviceMonitors);
      ending := LabelListed(PodMonitor, l.podMonitors);
      if !ending.Finished? {
        RanStops(PlanOf(inp), a, b, s, api.store, ending);
        return;
      }
      ListsAfterStore(inp, a, s, l);
      ghost var t := api.store;
      ending := LabelListed(ServiceMonitor, l.serviceMonitors);
      RanThen(PlanOf(inp), a, b, s, t, api.store, ending);
    }

    method SizeContainers(found: seq<Container>) returns (ok: bool, containers: seq<Container>)
      ensures ok <==> Listed(inp, found)
      ensures ok ==> containers == Sized(inp, found)
    {
      containers := found;
      for j := 0 to |containers|
        invariant |containers| == |found| && forall k :: j <= k < |found| ==> containers[k] == found[k]
        invariant forall k :: 0 <= k < j ==>
                    found[k].name in inp.resources &&
                    containers[k] == found[k].(resources := inp.resources[found[k].name])
      {
        var container := containers[j];
        if container.name !in inp.resources {
          return false, containers;
        }
        containers := containers[j := container.(resources := inp.resources[container.name])];
      }
      return true, containers;
    }

    /** The panic on a container without resources is the answer false. */
    method SizeDeployments(csv: Resource) returns (ok: bool)
      modifies csv`deployments
      ensures ok <==> Known(inp, old(csv.deployments))
      ensures ok ==> csv.deployments == AllSized(inp, old(csv.deployments))
    {
      ghost var was := csv.deployments;
      for i := 0 to |csv.deployments|
        invariant |csv.deployments| == |was| && forall k :: i <= k < |was| ==> csv.deployments[k] == was[k]
        invariant forall k :: 0 <= k < i ==> Listed(inp, was[k]) && csv.deployments[k] == Sized(inp, was[k])
      {
        var containers;
        ok, containers := SizeContainers(csv.deployments[i]);
        if !ok {
          return false;
        }
        csv.deployments := csv.deployments[i := containers];
      }
      return true;
    }

    method ReconcileCSV(csvs: seq<string>) returns (ending: Ending<Id>)
      requires inp.plugin.DataFoundation? && Enumerates(csvs, ClusterServiceVersion, api.store.objects)
      modifies api
      ensures Ran(PlanOf(inp), [CsvOp(csvs)], old(api.store), api.store, ending)
    {
      ghost var op := CsvOp(csvs);
      NothingRan(PlanOf(inp), [op], api.store);
      var listed, _ := api.List(Ids(ClusterServiceVersion, csvs));
      if !listed {
        return Cut;
      }
      var name := GetCSVByPrefix(csvs, CSV_PREFIX);
      if name.None? {
        return Refused(Failure(Stop("unable to find OCS CSV"), "unable to find OCS CSV"));
      }
      ending := UpdateCSV(Id(ClusterServiceVersion, name.value));
    }

    /** GetAndUpdate of the chosen CSV. */
    method UpdateCSV(id: Id) returns (ending: Ending<Id>)
      requires inp.plugin.DataFoundation? && id.kind == ClusterServiceVersion
      modifies api
      ensures Ran(PlanOf(inp), [Put(id)], old(api.store), api.store, ending)
    {
      OneOp(PlanOf(inp), Put(id), api.store);
      NothingRan(PlanOf(inp), [Put(id)], api.store);
      var got := api.Get(id);
      if got.Failed? {
        return Cut;
      } else if got.NotFound? {
        return Refused(Failure(Put(id), "not found"));
      }
      var csv := new Resource(got.value);
      var _ := csv.meta.AddOwnerReference(Some(inp.offering), false);
      var known := SizeDeployments(csv);
      if !known {
        return Refused(Failure(Put(id), "Resource requirement not found"));
      }
      ending := Save(api, inp, id, Some(got.value), csv);
    }

    method ReconcileNetworkPolicy(id: Id) returns (ending: Ending<Id>)
      requires id == CEPH_POLICY || id == PROVIDER_POLICY
      modifies api
      ensures Ran(PlanOf(inp), [Put(id)], old(api.store), api.store, ending)
    {
      NothingRan(PlanOf(inp), [Put(id)], api.store);
      var got := api.Get(id);
      if got.Failed? {
        return Cut;
      }
      var found := if got.Found? then Some(got.value) else None;
      var policy := new Resource(if found.Some? then found.value else BLANK);
      var _ := policy.meta.AddOwnerReference(Some(inp.offering), true);
      policy.spec := if id == CEPH_POLICY then inp.cephSpec else inp.providerSpec;
      ending := Save(api, inp, id, found, policy);
    }

    method ReconcileRookCephOperatorConfig() returns (ending: Ending<Id>)
      modifies api
      ensures Ran(PlanOf(inp), [Put(ROOK_CONFIG)], old(api.store), api.store, ending)
    {
      OneOp(PlanOf(inp), Put(ROOK_CONFIG), api.store);
      NothingRan(PlanOf(inp), [Put(ROOK_CONFIG)], api.store);
      var got := api.Get(ROOK_CONFIG);
      if got.Failed? {
        return Cut;
      } else if got.NotFound? {
        return Refused(Failure(Put(ROOK_CONFIG), "not found"));
      }
      var clone := new Resource(got.value);
      if clone.data == None {
        clone.data := Some(map[]);
      }
      clone.data := Some(clone.data.value["ROOK_CSI_ENABLE_CEPHFS" := "false"]);
      clone.data := Some(clone.data.value["ROOK_CSI_ENABLE_RBD" := "false"]);
      var ok := api.Write(ROOK_CONFIG, clone.Value());
      assert [Put(ROOK_CONFIG)][..1] == [Put(ROOK_CONFIG)];
      return if ok then Finished else Cut;
    }

    method ReconcileOCSInitialization() returns (ending: Ending<Id>)
      modifies api
      ensures Ran(PlanOf(inp), [Put(OCS_INITIALIZATION)], old(api.store), api.store, ending)
    {
      OneOp(PlanOf(inp), Put(OCS_INITIALIZATION), api.store);
      NothingRan(PlanOf(inp), [Put(OCS_INITIALIZATION)], api.store);
      var got := api.Get(OCS_INITIALIZATION);
      if got.Failed? {
        return Cut;
      } else if got.NotFound? {
        return Refused(Failure(Put(OCS_INITIALIZATION), "not found"));
      }
      var initialization := new Resource(got.value);
      var _ := initialization.meta.AddOwnerReference(Some(inp.offering), false);
      initialization.enableCephTools := true;
      ending := Save(api, inp, OCS_INITIALIZATION, Some(got.value), initialization);
    }

    /** The first two phases. */
    method ReconcileStorage() returns (ending: Ending<Id>)
      requires Valid()
      modifies api
      ensures Ran(PlanOf(inp), Head(), old(api.store), api.store, ending)
    {
      ghost var s, p := api.store, Head();
      assert p[0..1] == [Put(KEY_SECRET)] && p[1..2] == [Put(STORAGE_CLUSTER)];
      ending := ReconcileOnboardingValidationSecret();
      Piece(PlanOf(inp), p, 0, 1, s, s, api.store, ending);
      if !ending.Finished? { return; }
      ghost var t := api.store;
      ending := ReconcileStorageCluster();
      Piece(PlanOf(inp), p, 1, 2, s, t, api.store, ending);
      assert p[..2] == p;
    }

    /** The phases after the monitoring resources. */
    method ReconcileOperator(csvs: seq<string>) returns (ending: Ending<Id>)
      requires inp.plugin.DataFoundation? && Enumerates(csvs, ClusterServiceVersion, api.store.objects)
      modifies api
      ensures Ran(PlanOf(inp), Tail(csvs), old(api.store), api.store, ending)
    {
      ghost var s, p := api.store, Tail(csvs);
      TailPieces(csvs, p);
      ending := ReconcileCSV(csvs);
      Piece(PlanOf(inp), p, 0, 1, s, s, api.store, ending);
      if !ending.Finished? { return; }
      ghost var t := api.store;
      ending := ReconcileNetworkPolicy(CEPH_POLICY);
      Piece(PlanOf(inp), p, 1, 2, s, t, api.store, ending);
      if !ending.Finished? { return; }
      t := api.store;
      ending := ReconcileNetworkPolicy(PROVIDER_POLICY);
      Piece(PlanOf(inp), p, 2, 3, s, t, api.store, ending);
      if !ending.Finished? { return; }
      t := api.store;
      ending := ReconcileRookCephOperatorConfig();
      Piece(PlanOf(inp), p, 3, 4, s, t, api.store, ending);
      if !ending.Finished? { return; }
      t := api.store;
      ending := ReconcileOCSInitialization();
      Piece(PlanOf(inp), p, 4, 5, s, t, api.store, ending);
    }

    /** The install branch of reconcilePhases; l is what its lists return. However it ends, it has done a
        prefix of the program, and all of it, with the same error, unless a call failed. */
    method ReconcilePhases(l: Listing) returns (ending: Ending<Id>)
      requires Valid() && Lists(l, api.store.objects) && Once(l)
      modifies api
      ensures Ran(PlanOf(inp), Program(l), old(api.store), api.store, ending)
    {
      ghost var s, a, b, c := api.store, Head(), Labels(l), Tail(l.csvs);
      assert Program(l) == a + b + c == a + (b + c);
      ending := ReconcileStorage();
      if !ending.Finished? {
        RanStops(PlanOf(inp), a, b + c, s, api.store, ending);
        return;
      }
      ghost var t := api.store;
      ListsAfterStore(inp, a, s, l);
      ending := ReconcileMonitoringResources(l);
      RanThen(PlanOf(inp), a, b, s, t, api.store, ending);
      if !ending.Finished? {
        RanStops(PlanOf(inp), a + b, c, s, api.store, ending);
        return;
      }
      t := api.store;
      ListsAfterStore(inp, a + b, s, l);
      ending := ReconcileOperator(l.csvs);
      RanThen(PlanOf(inp), a + b, c, s, t, api.store, ending);
    }
  }
}
