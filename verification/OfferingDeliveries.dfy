/** What an attempt of either plugin delivers: when it succeeds, in which order it works, and what it then leaves in
    each object it is responsible for. Names, keys and labels are spelled out. */
module OfferingDeliveries {
  import opened Wrappers
  import opened ObjectMeta
  import opened Float64
  import opened DeviceSets
  import opened ObjectStore
  import opened Phases
  import opened Text
  import opened DataFoundationPhases

  // ----- what is promised of an object -----

  /** The offering is among the owners, with this controller flag, and every other owner is as before. */
  ghost predicate OwnedBy(inp: Input, before: Option<Object>, o: Object, isController: bool) {
    var was := AsMap(if before.Some? then before.value.owners else []);
    var now, owner := AsMap(o.owners), inp.offering;
    && now.Keys == was.Keys + {owner}
    && now[owner] == OwnerReference(owner.apiVersion, owner.kind, owner.name, owner.uid, Some(isController), None)
    && forall other :: other in was && other != owner ==> now[other] == was[other]
  }

  /** All entries but these are as before; an absent map is an empty one. */
  ghost predicate KeepsOthers(before: Option<map<string, string>>, after: map<string, string>, keys: set<string>) {
    var was := if before.None? then map[] else before.value;
    forall key :: key !in keys ==> (key in after <==> key in was) && (key in was ==> after[key] == was[key])
  }

  /** Same deployments and containers, in order. */
  predicate SameShape(before: seq<seq<Container>>, after: seq<seq<Container>>) {
    |after| == |before| && forall i :: 0 <= i < |before| ==>
      |after[i]| == |before[i]| && forall j :: 0 <= j < |before[i]| ==> after[i][j].name == before[i][j].name
  }

  const WHITE_SPACE: set<char> := {
    '\t', '\n', '\U{0B}', '\U{0C}', '\r', ' ', '\U{85}', '\U{A0}', '\U{1680}', '\U{2000}', '\U{2001}', '\U{2002}',
    '\U{2003}', '\U{2004}', '\U{2005}', '\U{2006}', '\U{2007}', '\U{2008}', '\U{2009}', '\U{200A}', '\U{2028}',
    '\U{2029}', '\U{202F}', '\U{205F}', '\U{3000}'}

  ghost predicate Blank(s: string) {
    forall c :: c in s ==> c in WHITE_SPACE
  }

  /** The key without surrounding white space, between the two marker lines. */
  ghost predicate IsPublicKey(text: string, key: string) {
    exists before: string, body: string, after: string ::
      && key == before + body + after && Blank(before) && Blank(after)
      && (body != "" ==> body[0] !in WHITE_SPACE && body[|body| - 1] !in WHITE_SPACE)
      && text == "-----BEGIN PUBLIC KEY-----\n" + body + "\n-----END PUBLIC KEY-----"
  }

  /** The promise for the objects of a DataFoundation offering; everything else of them is as it was found. */
  ghost predicate Delivered(inp: Input, id: Id, before: Option<Object>, o: Object) {
    var was := if before.Some? then before.value else BLANK;
    match id.kind
    case Secret =>
      && OwnedBy(inp, before, o, true) && o == was.(owners := o.owners, data := o.data)
      && o.data.Some? && o.data.value.Keys == {"key"} && IsPublicKey(o.data.value["key"], inp.validationKey)
    case StorageCluster =>
      && OwnedBy(inp, before, o, true) && o == was.(owners := o.owners, deviceSets := o.deviceSets, spec := o.spec)
      && o.spec == inp.storageSpec && StorageDelivered(inp.capacity, was.deviceSets, o.deviceSets)
    case NetworkPolicy =>
      && OwnedBy(inp, before, o, true) && o == was.(owners := o.owners, spec := o.spec)
      && (id.name == "ceph-ingress-rule" ==> o.spec == inp.cephSpec)
      && (id.name == "provider-api-server-rule" ==> o.spec == inp.providerSpec)
    case ConfigMap =>
      && before.Some? && o.data.Some? && o == was.(data := o.data)
      && KeepsOthers(was.data, o.data.value, {"ROOK_CSI_ENABLE_CEPHFS", "ROOK_CSI_ENABLE_RBD"})
      && "ROOK_CSI_ENABLE_CEPHFS" in o.data.value && o.data.value["ROOK_CSI_ENABLE_CEPHFS"] == "false"
      && "ROOK_CSI_ENABLE_RBD" in o.data.value && o.data.value["ROOK_CSI_ENABLE_RBD"] == "false"
    case ClusterServiceVersion =>
      && before.Some? && OwnedBy(inp, before, o, false) && SameShape(was.deployments, o.deployments)
      && o == was.(owners := o.owners, deployments := o.deployments)
      && forall i, j :: 0 <= i < |o.deployments| && 0 <= j < |o.deployments[i]| ==>
           var c := o.deployments[i][j]; c.name in inp.resources && c.resources == inp.resources[c.name]
    case OCSInitialization =>
      before.Some? && OwnedBy(inp, before, o, false) && o == was.(owners := o.owners, enableCephTools := true)
    case _ =>
      && before.Some? && o.labels.Some? && o == was.(labels := o.labels)
      && KeepsOthers(was.labels, o.labels.value, {"app"})
      && "app" in o.labels.value && o.labels.value["app"] == "managed-fusion-agent"
  }

  /** One device set, the template's, with the count for the capacity, or the one found if that was larger. Found is the
      first set named "default"; without one the count is that for the capacity. */
  ghost predicate StorageDelivered(capacity: int, was: seq<DeviceSet>, now: seq<DeviceSet>) {
    && capacity > 0 && |now| == 1 && now[0] == DeviceSet("default", now[0].count, 3, "ssd")
    && ((forall j :: 0 <= j < |was| ==> was[j].name != "default") ==> now[0].count == DesiredCount(capacity))
    && (forall i: nat :: FirstDefault(was, i) ==>
          now[0].count == if was[i].count < DesiredCount(capacity) then DesiredCount(capacity) else was[i].count)
    && (capacity <= 0x20_0000_0000_0000 ==> DesiredCount(capacity) == (capacity + 3) / 4)
  }

  /** The promise for the objects of a client offering. */
  ghost predicate ClientDelivered(inp: Input, id: Id, before: Option<Object>, o: Object) {
    var was := if before.Some? then before.value else BLANK;
    match id.kind
    case ClusterServiceVersion => before.Some? && OwnedBy(inp, before, o, false) && o == was.(owners := o.owners)
    case StorageClient =>
      && OwnedBy(inp, before, o, true) && o == was.(owners := o.owners, onboarding := o.onboarding)
      && o.onboarding.Some? && o.onboarding.value.ticket == inp.onboarding.ticket != ""
      && o.onboarding.value.endpoint == inp.onboarding.endpoint != ""
    case StorageClassClaim =>
      && o == was.(client := o.client, spec := o.spec) && o.client == Some("ocs-storageclient")
      && (id.name == "ocs-storagecluster-ceph-rbd" ==> o.spec == "blockpool")
      && (id.name == "ocs-storagecluster-cephfs" ==> o.spec == "sharedfilesystem")
    case _ =>
      && OwnedBy(inp, before, o, true) && o == was.(owners := o.owners, data := o.data)
      && o.data == Some(map["aws-sts-metadata-test" := inp.kmsDetails])
  }

  // ----- each phase keeps its promise -----

  lemma SpacesAre(c: char)
    ensures IsSpace(c) <==> c in WHITE_SPACE
  {
  }

  lemma BlankIs(s: string)
    ensures Blank(s) <==> AllSpace(s)
  {
    forall c | c in s ensures IsSpace(c) <==> c in WHITE_SPACE {
      SpacesAre(c);
    }
  }

  lemma PublicKeyIs(key: string)
    ensures IsPublicKey(PublicKey(key), key)
  {
    var before, after := TrimCutsTheEnds(key);
    assert key == before + TrimSpace(key) + after;
    BlankIs(before);
    BlankIs(after);
    var body := TrimSpace(key);
    if body != "" {
      SpacesAre(body[0]);
      SpacesAre(body[|body| - 1]);
    }
  }

  lemma ChangeOwns(inp: Input, o: Object, isController: bool)
    ensures OwnedBy(inp, Some(o), Owned(inp, o, isController), isController)
    ensures o.owners == [] ==> OwnedBy(inp, None, Owned(inp, o, isController), isController)
  {
    UpsertRefinesMap(o.owners, RefTo(inp.offering, isController));
  }

  lemma StorageIsDelivered(capacity: nat, was: seq<DeviceSet>)
    requires capacity > 0
    ensures StorageDelivered(capacity, was, Desired(TEMPLATE_SETS, was, capacity))
  {
    assert Position(TEMPLATE_SETS, DEFAULT_DEVICE_SET) == 0;
    CurrentCountIsFound(was);
    CountIsPositive(capacity);
    if capacity <= PRECISION_LIMIT { ConversionIsExact(capacity); }
  }

  lemma StorageClusterDelivers(inp: Input, id: Id, found: Option<Object>)
    requires inp.plugin.DataFoundation? && Change(inp, id, found).Ok? && id.kind.StorageCluster?
    ensures Delivered(inp, id, found, Change(inp, id, found).value)
  {
    var o := if found.Some? then found.value else BLANK;
    ChangeOwns(inp, o, true);
    StorageIsDelivered(inp.capacity, o.deviceSets);
  }

  lemma SecretDelivers(inp: Input, id: Id, found: Option<Object>)
    requires inp.plugin.DataFoundation? && Change(inp, id, found).Ok? && id.kind.Secret?
    ensures Delivered(inp, id, found, Change(inp, id, found).value)
  {
    ChangeOwns(inp, if found.Some? then found.value else BLANK, true);
    PublicKeyIs(inp.validationKey);
  }

  lemma CsvDelivers(inp: Input, id: Id, found: Option<Object>)
    requires inp.plugin.DataFoundation? && Change(inp, id, found).Ok? && id.kind.ClusterServiceVersion?
    ensures Delivered(inp, id, found, Change(inp, id, found).value)
  {
    var o := if found.Some? then found.value else BLANK;
    ChangeOwns(inp, o, false);
    SizedFromTable(inp, o.deployments);
  }

  lemma ChangeDelivers(inp: Input, id: Id, found: Option<Object>)
    requires inp.plugin.DataFoundation? && Change(inp, id, found).Ok?
    requires id != KMS_CONFIG && !id.kind.StorageClient? && !id.kind.StorageClassClaim?
    ensures Delivered(inp, id, found, Change(inp, id, found).value)
  {
    var o := if found.Some? then found.value else BLANK;
    match id.kind
    case StorageCluster => StorageClusterDelivers(inp, id, found);
    case ClusterServiceVersion => CsvDelivers(inp, id, found);
    case OCSInitialization => ChangeOwns(inp, o, false);
    case Secret => SecretDelivers(inp, id, found);
    case NetworkPolicy =>
      ChangeOwns(inp, o, true);
      assert |"ceph-ingress-rule"| != |"provider-api-server-rule"|;
    case _ =>
  }

  lemma ClientChangeDelivers(inp: Input, id: Id, found: Option<Object>)
    requires inp.plugin.DataFoundationClient? && Change(inp, id, found).Ok?
    requires id == KMS_CONFIG || id.kind.StorageClient? || id.kind.StorageClassClaim? || id.kind.ClusterServiceVersion?
    ensures ClientDelivered(inp, id, found, Change(inp, id, found).value)
  {
    var o := if found.Some? then found.value else BLANK;
    ChangeOwns(inp, o, true);
    ChangeOwns(inp, o, false);
    assert |"ocs-storagecluster-ceph-rbd"| != |"ocs-storagecluster-cephfs"|;
  }

  lemma SizedFromTable(inp: Input, deployments: seq<seq<Container>>)
    requires Known(inp, deployments)
    ensures SameShape(deployments, AllSized(inp, deployments))
    ensures var sized := AllSized(inp, deployments);
            forall i, j :: 0 <= i < |sized| && 0 <= j < |sized[i]| ==>
              var c := sized[i][j]; c.name in inp.resources && c.resources == inp.resources[c.name]
  {
    var sized := AllSized(inp, deployments);
    forall i | 0 <= i < |sized| ensures sized[i] == Sized(inp, deployments[i]) && Listed(inp, deployments[i]) {
    }
  }

  // ----- what an attempt is responsible for -----

  /** The first listed CSV with this prefix. */
  ghost predicate Chosen(csvs: seq<string>, prefix: string, id: Id) {
    && id.kind == ClusterServiceVersion
    && exists i :: 0 <= i < |csvs| && csvs[i] == id.name && prefix <= csvs[i] &&
         forall j :: 0 <= j < i ==> !(prefix <= csvs[j])
  }

  /** Six objects by name, the monitors that exist, and the chosen CSV. */
  ghost predicate Responsible(l: Listing, s: Objects, id: Id) {
    || id in {Id(Secret, "onboarding-ticket-key"), Id(StorageCluster, "ocs-storagecluster"),
              Id(NetworkPolicy, "ceph-ingress-rule"), Id(NetworkPolicy, "provider-api-server-rule"),
              Id(ConfigMap, "rook-ceph-operator-config"), Id(OCSInitialization, "ocsinit")}
    || (id.kind in {PodMonitor, ServiceMonitor, PrometheusRule} && id in s)
    || Chosen(l.csvs, "ocs-operator", id)
  }

  /** Four objects by name, and the chosen CSV. */
  ghost predicate ClientResponsible(csvs: seq<string>, id: Id) {
    || id in {Id(StorageClient, "ocs-storageclient"), Id(StorageClassClaim, "ocs-storagecluster-ceph-rbd"),
              Id(StorageClassClaim, "ocs-storagecluster-cephfs"), Id(ConfigMap, "csi-kms-connection-details")}
    || Chosen(csvs, "ocs-client-operator", id)
  }

  lemma {:induction false} FirstIsChosen(csvs: seq<string>, prefix: string, name: string)
    ensures FirstWithPrefix(csvs, prefix) == Some(name) <==> Chosen(csvs, prefix, Id(ClusterServiceVersion, name))
  {
    if csvs != [] && !(prefix <= csvs[0]) {
      FirstIsChosen(csvs[1..], prefix, name);
      var id := Id(ClusterServiceVersion, name);
      if Chosen(csvs[1..], prefix, id) {
        var i :| 0 <= i < |csvs[1..]| && csvs[1..][i] == name && prefix <= csvs[1..][i] &&
                 forall j :: 0 <= j < i ==> !(prefix <= csvs[1..][j]);
        assert csvs[i + 1] == name && forall j :: 0 < j < i + 1 ==> csvs[j] == csvs[1..][j - 1];
      }
      if Chosen(csvs, prefix, id) {
        var i :| 0 <= i < |csvs| && csvs[i] == name && prefix <= csvs[i] &&
                 forall j :: 0 <= j < i ==> !(prefix <= csvs[j]);
        assert csvs[1..][i - 1] == name;
      }
    }
  }

  lemma LabelsAre(l: Listing, s: Objects, id: Id)
    requires Lists(l, s)
    ensures Put(id) in Labels(l) <==> Labelled(id.kind) && id in s
  {
    var names := match id.kind
      case PodMonitor => l.podMonitors
      case ServiceMonitor => l.serviceMonitors
      case _ => l.rules;
    if Labelled(id.kind) && id in s {
      assert id.name in names;
      var i :| 0 <= i < |names| && names[i] == id.name;
      assert Puts(id.kind, names)[i] == Put(id);
    }
  }

  lemma ProgramIsResponsible(l: Listing, s: Objects, id: Id)
    requires Lists(l, s)
    ensures Put(id) in Program(l) <==> Responsible(l, s, id)
  {
    LabelsAre(l, s, id);
    FirstIsChosen(l.csvs, CSV_PREFIX, id.name);
    assert Put(id) in Program(l) <==> Put(id) in Head() || Put(id) in Labels(l) || Put(id) in Tail(l.csvs);
    var head, tail := Head(), Tail(l.csvs);
    assert head[0] == Put(KEY_SECRET) && head[1] == Put(STORAGE_CLUSTER);
    assert tail[0] == CsvOp(l.csvs) && tail[1] == Put(CEPH_POLICY) && tail[2] == Put(PROVIDER_POLICY);
    assert tail[3] == Put(ROOK_CONFIG) && tail[4] == Put(OCS_INITIALIZATION);
  }

  lemma ClientProgramIsResponsible(csvs: seq<string>, id: Id)
    ensures Put(id) in ClientProgram(csvs) <==> ClientResponsible(csvs, id)
  {
    FirstIsChosen(csvs, CLIENT_CSV_PREFIX, id.name);
    var p := ClientProgram(csvs);
    assert p[0] == ClientCsvOp(csvs) && p[1] == Put(STORAGE_CLIENT) && p[2] == Put(BLOCK_CLAIM);
    assert p[3] == Put(FILESYSTEM_CLAIM) && p[4] == Put(KMS_CONFIG);
  }

  // ----- what a full attempt delivers -----

  /** After an error-free attempt every object it is responsible for exists and is as promised, and
      every other one is untouched. */
  lemma FullAttemptDelivers(inp: Input, l: Listing, s: Objects, id: Id)
    requires inp.plugin.DataFoundation? && Lists(l, s) && Exec(PlanOf(inp), Program(l), s).error.None?
    ensures var t := Exec(PlanOf(inp), Program(l), s).objects;
            if Responsible(l, s, id) then id in t && Delivered(inp, id, Lookup(s, id), t[id])
            else Lookup(t, id) == Lookup(s, id)
  {
    PlanIsIdempotent(inp);
    ErrorFreeRun(PlanOf(inp), Program(l), s, id);
    ProgramIsResponsible(l, s, id);
    if Responsible(l, s, id) {
      assert |KMS_CONFIG.name| != |ROOK_CONFIG.name|;
      ChangeDelivers(inp, id, Lookup(s, id));
    }
  }

  /** The same for a client offering. */
  lemma FullClientAttemptDelivers(inp: Input, csvs: seq<string>, s: Objects, id: Id)
    requires inp.plugin.DataFoundationClient? && Exec(PlanOf(inp), ClientProgram(csvs), s).error.None?
    ensures var t := Exec(PlanOf(inp), ClientProgram(csvs), s).objects;
            if ClientResponsible(csvs, id) then id in t && ClientDelivered(inp, id, Lookup(s, id), t[id])
            else Lookup(t, id) == Lookup(s, id)
  {
    PlanIsIdempotent(inp);
    ErrorFreeRun(PlanOf(inp), ClientProgram(csvs), s, id);
    ClientProgramIsResponsible(csvs, id);
    if ClientResponsible(csvs, id) {
      ClientChangeDelivers(inp, id, Lookup(s, id));
    }
  }

  /** An executed attempt that finishes has delivered. */
  lemma FinishedRunDelivers(inp: Input, l: Listing, s: Store<Id, Object>, t: Store<Id, Object>, id: Id)
    requires inp.plugin.DataFoundation? && Lists(l, s.objects) && Ran(PlanOf(inp), Program(l), s, t, Finished)
    ensures if Responsible(l, s.objects, id) then id in t.objects &&
              Delivered(inp, id, Lookup(s.objects, id), t.objects[id])
            else Lookup(t.objects, id) == Lookup(s.objects, id)
  {
    AfterIsExec(PlanOf(inp), Program(l), s);
    FullAttemptDelivers(inp, l, s.objects, id);
  }

  lemma FinishedClientRunDelivers(inp: Input, csvs: seq<string>, s: Store<Id, Object>, t: Store<Id, Object>, id: Id)
    requires inp.plugin.DataFoundationClient? && Ran(PlanOf(inp), ClientProgram(csvs), s, t, Finished)
    ensures if ClientResponsible(csvs, id) then id in t.objects &&
              ClientDelivered(inp, id, Lookup(s.objects, id), t.objects[id])
            else Lookup(t.objects, id) == Lookup(s.objects, id)
  {
    AfterIsExec(PlanOf(inp), ClientProgram(csvs), s);
    FullClientAttemptDelivers(inp, csvs, s.objects, id);
  }

  // ----- when an attempt succeeds -----

  /** Every container of the deployments is in the resource table. */
  ghost predicate InTable(inp: Input, o: Object) {
    forall i, j :: 0 <= i < |o.deployments| && 0 <= j < |o.deployments[i]| ==>
      o.deployments[i][j].name in inp.resources
  }

  ghost predicate CanSucceed(inp: Input, l: Listing, s: Objects) {
    && inp.validationKey != "" && inp.capacity > 0
    && (exists id :: Chosen(l.csvs, "ocs-operator", id) && id in s && InTable(inp, s[id]))
    && Id(ConfigMap, "rook-ceph-operator-config") in s && Id(OCSInitialization, "ocsinit") in s
  }

  lemma CsvPossible(inp: Input, csvs: seq<string>, s: Objects)
    requires inp.plugin.DataFoundation? && Enumerates(csvs, ClusterServiceVersion, s)
    ensures Possible(PlanOf(inp), CsvOp(csvs), s) <==>
            exists id :: Chosen(csvs, "ocs-operator", id) && id in s && InTable(inp, s[id])
  {
    var name := FirstWithPrefix(csvs, CSV_PREFIX);
    forall other: string
      ensures Chosen(csvs, "ocs-operator", Id(ClusterServiceVersion, other)) <==> name == Some(other)
    {
      FirstIsChosen(csvs, CSV_PREFIX, other);
    }
    if name.Some? {
      var id := Id(ClusterServiceVersion, name.value);
      assert Chosen(csvs, "ocs-operator", id);
      if id in s {
        assert InTable(inp, s[id]) <==> Known(inp, s[id].deployments);
      }
    }
  }

  /** An attempt succeeds exactly when the config is usable, the operator's CSV is there with known containers, and so
      are the two objects it only edits. */
  lemma AttemptSucceedsIff(inp: Input, l: Listing, s: Objects)
    requires inp.plugin.DataFoundation? && Lists(l, s)
    ensures Exec(PlanOf(inp), Program(l), s).error.None? <==> CanSucceed(inp, l, s)
  {
    PlanIsIdempotent(inp);
    ErrorFreeIff(PlanOf(inp), Program(l), s);
    LabelsPossible(inp, l, s);
    OpsOfProgram(PlanOf(inp), l, s);
    CsvPossible(inp, l.csvs, s);
    NamedPossible(inp, s);
  }

  lemma OpsOfProgram(plan: Plan<Id, Object>, l: Listing, s: Objects)
    requires forall op :: op in Labels(l) ==> Possible(plan, op, s)
    ensures (forall op :: op in Program(l) ==> Possible(plan, op, s)) <==>
              && Possible(plan, Put(KEY_SECRET), s) && Possible(plan, Put(STORAGE_CLUSTER), s)
              && Possible(plan, CsvOp(l.csvs), s)
              && Possible(plan, Put(CEPH_POLICY), s) && Possible(plan, Put(PROVIDER_POLICY), s)
              && Possible(plan, Put(ROOK_CONFIG), s) && Possible(plan, Put(OCS_INITIALIZATION), s)
  {
    var head, tail := Head(), Tail(l.csvs);
    assert head[0] == Put(KEY_SECRET) && head[1] == Put(STORAGE_CLUSTER);
    assert tail[0] == CsvOp(l.csvs) && tail[1] == Put(CEPH_POLICY) && tail[2] == Put(PROVIDER_POLICY);
    assert tail[3] == Put(ROOK_CONFIG) && tail[4] == Put(OCS_INITIALIZATION);
    assert forall op :: op in Program(l) <==> op in head || op in Labels(l) || op in tail;
  }

  lemma NamedPossible(inp: Input, s: Objects)
    requires inp.plugin.DataFoundation?
    ensures Possible(PlanOf(inp), Put(KEY_SECRET), s) <==> inp.validationKey != ""
    ensures Possible(PlanOf(inp), Put(STORAGE_CLUSTER), s) <==> inp.capacity > 0
    ensures Possible(PlanOf(inp), Put(CEPH_POLICY), s) && Possible(PlanOf(inp), Put(PROVIDER_POLICY), s)
    ensures Possible(PlanOf(inp), Put(ROOK_CONFIG), s) <==> Id(ConfigMap, "rook-ceph-operator-config") in s
    ensures Possible(PlanOf(inp), Put(OCS_INITIALIZATION), s) <==> Id(OCSInitialization, "ocsinit") in s
  {
    OnlyEdited(inp, s);
  }

  lemma OnlyEdited(inp: Input, s: Objects)
    requires inp.plugin.DataFoundation?
    ensures Possible(PlanOf(inp), Put(ROOK_CONFIG), s) <==> Id(ConfigMap, "rook-ceph-operator-config") in s
    ensures Possible(PlanOf(inp), Put(OCS_INITIALIZATION), s) <==> Id(OCSInitialization, "ocsinit") in s
  {
    assert |KMS_CONFIG.name| != |ROOK_CONFIG.name|;
  }

  lemma LabelsPossible(inp: Input, l: Listing, s: Objects)
    requires Lists(l, s)
    ensures forall op :: op in Labels(l) ==> Possible(PlanOf(inp), op, s)
  {
    forall op | op in Labels(l) ensures Possible(PlanOf(inp), op, s) {
      LabelsAre(l, s, op.id);
    }
  }

  /** A client attempt succeeds exactly when both onboarding fields are there, and a CSV of the client operator is. */
  lemma ClientAttemptSucceedsIff(inp: Input, csvs: seq<string>, s: Objects)
    requires inp.plugin.DataFoundationClient? && Enumerates(csvs, ClusterServiceVersion, s)
    ensures Exec(PlanOf(inp), ClientProgram(csvs), s).error.None? <==>
              && inp.onboarding.endpoint != "" && inp.onboarding.ticket != ""
              && exists id :: Chosen(csvs, "ocs-client-operator", id)
  {
    var p := ClientProgram(csvs);
    PlanIsIdempotent(inp);
    ErrorFreeIff(PlanOf(inp), p, s);
    ClientCsvPossible(inp, csvs, s);
    ClientPossible(inp, s);
    assert p[0] == ClientCsvOp(csvs) && p[1] == Put(STORAGE_CLIENT) && p[2] == Put(BLOCK_CLAIM);
    assert p[3] == Put(FILESYSTEM_CLAIM) && p[4] == Put(KMS_CONFIG);
  }

  lemma ClientPossible(inp: Input, s: Objects)
    ensures Possible(PlanOf(inp), Put(STORAGE_CLIENT), s) <==>
              inp.onboarding.endpoint != "" && inp.onboarding.ticket != ""
    ensures Possible(PlanOf(inp), Put(BLOCK_CLAIM), s) && Possible(PlanOf(inp), Put(FILESYSTEM_CLAIM), s)
    ensures Possible(PlanOf(inp), Put(KMS_CONFIG), s)
  {
  }

  lemma ClientCsvPossible(inp: Input, csvs: seq<string>, s: Objects)
    requires inp.plugin.DataFoundationClient? && Enumerates(csvs, ClusterServiceVersion, s)
    ensures Possible(PlanOf(inp), ClientCsvOp(csvs), s) <==> exists id :: Chosen(csvs, "ocs-client-operator", id)
  {
    FirstIsListed(csvs, CLIENT_CSV_PREFIX);
    var name := FirstWithPrefix(csvs, CLIENT_CSV_PREFIX);
    forall other: string
      ensures Chosen(csvs, "ocs-client-operator", Id(ClusterServiceVersion, other)) <==> name == Some(other)
    {
      FirstIsChosen(csvs, CLIENT_CSV_PREFIX, other);
    }
    if name.Some? {
      assert Chosen(csvs, "ocs-client-operator", Id(ClusterServiceVersion, name.value));
    }
  }

  // ----- in which order -----

  /** Where an object comes in an attempt of either plugin. */
  function Place(id: Id): nat {
    match id.kind
    case Secret => 0
    case StorageCluster => 1
    case PodMonitor => 2
    case ServiceMonitor => 3
    case PrometheusRule => 4
    case ClusterServiceVersion => 5
    case NetworkPolicy => if id.name == "ceph-ingress-rule" then 6 else 7
    case OCSInitialization => 9
    case StorageClient => 10
    case StorageClassClaim => if id.name == "ocs-storagecluster-ceph-rbd" then 11 else 12
    case ConfigMap => if id == Id(ConfigMap, "rook-ceph-operator-config") then 8 else 13
  }

  function PlaceOf(op: Op<Id>): nat {
    if op.Put? then Place(op.id) else 5
  }

  ghost predicate InOrder(ops: seq<Op<Id>>) {
    forall i, j :: 0 <= i <= j < |ops| ==> PlaceOf(ops[i]) <= PlaceOf(ops[j])
  }

  lemma InOrderConcat(a: seq<Op<Id>>, b: seq<Op<Id>>, bound: nat)
    requires InOrder(a) && InOrder(b)
    requires forall op :: op in a ==> PlaceOf(op) <= bound
    requires forall op :: op in b ==> bound <= PlaceOf(op)
    ensures InOrder(a + b)
  {
    forall i, j | 0 <= i <= j < |a + b| ensures PlaceOf((a + b)[i]) <= PlaceOf((a + b)[j]) {
      if i < |a| { assert (a + b)[i] in a; }
      if |a| <= j { assert (a + b)[j] in b; }
    }
  }

  lemma PutsInOrder(kind: Kind, names: seq<string>)
    requires kind in {PodMonitor, ServiceMonitor, PrometheusRule}
    ensures InOrder(Puts(kind, names)) && forall op :: op in Puts(kind, names) ==> PlaceOf(op) == Place(Id(kind, ""))
  {
  }

  lemma LabelsInOrder(l: Listing)
    ensures InOrder(Labels(l)) && forall op :: op in Labels(l) ==> 2 <= PlaceOf(op) <= 4
  {
    var a, b := Puts(PodMonitor, l.podMonitors), Puts(ServiceMonitor, l.serviceMonitors);
    var c := Puts(PrometheusRule, l.rules);
    PutsInOrder(PodMonitor, l.podMonitors);
    PutsInOrder(ServiceMonitor, l.serviceMonitors);
    PutsInOrder(PrometheusRule, l.rules);
    InOrderConcat(a, b, 2);
    InOrderConcat(a + b, c, 3);
  }

  /** An attempt works on its objects in this order, so an error leaves everything later untouched. */
  lemma ProgramInOrder(l: Listing)
    ensures InOrder(Program(l))
  {
    LabelsInOrder(l);
    TailInOrder(l.csvs);
    InOrderConcat(Head(), Labels(l), 2);
    InOrderConcat(Head() + Labels(l), Tail(l.csvs), 4);
  }

  lemma TailInOrder(csvs: seq<string>)
    ensures InOrder(Tail(csvs)) && forall op :: op in Tail(csvs) ==> PlaceOf(op) >= 5
  {
    assert |"ceph-ingress-rule"| != |"provider-api-server-rule"|;
  }

  /** After an attempt that failed, what comes before the failing phase is as promised, and what comes after it is
      untouched. */
  lemma FailedAttemptStops(inp: Input, l: Listing, s: Objects, id: Id)
    requires inp.plugin.DataFoundation? && Lists(l, s) && Exec(PlanOf(inp), Program(l), s).error.Some?
    ensures var r := Exec(PlanOf(inp), Program(l), s);
            var failed := PlaceOf(r.error.value.op);
            && (Place(id) > failed ==> Lookup(r.objects, id) == Lookup(s, id))
            && (Place(id) < failed ==>
                  if Responsible(l, s, id) then id in r.objects && Delivered(inp, id, Lookup(s, id), r.objects[id])
                  else Lookup(r.objects, id) == Lookup(s, id))
  {
    var k := ErrorPoint(PlanOf(inp), Program(l), s);
    var done := Program(l)[..k];
    ProgramIsResponsible(l, s, id);
    PlanIsIdempotent(inp);
    ErrorFreeRun(PlanOf(inp), done, s, id);
    CutInOrder(l, k, id);
    if Put(id) in done {
      assert |KMS_CONFIG.name| != |ROOK_CONFIG.name|;
      ChangeDelivers(inp, id, Lookup(s, id));
    }
  }

  lemma CutInOrder(l: Listing, k: nat, id: Id)
    requires k < |Program(l)|
    ensures Put(id) in Program(l)[..k] ==> Put(id) in Program(l) && Place(id) <= PlaceOf(Program(l)[k])
    ensures Put(id) in Program(l) && Put(id) !in Program(l)[..k] ==> PlaceOf(Program(l)[k]) <= Place(id)
  {
    var p := Program(l);
    ProgramInOrder(l);
    if Put(id) in p {
      var i :| 0 <= i < |p| && p[i] == Put(id);
      assert forall j :: 0 <= j < k ==> p[j] == p[..k][j];
    }
  }

  lemma ClientProgramInOrder(csvs: seq<string>)
    ensures InOrder(ClientProgram(csvs)[1..]) && PlaceOf(ClientProgram(csvs)[0]) == 5
  {
    assert |"ocs-storagecluster-ceph-rbd"| != |"ocs-storagecluster-cephfs"|;
    assert |"rook-ceph-operator-config"| != |"csi-kms-connection-details"|;
  }

  // ----- which updates are issued -----

  /** After an error-free attempt the next one changes nothing, and writes exactly the monitors and the Rook config. */
  lemma SecondAttemptRewrites(inp: Input, l: Listing, s: Store<Id, Object>)
    requires inp.plugin.DataFoundation? && Lists(l, s.objects) && Exec(PlanOf(inp), Program(l), s.objects).error.None?
    ensures var plan, once := PlanOf(inp), After(PlanOf(inp), Program(l), s);
            After(plan, Program(l), once) == Store(once.objects, once.written + Unconditional(plan, Program(l)))
    ensures forall id :: id in Unconditional(PlanOf(inp), Program(l)) <==>
              || id == Id(ConfigMap, "rook-ceph-operator-config")
              || (id.kind in {PodMonitor, ServiceMonitor, PrometheusRule} && id in s.objects)
  {
    PlanIsIdempotent(inp);
    SecondRunRewrites(PlanOf(inp), Program(l), s);
    forall id: Id
      ensures id in Unconditional(PlanOf(inp), Program(l)) <==>
              || id == Id(ConfigMap, "rook-ceph-operator-config")
              || (id.kind in {PodMonitor, ServiceMonitor, PrometheusRule} && id in s.objects)
    {
      UnconditionalOnes(inp, l, s.objects, id);
    }
  }

  lemma UnconditionalOnes(inp: Input, l: Listing, s: Objects, id: Id)
    requires inp.plugin.DataFoundation? && Lists(l, s)
    ensures id in Unconditional(PlanOf(inp), Program(l)) <==>
              || id == Id(ConfigMap, "rook-ceph-operator-config")
              || (id.kind in {PodMonitor, ServiceMonitor, PrometheusRule} && id in s)
  {
    UnconditionalAre(PlanOf(inp), Program(l), id);
    ProgramIsResponsible(l, s, id);
    assert WritesAlways(inp, id) <==> id == ROOK_CONFIG || Labelled(id.kind);
  }

  /** For a client offering it writes exactly the chosen CSV. */
  lemma SecondClientAttemptRewrites(inp: Input, csvs: seq<string>, s: Store<Id, Object>)
    requires inp.plugin.DataFoundationClient? && Exec(PlanOf(inp), ClientProgram(csvs), s.objects).error.None?
    ensures var plan, once := PlanOf(inp), After(PlanOf(inp), ClientProgram(csvs), s);
            After(plan, ClientProgram(csvs), once) ==
              Store(once.objects, once.written + Unconditional(plan, ClientProgram(csvs)))
    ensures forall id :: id in Unconditional(PlanOf(inp), ClientProgram(csvs)) <==>
              Chosen(csvs, "ocs-client-operator", id)
  {
    PlanIsIdempotent(inp);
    SecondRunRewrites(PlanOf(inp), ClientProgram(csvs), s);
    forall id: Id
      ensures id in Unconditional(PlanOf(inp), ClientProgram(csvs)) <==> Chosen(csvs, "ocs-client-operator", id)
    {
      UnconditionalClientOnes(inp, csvs, id);
    }
  }

  lemma UnconditionalClientOnes(inp: Input, csvs: seq<string>, id: Id)
    requires inp.plugin.DataFoundationClient?
    ensures id in Unconditional(PlanOf(inp), ClientProgram(csvs)) <==> Chosen(csvs, "ocs-client-operator", id)
  {
    UnconditionalAre(PlanOf(inp), ClientProgram(csvs), id);
    ClientProgramIsResponsible(csvs, id);
    assert |KMS_CONFIG.name| != |ROOK_CONFIG.name|;
  }
}
