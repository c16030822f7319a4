/** The install phases of an offering (controllers/datafoundation.go, controllers/datafoundationclient.go) as a
    transformation of the objects in its namespace: whatever point an earlier attempt reached, the
    next full one arrives where a single full one would have. */
module DataFoundationPhases {
  import opened Wrappers
  import opened ObjectMeta
  import opened DeviceSets
  import opened Phases
  import opened Text

  datatype Kind =
    | Secret | StorageCluster | NetworkPolicy
    | PodMonitor | ServiceMonitor | PrometheusRule
    | ClusterServiceVersion | ConfigMap | OCSInitialization
    | StorageClient | StorageClassClaim

  datatype Id = Id(kind: Kind, name: string)

  datatype Onboarding = Onboarding(ticket: string, endpoint: string)

  datatype Container = Container(name: string, resources: string)

  /** An object of any kind; a field its kind does not have is never read. client is the StorageClient that a claim is
      for, in the same namespace; spec is the rest of the specification. */
  datatype Object = Object(
    owners: seq<OwnerReference>,
    labels: Option<map<string, string>>,
    data: Option<map<string, string>>,
    deviceSets: seq<DeviceSet>,
    deployments: seq<seq<Container>>,
    enableCephTools: bool,
    onboarding: Option<Onboarding>,
    client: Option<string>,
    spec: string)

  const BLANK := Object([], None, None, [], [], false, None, None, "")

  type Objects = map<Id, Object>

  const KEY_SECRET := Id(Secret, "onboarding-ticket-key")
  const STORAGE_CLUSTER := Id(StorageCluster, "ocs-storagecluster")
  const CEPH_POLICY := Id(NetworkPolicy, "ceph-ingress-rule")
  const PROVIDER_POLICY := Id(NetworkPolicy, "provider-api-server-rule")
  const ROOK_CONFIG := Id(ConfigMap, "rook-ceph-operator-config")
  const OCS_INITIALIZATION := Id(OCSInitialization, "ocsinit")
  const STORAGE_CLIENT := Id(StorageClient, "ocs-storageclient")
  const BLOCK_CLAIM := Id(StorageClassClaim, "ocs-storagecluster-ceph-rbd")
  const FILESYSTEM_CLAIM := Id(StorageClassClaim, "ocs-storagecluster-cephfs")
  const KMS_CONFIG := Id(ConfigMap, "csi-kms-connection-details")
  const CSV_PREFIX: string := "ocs-operator"
  const CLIENT_CSV_PREFIX: string := "ocs-client-operator"
  const MON_LABEL_KEY: string := "app"
  const MON_LABEL_VALUE: string := "managed-fusion-agent"
  const TEMPLATE_SETS: seq<DeviceSet> := [DeviceSet(DEFAULT_DEVICE_SET, 1, 3, "ssd")]

  datatype Plugin = DataFoundation | DataFoundationClient

  /** What one attempt works from: the offering, its parsed config, and the agent's static data. */
  datatype Input = Input(
    plugin: Plugin,
    offering: OwnerKey,
    validationKey: string,
    capacity: int,
    onboarding: Onboarding,
    storageSpec: string,
    cephSpec: string,
    providerSpec: string,
    kmsDetails: string,
    resources: map<string, string>)

  // ----- what each phase does to its object -----

  function PublicKey(key: string): string {
    "-----BEGIN PUBLIC KEY-----\n" + TrimSpace(key) + "\n-----END PUBLIC KEY-----"
  }

  function Owned(inp: Input, o: Object, isController: bool): Object {
    o.(owners := Upsert(o.owners, RefTo(inp.offering, isController)))
  }

  predicate Listed(inp: Input, containers: seq<Container>) {
    forall j :: 0 <= j < |containers| ==> containers[j].name in inp.resources
  }

  predicate Known(inp: Input, deployments: seq<seq<Container>>) {
    forall i :: 0 <= i < |deployments| ==> Listed(inp, deployments[i])
  }

  function Sized(inp: Input, containers: seq<Container>): (sized: seq<Container>)
    requires Listed(inp, containers)
    ensures |sized| == |containers|
  {
    seq(|containers|, j requires 0 <= j < |containers| =>
      Container(containers[j].name, inp.resources[containers[j].name]))
  }

  function AllSized(inp: Input, deployments: seq<seq<Container>>): (sized: seq<seq<Container>>)
    requires Known(inp, deployments)
    ensures |sized| == |deployments|
  {
    seq(|deployments|, i requires 0 <= i < |deployments| => Sized(inp, deployments[i]))
  }

  function CephFsAndRbdOff(data: Option<map<string, string>>): map<string, string> {
    (if data.None? then map[] else data.value)["ROOK_CSI_ENABLE_CEPHFS" := "false"]["ROOK_CSI_ENABLE_RBD" := "false"]
  }

  /** The object a phase wants, given the one it found. An error, or the panic on a container the
      resource table does not list, writes nothing. */
  function Change(inp: Input, id: Id, found: Option<Object>): Result<Object> {
    var o := if found.Some? then found.value else BLANK;
    match id.kind
    case Secret =>
      if inp.validationKey == "" then Err("invalid onboardingValidationKey")
      else Ok(Owned(inp, o, true).(data := Some(map["key" := PublicKey(inp.validationKey)])))
    case StorageCluster =>
      if inp.capacity <= 0 then Err("invalid or missing field: UsableCapacityInTiB")
      else Ok(Owned(inp, o, true).(
        deviceSets := Desired(TEMPLATE_SETS, o.deviceSets, inp.capacity), spec := inp.storageSpec))
    case NetworkPolicy =>
      Ok(Owned(inp, o, true).(spec := if id == CEPH_POLICY then inp.cephSpec else inp.providerSpec))
    case ClusterServiceVersion =>
      if found.None? then Err("not found")
      else if inp.plugin.DataFoundationClient? then Ok(Owned(inp, o, false))
      else if !Known(inp, o.deployments) then Err("Resource requirement not found")
      else Ok(Owned(inp, o, false).(deployments := AllSized(inp, o.deployments)))
    case ConfigMap =>
      if id == KMS_CONFIG then Ok(Owned(inp, o, true).(data := Some(map["aws-sts-metadata-test" := inp.kmsDetails])))
      else if found.None? then Err("not found")
      else Ok(o.(data := Some(CephFsAndRbdOff(o.data))))
    case OCSInitialization =>
      if found.None? then Err("not found") else Ok(Owned(inp, o, false).(enableCephTools := true))
    case StorageClient =>
      if inp.onboarding.endpoint == "" then Err("invalid provider endpoint")
      else if inp.onboarding.ticket == "" then Err("invalid onboarding ticket")
      else Ok(Owned(inp, o, true).(onboarding := Some(inp.onboarding)))
    case StorageClassClaim =>
      Ok(o.(client := Some(STORAGE_CLIENT.name), spec := if id == BLOCK_CLAIM then "blockpool" else "sharedfilesystem"))
    case _ =>
      if found.None? then Err("not found") else Ok(o.(labels := WithLabel(o.labels, MON_LABEL_KEY, MON_LABEL_VALUE)))
  }

  // ----- the phases as a program -----

  /** What the four list calls of one attempt return: names, in whatever order the cache has them. */
  datatype Listing = Listing(podMonitors: seq<string>, serviceMonitors: seq<string>, rules: seq<string>,
    csvs: seq<string>)

  ghost predicate Enumerates(names: seq<string>, kind: Kind, s: Objects) {
    forall name :: name in names <==> Id(kind, name) in s
  }

  ghost predicate Lists(l: Listing, s: Objects) {
    Enumerates(l.podMonitors, PodMonitor, s) && Enumerates(l.serviceMonitors, ServiceMonitor, s) &&
    Enumerates(l.rules, PrometheusRule, s) && Enumerates(l.csvs, ClusterServiceVersion, s)
  }

  function Puts(kind: Kind, names: seq<string>): (ops: seq<Op<Id>>)
    ensures |ops| == |names|
    ensures forall i :: 0 <= i < |names| ==> ops[i] == Put(Id(kind, names[i]))
  {
    seq(|names|, i requires 0 <= i < |names| => Put(Id(kind, names[i])))
  }

  function FirstWithPrefix(names: seq<string>, prefix: string): Option<string> {
    if names == [] then None
    else if prefix <= names[0] then Some(names[0])
    else FirstWithPrefix(names[1..], prefix)
  }

  function CsvOp(csvs: seq<string>): Op<Id> {
    var name := FirstWithPrefix(csvs, CSV_PREFIX);
    if name.None? then Stop("unable to find OCS CSV") else Put(Id(ClusterServiceVersion, name.value))
  }

  function Labels(l: Listing): seq<Op<Id>> {
    Puts(PodMonitor, l.podMonitors) + Puts(ServiceMonitor, l.serviceMonitors) + Puts(PrometheusRule, l.rules)
  }

  function Head(): seq<Op<Id>> {
    [Put(KEY_SECRET), Put(STORAGE_CLUSTER)]
  }

  function Tail(csvs: seq<string>): seq<Op<Id>> {
    [CsvOp(csvs), Put(CEPH_POLICY), Put(PROVIDER_POLICY), Put(ROOK_CONFIG), Put(OCS_INITIALIZATION)]
  }

  function Program(l: Listing): seq<Op<Id>> {
    Head() + Labels(l) + Tail(l.csvs)
  }

  function ClientCsvOp(csvs: seq<string>): Op<Id> {
    var name := FirstWithPrefix(csvs, CLIENT_CSV_PREFIX);
    if name.None? then Stop("unable to find OCS CSV") else Put(Id(ClusterServiceVersion, name.value))
  }

  function ClientProgram(csvs: seq<string>): seq<Op<Id>> {
    [ClientCsvOp(csvs), Put(STORAGE_CLIENT), Put(BLOCK_CLAIM), Put(FILESYSTEM_CLAIM), Put(KMS_CONFIG)]
  }

  // ----- each phase is idempotent -----

  lemma SizedAgain(inp: Input, deployments: seq<seq<Container>>)
    requires Known(inp, deployments)
    ensures Known(inp, AllSized(inp, deployments))
    ensures AllSized(inp, AllSized(inp, deployments)) == AllSized(inp, deployments)
  {
    var once := AllSized(inp, deployments);
    forall i | 0 <= i < |once| ensures Listed(inp, once[i]) && Sized(inp, once[i]) == once[i] {
      assert once[i] == Sized(inp, deployments[i]);
    }
  }

  lemma DesiredAgain(stored: seq<DeviceSet>, capacity: int)
    ensures Desired(TEMPLATE_SETS, Desired(TEMPLATE_SETS, stored, capacity), capacity) ==
            Desired(TEMPLATE_SETS, stored, capacity)
  {
    DesiredIsReadBack(TEMPLATE_SETS, stored, capacity);
  }

  lemma ChangeIsIdempotent(inp: Input, id: Id, found: Option<Object>)
    requires Change(inp, id, found).Ok?
    ensures Change(inp, id, Some(Change(inp, id, found).value)) == Change(inp, id, found)
  {
    var o := if found.Some? then found.value else BLANK;
    UpsertIdempotent(o.owners, RefTo(inp.offering, true));
    UpsertIdempotent(o.owners, RefTo(inp.offering, false));
    WithLabelIdempotent(o.labels, MON_LABEL_KEY, MON_LABEL_VALUE);
    match id.kind {
      case StorageCluster => DesiredAgain(o.deviceSets, inp.capacity);
      case ClusterServiceVersion =>
        if inp.plugin.DataFoundation? {
          SizedAgain(inp, o.deployments);
        }
      case ConfigMap =>
        var once := CephFsAndRbdOff(o.data);
        assert CephFsAndRbdOff(Some(once)) == once;
      case _ =>
    }
  }

  /** Change as a plan. The monitors, the Rook config and the client operator's CSV are written even when nothing
      changes: the labelling loops and the client's CSV phase do not compare, and the Rook phase
      compares a value with a pointer, which are never deeply equal. */
  function PlanOf(inp: Input): Plan<Id, Object> {
    Plan((id, found) => Change(inp, id, found), id => WritesAlways(inp, id))
  }

  predicate WritesAlways(inp: Input, id: Id) {
    Labelled(id.kind) || id == ROOK_CONFIG || (id.kind.ClusterServiceVersion? && inp.plugin.DataFoundationClient?)
  }

  lemma PlanIsIdempotent(inp: Input)
    ensures Idempotent(PlanOf(inp))
  {
    forall id, found | Change(inp, id, found).Ok?
      ensures Change(inp, id, Some(Change(inp, id, found).value)) == Change(inp, id, found)
    {
      ChangeIsIdempotent(inp, id, found);
    }
  }

  // ----- the order of lists does not matter -----

  predicate Labelled(kind: Kind) {
    kind.PodMonitor? || kind.ServiceMonitor? || kind.PrometheusRule?
  }

  function AddedLabel(o: Object): Object {
    o.(labels := WithLabel(o.labels, MON_LABEL_KEY, MON_LABEL_VALUE))
  }

  function LabelAll(kind: Kind, names: seq<string>, s: Objects): Objects {
    map id | id in s :: if id.kind == kind && id.name in names then AddedLabel(s[id]) else s[id]
  }

  lemma OneThenRest(kind: Kind, name: string, rest: seq<string>, s: Objects)
    requires Id(kind, name) in s
    ensures LabelAll(kind, rest, s[Id(kind, name) := AddedLabel(s[Id(kind, name)])]) == LabelAll(kind, [name] + rest, s)
  {
    WithLabelIdempotent(s[Id(kind, name)].labels, MON_LABEL_KEY, MON_LABEL_VALUE);
  }

  /** A pass over listed monitors labels each of them and nothing else. */
  lemma {:induction false} PassLabels(inp: Input, kind: Kind, names: seq<string>, s: Objects)
    requires Labelled(kind) && forall name :: name in names ==> Id(kind, name) in s
    ensures Exec(PlanOf(inp), Puts(kind, names), s) == Outcome(LabelAll(kind, names, s), None)
  {
    if names == [] {
      assert LabelAll(kind, names, s) == s;
    } else {
      var id := Id(kind, names[0]);
      var first := s[id := AddedLabel(s[id])];
      assert Step(PlanOf(inp), Put(id), s) == Outcome(first, None);
      assert Puts(kind, names)[1..] == Puts(kind, names[1..]);
      PassLabels(inp, kind, names[1..], first);
      OneThenRest(kind, names[0], names[1..], s);
      assert names == [names[0]] + names[1..];
    }
  }

  /** Objects that are only ever updated neither appear nor go. */
  lemma {:induction false} ListedKindsStay(inp: Input, ops: seq<Op<Id>>, s: Objects, id: Id)
    requires Labelled(id.kind) || id.kind.ClusterServiceVersion?
    ensures id in Exec(PlanOf(inp), ops, s).objects <==> id in s
  {
    if ops != [] {
      var first := Step(PlanOf(inp), ops[0], s);
      if first.error.None? {
        ListedKindsStay(inp, ops[1..], first.objects, id);
      }
    }
  }

  lemma ListsAfter(inp: Input, ops: seq<Op<Id>>, s: Objects, l: Listing)
    requires Lists(l, s)
    ensures Lists(l, Exec(PlanOf(inp), ops, s).objects)
  {
    forall id: Id | Labelled(id.kind) || id.kind.ClusterServiceVersion?
      ensures id in Exec(PlanOf(inp), ops, s).objects <==> id in s
    {
      ListedKindsStay(inp, ops, s, id);
    }
  }

  function AllLabelled(l: Listing, s: Objects): Objects {
    LabelAll(PrometheusRule, l.rules,
      LabelAll(ServiceMonitor, l.serviceMonitors, LabelAll(PodMonitor, l.podMonitors, s)))
  }

  lemma PassesLabel(inp: Input, l: Listing, s: Objects)
    requires Lists(l, s)
    ensures Exec(PlanOf(inp), Labels(l), s) == Outcome(AllLabelled(l, s), None)
  {
    var s1 := LabelAll(PodMonitor, l.podMonitors, s);
    var s2 := LabelAll(ServiceMonitor, l.serviceMonitors, s1);
    PassLabels(inp, PodMonitor, l.podMonitors, s);
    PassLabels(inp, ServiceMonitor, l.serviceMonitors, s1);
    PassLabels(inp, PrometheusRule, l.rules, s2);
    ExecConcat(PlanOf(inp), Puts(PodMonitor, l.podMonitors), Puts(ServiceMonitor, l.serviceMonitors), s);
    ExecConcat(PlanOf(inp), Puts(PodMonitor, l.podMonitors) + Puts(ServiceMonitor, l.serviceMonitors),
      Puts(PrometheusRule, l.rules), s);
  }

  lemma SamePass(kind: Kind, names: seq<string>, others: seq<string>, s: Objects)
    requires forall name :: name in names <==> name in others
    ensures LabelAll(kind, names, s) == LabelAll(kind, others, s)
  {
  }

  lemma SameLabels(l: Listing, m: Listing, s: Objects)
    requires Lists(l, s) && Lists(m, s)
    ensures AllLabelled(l, s) == AllLabelled(m, s)
  {
    var s1 := LabelAll(PodMonitor, l.podMonitors, s);
    var s2 := LabelAll(ServiceMonitor, l.serviceMonitors, s1);
    SamePass(PodMonitor, l.podMonitors, m.podMonitors, s);
    SamePass(ServiceMonitor, l.serviceMonitors, m.serviceMonitors, s1);
    SamePass(PrometheusRule, l.rules, m.rules, s2);
  }

  lemma OrderOfListsDoesNotMatter(inp: Input, l: Listing, m: Listing, s: Objects)
    requires Lists(l, s) && Lists(m, s) && CsvOp(l.csvs) == CsvOp(m.csvs)
    ensures Exec(PlanOf(inp), Program(l), s) == Exec(PlanOf(inp), Program(m), s)
  {
    var head := Exec(PlanOf(inp), Head(), s);
    ListsAfter(inp, Head(), s, l);
    ListsAfter(inp, Head(), s, m);
    PassesLabel(inp, l, head.objects);
    PassesLabel(inp, m, head.objects);
    SameLabels(l, m, head.objects);
    forall x | x in {l, m}
      ensures Exec(PlanOf(inp), Program(x), s) ==
              if head.error.Some? then head else Exec(PlanOf(inp), Tail(x.csvs), AllLabelled(x, head.objects))
    {
      ExecConcat(PlanOf(inp), Head(), Labels(x), s);
      ExecConcat(PlanOf(inp), Head() + Labels(x), Tail(x.csvs), s);
    }
  }

  // ----- which CSV the two attempts choose -----

  lemma {:induction false} FirstIsListed(names: seq<string>, prefix: string)
    ensures FirstWithPrefix(names, prefix).Some? ==>
              FirstWithPrefix(names, prefix).value in names && prefix <= FirstWithPrefix(names, prefix).value
    ensures forall name :: name in names && prefix <= name ==> FirstWithPrefix(names, prefix).Some?
  {
    if names != [] {
      FirstIsListed(names[1..], prefix);
      assert names == [names[0]] + names[1..];
    }
  }

  predicate CsvOf(prefix: string, name: string, s: Objects) {
    Id(ClusterServiceVersion, name) in s && prefix <= name
  }

  /** With at most one CSV of the prefix in the namespace, two lists in any order give the same one. */
  lemma OneChoice(prefix: string, names: seq<string>, others: seq<string>, s: Objects)
    requires Enumerates(names, ClusterServiceVersion, s) && Enumerates(others, ClusterServiceVersion, s)
    requires forall a, b :: CsvOf(prefix, a, s) && CsvOf(prefix, b, s) ==> a == b
    ensures FirstWithPrefix(names, prefix) == FirstWithPrefix(others, prefix)
  {
    FirstIsListed(names, prefix);
    FirstIsListed(others, prefix);
    assert forall name :: name in names <==> name in others;
    var a, b := FirstWithPrefix(names, prefix), FirstWithPrefix(others, prefix);
    if a.Some? && b.Some? {
      assert CsvOf(prefix, a.value, s) && CsvOf(prefix, b.value, s);
    }
  }

  /** With at most one operator CSV in the namespace both attempts choose alike. */
  lemma OneCsvIsChosen(l: Listing, m: Listing, s: Objects)
    requires Lists(l, s) && Lists(m, s)
    requires forall a, b :: CsvOf(CSV_PREFIX, a, s) && CsvOf(CSV_PREFIX, b, s) ==> a == b
    ensures CsvOp(l.csvs) == CsvOp(m.csvs)
  {
    OneChoice(CSV_PREFIX, l.csvs, m.csvs, s);
  }

  lemma OneClientCsvIsChosen(csvs: seq<string>, later: seq<string>, s: Objects)
    requires Enumerates(csvs, ClusterServiceVersion, s) && Enumerates(later, ClusterServiceVersion, s)
    requires forall a, b :: CsvOf(CLIENT_CSV_PREFIX, a, s) && CsvOf(CLIENT_CSV_PREFIX, b, s) ==> a == b
    ensures ClientCsvOp(csvs) == ClientCsvOp(later)
  {
    OneChoice(CLIENT_CSV_PREFIX, csvs, later, s);
  }

  /** Two listings of the same monitors label the same. */
  lemma LabelsAlike(l: Listing, m: Listing, s: Objects, op: Op<Id>)
    requires Lists(l, s) && Lists(m, s)
    ensures op in Labels(l) ==> op in Labels(m)
  {
    if op in Labels(l) {
      assert op in Puts(op.id.kind, match op.id.kind case PodMonitor => m.podMonitors
                                                     case ServiceMonitor => m.serviceMonitors
                                                     case _ => m.rules) by {
        assert op.id.name in (match op.id.kind case PodMonitor => l.podMonitors
                                               case ServiceMonitor => l.serviceMonitors
                                               case _ => l.rules);
      }
    }
  }

  lemma ProgramsDifferInTheCsv(l: Listing, m: Listing, s: Objects, op: Op<Id>)
    requires Lists(l, s) && Lists(m, s)
    ensures op != CsvOp(l.csvs) && op != CsvOp(m.csvs) ==> (op in Program(l) <==> op in Program(m))
    ensures CsvOp(l.csvs) in Program(l)
    ensures CsvOp(l.csvs) != CsvOp(m.csvs) ==> CsvOp(l.csvs) !in Program(m)
  {
    LabelsAlike(l, m, s, op);
    LabelsAlike(m, l, s, op);
    assert Tail(l.csvs)[0] == CsvOp(l.csvs);
    assert Tail(l.csvs) == [CsvOp(l.csvs)] + Tail(l.csvs)[1..] && Tail(m.csvs) == [CsvOp(m.csvs)] + Tail(l.csvs)[1..];
    assert CsvOp(l.csvs) !in Labels(m);
  }

  // ----- crash convergence -----

  /** Two attempts that choose the same CSV converge, wherever the first is cut. */
  lemma SameChoiceConverges(inp: Input, l: Listing, m: Listing, k: nat, s: Objects)
    requires Lists(l, s) && Lists(m, s) && CsvOp(l.csvs) == CsvOp(m.csvs) && k <= |Program(l)|
    ensures Converges(PlanOf(inp), Program(l)[..k], Program(m), s)
  {
    var cut := Exec(PlanOf(inp), Program(l)[..k], s).objects;
    PlanIsIdempotent(inp);
    ListsAfter(inp, Program(l)[..k], s, l);
    ListsAfter(inp, Program(l)[..k], s, m);
    OrderOfListsDoesNotMatter(inp, l, m, cut);
    OrderOfListsDoesNotMatter(inp, l, m, s);
    ResumeSame(PlanOf(inp), Program(l), k, s);
  }

  function BeforeCsv(l: Listing): nat {
    |Head()| + |Labels(l)|
  }

  /** A cut before the CSV phase has not chosen yet. */
  lemma EarlyCutConverges(inp: Input, l: Listing, m: Listing, k: nat, s: Objects)
    requires Lists(l, s) && Lists(m, s) && k <= BeforeCsv(l)
    ensures Converges(PlanOf(inp), Program(l)[..k], Program(m), s)
  {
    var n := l.(csvs := m.csvs);
    assert Program(n)[..k] == (Head() + Labels(l))[..k] == Program(l)[..k];
    SameChoiceConverges(inp, n, m, k, s);
  }

  /** Crash convergence: cut one attempt after any number of its writes, by an error or a crash. The next full one
      ends with the same objects and error as a full one alone exactly when every phase that only
      the first attempt completed had nothing to change, whatever the lists and whatever errors either meets. */
  lemma CrashConvergence(inp: Input, l: Listing, m: Listing, k: nat, s: Objects)
    requires k <= |Program(l)|
    ensures Converges(PlanOf(inp), Program(l)[..k], Program(m), s)
            <==> forall op :: op in Done(PlanOf(inp), Program(l)[..k], s) && op !in Done(PlanOf(inp), Program(m), s) ==>
                   Settled(PlanOf(inp), op, s)
    ensures Lists(l, s) && Lists(m, s) && (k <= BeforeCsv(l) || CsvOp(l.csvs) == CsvOp(m.csvs)) ==>
              Converges(PlanOf(inp), Program(l)[..k], Program(m), s)
  {
    PlanIsIdempotent(inp);
    ResumeIff(PlanOf(inp), Program(l)[..k], Program(m), s);
    if Lists(l, s) && Lists(m, s) {
      if k <= BeforeCsv(l) {
        EarlyCutConverges(inp, l, m, k, s);
      } else if CsvOp(l.csvs) == CsvOp(m.csvs) {
        SameChoiceConverges(inp, l, m, k, s);
      }
    }
  }

  /** The condition in terms of the CSVs, when neither attempt meets an error of its own. */
  lemma CrashConvergesIff(inp: Input, l: Listing, m: Listing, k: nat, s: Objects)
    requires Lists(l, s) && Lists(m, s) && k <= |Program(l)|
    requires Exec(PlanOf(inp), Program(l)[..k], s).error.None? && Exec(PlanOf(inp), Program(m), s).error.None?
    ensures Converges(PlanOf(inp), Program(l)[..k], Program(m), s)
            <==> k <= BeforeCsv(l) || CsvOp(l.csvs) == CsvOp(m.csvs) || Settled(PlanOf(inp), CsvOp(l.csvs), s)
  {
    var plan, own := PlanOf(inp), CsvOp(l.csvs);
    CrashConvergence(inp, l, m, k, s);
    DoneIsErrorFree(plan, Program(l)[..k], s);
    DoneIsErrorFree(plan, Program(m), s);
    if BeforeCsv(l) < k && own != CsvOp(m.csvs) {
      assert Program(l)[BeforeCsv(l)] == own == Program(l)[..k][BeforeCsv(l)];
      ProgramsDifferInTheCsv(l, m, s, own);
      forall op | op in Program(l)[..k] && op !in Program(m) ensures op == own {
        ProgramsDifferInTheCsv(l, m, s, op);
      }
    }
  }

  /** After any number of attempts, each cut anywhere: `ps` are the parts of their programs that were run. */
  lemma AttemptsConverge(inp: Input, ps: seq<seq<Op<Id>>>, m: Listing, s: Objects)
    ensures Exec(PlanOf(inp), Program(m), Final(PlanOf(inp), ps, s)) == Exec(PlanOf(inp), Program(m), s)
            <==> forall op :: op in AllDone(PlanOf(inp), ps, s) && op !in Done(PlanOf(inp), Program(m), s) ==>
                   Settled(PlanOf(inp), op, s)
  {
    PlanIsIdempotent(inp);
    AttemptsConvergeIff(PlanOf(inp), ps, Program(m), s);
  }

  // ----- the client's phases -----

  lemma ClientChoices(csvs: seq<string>, later: seq<string>, s: Objects)
    requires Enumerates(csvs, ClusterServiceVersion, s) && Enumerates(later, ClusterServiceVersion, s)
    ensures ClientCsvOp(csvs).Put? <==> ClientCsvOp(later).Put?
    ensures ClientCsvOp(csvs).Put? ==> ClientCsvOp(csvs).id in s && ClientCsvOp(csvs).id.kind.ClusterServiceVersion?
  {
    FirstIsListed(csvs, CLIENT_CSV_PREFIX);
    FirstIsListed(later, CLIENT_CSV_PREFIX);
    assert forall name :: name in csvs <==> name in later;
  }

  /** Crash convergence for a client offering, with its exact condition: it fails only when the two attempts choose
      different CSVs and the first one's was reached and needed a change. */
  lemma ClientCrashConvergence(inp: Input, csvs: seq<string>, later: seq<string>, k: nat, s: Objects)
    requires inp.plugin.DataFoundationClient? && k <= |ClientProgram(csvs)|
    requires Enumerates(csvs, ClusterServiceVersion, s) && Enumerates(later, ClusterServiceVersion, s)
    ensures Converges(PlanOf(inp), ClientProgram(csvs)[..k], ClientProgram(later), s)
            <==> k == 0 || ClientCsvOp(csvs) == ClientCsvOp(later) || Settled(PlanOf(inp), ClientCsvOp(csvs), s)
  {
    var plan, own := PlanOf(inp), ClientCsvOp(csvs);
    PlanIsIdempotent(inp);
    if k == 0 {
    } else if own == ClientCsvOp(later) {
      ResumeSame(plan, ClientProgram(csvs), k, s);
    } else {
      OtherClientChoice(inp, csvs, later, k, s);
    }
  }

  lemma OtherClientChoice(inp: Input, csvs: seq<string>, later: seq<string>, k: nat, s: Objects)
    requires inp.plugin.DataFoundationClient? && 0 < k <= |ClientProgram(csvs)|
    requires Enumerates(csvs, ClusterServiceVersion, s) && Enumerates(later, ClusterServiceVersion, s)
    requires ClientCsvOp(csvs) != ClientCsvOp(later)
    ensures Converges(PlanOf(inp), ClientProgram(csvs)[..k], ClientProgram(later), s)
            <==> Settled(PlanOf(inp), ClientCsvOp(csvs), s)
  {
    var plan, own, other := PlanOf(inp), ClientCsvOp(csvs), ClientCsvOp(later);
    PlanIsIdempotent(inp);
    ClientChoices(csvs, later, s);
    ClientChoices(later, csvs, s);
    ResumeIff(plan, ClientProgram(csvs)[..k], ClientProgram(later), s);
    ClientProgramIs(csvs);
    ClientProgramIs(later);
    FirstDiffers(plan, own, other, CLIENT_REST, k, s);
  }

  lemma ClientProgramIs(csvs: seq<string>)
    ensures ClientProgram(csvs) == [ClientCsvOp(csvs)] + CLIENT_REST
  {
  }

  const CLIENT_REST: seq<Op<Id>> := [Put(STORAGE_CLIENT), Put(BLOCK_CLAIM), Put(FILESYSTEM_CLAIM), Put(KMS_CONFIG)]
}
