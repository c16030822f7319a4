/** The install phases of the agent's own reconciler (controllers/managedfusion_controller.go), and every history of
    reconciles, failures and restarts. */
module AgentPhases {
  import opened Wrappers
  import opened EgressRules
  import opened Phases

  /** The objects the agent manages in its namespace. */
  datatype Managed =
    | AlertRelabelConfigSecret | PrometheusKubeRBACConfigMap | PrometheusService | Prometheus
    | Alertmanager | AlertmanagerSecret | AlertmanagerConfig
    | K8SMetricsServiceMonitor | PrometheusProxyNetworkPolicy
    | EgressFirewall | EgressNetworkPolicy

  const AGENT_SECRET: string := "managed-fusion-agent-config"
  const SERVICE_KEY_KEY: string := "pagerDutyServiceKey"
  const AUTH_PASSWORD_KEY: string := "smtpAuthPassword"
  const RELABEL_CONFIG_KEY: string := "alertrelabelconfig.yaml"

  // ----- what a reconcile works from -----

  datatype Smtp = Smtp(endpoint: string, username: string, password: string, fromAddress: string, emails: seq<string>)

  datatype PagerDuty = PagerDuty(sopEndpoint: string, serviceKey: string)

  /** One entry of the config Secret; `partial` is what decoding left behind when it failed. */
  datatype Entry<T> = Missing | Malformed(partial: T) | Parsed(value: T)

  datatype SecretData = SecretData(pagerDuty: Entry<PagerDuty>, smtp: Entry<Smtp>, bearerToken: Entry<string>)

  /** What a reconcile reads besides the Secret, and the parsed SMTP endpoint: host with port and
      hostname, None when it does not parse. */
  datatype Surroundings = Surroundings(
    proxyImage: Option<string>,
    clusterId: Option<string>,
    html: Option<string>,
    smtpHost: Option<string>,
    smtpHostname: Option<string>,
    vpcCidrs: Option<map<string, string>>,
    relabelConfig: string,
    staticSpecs: map<Managed, string>)

  /** The receiver fields the phases use. remoteWrite is the bearer token, if there is a config. */
  datatype Fields = Fields(pagerDuty: PagerDuty, smtp: Smtp, remoteWrite: Option<string>)

  // ----- the objects -----

  datatype KeyRef = KeyRef(secret: Managed, key: string)

  datatype Email = Email(smarthost: string, username: string, password: KeyRef, from: string, to: seq<string>,
    html: string)

  datatype Content =
    | Static(spec: string)
    | Data(data: map<string, string>)
    | Metrics(proxyImage: string, clusterId: string, bearerToken: Option<string>, relabelConfig: KeyRef)
    | Routing(sop: string, serviceKey: KeyRef, email: Option<Email>)
    | Firewall(rules: seq<Rule>)
    | Policy(policyRules: seq<PolicyRule>)

  /** An object and the name of the object that controls it. */
  datatype Object = Object(controller: Option<string>, content: Content)

  type Objects = map<Managed, Object>

  /** The content a phase wants; the errors in the order the mutate function finds them. */
  function Wanted(f: Fields, at: Surroundings, phase: Managed): Result<Content> {
    match phase
    case AlertRelabelConfigSecret => Ok(Data(map[RELABEL_CONFIG_KEY := at.relabelConfig]))
    case Prometheus =>
      if at.proxyImage.None? then Err("unable to set image for kube-rbac-proxy container")
      else if at.clusterId.None? then Err("cluster version not found")
      else if f.remoteWrite == Some("") then Err("invalid remote write bearer token")
      else Ok(Metrics(at.proxyImage.value, at.clusterId.value, f.remoteWrite,
        KeyRef(AlertRelabelConfigSecret, RELABEL_CONFIG_KEY)))
    case AlertmanagerSecret =>
      if f.pagerDuty.serviceKey == "" then Err("no serviceKey entry")
      else if f.smtp.password == "" then Err("no password entry")
      else Ok(Data(map[SERVICE_KEY_KEY := f.pagerDuty.serviceKey, AUTH_PASSWORD_KEY := f.smtp.password]))
    case AlertmanagerConfig =>
      if f.pagerDuty.sopEndpoint == "" then Err("no sopEndpoint entry")
      else if f.smtp.username == "" then Err("no username entry")
      else if f.smtp.endpoint == "" then Err("no endpoint entry")
      else if f.smtp.fromAddress == "" then Err("no fromAddress entry")
      else if at.html.None? then Err("unable to read customernotification.html")
      else if at.smtpHost.None? then Err("unable to parse SMTP Endpoint url")
      else if at.smtpHost.value == "" then Err("cannot retrieve host")
      else Ok(Routing(f.pagerDuty.sopEndpoint, KeyRef(AlertmanagerSecret, SERVICE_KEY_KEY),
        if f.smtp.emails == [] then None
        else Some(Email(at.smtpHost.value, f.smtp.username, KeyRef(AlertmanagerSecret, AUTH_PASSWORD_KEY),
          f.smtp.fromAddress, f.smtp.emails, at.html.value))))
    case EgressFirewall =>
      var rules := DesiredState(EGRESS_TEMPLATE, at.vpcCidrs, at.smtpHostname);
      if rules.Err? then Err(rules.reason) else Ok(Firewall(rules.value))
    case EgressNetworkPolicy =>
      var rules := DesiredState(EGRESS_TEMPLATE, at.vpcCidrs, at.smtpHostname);
      if rules.Err? then Err(rules.reason) else Ok(Policy(TranslateAll(rules.value)))
    case _ => Ok(Static(if phase in at.staticSpecs then at.staticSpecs[phase] else ""))
  }

  /** own, then the rest of the mutate function. */
  function Change(f: Fields, at: Surroundings, phase: Managed, found: Option<Object>): Result<Object> {
    if found.Some? && found.value.controller.Some? && found.value.controller != Some(AGENT_SECRET)
    then Err("already owned by another controller")
    else
      var wanted := Wanted(f, at, phase);
      if wanted.Err? then Err(wanted.reason) else Ok(Object(Some(AGENT_SECRET), wanted.value))
  }

  /** Not controlled by another object. */
  predicate Free(s: Objects, p: Managed) {
    p in s && s[p].controller.Some? ==> s[p].controller == Some(AGENT_SECRET)
  }

  // ----- the phases in order -----

  function PlanOf(f: Fields, at: Surroundings): Plan<Managed, Object> {
    Plan((p, found) => Change(f, at, p, found), p => false)
  }

  lemma PlanIsIdempotent(f: Fields, at: Surroundings)
    ensures Idempotent(PlanOf(f, at))
  {
  }

  /** Which of the two optional CRDs the process recorded at its start. */
  datatype Crds = Crds(firewall: bool, policy: bool)

  const COMMON: seq<Op<Managed>> := [
    Put(AlertRelabelConfigSecret), Put(PrometheusKubeRBACConfigMap), Put(PrometheusService), Put(Prometheus),
    Put(Alertmanager), Put(AlertmanagerSecret), Put(AlertmanagerConfig),
    Put(K8SMetricsServiceMonitor), Put(PrometheusProxyNetworkPolicy)]

  function Enabled(crds: Crds): seq<Op<Managed>> {
    COMMON
    + (if crds.firewall then [Put(EgressFirewall)] else [])
    + (if crds.policy then [Put(EgressNetworkPolicy)] else [])
  }

  /** The enabled phases begin with the common ones. */
  lemma EnabledStarts(crds: Crds)
    ensures |Enabled(crds)| >= |COMMON| == 9 && forall i :: 0 <= i < 9 ==> Enabled(crds)[i] == COMMON[i]
  {
  }

  // ----- one reconcile -----

  datatype Refusal = InConfig(reason: string) | InPhase(failure: Failure<Managed>)

  datatype Reconciled = Reconciled(objects: Objects, error: Option<Refusal>)

  /** Reading the config Secret. The remote write field keeps the value of the last reconcile unless
      the Secret has an entry for it; decoding it replaces the field even when it fails. */
  function Parse(remoteWrite: Option<string>, data: SecretData): (Option<string>, Result<Fields>) {
    match data.pagerDuty
    case Missing => (remoteWrite, Err("no pager_duty_config entry"))
    case Malformed(_) => (remoteWrite, Err("failed to unmarshal pager_duty_config"))
    case Parsed(pagerDuty) =>
      match data.smtp
      case Missing => (remoteWrite, Err("no smtp_config entry"))
      case Malformed(_) => (remoteWrite, Err("failed to unmarshal smtp_config"))
      case Parsed(smtp) =>
        match data.bearerToken
        case Missing => (remoteWrite, Ok(Fields(pagerDuty, smtp, remoteWrite)))
        case Malformed(partial) => (Some(partial), Err("failed to unmarshal remote_write_config"))
        case Parsed(token) => (Some(token), Ok(Fields(pagerDuty, smtp, Some(token))))
  }

  datatype Request = Request(deleting: bool, data: SecretData, at: Surroundings)

  function FirstPhases(crds: Crds, limit: nat): seq<Op<Managed>> {
    Enabled(crds)[..if limit <= |Enabled(crds)| then limit else |Enabled(crds)|]
  }

  function Lift(o: Outcome<Managed, Object>): Reconciled {
    Reconciled(o.objects, if o.error.None? then None else Some(InPhase(o.error.value)))
  }

  /** The first `limit` phases of one reconcile; the whole reconcile when the limit is large enough. */
  function Reconcile(remoteWrite: Option<string>, req: Request, crds: Crds, limit: nat, s: Objects): Reconciled {
    var parsed := Parse(remoteWrite, req.data).1;
    if parsed.Err? then Reconciled(s, Some(InConfig(parsed.reason)))
    else if req.deleting then Reconciled(s, None)
    else Lift(Exec(PlanOf(parsed.value, req.at), FirstPhases(crds, limit), s))
  }

  // ----- all histories -----

  /** What the agent keeps: objects on the server, and in its process the stale field and the CRDs seen
      at its start. */
  datatype State = State(objects: Objects, remoteWrite: Option<string>, crds: Crds)

  /** A reconcile cut after some phases by a failing call (or not at all), or the start of a new process. */
  datatype Event = Attempt(req: Request, limit: nat) | Restart(crds: Crds)

  function Do(e: Event, st: State): State {
    match e
    case Restart(crds) => State(st.objects, None, crds)
    case Attempt(req, limit) =>
      State(Reconcile(st.remoteWrite, req, st.crds, limit, st.objects).objects, Parse(st.remoteWrite, req.data).0,
        st.crds)
  }

  function Run(es: seq<Event>, st: State): State {
    if es == [] then st else Do(es[|es| - 1], Run(es[..|es| - 1], st))
  }

  function Start(crds: Crds): State {
    State(map[], None, crds)
  }
}
