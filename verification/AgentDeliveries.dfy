/** What a reconcile of the agent's own objects delivers: when it succeeds, what it then leaves in each of them, and
    what becomes of the remote write config. Names and keys are spelled out. */
module AgentDeliveries {
  import opened Wrappers
  import opened Text
  import Cidrs
  import opened EgressRules
  import opened Phases
  import opened AgentPhases
  import opened AgentHistory

  // ----- the remote write config -----

  /** The field after reading this Secret: its entry, well formed or not, replaces what was there; a Secret that is
      refused for another entry leaves it alone. */
  function FieldLeft(remoteWrite: Option<string>, data: SecretData): Option<string> {
    if !data.pagerDuty.Parsed? || !data.smtp.Parsed? then remoteWrite
    else
      match data.bearerToken
      case Missing => remoteWrite
      case Malformed(partial) => Some(partial)
      case Parsed(token) => Some(token)
  }

  /** The Secret is refused exactly when one of its entries is: the first two must be there. */
  lemma SecretIsReadIff(remoteWrite: Option<string>, data: SecretData)
    ensures Parse(remoteWrite, data).0 == FieldLeft(remoteWrite, data)
    ensures Parse(remoteWrite, data).1.Ok? <==>
              data.pagerDuty.Parsed? && data.smtp.Parsed? && !data.bearerToken.Malformed?
    ensures Parse(remoteWrite, data).1.Ok? ==>
              Parse(remoteWrite, data).1.value ==
                Fields(data.pagerDuty.value, data.smtp.value, FieldLeft(remoteWrite, data))
  {
  }

  lemma FieldLeftBehind(req: Request, limit: nat, st: State)
    ensures Do(Attempt(req, limit), st).remoteWrite == FieldLeft(st.remoteWrite, req.data)
    ensures forall crds :: Do(Restart(crds), st).remoteWrite == None
  {
    SecretIsReadIff(st.remoteWrite, req.data);
  }

  // ----- what is promised of an object -----

  /** A reconcile that ran all its phases without error, and what it left. */
  ghost predicate Succeeds(remoteWrite: Option<string>, req: Request, crds: Crds, s: Objects, t: Objects) {
    !req.deleting && Reconcile(remoteWrite, req, crds, 11, s) == Reconciled(t, None)
  }

  /** Traffic that the egress objects let through: to the two known hosts, the fixed range, a non-empty field of the VPC
      entry, or the SMTP host; and whatever is no IPv4 traffic. */
  ghost predicate LetThrough(vpc: string, host: string, m: Matcher) {
    || m(Destination("", "events.pagerduty.com"), [])
    || m(Destination("", "ingest.us-south.monitoring.cloud.ibm.com"), [])
    || m(Destination("100.64.0.0/16", ""), [])
    || (exists cidr :: cidr in Split(vpc, ';') && cidr != "" && m(Destination(cidr, ""), []))
    || m(Destination("", host), [])
    || !m(Destination("0.0.0.0/0", ""), [])
  }

  /** What the reconcile works from in the phases both egress objects share. */
  predicate HasEgressInput(at: Surroundings) {
    && at.vpcCidrs.Some? && "vpc-cidr" in at.vpcCidrs.value
    && at.smtpHostname.Some? && at.smtpHostname.value != ""
  }

  /** The e-mail receiver, if there are addresses. */
  predicate EmailDelivered(data: SecretData, at: Surroundings, email: Option<Email>)
    requires data.smtp.Parsed?
  {
    var smtp := data.smtp.value;
    if smtp.emails == [] then email == None
    else
      && email.Some? && email.value.username == smtp.username && email.value.from == smtp.fromAddress
      && email.value.to == smtp.emails && Some(email.value.smarthost) == at.smtpHost
      && Some(email.value.html) == at.html && email.value.password == KeyRef(AlertmanagerSecret, "smtpAuthPassword")
  }

  /** The content of an object, in terms of the Secret, of the field the reconcile began with, and of what it read. */
  ghost predicate Delivered(remoteWrite: Option<string>, req: Request, p: Managed, content: Content)
    requires req.data.pagerDuty.Parsed? && req.data.smtp.Parsed?
  {
    var pagerDuty, smtp, at := req.data.pagerDuty.value, req.data.smtp.value, req.at;
    match p
    case AlertRelabelConfigSecret => content == Data(map["alertrelabelconfig.yaml" := at.relabelConfig])
    case Prometheus =>
      && content.Metrics? && Some(content.proxyImage) == at.proxyImage && Some(content.clusterId) == at.clusterId
      && content.bearerToken == FieldLeft(remoteWrite, req.data) != Some("")
      && content.relabelConfig == KeyRef(AlertRelabelConfigSecret, "alertrelabelconfig.yaml")
    case AlertmanagerSecret =>
      && pagerDuty.serviceKey != "" && smtp.password != ""
      && content == Data(map["pagerDutyServiceKey" := pagerDuty.serviceKey, "smtpAuthPassword" := smtp.password])
    case AlertmanagerConfig =>
      && content.Routing? && content.sop == pagerDuty.sopEndpoint != ""
      && content.serviceKey == KeyRef(AlertmanagerSecret, "pagerDutyServiceKey")
      && EmailDelivered(req.data, at, content.email)
    case EgressFirewall =>
      && HasEgressInput(at) && content.Firewall?
      && forall m: Matcher ::
           Verdict(content.rules, m) ==
           if LetThrough(at.vpcCidrs.value["vpc-cidr"], at.smtpHostname.value, m) then Allow else Deny
    case EgressNetworkPolicy =>
      && HasEgressInput(at) && content.Policy?
      && forall m: Matcher ::
           PolicyVerdict(content.policyRules, m) ==
           if LetThrough(at.vpcCidrs.value["vpc-cidr"], at.smtpHostname.value, m) then Allow else Deny
    case _ => content.Static? && (p in at.staticSpecs ==> content.spec == at.staticSpecs[p])
  }

  /** The objects of a process that recorded these CRDs. */
  predicate Manages(crds: Crds, p: Managed) {
    (p.EgressFirewall? ==> crds.firewall) && (p.EgressNetworkPolicy? ==> crds.policy)
  }

  // ----- each phase keeps its promise -----

  lemma RulesLetThrough(at: Surroundings, m: Matcher)
    requires DesiredState(EGRESS_TEMPLATE, at.vpcCidrs, at.smtpHostname).Ok?
    ensures HasEgressInput(at)
    ensures var rules := DesiredState(EGRESS_TEMPLATE, at.vpcCidrs, at.smtpHostname).value;
            Verdict(rules, m) ==
            if LetThrough(at.vpcCidrs.value["vpc-cidr"], at.smtpHostname.value, m) then Allow else Deny
  {
    DesiredStateMeans(EGRESS_TEMPLATE, at.vpcCidrs, at.smtpHostname);
    var vpc, host := at.vpcCidrs.value["vpc-cidr"], at.smtpHostname.value;
    forall cidr ensures cidr in Cidrs.Decode(vpc) <==> cidr in Split(vpc, ';') && cidr != "" {
      NonEmptyIsFilter(Split(vpc, ';'), cidr);
    }
    TemplateMatches(m);
    assert Allowed(EGRESS_TEMPLATE, vpc, host, m) || !Matched(EGRESS_TEMPLATE, Deny, m) <==> LetThrough(vpc, host, m);
  }

  lemma WantedIsDelivered(remoteWrite: Option<string>, req: Request, f: Fields, p: Managed)
    requires Parse(remoteWrite, req.data).1 == Ok(f) && Wanted(f, req.at, p).Ok?
    requires req.data.pagerDuty.Parsed? && req.data.smtp.Parsed?
    ensures Delivered(remoteWrite, req, p, Wanted(f, req.at, p).value)
  {
    SecretIsReadIff(remoteWrite, req.data);
    if p.EgressFirewall? || p.EgressNetworkPolicy? {
      EgressIsDelivered(remoteWrite, req, f, p);
    }
  }

  lemma EgressIsDelivered(remoteWrite: Option<string>, req: Request, f: Fields, p: Managed)
    requires Wanted(f, req.at, p).Ok? && (p.EgressFirewall? || p.EgressNetworkPolicy?)
    requires req.data.pagerDuty.Parsed? && req.data.smtp.Parsed?
    ensures Delivered(remoteWrite, req, p, Wanted(f, req.at, p).value)
  {
    var rules := DesiredState(EGRESS_TEMPLATE, req.at.vpcCidrs, req.at.smtpHostname);
    forall m: Matcher
      ensures HasEgressInput(req.at)
      ensures Verdict(rules.value, m) ==
              if LetThrough(req.at.vpcCidrs.value["vpc-cidr"], req.at.smtpHostname.value, m) then Allow else Deny
      ensures PolicyVerdict(TranslateAll(rules.value), m) == Verdict(rules.value, m)
    {
      RulesLetThrough(req.at, m);
      EgressAgrees(req.at, m);
    }
    RulesLetThrough(req.at, (to, ports) => false);
  }

  // ----- which phases run -----

  /** Whether a process with these CRDs has this phase. */
  lemma PhasesAre(crds: Crds, p: Managed)
    ensures FirstPhases(crds, 11) == Enabled(crds)
    ensures Put(p) in Enabled(crds) <==> Manages(crds, p)
  {
    EnabledStarts(crds);
    assert |Enabled(crds)| <= 11;
    CommonAre(p);
    assert Put(p) in Enabled(crds) <==>
             (Put(p) in COMMON || (p.EgressFirewall? && crds.firewall) || (p.EgressNetworkPolicy? && crds.policy));
  }

  lemma CommonAre(p: Managed)
    ensures Put(p) in COMMON <==> !p.EgressFirewall? && !p.EgressNetworkPolicy?
  {
    assert COMMON[0] == Put(AlertRelabelConfigSecret) && COMMON[1] == Put(PrometheusKubeRBACConfigMap);
    assert COMMON[2] == Put(PrometheusService) && COMMON[3] == Put(Prometheus) && COMMON[4] == Put(Alertmanager);
    assert COMMON[5] == Put(AlertmanagerSecret) && COMMON[6] == Put(AlertmanagerConfig);
    assert COMMON[7] == Put(K8SMetricsServiceMonitor) && COMMON[8] == Put(PrometheusProxyNetworkPolicy);
  }

  // ----- what a reconcile delivers -----

  /** Main result: after an error-free reconcile each object of the process is controlled by the config Secret and has
      the promised content, and an egress object whose CRD was not recorded is untouched. */
  lemma FullReconcileDelivers(remoteWrite: Option<string>, req: Request, crds: Crds, s: Objects, t: Objects, p: Managed)
    requires Succeeds(remoteWrite, req, crds, s, t)
    ensures req.data.pagerDuty.Parsed? && req.data.smtp.Parsed? && !req.data.bearerToken.Malformed?
    ensures if Manages(crds, p)
            then
              && p in t && t[p].controller == Some("managed-fusion-agent-config")
              && Delivered(remoteWrite, req, p, t[p].content)
            else Lookup(t, p) == Lookup(s, p)
  {
    SecretIsReadIff(remoteWrite, req.data);
    var f := Parse(remoteWrite, req.data).1.value;
    PhasesAre(crds, p);
    PlanIsIdempotent(f, req.at);
    ErrorFreeRun(PlanOf(f, req.at), Enabled(crds), s, p);
    if Manages(crds, p) {
      WantedIsDelivered(remoteWrite, req, f, p);
    }
  }

  /** A token in the Secret is used, one left behind by an earlier reconcile of the process too if the entry is
      missing, and the next reconcile begins with the same. */
  lemma TokenIsUsed(remoteWrite: Option<string>, req: Request, crds: Crds, s: Objects, t: Objects)
    requires Succeeds(remoteWrite, req, crds, s, t)
    ensures Prometheus in t && t[Prometheus].content.Metrics?
    ensures req.data.bearerToken.Parsed? ==> t[Prometheus].content.bearerToken == Some(req.data.bearerToken.value)
    ensures req.data.bearerToken.Missing? ==> t[Prometheus].content.bearerToken == remoteWrite
    ensures Do(Attempt(req, 11), State(s, remoteWrite, crds)).remoteWrite == t[Prometheus].content.bearerToken
  {
    FullReconcileDelivers(remoteWrite, req, crds, s, t, Prometheus);
    FieldLeftBehind(req, 11, State(s, remoteWrite, crds));
  }

  /** A reconcile that reaches the Prometheus phase with an empty token is refused there, and leaves Prometheus
      alone. */
  lemma EmptyTokenIsRefused(remoteWrite: Option<string>, req: Request, crds: Crds, limit: nat, s: Objects)
    requires !req.deleting && limit > 3 && req.data.pagerDuty.Parsed? && req.data.smtp.Parsed?
    requires req.data.bearerToken == Parsed("") || (req.data.bearerToken.Missing? && remoteWrite == Some(""))
    requires req.at.proxyImage.Some? && req.at.clusterId.Some?
    requires Free(s, AlertRelabelConfigSecret) && Free(s, PrometheusKubeRBACConfigMap) && Free(s, PrometheusService)
    requires Free(s, Prometheus)
    ensures var r := Reconcile(remoteWrite, req, crds, limit, s);
            && r.error == Some(InPhase(Failure(Put(Prometheus), "invalid remote write bearer token")))
            && Lookup(r.objects, Prometheus) == Lookup(s, Prometheus)
  {
    var f := Fields(req.data.pagerDuty.value, req.data.smtp.value, Some(""));
    SecretIsReadIff(remoteWrite, req.data);
    EmptyTokenStops(f, req.at, crds, limit, s);
  }

  lemma EmptyTokenStops(f: Fields, at: Surroundings, crds: Crds, limit: nat, s: Objects)
    requires limit > 3 && f.remoteWrite == Some("") && Open(at, s)
    ensures var o := Exec(PlanOf(f, at), FirstPhases(crds, limit), s);
            && o.error == Some(Failure(Put(Prometheus), "invalid remote write bearer token"))
            && Lookup(o.objects, Prometheus) == Lookup(s, Prometheus)
  {
    var rest := SplitAtPrometheus(crds, limit, FirstPhases(crds, limit));
    AtPrometheus(f, at, rest, s);
    BeforePrometheus(f, at, s);
    assert COMMON[3] == Put(Prometheus);
    var before := Exec(PlanOf(f, at), BEFORE, s).objects;
    assert Free(before, Prometheus);
  }

  // ----- when a reconcile succeeds -----

  /** The part of the configuration that this object needs is complete, and what must be read for it can be. */
  predicate Ready(pagerDuty: PagerDuty, smtp: Smtp, token: Option<string>, at: Surroundings, p: Managed) {
    match p
    case Prometheus => at.proxyImage.Some? && at.clusterId.Some? && token != Some("")
    case AlertmanagerSecret => pagerDuty.serviceKey != "" && smtp.password != ""
    case AlertmanagerConfig =>
      && pagerDuty.sopEndpoint != "" && smtp.username != "" && smtp.endpoint != "" && smtp.fromAddress != ""
      && at.html.Some? && at.smtpHost.Some? && at.smtpHost.value != ""
    case EgressFirewall => HasEgressInput(at)
    case EgressNetworkPolicy => HasEgressInput(at)
    case _ => true
  }

  /** Each object the process manages is ready, and belongs to nobody else. */
  ghost predicate CanSucceed(remoteWrite: Option<string>, req: Request, crds: Crds, s: Objects) {
    && req.data.pagerDuty.Parsed? && req.data.smtp.Parsed? && !req.data.bearerToken.Malformed?
    && forall p :: Manages(crds, p) ==>
         && (p in s && s[p].controller.Some? ==> s[p].controller == Some("managed-fusion-agent-config"))
         && Ready(req.data.pagerDuty.value, req.data.smtp.value, FieldLeft(remoteWrite, req.data), req.at, p)
  }

  lemma WantedIff(f: Fields, at: Surroundings, p: Managed)
    ensures Wanted(f, at, p).Ok? <==> Ready(f.pagerDuty, f.smtp, f.remoteWrite, at, p)
  {
    if p.AlertmanagerConfig? {
      AlertingReadyIff(f, at);
    } else {
      EgressInputIff(at);
    }
  }

  lemma AlertingReadyIff(f: Fields, at: Surroundings)
    ensures Wanted(f, at, AlertmanagerConfig).Ok? <==>
              Ready(f.pagerDuty, f.smtp, f.remoteWrite, at, AlertmanagerConfig)
  {
  }

  lemma EgressInputIff(at: Surroundings)
    ensures DesiredState(EGRESS_TEMPLATE, at.vpcCidrs, at.smtpHostname).Ok? <==> HasEgressInput(at)
  {
    DesiredStateMeans(EGRESS_TEMPLATE, at.vpcCidrs, at.smtpHostname);
  }

  lemma PossibleIff(f: Fields, at: Surroundings, p: Managed, s: Objects)
    ensures Possible(PlanOf(f, at), Put(p), s) <==>
              Free(s, p) && Ready(f.pagerDuty, f.smtp, f.remoteWrite, at, p)
  {
    WantedIff(f, at, p);
  }

  /** Main result: a reconcile that is not an uninstall succeeds exactly then. */
  lemma ReconcileSucceedsIff(remoteWrite: Option<string>, req: Request, crds: Crds, s: Objects)
    requires !req.deleting
    ensures (exists t :: Succeeds(remoteWrite, req, crds, s, t)) <==> CanSucceed(remoteWrite, req, crds, s)
  {
    SecretIsReadIff(remoteWrite, req.data);
    var parsed := Parse(remoteWrite, req.data).1;
    if parsed.Ok? {
      PhasesSucceedIff(parsed.value, req.at, crds, s);
      var o := Exec(PlanOf(parsed.value, req.at), FirstPhases(crds, 11), s);
      assert Reconcile(remoteWrite, req, crds, 11, s) == Lift(o);
      if o.error.None? { assert Succeeds(remoteWrite, req, crds, s, o.objects); }
    }
  }

  lemma PhasesSucceedIff(f: Fields, at: Surroundings, crds: Crds, s: Objects)
    ensures Exec(PlanOf(f, at), FirstPhases(crds, 11), s).error.None? <==>
            forall p :: Manages(crds, p) ==> Free(s, p) && Ready(f.pagerDuty, f.smtp, f.remoteWrite, at, p)
  {
    PhasesAre(crds, Prometheus);
    PlanIsIdempotent(f, at);
    ErrorFreeIff(PlanOf(f, at), Enabled(crds), s);
    forall p
      ensures Put(p) in Enabled(crds) <==> Manages(crds, p)
      ensures Possible(PlanOf(f, at), Put(p), s) <==>
                Free(s, p) && Ready(f.pagerDuty, f.smtp, f.remoteWrite, at, p)
    {
      PhasesAre(crds, p);
      PossibleIff(f, at, p, s);
    }
    OnlyPuts(crds);
  }

  lemma OnlyPuts(crds: Crds)
    ensures forall op :: op in Enabled(crds) ==> op.Put?
  {
  }

  /** The order of the phases, by the numbers that module SecretTranscripts gives them. */
  function Place(p: Managed): nat {
    match p
    case AlertRelabelConfigSecret => 0
    case PrometheusKubeRBACConfigMap => 1
    case PrometheusService => 2
    case Prometheus => 3
    case Alertmanager => 4
    case AlertmanagerSecret => 5
    case AlertmanagerConfig => 6
    case K8SMetricsServiceMonitor => 7
    case PrometheusProxyNetworkPolicy => 8
    case EgressFirewall => 9
    case EgressNetworkPolicy => 10
  }

  lemma PhasesInOrder(crds: Crds, i: nat, j: nat)
    requires i < j < |Enabled(crds)|
    ensures Enabled(crds)[i].Put? && Enabled(crds)[j].Put? && Place(Enabled(crds)[i].id) < Place(Enabled(crds)[j].id)
  {
    CommonInPlace(crds, i);
    CommonInPlace(crds, j);
  }

  lemma CommonInPlace(crds: Crds, i: nat)
    requires i < |Enabled(crds)|
    ensures Enabled(crds)[i].Put? && Place(Enabled(crds)[i].id) == if i == 9 && !crds.firewall then 10 else i
  {
    EnabledStarts(crds);
    if i < 9 {
      CommonAt(i);
    }
  }

  lemma CommonAt(i: nat)
    requires i < 9
    ensures COMMON[i].Put? && Place(COMMON[i].id) == i
  {
  }
}
