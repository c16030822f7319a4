/** The agent's own reconciler (controllers/managedfusion_controller.go) with the receiver fields it keeps between
    reconciles, over an API server on which any call may fail. A reconcile is proved to be the Reconcile of
    AgentPhases, cut after some phases when a call fails. */
module AgentReconciler {
  import opened Wrappers
  import opened AgentPhases
  import opened AgentDeliveries
  import opened EgressRules
  import opened ObjectStore
  import opened Phases

  lemma Sections(crds: Crds)
    ensures var p := Enabled(crds);
            p[..0] == [] && p[0..4] == COMMON[..4] && p[4..7] == COMMON[4..7] && p[7..9] == COMMON[7..] &&
            p[9..] == p[|COMMON|..] && p[..|p|] == p && p[9..|p|] == p[9..]
  {
    EnabledStarts(crds);
    SameSection(Enabled(crds), COMMON, 0, 4);
    SameSection(Enabled(crds), COMMON, 4, 7);
    SameSection(Enabled(crds), COMMON, 7, 9);
    assert COMMON[0..4] == COMMON[..4] && COMMON[7..9] == COMMON[7..];
  }

  lemma SameSection(p: seq<Op<Managed>>, c: seq<Op<Managed>>, i: nat, j: nat)
    requires i <= j <= |c| <= |p| && forall k :: 0 <= k < |c| ==> p[k] == c[k]
    ensures p[i..j] == c[i..j]
  {
  }

  /** A reconcile returned, or a call failed or the process died on the way. */
  datatype Returned = Completed(error: Option<Refusal>) | Interrupted

  /** A fetched object, mutated in place before it is written back. */
  class Resource {
    var controller: Option<string>
    var content: Content

    constructor (found: Option<Object>)
      ensures controller == if found.Some? then found.value.controller else None
    {
      controller := if found.Some? then found.value.controller else None;
      content := if found.Some? then found.value.content else Static("");
    }

    /** SetControllerReference */
    method Own() returns (ok: bool)
      modifies this`controller
      ensures ok <==> old(controller) == None || old(controller) == Some(AGENT_SECRET)
      ensures ok ==> controller == Some(AGENT_SECRET)
    {
      if controller.Some? && controller.value != AGENT_SECRET {
        return false;
      }
      controller := Some(AGENT_SECRET);
      return true;
    }
  }

  class ManagedFusionReconciler {
    const api: Server<Managed, Object>
    const availableCRDs: Crds
    var pagerDutyConfigData: PagerDuty
    var smtpConfigData: Smtp
    var remoteWriteConfigData: Option<string>

    constructor (api: Server<Managed, Object>, availableCRDs: Crds)
      ensures this.api == api && this.availableCRDs == availableCRDs && remoteWriteConfigData == None
    {
      this.api, this.availableCRDs := api, availableCRDs;
      pagerDutyConfigData, smtpConfigData := PagerDuty("", ""), Smtp("", "", "", "", []);
      remoteWriteConfigData := None;
    }

    function Config(): Fields
      reads this
    {
      Fields(pagerDutyConfigData, smtpConfigData, remoteWriteConfigData)
    }

    // ----- one phase -----

    /** The first half of CreateOrUpdate: fetch the object, if it exists, and own it. */
    method Fetch(ghost at: Surroundings, phase: Managed)
      returns (ending: Ending<Managed>, found: Option<Object>, r: Resource)
      modifies api`calls
      ensures fresh(r)
      ensures ending.Finished? ==> found == Lookup(api.store.objects, phase)
      ensures ending.Finished? ==> r.controller == Some(AGENT_SECRET) && Free(api.store.objects, phase)
      ensures !ending.Finished? ==> Ran(PlanOf(Config(), at), [Put(phase)], api.store, api.store, ending)
    {
      OneOp(PlanOf(Config(), at), Put(phase), api.store);
      var got := api.Get(phase);
      found := if got.Found? then Some(got.value) else None;
      r := new Resource(found);
      if got.Failed? {
        return Cut, found, r;
      }
      var owned := r.Own();
      return if owned then Finished else Refused(Failure(Put(phase), "already owned by another controller")), found, r;
    }

    /** Its second half: create the object, or update it when it differs. */
    method Save(ghost at: Surroundings, phase: Managed, found: Option<Object>, r: Resource)
      returns (ending: Ending<Managed>)
      requires r.controller.Some? && found == Lookup(api.store.objects, phase)
      requires Change(Config(), at, phase, found) == Ok(Object(r.controller, r.content))
      modifies api
      ensures Ran(PlanOf(Config(), at), [Put(phase)], old(api.store), api.store, ending)
    {
      var o := Object(r.controller, r.content);
      OneOp(PlanOf(Config(), at), Put(phase), api.store);
      if found == Some(o) {
        assert api.store.objects[phase := o] == api.store.objects;
        return Finished;
      }
      var ok := api.Write(phase, o);
      return if ok then Finished else Cut;
    }

    // ----- the phases -----

    /** The phases whose whole content is a template. */
    method ReconcileStatic(at: Surroundings, phase: Managed) returns (ending: Ending<Managed>)
      requires phase.PrometheusKubeRBACConfigMap? || phase.PrometheusService? || phase.Alertmanager? ||
               phase.K8SMetricsServiceMonitor? || phase.PrometheusProxyNetworkPolicy?
      modifies api
      ensures Ran(PlanOf(Config(), at), [Put(phase)], old(api.store), api.store, ending)
    {
      var found, r;
      ending, found, r := Fetch(at, phase);
      if ending.Finished? {
        r.content := Static(if phase in at.staticSpecs then at.staticSpecs[phase] else "");
        ending := Save(at, phase, found, r);
      }
    }

    method ReconcileAlertRelabelConfigSecret(at: Surroundings) returns (ending: Ending<Managed>)
      modifies api
      ensures Ran(PlanOf(Config(), at), [Put(AlertRelabelConfigSecret)], old(api.store), api.store, ending)
    {
      var found, r;
      ending, found, r := Fetch(at, AlertRelabelConfigSecret);
      if ending.Finished? {
        r.content := Data(map[RELABEL_CONFIG_KEY := at.relabelConfig]);
        ending := Save(at, AlertRelabelConfigSecret, found, r);
      }
    }

    method ReconcilePrometheus(at: Surroundings) returns (ending: Ending<Managed>)
      modifies api
      ensures Ran(PlanOf(Config(), at), [Put(Prometheus)], old(api.store), api.store, ending)
    {
      OneOp(PlanOf(Config(), at), Put(Prometheus), api.store);
      var found, r;
      ending, found, r := Fetch(at, Prometheus);
      if !ending.Finished? {
        return;
      }
      var listed := api.Poll();
      if !listed {
        return Cut;
      }
      if at.proxyImage.None? {
        return Refused(Failure(Put(Prometheus), "unable to set image for kube-rbac-proxy container"));
      }
      var got := api.Poll();
      if !got {
        return Cut;
      }
      if at.clusterId.None? {
        return Refused(Failure(Put(Prometheus), "cluster version not found"));
      }
      if remoteWriteConfigData.Some? && remoteWriteConfigData.value == "" {
        return Refused(Failure(Put(Prometheus), "invalid remote write bearer token"));
      }
      r.content := Metrics(at.proxyImage.value, at.clusterId.value, remoteWriteConfigData,
        KeyRef(AlertRelabelConfigSecret, RELABEL_CONFIG_KEY));
      ending := Save(at, Prometheus, found, r);
    }

    method ReconcileAlertmanagerSecret(at: Surroundings) returns (ending: Ending<Managed>)
      modifies api
      ensures Ran(PlanOf(Config(), at), [Put(AlertmanagerSecret)], old(api.store), api.store, ending)
    {
      OneOp(PlanOf(Config(), at), Put(AlertmanagerSecret), api.store);
      var found, r;
      ending, found, r := Fetch(at, AlertmanagerSecret);
      if !ending.Finished? {
        return;
      }
      if pagerDutyConfigData.serviceKey == "" {
        return Refused(Failure(Put(AlertmanagerSecret), "no serviceKey entry"));
      }
      if smtpConfigData.password == "" {
        return Refused(Failure(Put(AlertmanagerSecret), "no password entry"));
      }
      r.content := Data(map[
        SERVICE_KEY_KEY := pagerDutyConfigData.serviceKey,
        AUTH_PASSWORD_KEY := smtpConfigData.password]);
      ending := Save(at, AlertmanagerSecret, found, r);
    }

    /** The checks of reconcileAlertmanagerConfig, in order. */
    method CheckAlerting(at: Surroundings) returns (reason: Option<string>)
      ensures var wanted := Wanted(Config(), at, AlertmanagerConfig);
              if wanted.Err? then reason == Some(wanted.reason) else reason == None
    {
      if pagerDutyConfigData.sopEndpoint == "" {
        return Some("no sopEndpoint entry");
      }
      if smtpConfigData.username == "" {
        return Some("no username entry");
      }
      if smtpConfigData.endpoint == "" {
        return Some("no endpoint entry");
      }
      if smtpConfigData.fromAddress == "" {
        return Some("no fromAddress entry");
      }
      if at.html.None? {
        return Some("unable to read customernotification.html");
      }
      if at.smtpHost.None? {
        return Some("unable to parse SMTP Endpoint url");
      }
      if at.smtpHost.value == "" {
        return Some("cannot retrieve host");
      }
      return None;
    }

    method ReconcileAlertmanagerConfig(at: Surroundings) returns (ending: Ending<Managed>)
      modifies api
      ensures Ran(PlanOf(Config(), at), [Put(AlertmanagerConfig)], old(api.store), api.store, ending)
    {
      OneOp(PlanOf(Config(), at), Put(AlertmanagerConfig), api.store);
      var found, r;
      ending, found, r := Fetch(at, AlertmanagerConfig);
      if !ending.Finished? {
        return;
      }
      var reason := CheckAlerting(at);
      if reason.Some? {
        return Refused(Failure(Put(AlertmanagerConfig), reason.value));
      }
      var email := None;
      if |smtpConfigData.emails| > 0 {
        email := Some(Email(at.smtpHost.value, smtpConfigData.username, KeyRef(AlertmanagerSecret, AUTH_PASSWORD_KEY),
          smtpConfigData.fromAddress, smtpConfigData.emails, at.html.value));
      }
      r.content := Routing(pagerDutyConfigData.sopEndpoint, KeyRef(AlertmanagerSecret, SERVICE_KEY_KEY), email);
      ending := Save(at, AlertmanagerConfig, found, r);
    }

    method ReconcileEgressFirewall(at: Surroundings) returns (ending: Ending<Managed>)
      modifies api
      ensures Ran(PlanOf(Config(), at), if availableCRDs.firewall then [Put(EgressFirewall)] else [],
                  old(api.store), api.store, ending)
    {
      OneOp(PlanOf(Config(), at), Put(EgressFirewall), api.store);
      if !availableCRDs.firewall {
        return Finished;
      }
      var found, r;
      ending, found, r := Fetch(at, EgressFirewall);
      if !ending.Finished? {
        return;
      }
      var got := api.Poll();
      if !got {
        return Cut;
      }
      var desired := GetEgressFirewallDesiredState(EGRESS_TEMPLATE, at.vpcCidrs, at.smtpHostname);
      if desired.Err? {
        return Refused(Failure(Put(EgressFirewall), desired.reason));
      }
      r.content := Firewall(desired.value);
      ending := Save(at, EgressFirewall, found, r);
    }

    method ReconcileEgressNetworkPolicy(at: Surroundings) returns (ending: Ending<Managed>)
      modifies api
      ensures Ran(PlanOf(Config(), at), if availableCRDs.policy then [Put(EgressNetworkPolicy)] else [],
                  old(api.store), api.store, ending)
    {
      OneOp(PlanOf(Config(), at), Put(EgressNetworkPolicy), api.store);
      if !availableCRDs.policy {
        return Finished;
      }
      var found, r;
      ending, found, r := Fetch(at, EgressNetworkPolicy);
      if !ending.Finished? {
        return;
      }
      var got := api.Poll();
      if !got {
        return Cut;
      }
      var desired := GetEgressNetworkPolicyDesiredState(at);
      if desired.Err? {
        return Refused(Failure(Put(EgressNetworkPolicy), desired.reason));
      }
      r.content := desired.value;
      ending := Save(at, EgressNetworkPolicy, found, r);
    }

    /** The firewall's rules, translated. */
    method GetEgressNetworkPolicyDesiredState(at: Surroundings) returns (desired: Result<Content>)
      ensures desired == Wanted(Config(), at, EgressNetworkPolicy)
    {
      var firewall := GetEgressFirewallDesiredState(EGRESS_TEMPLATE, at.vpcCidrs, at.smtpHostname);
      if firewall.Err? {
        return Err(firewall.reason);
      }
      var policy := ToEgressNetworkPolicy(firewall.value);
      assert policy == TranslateAll(firewall.value);
      return Ok(Policy(policy));
    }

    // ----- all phases -----

    method ReconcileMetrics(at: Surroundings) returns (ending: Ending<Managed>)
      modifies api
      ensures Ran(PlanOf(Config(), at), COMMON[..4], old(api.store), api.store, ending)
    {
      ghost var f, s := Config(), api.store;
      ghost var p := [Put(AlertRelabelConfigSecret), Put(PrometheusKubeRBACConfigMap), Put(PrometheusService),
            Put(Prometheus)];
      assert COMMON[..4] == p && p[..0] == [] && p[..4] == p;
      NothingRan(PlanOf(f, at), p, s);
      ending := ReconcileAlertRelabelConfigSecret(at);
      assert p[0..1] == [Put(AlertRelabelConfigSecret)];
      Piece(PlanOf(f, at), p, 0, 1, s, s, api.store, ending);
      if !ending.Finished? { return; }
      ghost var t := api.store;
      ending := ReconcileStatic(at, PrometheusKubeRBACConfigMap);
      assert p[1..2] == [Put(PrometheusKubeRBACConfigMap)];
      Piece(PlanOf(f, at), p, 1, 2, s, t, api.store, ending);
      if !ending.Finished? { return; }
      t := api.store;
      ending := ReconcileStatic(at, PrometheusService);
      assert p[2..3] == [Put(PrometheusService)];
      Piece(PlanOf(f, at), p, 2, 3, s, t, api.store, ending);
      if !ending.Finished? { return; }
      t := api.store;
      ending := ReconcilePrometheus(at);
      assert p[3..4] == [Put(Prometheus)];
      Piece(PlanOf(f, at), p, 3, 4, s, t, api.store, ending);
    }

    method ReconcileAlerting(at: Surroundings) returns (ending: Ending<Managed>)
      modifies api
      ensures Ran(PlanOf(Config(), at), COMMON[4..7], old(api.store), api.store, ending)
    {
      ghost var f, s := Config(), api.store;
      ghost var p := [Put(Alertmanager), Put(AlertmanagerSecret), Put(AlertmanagerConfig)];
      assert COMMON[4..7] == p && p[..0] == [] && p[..3] == p;
      NothingRan(PlanOf(f, at), p, s);
      ending := ReconcileStatic(at, Alertmanager);
      assert p[0..1] == [Put(Alertmanager)];
      Piece(PlanOf(f, at), p, 0, 1, s, s, api.store, ending);
      if !ending.Finished? { return; }
      ghost var t := api.store;
      ending := ReconcileAlertmanagerSecret(at);
      assert p[1..2] == [Put(AlertmanagerSecret)];
      Piece(PlanOf(f, at), p, 1, 2, s, t, api.store, ending);
      if !ending.Finished? { return; }
      t := api.store;
      ending := ReconcileAlertmanagerConfig(at);
      assert p[2..3] == [Put(AlertmanagerConfig)];
      Piece(PlanOf(f, at), p, 2, 3, s, t, api.store, ending);
    }

    method ReconcileNetwork(at: Surroundings) returns (ending: Ending<Managed>)
      modifies api
      ensures Ran(PlanOf(Config(), at), COMMON[7..], old(api.store), api.store, ending)
    {
      ghost var f, s := Config(), api.store;
      ghost var p := [Put(K8SMetricsServiceMonitor), Put(PrometheusProxyNetworkPolicy)];
      assert COMMON[7..] == p && p[..0] == [] && p[..2] == p;
      NothingRan(PlanOf(f, at), p, s);
      ending := ReconcileStatic(at, K8SMetricsServiceMonitor);
      assert p[0..1] == [Put(K8SMetricsServiceMonitor)];
      Piece(PlanOf(f, at), p, 0, 1, s, s, api.store, ending);
      if !ending.Finished? { return; }
      ghost var t := api.store;
      ending := ReconcileStatic(at, PrometheusProxyNetworkPolicy);
      assert p[1..2] == [Put(PrometheusProxyNetworkPolicy)];
      Piece(PlanOf(f, at), p, 1, 2, s, t, api.store, ending);
    }

    method ReconcileEgress(at: Surroundings) returns (ending: Ending<Managed>)
      modifies api
      ensures Ran(PlanOf(Config(), at), Enabled(availableCRDs)[|COMMON|..], old(api.store), api.store, ending)
    {
      ghost var f, s := Config(), api.store;
      ghost var a := if availableCRDs.firewall then [Put(EgressFirewall)] else [];
      ghost var b := if availableCRDs.policy then [Put(EgressNetworkPolicy)] else [];
      assert Enabled(availableCRDs)[|COMMON|..] == a + b;
      ending := ReconcileEgressFirewall(at);
      if !ending.Finished? {
        RanStops(PlanOf(f, at), a, b, s, api.store, ending);
        return;
      }
      ghost var t := api.store;
      ending := ReconcileEgressNetworkPolicy(at);
      RanThen(PlanOf(f, at), a, b, s, t, api.store, ending);
    }

    /** The install branch of reconcilePhases. */
    method ReconcilePhases(at: Surroundings) returns (ending: Ending<Managed>)
      modifies api
      ensures Ran(PlanOf(Config(), at), Enabled(availableCRDs), old(api.store), api.store, ending)
    {
      ghost var f, p, s := Config(), Enabled(availableCRDs), api.store;
      Sections(availableCRDs);
      NothingRan(PlanOf(f, at), p, s);
      ending := ReconcileMetrics(at);
      Piece(PlanOf(f, at), p, 0, 4, s, s, api.store, ending);
      if !ending.Finished? { return; }
      ghost var t := api.store;
      ending := ReconcileAlerting(at);
      Piece(PlanOf(f, at), p, 4, 7, s, t, api.store, ending);
      if !ending.Finished? { return; }
      t := api.store;
      ending := ReconcileNetwork(at);
      Piece(PlanOf(f, at), p, 7, 9, s, t, api.store, ending);
      if !ending.Finished? { return; }
      t := api.store;
      ending := ReconcileEgress(at);
      Piece(PlanOf(f, at), p, 9, |p|, s, t, api.store, ending);
    }

    // ----- one reconcile -----

    /** initReconciler resets every field but remoteWriteConfigData. */
    method InitReconciler()
      modifies this`pagerDutyConfigData, this`smtpConfigData
      ensures pagerDutyConfigData == PagerDuty("", "") && smtpConfigData == Smtp("", "", "", "", [])
    {
      pagerDutyConfigData := PagerDuty("", "");
      smtpConfigData := Smtp("", "", "", "", []);
    }

    /** Reconcile, once the config Secret is read; its finalizer and its deletion are the business of
        module SecretMachine. The field it leaves behind and everything it writes are those of
        AgentPhases, from the value the field had before. */
    method Reconcile(req: Request) returns (result: Returned)
      modifies this, api
      ensures remoteWriteConfigData == Parse(old(remoteWriteConfigData), req.data).0
      ensures exists limit: nat :: Reached(old(remoteWriteConfigData), req, limit, old(api.store.objects), result)
      ensures remoteWriteConfigData == FieldLeft(old(remoteWriteConfigData), req.data)
    {
      SecretIsReadIff(remoteWriteConfigData, req.data);
      InitReconciler();
      ghost var field, n, s := remoteWriteConfigData, |Enabled(availableCRDs)|, api.store.objects;
      assert Enabled(availableCRDs)[..n] == Enabled(availableCRDs);
      match req.data.pagerDuty {
        case Missing =>
          assert Reached(field, req, n, s, Completed(Some(InConfig("no pager_duty_config entry"))));
          return Completed(Some(InConfig("no pager_duty_config entry")));
        case Malformed(partial) =>
          pagerDutyConfigData := partial;
          assert Reached(field, req, n, s, Completed(Some(InConfig("failed to unmarshal pager_duty_config"))));
          return Completed(Some(InConfig("failed to unmarshal pager_duty_config")));
        case Parsed(value) => pagerDutyConfigData := value;
      }
      match req.data.smtp {
        case Missing =>
          assert Reached(field, req, n, s, Completed(Some(InConfig("no smtp_config entry"))));
          return Completed(Some(InConfig("no smtp_config entry")));
        case Malformed(partial) =>
          smtpConfigData := partial;
          assert Reached(field, req, n, s, Completed(Some(InConfig("failed to unmarshal smtp_config"))));
          return Completed(Some(InConfig("failed to unmarshal smtp_config")));
        case Parsed(value) => smtpConfigData := value;
      }
      match req.data.bearerToken {
        case Missing =>
        case Malformed(partial) =>
          remoteWriteConfigData := Some(partial);
          assert Reached(field, req, n, s, Completed(Some(InConfig("failed to unmarshal remote_write_config"))));
          return Completed(Some(InConfig("failed to unmarshal remote_write_config")));
        case Parsed(value) => remoteWriteConfigData := Some(value);
      }
      if req.deleting {
        assert Reached(field, req, n, s, Completed(None));
        return Completed(None);
      }
      ghost var before := api.store;
      var ending := ReconcilePhases(req.at);
      ghost var plan := PlanOf(Config(), req.at);
      ghost var k := RanIsPrefix(plan, Enabled(availableCRDs), before, api.store, ending);
      result := match ending
        case Finished => Completed(None)
        case Refused(failure) => Completed(Some(InPhase(failure)))
        case Cut => Interrupted;
      assert Reached(field, req, k, s, result);
    }

    /** What the store holds when a reconcile ends this way: all of it, or a cut after some phases. */
    ghost predicate Reached(remoteWrite: Option<string>, req: Request, limit: nat, s: Objects, result: Returned)
      reads api
    {
      var r := AgentPhases.Reconcile(remoteWrite, req, availableCRDs, limit, s);
      && api.store.objects == r.objects
      && (result.Completed? ==> limit == |Enabled(availableCRDs)| && r.error == result.error)
    }
  }
}
