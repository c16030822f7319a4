/** What one reconcile of the agent's own objects inherits from the last, what an error-free one delivers, and what
    the next makes of one that was cut. */
module AgentHistory {
  import opened Wrappers
  import opened EgressRules
  import opened Phases
  import opened AgentPhases
  import opened AgentObjects

  // ----- what a reconcile inherits -----

  /** The reconcile gets as far as looking at the remote write field, which the Secret does not set. */
  predicate Reaches(req: Request, s: Objects) {
    && !req.deleting
    && req.data.pagerDuty.Parsed? && req.data.smtp.Parsed? && req.data.bearerToken.Missing?
    && req.at.proxyImage.Some? && req.at.clusterId.Some?
    && forall i :: 0 <= i <= 3 ==> Free(s, COMMON[i].id)
  }

  /** With an entry for it in the Secret, the field's old value plays no part. */
  lemma EntryMakesHistoryIrrelevant(a: Option<string>, b: Option<string>, req: Request, crds: Crds, limit: nat,
        s: Objects)
    requires !req.data.bearerToken.Missing?
    ensures Reconcile(a, req, crds, limit, s) == Reconcile(b, req, crds, limit, s)
  {
  }

  const BEFORE: seq<Op<Managed>> := [Put(AlertRelabelConfigSecret), Put(PrometheusKubeRBACConfigMap),
    Put(PrometheusService)]

  /** The first three phases only need their objects to be free. */
  lemma BeforePrometheus(f: Fields, at: Surroundings, s: Objects)
    ensures Exec(PlanOf(f, at), BEFORE, s).error.None? <==> forall i :: 0 <= i <= 2 ==> Free(s, COMMON[i].id)
    ensures Lookup(Exec(PlanOf(f, at), BEFORE, s).objects, Prometheus) == Lookup(s, Prometheus)
    ensures forall g: Fields :: Exec(PlanOf(g, at), BEFORE, s) == Exec(PlanOf(f, at), BEFORE, s)
  {
    forall g: Fields ensures Exec(PlanOf(g, at), BEFORE, s) == Exec(PlanOf(f, at), BEFORE, s) {
      SameBefore(f, g, at, s);
    }
    ThreeSteps(f, at, s);
    assert COMMON[0] == BEFORE[0] && COMMON[1] == BEFORE[1] && COMMON[2] == BEFORE[2];
  }

  lemma SameBefore(f: Fields, g: Fields, at: Surroundings, s: Objects)
    ensures Exec(PlanOf(g, at), BEFORE, s) == Exec(PlanOf(f, at), BEFORE, s)
  {
    ThreeSteps(f, at, s);
    ThreeSteps(g, at, s);
  }

  lemma ThreeSteps(f: Fields, at: Surroundings, s: Objects)
    ensures var one := Step(PlanOf(f, at), BEFORE[0], s);
            var two := Step(PlanOf(f, at), BEFORE[1], one.objects);
            var three := Step(PlanOf(f, at), BEFORE[2], two.objects);
            Exec(PlanOf(f, at), BEFORE, s) ==
            if one.error.Some? then one else if two.error.Some? then two else three
  {
    var one := Step(PlanOf(f, at), BEFORE[0], s);
    var two := Step(PlanOf(f, at), BEFORE[1], one.objects);
    var three := Step(PlanOf(f, at), BEFORE[2], two.objects);
    var last := [BEFORE[2]];
    var both := [BEFORE[1]] + last;
    assert BEFORE[1..] == both && both[1..] == last && last[1..] == [];
    assert Exec(PlanOf(f, at), last, two.objects) == three;
    assert Exec(PlanOf(f, at), both, one.objects) == if two.error.Some? then two else three;
  }

  lemma {:induction false} SameElsewhere(f: Fields, g: Fields, at: Surroundings, phases: seq<Op<Managed>>, s: Objects)
    requires f.pagerDuty == g.pagerDuty && f.smtp == g.smtp && Put(Prometheus) !in phases
    ensures Exec(PlanOf(f, at), phases, s) == Exec(PlanOf(g, at), phases, s)
  {
    if phases != [] {
      assert Step(PlanOf(f, at), phases[0], s) == Step(PlanOf(g, at), phases[0], s);
      SameElsewhere(f, g, at, phases[1..], Step(PlanOf(f, at), phases[0], s).objects);
    }
  }

  lemma SplitAtPrometheus(crds: Crds, limit: nat, phases: seq<Op<Managed>>) returns (rest: seq<Op<Managed>>)
    requires phases == FirstPhases(crds, limit)
    ensures limit > 3 ==> phases == BEFORE + ([Put(Prometheus)] + rest)
    ensures limit <= 3 ==> Put(Prometheus) !in phases
    ensures Put(Prometheus) !in rest
  {
    var all := Enabled(crds);
    EnabledStarts(crds);
    forall i | 0 <= i < |all| ensures all[i] == Put(Prometheus) <==> i == 3 {
      PrometheusIsFourth(crds, i);
    }
    rest := [];
    if limit > 3 {
      rest := phases[4..];
      assert forall i :: 0 <= i < |rest| ==> rest[i] == all[i + 4];
      assert phases[0] == COMMON[0] == BEFORE[0] && phases[1] == COMMON[1] == BEFORE[1];
      assert phases[2] == COMMON[2] == BEFORE[2] && phases[3] == Put(Prometheus);
      assert phases[..3] == BEFORE && phases[3..] == [phases[3]] + rest;
      assert phases == phases[..3] + phases[3..];
    } else {
      assert forall i :: 0 <= i < |phases| ==> phases[i] == all[i];
    }
  }

  lemma PrometheusIsFourth(crds: Crds, i: nat)
    requires i < |Enabled(crds)|
    ensures Enabled(crds)[i] == Put(Prometheus) <==> i == 3
  {
    EnabledStarts(crds);
    if i < 9 {
      assert Enabled(crds)[i] == COMMON[i];
    } else {
      assert Enabled(crds)[i] == Put(EgressFirewall) || Enabled(crds)[i] == Put(EgressNetworkPolicy);
    }
  }

  /** One full pass, split at the Prometheus phase. */
  lemma AtPrometheus(f: Fields, at: Surroundings, rest: seq<Op<Managed>>, s: Objects)
    ensures var before := Exec(PlanOf(f, at), BEFORE, s);
            var own := Step(PlanOf(f, at), Put(Prometheus), before.objects);
            Exec(PlanOf(f, at), BEFORE + ([Put(Prometheus)] + rest), s) ==
            if before.error.Some? then before
            else if own.error.Some? then own
            else Exec(PlanOf(f, at), rest, own.objects)
  {
    ExecConcat(PlanOf(f, at), BEFORE, [Put(Prometheus)] + rest, s);
    assert ([Put(Prometheus)] + rest)[1..] == rest;
  }

  /** Main result: what an earlier reconcile of the same process left in the field shows exactly when the
      Secret has no entry for it and this reconcile reaches the Prometheus phase. */
  lemma HistoryShowsIff(a: Option<string>, b: Option<string>, req: Request, crds: Crds, limit: nat, s: Objects)
    ensures Reconcile(a, req, crds, limit, s) == Reconcile(b, req, crds, limit, s)
            <==> a == b || limit <= 3 || !Reaches(req, s)
  {
    if req.data.pagerDuty.Parsed? && req.data.smtp.Parsed? && req.data.bearerToken.Missing? && !req.deleting && a != b {
      DifferentFieldsShow(a, b, req, crds, limit, s);
    } else {
      NothingInherited(a, b, req, crds, limit, s);
    }
  }

  lemma NothingInherited(a: Option<string>, b: Option<string>, req: Request, crds: Crds, limit: nat, s: Objects)
    requires !req.data.pagerDuty.Parsed? || !req.data.smtp.Parsed? || !req.data.bearerToken.Missing? || req.deleting ||
             a == b
    ensures Reconcile(a, req, crds, limit, s) == Reconcile(b, req, crds, limit, s)
  {
  }

  lemma DifferentFieldsShow(a: Option<string>, b: Option<string>, req: Request, crds: Crds, limit: nat, s: Objects)
    requires req.data.pagerDuty.Parsed? && req.data.smtp.Parsed? && req.data.bearerToken.Missing? && !req.deleting
    requires a != b
    ensures Reconcile(a, req, crds, limit, s) == Reconcile(b, req, crds, limit, s) <==> limit <= 3 || !Reaches(req, s)
  {
    var f := Fields(req.data.pagerDuty.value, req.data.smtp.value, a);
    PhasesShow(f, f.(remoteWrite := b), req.at, crds, limit, s);
    ReconcileIsLifted(a, req, crds, limit, s);
    ReconcileIsLifted(b, req, crds, limit, s);
    assert Reaches(req, s) <==> Open(req.at, s);
  }

  lemma ReconcileIsLifted(a: Option<string>, req: Request, crds: Crds, limit: nat, s: Objects)
    requires req.data.pagerDuty.Parsed? && req.data.smtp.Parsed? && req.data.bearerToken.Missing? && !req.deleting
    ensures Reconcile(a, req, crds, limit, s) ==
            Lift(Exec(PlanOf(Fields(req.data.pagerDuty.value, req.data.smtp.value, a), req.at),
                      FirstPhases(crds, limit), s))
  {
  }

  lemma PhasesShow(f: Fields, g: Fields, at: Surroundings, crds: Crds, limit: nat, s: Objects)
    requires g.pagerDuty == f.pagerDuty && g.smtp == f.smtp && g.remoteWrite != f.remoteWrite
    ensures Exec(PlanOf(f, at), FirstPhases(crds, limit), s) == Exec(PlanOf(g, at), FirstPhases(crds, limit), s)
            <==> limit <= 3 || !Open(at, s)
  {
    var phases := FirstPhases(crds, limit);
    var rest := SplitAtPrometheus(crds, limit, phases);
    if limit <= 3 {
      SameElsewhere(f, g, at, phases, s);
    } else {
      FieldShows(f, g, at, rest, s);
    }
  }

  /** The Prometheus phase gets to the token. */
  predicate Open(at: Surroundings, s: Objects) {
    at.proxyImage.Some? && at.clusterId.Some? && forall i :: 0 <= i <= 3 ==> Free(s, COMMON[i].id)
  }

  /** At the Prometheus phase two tokens differ exactly when the phase gets to them. */
  lemma StepShows(f: Fields, g: Fields, at: Surroundings, s: Objects)
    requires g.remoteWrite != f.remoteWrite
    ensures var x, y := Step(PlanOf(f, at), Put(Prometheus), s), Step(PlanOf(g, at), Put(Prometheus), s);
            if at.proxyImage.Some? && at.clusterId.Some? && Free(s, Prometheus)
            then
              && (x.error.None? || y.error.None?)
              && (x.error.None? && y.error.None? ==> Lookup(x.objects, Prometheus) != Lookup(y.objects, Prometheus))
            else x == y && x.error.Some?
    ensures var x := Step(PlanOf(f, at), Put(Prometheus), s); x.error.Some? ==> x.error.value.op == Put(Prometheus)
  {
  }

  lemma FieldShows(f: Fields, g: Fields, at: Surroundings, rest: seq<Op<Managed>>, s: Objects)
    requires g.pagerDuty == f.pagerDuty && g.smtp == f.smtp && g.remoteWrite != f.remoteWrite
    requires Put(Prometheus) !in rest
    ensures var phases := BEFORE + ([Put(Prometheus)] + rest);
            Exec(PlanOf(f, at), phases, s) == Exec(PlanOf(g, at), phases, s) <==> !Open(at, s)
  {
    AtPrometheus(f, at, rest, s);
    AtPrometheus(g, at, rest, s);
    BeforePrometheus(f, at, s);
    var before := Exec(PlanOf(f, at), BEFORE, s);
    assert COMMON[3] == Put(Prometheus) && Exec(PlanOf(g, at), BEFORE, s) == before;
    if before.error.None? {
      Afterwards(f, g, at, rest, before.objects);
    }
  }

  lemma Afterwards(f: Fields, g: Fields, at: Surroundings, rest: seq<Op<Managed>>, s: Objects)
    requires g.remoteWrite != f.remoteWrite && Put(Prometheus) !in rest
    ensures var x, y := Step(PlanOf(f, at), Put(Prometheus), s), Step(PlanOf(g, at), Put(Prometheus), s);
            (if x.error.Some? then x else Exec(PlanOf(f, at), rest, x.objects)) ==
              (if y.error.Some? then y else Exec(PlanOf(g, at), rest, y.objects))
            <==> !(at.proxyImage.Some? && at.clusterId.Some? && Free(s, Prometheus))
  {
    StepShows(f, g, at, s);
    StepShows(g, f, at, s);
    UntouchedStays(PlanOf(f, at), rest, Step(PlanOf(f, at), Put(Prometheus), s).objects, Prometheus);
    UntouchedStays(PlanOf(g, at), rest, Step(PlanOf(g, at), Put(Prometheus), s).objects, Prometheus);
  }

  /** So a token outlives its removal from the Secret for as long as the process runs, and goes
      with the next process. */
  lemma RemovedTokenStays(token: string, req: Request, crds: Crds, limit: nat, s: Objects)
    requires token != "" && limit > 3 && Reaches(req, s)
    ensures var kept := Reconcile(Some(token), req, crds, limit, s).objects;
            Prometheus in kept && kept[Prometheus].content.Metrics? &&
              kept[Prometheus].content.bearerToken == Some(token)
    ensures var gone := Reconcile(None, req, crds, limit, s).objects;
            Prometheus in gone && gone[Prometheus].content.Metrics? && gone[Prometheus].content.bearerToken == None
  {
    var pagerDuty, smtp := req.data.pagerDuty.value, req.data.smtp.value;
    FieldIsWritten(Fields(pagerDuty, smtp, Some(token)), req.at, crds, limit, s);
    FieldIsWritten(Fields(pagerDuty, smtp, None), req.at, crds, limit, s);
  }

  /** Once the Prometheus phase is through, its object carries the field. */
  lemma FieldIsWritten(f: Fields, at: Surroundings, crds: Crds, limit: nat, s: Objects)
    requires limit > 3 && Open(at, s) && f.remoteWrite != Some("")
    ensures var t := Exec(PlanOf(f, at), FirstPhases(crds, limit), s).objects;
            Prometheus in t && t[Prometheus].content.Metrics? && t[Prometheus].content.bearerToken == f.remoteWrite
  {
    var rest := SplitAtPrometheus(crds, limit, FirstPhases(crds, limit));
    AtPrometheus(f, at, rest, s);
    BeforePrometheus(f, at, s);
    assert COMMON[3] == Put(Prometheus);
    var before := Exec(PlanOf(f, at), BEFORE, s).objects;
    assert Free(before, Prometheus);
    UntouchedStays(PlanOf(f, at), rest, Step(PlanOf(f, at), Put(Prometheus), before).objects, Prometheus);
  }

  // ----- what an error-free reconcile delivers -----

  /** A reconcile that ran all its phases without error, with the fields it ran them with. */
  ghost predicate ErrorFree(remoteWrite: Option<string>, req: Request, crds: Crds, s: Objects, f: Fields, t: Objects) {
    && !req.deleting && Parse(remoteWrite, req.data).1 == Ok(f)
    && Reconcile(remoteWrite, req, crds, |Enabled(crds)|, s) == Reconciled(t, None)
  }

  lemma PhaseDelivers(remoteWrite: Option<string>, req: Request, crds: Crds, s: Objects, f: Fields, t: Objects, i: nat)
    requires ErrorFree(remoteWrite, req, crds, s, f, t) && i < |Enabled(crds)|
    requires Enabled(crds)[i].Put?
    ensures var p := Enabled(crds)[i].id;
            p in t && Wanted(f, req.at, p).Ok? && t[p].content == Wanted(f, req.at, p).value
  {
    assert FirstPhases(crds, |Enabled(crds)|) == Enabled(crds);
    PlanIsIdempotent(f, req.at);
    ErrorFreeRun(PlanOf(f, req.at), Enabled(crds), s, Enabled(crds)[i].id);
  }

  /** After an error-free reconcile the alertmanager finds, through its references, the values of the config Secret. */
  lemma AlertmanagerReadsTheConfig(remoteWrite: Option<string>, req: Request, crds: Crds, s: Objects, f: Fields,
        t: Objects)
    requires ErrorFree(remoteWrite, req, crds, s, f, t)
    ensures req.data.pagerDuty == Parsed(f.pagerDuty) && req.data.smtp == Parsed(f.smtp)
    ensures AlertmanagerConfig in t && t[AlertmanagerConfig].content.Routing?
    ensures var routing := t[AlertmanagerConfig].content;
            && Resolved(t, routing.serviceKey) == Some(f.pagerDuty.serviceKey)
            && (routing.email.Some? <==> f.smtp.emails != [])
            && (routing.email.Some? ==> Resolved(t, routing.email.value.password) == Some(f.smtp.password))
  {
    assert Enabled(crds)[5] == Put(AlertmanagerSecret) && Enabled(crds)[6] == Put(AlertmanagerConfig);
    PhaseDelivers(remoteWrite, req, crds, s, f, t, 5);
    PhaseDelivers(remoteWrite, req, crds, s, f, t, 6);
    assert SERVICE_KEY_KEY != AUTH_PASSWORD_KEY;
  }

  /** And with both CRDs the firewall and the network policy decide alike about all traffic. */
  lemma EgressObjectsAgree(remoteWrite: Option<string>, req: Request, s: Objects, f: Fields, t: Objects, m: Matcher)
    requires ErrorFree(remoteWrite, req, Crds(true, true), s, f, t)
    ensures EgressFirewall in t && t[EgressFirewall].content.Firewall?
    ensures EgressNetworkPolicy in t && t[EgressNetworkPolicy].content.Policy?
    ensures PolicyVerdict(t[EgressNetworkPolicy].content.policyRules, m) == Verdict(t[EgressFirewall].content.rules, m)
  {
    EgressDelivered(remoteWrite, req, s, f, t);
    EgressAgrees(req.at, m);
  }

  lemma EgressPhases()
    ensures var phases := Enabled(Crds(true, true));
            |phases| == 11 && phases[9] == Put(EgressFirewall) && phases[10] == Put(EgressNetworkPolicy)
  {
  }

  lemma EgressDelivered(remoteWrite: Option<string>, req: Request, s: Objects, f: Fields, t: Objects)
    requires ErrorFree(remoteWrite, req, Crds(true, true), s, f, t)
    ensures EgressFirewall in t && EgressNetworkPolicy in t
    ensures var rules := DesiredState(EGRESS_TEMPLATE, req.at.vpcCidrs, req.at.smtpHostname);
            && rules.Ok? && t[EgressFirewall].content == Firewall(rules.value)
            && t[EgressNetworkPolicy].content == Policy(TranslateAll(rules.value))
  {
    var crds := Crds(true, true);
    EgressPhases();
    PhaseDelivers(remoteWrite, req, crds, s, f, t, 9);
    PhaseDelivers(remoteWrite, req, crds, s, f, t, 10);
  }

  function Resolved(s: Objects, ref: KeyRef): Option<string> {
    if Resolves(ref, s) then Some(s[ref.secret].content.data[ref.key]) else None
  }

  lemma EgressAgrees(at: Surroundings, m: Matcher)
    requires DesiredState(EGRESS_TEMPLATE, at.vpcCidrs, at.smtpHostname).Ok?
    ensures var rules := DesiredState(EGRESS_TEMPLATE, at.vpcCidrs, at.smtpHostname).value;
            PolicyVerdict(TranslateAll(rules), m) == Verdict(rules, m)
  {
    var value, host := at.vpcCidrs.value[CIDR_KEY], at.smtpHostname.value;
    assert PortFree(EGRESS_TEMPLATE);
    BuiltTranslatesFaithfully(EGRESS_TEMPLATE, value, host, TranslateAll(Built(EGRESS_TEMPLATE, value, host)), m);
    BuiltMeaning(EGRESS_TEMPLATE, value, host, m);
  }

  // ----- crash convergence -----

  /** Cut a reconcile after any number of phases; the next one of the same process ends with the same
      objects and error as one alone. */
  lemma CrashConvergence(remoteWrite: Option<string>, req: Request, crds: Crds, k: nat, limit: nat, s: Objects)
    requires limit >= |Enabled(crds)|
    ensures var cut := Do(Attempt(req, k), State(s, remoteWrite, crds));
            Reconcile(cut.remoteWrite, req, crds, limit, cut.objects) == Reconcile(remoteWrite, req, crds, limit, s)
  {
    var parsed := Parse(remoteWrite, req.data);
    assert Parse(parsed.0, req.data) == parsed;
    if parsed.1.Ok? && !req.deleting {
      PhasesConverge(parsed.1.value, req.at, crds, k, limit, s);
    }
  }

  lemma PhasesConverge(f: Fields, at: Surroundings, crds: Crds, k: nat, limit: nat, s: Objects)
    requires limit >= |Enabled(crds)|
    ensures var plan := PlanOf(f, at);
            Exec(plan, FirstPhases(crds, limit), Exec(plan, FirstPhases(crds, k), s).objects) ==
              Exec(plan, FirstPhases(crds, limit), s)
  {
    var n := |Enabled(crds)|;
    assert FirstPhases(crds, limit) == Enabled(crds);
    PlanIsIdempotent(f, at);
    ResumeSame(PlanOf(f, at), Enabled(crds), if k <= n then k else n, s);
  }
}
