/** Which of the agent's own objects exist after any history of failures and restarts, and what they refer to. */
module AgentObjects {
  import opened Wrappers
  import opened EgressRules
  import opened Phases
  import opened AgentPhases

  // ----- the objects form a prefix -----

  /** The objects that exist are the first n of this list, among those of the list. */
  ghost predicate IsPrefix(s: Objects, phases: seq<Op<Managed>>, n: nat) {
    n <= |phases| && forall i :: 0 <= i < |phases| ==> phases[i].Put? && (phases[i].id in s <==> i < n)
  }

  ghost predicate NoOthers(s: Objects, phases: seq<Op<Managed>>) {
    forall p :: p in s ==> Put(p) in phases
  }

  /** The objects that exist are exactly the first of the enabled phases. */
  ghost predicate FormPrefix(s: Objects, crds: Crds) {
    exists n :: IsPrefix(s, Enabled(crds), n) && NoOthers(s, Enabled(crds))
  }

  /** A partial run adds a prefix of its phases. */
  lemma {:induction false} ExecAddsPrefix(plan: Plan<Managed, Object>, phases: seq<Op<Managed>>, s: Objects)
    returns (n: nat)
    ensures n <= |phases| && (Exec(plan, phases, s).error.None? ==> n == |phases|)
    ensures forall p :: p in Exec(plan, phases, s).objects <==> p in s || Put(p) in phases[..n]
  {
    n := 0;
    if phases != [] {
      var first := Step(plan, phases[0], s);
      if first.error.None? {
        n := ExecAddsPrefix(plan, phases[1..], first.objects);
        n := n + 1;
        assert phases[..n] == [phases[0]] + phases[1..][..n - 1];
      }
    }
  }

  lemma ReconcileAddsPrefix(remoteWrite: Option<string>, req: Request, crds: Crds, limit: nat, s: Objects)
    returns (n: nat)
    ensures n <= |Enabled(crds)|
    ensures forall p :: p in Reconcile(remoteWrite, req, crds, limit, s).objects <==>
            p in s || Put(p) in Enabled(crds)[..n]
  {
    n := 0;
    var parsed := Parse(remoteWrite, req.data).1;
    if parsed.Ok? && !req.deleting {
      n := ExecAddsPrefix(PlanOf(parsed.value, req.at), FirstPhases(crds, limit), s);
      assert FirstPhases(crds, limit)[..n] == Enabled(crds)[..n];
    }
  }

  /** The common objects are a prefix, and egress objects come only after all of them. */
  ghost predicate CommonFirst(s: Objects, n: nat) {
    IsPrefix(s, COMMON, n) && (EgressFirewall in s || EgressNetworkPolicy in s ==> n == |COMMON|)
  }

  lemma CommonPart(crds: Crds, n: nat)
    requires n <= |Enabled(crds)|
    ensures forall i :: 0 <= i < |COMMON| ==> (COMMON[i] in Enabled(crds)[..n] <==> i < n)
    ensures Put(EgressFirewall) in Enabled(crds)[..n] ==> n > |COMMON| && crds.firewall
    ensures Put(EgressNetworkPolicy) in Enabled(crds)[..n] ==>
              n > |COMMON| && crds.policy && (crds.firewall ==> Put(EgressFirewall) in Enabled(crds)[..n])
  {
    var p := Enabled(crds)[..n];
    forall i | 0 <= i < |COMMON| ensures COMMON[i] in p <==> i < n {
      if i < n { assert p[i] == COMMON[i]; }
    }
    forall i | |COMMON| <= i < n ensures p[i] == Put(EgressFirewall) || p[i] == Put(EgressNetworkPolicy) {
    }
    if n > |COMMON| {
      assert p[|COMMON|] == Enabled(crds)[|COMMON|];
    }
  }

  lemma PrefixGrows(s: Objects, t: Objects, phases: seq<Op<Managed>>, j: nat, k: nat)
    requires IsPrefix(s, phases, j)
    requires forall i :: 0 <= i < |phases| ==> (phases[i].id in t <==> phases[i].id in s || i < k)
    ensures IsPrefix(t, phases, if k <= j then j else if k <= |phases| then k else |phases|)
  {
  }

  /** Across restarts with any changes of the CRDs, the common objects still form a prefix and the
      egress objects come after all of them. */
  lemma {:induction false} CommonObjectsFormAPrefix(es: seq<Event>, crds: Crds) returns (n: nat)
    ensures CommonFirst(Run(es, Start(crds)).objects, n)
  {
    n := 0;
    if es != [] {
      var e, st := es[|es| - 1], Run(es[..|es| - 1], Start(crds));
      n := CommonObjectsFormAPrefix(es[..|es| - 1], crds);
      if e.Attempt? {
        n := AttemptKeepsCommon(e, st, n);
      }
    }
  }

  lemma AttemptKeepsCommon(e: Event, st: State, n: nat) returns (k: nat)
    requires e.Attempt? && CommonFirst(st.objects, n)
    ensures CommonFirst(Do(e, st).objects, k)
  {
    var t := Do(e, st).objects;
    var m := ReconcileAddsPrefix(st.remoteWrite, e.req, st.crds, e.limit, st.objects);
    CommonPart(st.crds, m);
    forall i | 0 <= i < |COMMON| ensures COMMON[i].id in t <==> COMMON[i].id in st.objects || i < m {
      assert COMMON[i] == Put(COMMON[i].id);
    }
    PrefixGrows(st.objects, t, COMMON, n, m);
    k := if m <= n then n else if m <= |COMMON| then m else |COMMON|;
  }

  // ----- the sequences of CRDs that keep the whole prefix -----

  /** The CRDs recorded by the processes of a history, in order. */
  function Recorded(es: seq<Event>, crds: Crds): (cs: seq<Crds>)
    ensures cs != [] && cs[0] == crds
  {
    if es == [] then [crds]
    else Recorded(es[..|es| - 1], crds) + if es[|es| - 1].Restart? then [es[|es| - 1].crds] else []
  }

  /** No CRD recorded earlier is missing now, and nobody saw the policy CRD before the firewall CRD that is there
      now. */
  predicate Agreeing(cs: seq<Crds>)
    requires cs != []
  {
    var c := cs[|cs| - 1];
    forall i :: 0 <= i < |cs| ==>
      && (cs[i].firewall ==> c.firewall) && (cs[i].policy ==> c.policy)
      && (cs[i].policy && !cs[i].firewall ==> !c.firewall)
  }

  /** Each egress object comes from a process that had its CRD, and the firewall came first if it had both. */
  ghost predicate EgressHistory(s: Objects, cs: seq<Crds>) {
    && (EgressFirewall in s ==> exists i :: 0 <= i < |cs| && cs[i].firewall)
    && (EgressNetworkPolicy in s ==>
      exists i :: 0 <= i < |cs| && cs[i].policy && (cs[i].firewall ==> EgressFirewall in s))
  }

  lemma {:induction false} EgressHasHistory(es: seq<Event>, crds: Crds)
    ensures var st, cs := Run(es, Start(crds)), Recorded(es, crds);
            st.crds == cs[|cs| - 1] && EgressHistory(st.objects, cs)
  {
    if es != [] {
      var e, front := es[|es| - 1], es[..|es| - 1];
      var st, cs := Run(front, Start(crds)), Recorded(front, crds);
      EgressHasHistory(front, crds);
      if e.Attempt? {
        var n := ReconcileAddsPrefix(st.remoteWrite, e.req, st.crds, e.limit, st.objects);
        AttemptKeepsHistory(st.objects, Do(e, st).objects, cs, n);
        assert cs + [] == cs;
      } else {
        MoreHistory(st.objects, cs, e.crds);
      }
    }
  }

  lemma MoreHistory(s: Objects, cs: seq<Crds>, c: Crds)
    requires EgressHistory(s, cs)
    ensures EgressHistory(s, cs + [c])
  {
    var all := cs + [c];
    if EgressFirewall in s {
      var i :| 0 <= i < |cs| && cs[i].firewall;
      assert all[i] == cs[i];
    }
    if EgressNetworkPolicy in s {
      var i :| 0 <= i < |cs| && cs[i].policy && (cs[i].firewall ==> EgressFirewall in s);
      assert all[i] == cs[i];
    }
  }

  lemma AttemptKeepsHistory(s: Objects, t: Objects, cs: seq<Crds>, n: nat)
    requires cs != [] && EgressHistory(s, cs) && n <= |Enabled(cs[|cs| - 1])|
    requires forall p :: p in t <==> p in s || Put(p) in Enabled(cs[|cs| - 1])[..n]
    ensures EgressHistory(t, cs)
  {
    CommonPart(cs[|cs| - 1], n);
    if EgressNetworkPolicy in s {
      var i :| 0 <= i < |cs| && cs[i].policy && (cs[i].firewall ==> EgressFirewall in s);
    }
  }

  lemma EgressCompletesPrefix(s: Objects, crds: Crds, n: nat)
    requires CommonFirst(s, n)
    requires EgressFirewall in s ==> crds.firewall
    requires EgressNetworkPolicy in s ==> crds.policy && (crds.firewall ==> EgressFirewall in s)
    ensures FormPrefix(s, crds)
  {
    var p := Enabled(crds);
    var m := if n < |COMMON| then n
             else if EgressNetworkPolicy in s then |p| else if EgressFirewall in s then |COMMON| + 1 else |COMMON|;
    forall i | 0 <= i < |p| ensures p[i].Put? && (p[i].id in s <==> i < m) {
      if i < |COMMON| { assert p[i] == COMMON[i]; }
    }
    forall q | q in s ensures Put(q) in p {
      if q == EgressFirewall {
        assert p[|COMMON|] == Put(q);
      } else if q == EgressNetworkPolicy {
        assert p[|p| - 1] == Put(q);
      } else {
        EverythingElseIsCommon(q);
        assert forall op :: op in COMMON ==> op in p;
      }
    }
    assert IsPrefix(s, p, m) && NoOthers(s, p);
  }

  lemma EverythingElseIsCommon(q: Managed)
    requires q != EgressFirewall && q != EgressNetworkPolicy
    ensures Put(q) in COMMON
  {
    assert COMMON[0] == Put(AlertRelabelConfigSecret) && COMMON[1] == Put(PrometheusKubeRBACConfigMap);
    assert COMMON[2] == Put(PrometheusService) && COMMON[3] == Put(Prometheus) && COMMON[4] == Put(Alertmanager);
    assert COMMON[5] == Put(AlertmanagerSecret) && COMMON[6] == Put(AlertmanagerConfig);
    assert COMMON[7] == Put(K8SMetricsServiceMonitor) && COMMON[8] == Put(PrometheusProxyNetworkPolicy);
  }

  /** Histories whose CRDs agree keep the whole prefix, whatever fails. */
  lemma ObjectsFormAPrefix(es: seq<Event>, crds: Crds)
    requires Agreeing(Recorded(es, crds))
    ensures var cs := Recorded(es, crds);
            FormPrefix(Run(es, Start(crds)).objects, cs[|cs| - 1])
  {
    var s, cs := Run(es, Start(crds)).objects, Recorded(es, crds);
    var n := CommonObjectsFormAPrefix(es, crds);
    EgressHasHistory(es, crds);
    EgressCompletesPrefix(s, cs[|cs| - 1], n);
  }

  // ----- and the others do not -----

  /** A request that every phase can serve. */
  const REQUEST: Request := Request(
    false,
    SecretData(Parsed(PagerDuty("sop", "key")), Parsed(Smtp("url", "user", "password", "from", [])), Missing),
    Surroundings(Some("image"), Some("id"), Some("html"), Some("host"), Some("host"), Some(map[CIDR_KEY := ""]), "",
      map[]))

  lemma {:induction false} FreeRun(f: Fields, at: Surroundings, phases: seq<Op<Managed>>, s: Objects)
    requires forall op :: op in phases ==> op.Put? && Wanted(f, at, op.id).Ok?
    requires forall p :: p in s ==> s[p].controller == Some(AGENT_SECRET)
    ensures Exec(PlanOf(f, at), phases, s).error.None?
  {
    if phases != [] {
      assert phases[0] in phases && forall op :: op in phases[1..] ==> op in phases;
      FreeRun(f, at, phases[1..], Step(PlanOf(f, at), phases[0], s).objects);
    }
  }

  lemma EverythingWanted(f: Fields)
    requires f == Fields(PagerDuty("sop", "key"), Smtp("url", "user", "password", "from", []), None)
    ensures forall p: Managed :: Wanted(f, REQUEST.at, p).Ok?
  {
  }

  /** One such reconcile of a fresh cluster leaves exactly the enabled objects. */
  lemma FullReconcile(remoteWrite: Option<string>, crds: Crds)
    requires remoteWrite == None
    ensures forall p :: p in Reconcile(remoteWrite, REQUEST, crds, 11, map[]).objects <==> Put(p) in Enabled(crds)
  {
    var f := Fields(PagerDuty("sop", "key"), Smtp("url", "user", "password", "from", []), None);
    assert FirstPhases(crds, 11) == Enabled(crds) && Parse(None, REQUEST.data).1 == Ok(f);
    EverythingWanted(f);
    FreeRun(f, REQUEST.at, Enabled(crds), map[]);
    var n := ExecAddsPrefix(PlanOf(f, REQUEST.at), Enabled(crds), map[]);
    assert Enabled(crds)[..n] == Enabled(crds);
  }

  function Restarts(cs: seq<Crds>): seq<Event> {
    seq(|cs|, i requires 0 <= i < |cs| => Restart(cs[i]))
  }

  lemma {:induction false} RestartsOnly(es: seq<Event>, cs: seq<Crds>, crds: Crds)
    ensures Recorded(es + Restarts(cs), crds) == Recorded(es, crds) + cs
    ensures Run(es + Restarts(cs), Start(crds)).objects == Run(es, Start(crds)).objects
    ensures cs == [] ==> es + Restarts(cs) == es
    ensures cs != [] ==> Run(es + Restarts(cs), Start(crds)).remoteWrite == None
    ensures cs != [] ==> Run(es + Restarts(cs), Start(crds)).crds == cs[|cs| - 1]
  {
    if cs == [] {
      assert es + Restarts(cs) == es && Recorded(es, crds) + cs == Recorded(es, crds);
    } else {
      var front := cs[..|cs| - 1];
      var all := es + Restarts(cs);
      assert all[..|all| - 1] == es + Restarts(front) && all[|all| - 1] == Restart(cs[|cs| - 1]);
      RestartsOnly(es, front, crds);
      assert front + [cs[|cs| - 1]] == cs;
    }
  }

  lemma OneReconcile(before: seq<Event>, crds: Crds, now: Crds) returns (es: seq<Event>)
    requires Run(before, Start(crds)) == State(map[], None, now)
    ensures Recorded(es, crds) == Recorded(before, crds)
    ensures forall p :: p in Run(es, Start(crds)).objects <==> Put(p) in Enabled(now)
  {
    es := before + [Attempt(REQUEST, 11)];
    assert es[..|es| - 1] == before && Recorded(before, crds) + [] == Recorded(before, crds);
    FullReconcile(None, now);
  }

  /** The history that lets the i-th process reconcile once, and only it. */
  lemma OnlyOneReconciles(cs: seq<Crds>, i: nat) returns (es: seq<Event>)
    requires i < |cs|
    ensures Recorded(es, cs[0]) == cs
    ensures forall p :: p in Run(es, Start(cs[0])).objects <==> Put(p) in Enabled(cs[i])
  {
    var early, late := cs[..i + 1], cs[i + 1..];
    assert early[0] == cs[0] && early[|early| - 1] == cs[i] && early + late == cs;
    var before := Waiting(early);
    var middle := OneReconcile(before, cs[0], cs[i]);
    es := Later(middle, late, cs[0]);
  }

  lemma Later(es: seq<Event>, cs: seq<Crds>, crds: Crds) returns (fs: seq<Event>)
    ensures Recorded(fs, crds) == Recorded(es, crds) + cs
    ensures Run(fs, Start(crds)).objects == Run(es, Start(crds)).objects
  {
    RestartsOnly(es, cs, crds);
    fs := es + Restarts(cs);
  }

  /** Processes that come and go without reconciling. */
  lemma Waiting(cs: seq<Crds>) returns (es: seq<Event>)
    requires cs != []
    ensures Recorded(es, cs[0]) == cs && Run(es, Start(cs[0])) == State(map[], None, cs[|cs| - 1])
  {
    RestartsOnly([], cs[1..], cs[0]);
    es := Restarts(cs[1..]);
    assert [] + es == es && [cs[0]] + cs[1..] == cs;
    assert Run([], Start(cs[0])) == Start(cs[0]) && Recorded([], cs[0]) == [cs[0]];
  }

  lemma EgressEnabled(crds: Crds)
    ensures Put(EgressFirewall) in Enabled(crds) <==> crds.firewall
    ensures Put(EgressNetworkPolicy) in Enabled(crds) <==> crds.policy
    ensures crds.firewall && crds.policy ==>
            Enabled(crds)[9] == Put(EgressFirewall) && Enabled(crds)[10] == Put(EgressNetworkPolicy)
  {
    var p := Enabled(crds);
    if crds.firewall { assert p[9] == Put(EgressFirewall); }
    if crds.policy { assert p[|p| - 1] == Put(EgressNetworkPolicy); }
  }

  /** What one process leaves is no prefix for another that disagrees with it. */
  lemma DisagreementShows(s: Objects, was: Crds, now: Crds)
    requires forall p :: p in s <==> Put(p) in Enabled(was)
    requires (was.firewall && !now.firewall) || (was.policy && !now.policy) ||
            (was.policy && !was.firewall && now.firewall)
    ensures !FormPrefix(s, now)
  {
    EgressEnabled(was);
    EgressEnabled(now);
    assert EgressFirewall in s <==> was.firewall;
    assert EgressNetworkPolicy in s <==> was.policy;
  }

  /** Main result: every history that records these CRDs in turn keeps the objects a prefix of the enabled phases if
      and only if the CRDs agree. */
  lemma PrefixKeptIff(cs: seq<Crds>)
    requires cs != []
    ensures (forall es :: Recorded(es, cs[0]) == cs ==> FormPrefix(Run(es, Start(cs[0])).objects, cs[|cs| - 1])) <==>
            Agreeing(cs)
  {
    if Agreeing(cs) {
      forall es | Recorded(es, cs[0]) == cs ensures FormPrefix(Run(es, Start(cs[0])).objects, cs[|cs| - 1]) {
        ObjectsFormAPrefix(es, cs[0]);
      }
    } else {
      var c := cs[|cs| - 1];
      var i :| 0 <= i < |cs| && !((cs[i].firewall ==> c.firewall) && (cs[i].policy ==> c.policy)
                                  && (cs[i].policy && !cs[i].firewall ==> !c.firewall));
      var es := OnlyOneReconciles(cs, i);
      DisagreementShows(Run(es, Start(cs[0])).objects, cs[i], c);
    }
  }

  // ----- what the objects refer to -----

  function RefsOf(c: Content): seq<KeyRef> {
    match c
    case Metrics(_, _, _, relabelConfig) => [relabelConfig]
    case Routing(_, serviceKey, email) => [serviceKey] + if email.Some? then [email.value.password] else []
    case _ => []
  }

  /** The reference names an existing Secret that holds its key. */
  predicate Resolves(ref: KeyRef, s: Objects) {
    ref.secret in s && s[ref.secret].content.Data? && ref.key in s[ref.secret].content.data
  }

  /** Each object holds content of its own kind, as some phase writes it. */
  predicate WellFormed(p: Managed, c: Content) {
    match p
    case AlertRelabelConfigSecret => c.Data? && RELABEL_CONFIG_KEY in c.data
    case AlertmanagerSecret =>
      c.Data? && SERVICE_KEY_KEY in c.data && AUTH_PASSWORD_KEY in c.data &&
      c.data[SERVICE_KEY_KEY] != "" && c.data[AUTH_PASSWORD_KEY] != ""
    case Prometheus => c.Metrics? && c.bearerToken != Some("") &&
      c.relabelConfig == KeyRef(AlertRelabelConfigSecret, RELABEL_CONFIG_KEY)
    case AlertmanagerConfig =>
      c.Routing? && c.sop != "" && c.serviceKey == KeyRef(AlertmanagerSecret, SERVICE_KEY_KEY) &&
      (c.email.Some? ==> c.email.value.password == KeyRef(AlertmanagerSecret, AUTH_PASSWORD_KEY) &&
                         c.email.value.to != [] && c.email.value.username != "" && c.email.value.from != "" &&
                         c.email.value.smarthost != "")
    case _ => RefsOf(c) == []
  }

  ghost predicate AllWellFormed(s: Objects) {
    forall p :: p in s ==> WellFormed(p, s[p].content)
  }

  lemma {:induction false} ExecKeepsForm(f: Fields, at: Surroundings, phases: seq<Op<Managed>>, s: Objects)
    requires AllWellFormed(s)
    ensures AllWellFormed(Exec(PlanOf(f, at), phases, s).objects)
  {
    if phases != [] {
      var first := Step(PlanOf(f, at), phases[0], s);
      if first.error.None? {
        WantedIsWellFormed(f, at, phases[0].id);
        ExecKeepsForm(f, at, phases[1..], first.objects);
      }
    }
  }

  lemma WantedIsWellFormed(f: Fields, at: Surroundings, phase: Managed)
    ensures Wanted(f, at, phase).Ok? ==> WellFormed(phase, Wanted(f, at, phase).value)
  {
    assert SERVICE_KEY_KEY != AUTH_PASSWORD_KEY;
  }

  lemma {:induction false} ObjectsAreWellFormed(es: seq<Event>, crds: Crds)
    ensures AllWellFormed(Run(es, Start(crds)).objects)
  {
    if es != [] {
      var e, st := es[|es| - 1], Run(es[..|es| - 1], Start(crds));
      ObjectsAreWellFormed(es[..|es| - 1], crds);
      if e.Attempt? && Parse(st.remoteWrite, e.req.data).1.Ok? && !e.req.deleting {
        ExecKeepsForm(Parse(st.remoteWrite, e.req.data).1.value, e.req.at, FirstPhases(st.crds, e.limit), st.objects);
      }
    }
  }

  /** Main result: in every reachable state every reference of an existing object resolves. The alertmanager
      Secret holds both its keys with non-empty values, and an existing AlertmanagerConfig or
      Prometheus names only Secrets that exist and keys that are there. */
  lemma NoDanglingReferences(es: seq<Event>, crds: Crds, p: Managed)
    requires p in Run(es, Start(crds)).objects
    ensures var s := Run(es, Start(crds)).objects;
            WellFormed(p, s[p].content) && forall ref :: ref in RefsOf(s[p].content) ==> Resolves(ref, s)
  {
    var s := Run(es, Start(crds)).objects;
    var n := CommonObjectsFormAPrefix(es, crds);
    ObjectsAreWellFormed(es, crds);
    assert COMMON[0] == Put(AlertRelabelConfigSecret) && COMMON[3] == Put(Prometheus);
    assert COMMON[5] == Put(AlertmanagerSecret) && COMMON[6] == Put(AlertmanagerConfig);
  }
}
