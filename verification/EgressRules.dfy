/** The egress rules the agent installs (controllers/managedfusion_controller.go): how the list is
    built, what it lets through, and its translation to the other policy type. */
module EgressRules {
  import opened Wrappers
  import opened Text
  import Cidrs

  const CIDR_KEY := "vpc-cidr"

  datatype Kind = Allow | Deny | Unset

  datatype Destination = Destination(cidr: string, dns: string)

  datatype Port = Port(protocol: string, number: int)

  /** A rule of an EgressFirewall. */
  datatype Rule = Rule(kind: Kind, to: Destination, ports: seq<Port>)

  /** A rule of an EgressNetworkPolicy. */
  datatype PolicyRule = PolicyRule(kind: Kind, to: Destination)

  /** Which rules some fixed traffic matches, given their destination and ports. */
  type Matcher = (Destination, seq<Port>) -> bool

  const EGRESS_TEMPLATE: seq<Rule> := [
    Rule(Allow, Destination("", "events.pagerduty.com"), []),
    Rule(Allow, Destination("", "ingest.us-south.monitoring.cloud.ibm.com"), []),
    Rule(Allow, Destination("100.64.0.0/16", ""), []),
    Rule(Deny, ANY_IPV4, [])]

  const ANY_IPV4 := Destination("0.0.0.0/0", "")

  // ----- what a list means: the first matching rule decides, no match allows -----

  function Verdict(rules: seq<Rule>, m: Matcher): Kind {
    if rules == [] then Allow
    else if m(rules[0].to, rules[0].ports) then rules[0].kind
    else Verdict(rules[1..], m)
  }

  function PolicyVerdict(rules: seq<PolicyRule>, m: Matcher): Kind {
    if rules == [] then Allow
    else if m(rules[0].to, []) then rules[0].kind
    else PolicyVerdict(rules[1..], m)
  }

  predicate Matched(rules: seq<Rule>, kind: Kind, m: Matcher) {
    exists r :: r in rules && r.kind == kind && m(r.to, r.ports)
  }

  // ----- the list that is built -----

  function OfKind(rules: seq<Rule>, kind: Kind): seq<Rule> {
    if rules == [] then []
    else
      var front := OfKind(rules[..|rules| - 1], kind);
      if rules[|rules| - 1].kind == kind then front + [rules[|rules| - 1]] else front
  }

  function CidrRules(cidrs: seq<string>): seq<Rule> {
    if cidrs == [] then [] else CidrRules(cidrs[..|cidrs| - 1]) + [AllowCidr(cidrs[|cidrs| - 1])]
  }

  function AllowCidr(cidr: string): Rule {
    Rule(Allow, Destination(cidr, ""), [])
  }

  function AllowHost(host: string): Rule {
    Rule(Allow, Destination("", host), [])
  }

  function Built(template: seq<Rule>, value: string, host: string): seq<Rule> {
    OfKind(template, Allow) + CidrRules(Cidrs.Decode(value)) + [AllowHost(host)] + OfKind(template, Deny)
  }

  /** The errors in the order the code finds them. `configMap` is None when it cannot be read, `host` when the
      endpoint does not parse. */
  function DesiredState(template: seq<Rule>, configMap: Option<map<string, string>>,
        host: Option<string>): Result<seq<Rule>> {
    if configMap.None? then Err("unable to get AWS IMDS ConfigMap")
    else if CIDR_KEY !in configMap.value then Err("unable to determine machine CIDR from AWS IMDS ConfigMap")
    else if host.None? then Err("unable to parse SMTP Endpoint url")
    else if host.value == "" then Err("cannot retrieve hostname")
    else Ok(Built(template, configMap.value[CIDR_KEY], host.value))
  }

  method SplitTemplate(template: seq<Rule>) returns (allowRules: seq<Rule>, denyRules: seq<Rule>)
    ensures allowRules == OfKind(template, Allow) && denyRules == OfKind(template, Deny)
  {
    allowRules, denyRules := [], [];
    for i := 0 to |template|
      invariant allowRules == OfKind(template[..i], Allow) && denyRules == OfKind(template[..i], Deny)
    {
      assert template[..i + 1][..i] == template[..i];
      match template[i].kind {
        case Allow => allowRules := allowRules + [template[i]];
        case Deny => denyRules := denyRules + [template[i]];
        case Unset =>
      }
    }
    assert template[..|template|] == template;
  }

  lemma {:induction false} NextField(rules: seq<Rule>, fields: seq<string>, i: nat)
    requires i < |fields|
    ensures var before := rules + CidrRules(NonEmpty(fields[..i]));
            rules + CidrRules(NonEmpty(fields[..i + 1])) ==
            if fields[i] == "" then before else before + [AllowCidr(fields[i])]
  {
    var before := NonEmpty(fields[..i]);
    assert fields[..i + 1] == fields[..i] + [fields[i]];
    NonEmptySnoc(fields[..i], fields[i]);
    if fields[i] == "" {
      assert before + [] == before;
    } else {
      assert (before + [fields[i]])[..|before|] == before;
    }
  }

  method AppendCidrs(allowRules: seq<Rule>, value: string) returns (r: seq<Rule>)
    ensures r == allowRules + CidrRules(Cidrs.Decode(value))
  {
    r := allowRules;
    var cidrList := Split(value, ';');
    for i := 0 to |cidrList|
      invariant r == allowRules + CidrRules(NonEmpty(cidrList[..i]))
    {
      NextField(allowRules, cidrList, i);
      if cidrList[i] == "" {
        continue;
      }
      r := r + [AllowCidr(cidrList[i])];
    }
    assert cidrList[..|cidrList|] == cidrList;
  }

  method GetEgressFirewallDesiredState(template: seq<Rule>, configMap: Option<map<string, string>>,
        host: Option<string>)
    returns (r: Result<seq<Rule>>)
    ensures r == DesiredState(template, configMap, host)
    ensures r.Ok? <==> configMap.Some? && "vpc-cidr" in configMap.value && host.Some? && host.value != ""
    ensures r.Ok? ==> MeansAllowed(template, configMap.value["vpc-cidr"], host.value, r.value)
  {
    DesiredStateMeans(template, configMap, host);
    var allowRules, denyRules := SplitTemplate(template);
    if configMap.None? {
      return Err("unable to get AWS IMDS ConfigMap");
    }
    if CIDR_KEY !in configMap.value {
      return Err("unable to determine machine CIDR from AWS IMDS ConfigMap");
    }
    allowRules := AppendCidrs(allowRules, configMap.value[CIDR_KEY]);
    if host.None? {
      return Err("unable to parse SMTP Endpoint url");
    }
    if host.value == "" {
      return Err("cannot retrieve hostname");
    }
    allowRules := allowRules + [AllowHost(host.value)];
    return Ok(allowRules + denyRules);
  }

  lemma {:induction false} OfKindIsFilter(rules: seq<Rule>, kind: Kind, r: Rule)
    ensures r in OfKind(rules, kind) <==> r in rules && r.kind == kind
  {
    if rules != [] {
      var front := rules[..|rules| - 1];
      assert rules == front + [rules[|rules| - 1]];
      OfKindIsFilter(front, kind, r);
    }
  }

  lemma {:induction false} CidrRulesAre(cidrs: seq<string>, r: Rule)
    ensures r in CidrRules(cidrs) <==> exists cidr :: cidr in cidrs && r == AllowCidr(cidr)
  {
    if cidrs != [] {
      var front := cidrs[..|cidrs| - 1];
      assert cidrs == front + [cidrs[|cidrs| - 1]];
      CidrRulesAre(front, r);
    }
  }

  lemma {:induction false} AllowsFirst(allows: seq<Rule>, denies: seq<Rule>, m: Matcher)
    requires forall r :: r in allows ==> r.kind == Allow
    requires forall r :: r in denies ==> r.kind == Deny
    ensures Verdict(allows + denies, m) ==
            if Matched(allows, Allow, m) || !Matched(denies, Deny, m) then Allow else Deny
  {
    if allows != [] {
      assert (allows + denies)[1..] == allows[1..] + denies;
      AllowsFirst(allows[1..], denies, m);
      assert allows == [allows[0]] + allows[1..];
    } else {
      assert allows + denies == denies;
      OnlyDenies(denies, m);
    }
  }

  lemma {:induction false} OnlyDenies(denies: seq<Rule>, m: Matcher)
    requires forall r :: r in denies ==> r.kind == Deny
    ensures Verdict(denies, m) == if Matched(denies, Deny, m) then Deny else Allow
  {
    if denies != [] {
      OnlyDenies(denies[1..], m);
      assert denies == [denies[0]] + denies[1..];
    }
  }

  /** Some allow rule of the inputs matches. */
  ghost predicate Allowed(template: seq<Rule>, value: string, host: string, m: Matcher) {
    || Matched(template, Allow, m)
    || (exists cidr :: cidr in Cidrs.Decode(value) && m(Destination(cidr, ""), []))
    || m(Destination("", host), [])
  }

  /** Main result: the built list allows traffic exactly when some allow rule matches it, from the template, the
      CIDRs or the SMTP host, or no deny rule does. Rules of neither type play no part. */
  lemma BuiltMeaning(template: seq<Rule>, value: string, host: string, m: Matcher)
    ensures Verdict(Built(template, value, host), m) ==
            if Allowed(template, value, host, m) || !Matched(template, Deny, m) then Allow else Deny
  {
    var cidrs := CidrRules(Cidrs.Decode(value));
    var allows := OfKind(template, Allow) + cidrs + [AllowHost(host)];
    var denies := OfKind(template, Deny);
    forall r ensures r in allows <==> (r in template && r.kind == Allow) || r in cidrs || r == AllowHost(host) {
      OfKindIsFilter(template, Allow, r);
    }
    forall r ensures r in denies <==> r in template && r.kind == Deny {
      OfKindIsFilter(template, Deny, r);
    }
    forall r ensures r in cidrs <==> exists cidr :: cidr in Cidrs.Decode(value) && r == AllowCidr(cidr) {
      CidrRulesAre(Cidrs.Decode(value), r);
    }
    AllowsFirst(allows, denies, m);
    if Allowed(template, value, host, m) {
      AllowedMatches(template, value, host, m, allows, cidrs);
    }
  }

  lemma AllowedMatches(template: seq<Rule>, value: string, host: string, m: Matcher, allows: seq<Rule>,
        cidrs: seq<Rule>)
    requires Allowed(template, value, host, m)
    requires forall r :: r in allows <==> (r in template && r.kind == Allow) || r in cidrs || r == AllowHost(host)
    requires forall r :: r in cidrs <==> exists cidr :: cidr in Cidrs.Decode(value) && r == AllowCidr(cidr)
    ensures Matched(allows, Allow, m)
  {
    if Matched(template, Allow, m) {
    } else if m(Destination("", host), []) {
      assert AllowHost(host) in allows;
    } else {
      var cidr :| cidr in Cidrs.Decode(value) && m(Destination(cidr, ""), []);
      assert AllowCidr(cidr) in cidrs;
    }
  }

  /** These rules let through exactly what an allow rule of the template, a CIDR of the value or the host allows, or no
      deny rule of the template forbids. */
  ghost predicate MeansAllowed(template: seq<Rule>, value: string, host: string, rules: seq<Rule>) {
    forall m: Matcher ::
      Verdict(rules, m) == if Allowed(template, value, host, m) || !Matched(template, Deny, m) then Allow else Deny
  }

  /** Main result: there is a list exactly when the CIDR entry is there and the SMTP endpoint names a host, and the
      list means what that entry and that host say. */
  lemma DesiredStateMeans(template: seq<Rule>, configMap: Option<map<string, string>>, host: Option<string>)
    ensures var r := DesiredState(template, configMap, host);
            && (r.Ok? <==> configMap.Some? && "vpc-cidr" in configMap.value && host.Some? && host.value != "")
            && (r.Ok? ==> MeansAllowed(template, configMap.value["vpc-cidr"], host.value, r.value))
  {
    var r := DesiredState(template, configMap, host);
    if r.Ok? {
      forall m: Matcher
        ensures Verdict(r.value, m) ==
                if Allowed(template, configMap.value["vpc-cidr"], host.value, m) || !Matched(template, Deny, m)
                then Allow else Deny
      {
        BuiltMeaning(template, configMap.value["vpc-cidr"], host.value, m);
      }
    }
  }

  /** The order of the template rules and of the CIDRs does not matter, nor does repetition. */
  lemma OrderDoesNotMatter(t1: seq<Rule>, v1: string, t2: seq<Rule>, v2: string, host: string, m: Matcher)
    requires forall r :: r in t1 <==> r in t2
    requires forall cidr :: cidr in Cidrs.Decode(v1) <==> cidr in Cidrs.Decode(v2)
    ensures Verdict(Built(t1, v1, host), m) == Verdict(Built(t2, v2, host), m)
  {
    BuiltMeaning(t1, v1, host, m);
    BuiltMeaning(t2, v2, host, m);
  }

  /** With the agent's own template, an IPv4 destination passes only if it is one of the two known
      hosts, in the fixed range, in a CIDR of the VPC, or the SMTP host. */
  lemma TemplateDeniesTheRest(value: string, host: string, m: Matcher)
    requires m(ANY_IPV4, [])
    ensures Verdict(Built(EGRESS_TEMPLATE, value, host), m) == Allow <==>
              (|| m(Destination("", "events.pagerduty.com"), [])
               || m(Destination("", "ingest.us-south.monitoring.cloud.ibm.com"), [])
               || m(Destination("100.64.0.0/16", ""), [])
               || (exists cidr :: cidr in Cidrs.Decode(value) && m(Destination(cidr, ""), []))
               || m(Destination("", host), []))
  {
    BuiltMeaning(EGRESS_TEMPLATE, value, host, m);
    TemplateMatches(m);
  }

  lemma TemplateMatches(m: Matcher)
    ensures Matched(EGRESS_TEMPLATE, Allow, m) <==>
              || m(Destination("", "events.pagerduty.com"), [])
              || m(Destination("", "ingest.us-south.monitoring.cloud.ibm.com"), [])
              || m(Destination("100.64.0.0/16", ""), [])
    ensures Matched(EGRESS_TEMPLATE, Deny, m) <==> m(Destination("0.0.0.0/0", ""), [])
  {
    assert EGRESS_TEMPLATE[0] in EGRESS_TEMPLATE && EGRESS_TEMPLATE[1] in EGRESS_TEMPLATE;
    assert EGRESS_TEMPLATE[2] in EGRESS_TEMPLATE && EGRESS_TEMPLATE[3] in EGRESS_TEMPLATE;
  }

  /** End to end: for a metadata body without semicolons the CIDRs are its non-empty lines. */
  lemma LinesAreAllowed(template: seq<Rule>, body: string, host: string, m: Matcher, line: string)
    requires ';' !in body && line in Split(body, '\n') && line != "" && m(Destination(line, ""), [])
    ensures Verdict(Built(template, Cidrs.Encode(body), host), m) == Allow
  {
    Cidrs.DecodeEncodeIsLines(body);
    NonEmptyIsFilter(Split(body, '\n'), line);
    BuiltMeaning(template, Cidrs.Encode(body), host, m);
  }

  // ----- translation to an EgressNetworkPolicy -----

  function Translate(r: Rule): PolicyRule {
    PolicyRule(r.kind, r.to)
  }

  ghost predicate IsTranslation(rules: seq<Rule>, policy: seq<PolicyRule>) {
    |policy| == |rules| && forall i :: 0 <= i < |rules| ==> policy[i] == Translate(rules[i])
  }

  function TranslateAll(rules: seq<Rule>): (policy: seq<PolicyRule>)
    ensures IsTranslation(rules, policy)
  {
    seq(|rules|, i requires 0 <= i < |rules| => Translate(rules[i]))
  }

  method ToEgressNetworkPolicy(rules: seq<Rule>) returns (policy: seq<PolicyRule>)
    ensures IsTranslation(rules, policy)
  {
    policy := [];
    for i := 0 to |rules|
      invariant |policy| == i && forall j :: 0 <= j < i ==> policy[j] == Translate(rules[j])
    {
      var kind := Unset;
      match rules[i].kind {
        case Allow => kind := Allow;
        case Deny => kind := Deny;
        case Unset =>
      }
      policy := policy + [PolicyRule(kind, Destination(rules[i].to.cidr, rules[i].to.dns))];
    }
  }

  ghost predicate PortFree(rules: seq<Rule>) {
    forall r :: r in rules ==> r.ports == []
  }

  /** Rule by rule, a policy means what the port-free firewall it came from means. */
  lemma TranslationKeepsMeaning(rules: seq<Rule>, policy: seq<PolicyRule>, m: Matcher)
    requires IsTranslation(rules, policy) && PortFree(rules)
    ensures PolicyVerdict(policy, m) == Verdict(rules, m)
  {
    assert forall i :: 0 <= i < |rules| ==> rules[i] in rules;
    HarmlessPortsKeepMeaning(rules, policy, m);
  }

  /** Main result: from a port-free template, every list the agent builds keeps its meaning when it
      is translated, for all traffic. */
  lemma BuiltTranslatesFaithfully(template: seq<Rule>, value: string, host: string, policy: seq<PolicyRule>, m: Matcher)
    requires PortFree(template) && IsTranslation(Built(template, value, host), policy)
    ensures PolicyVerdict(policy, m) ==
            if Allowed(template, value, host, m) || !Matched(template, Deny, m) then Allow else Deny
  {
    var rules := Built(template, value, host);
    forall r | r in rules ensures r.ports == [] {
      OfKindIsFilter(template, Allow, r);
      OfKindIsFilter(template, Deny, r);
      CidrRulesAre(Cidrs.Decode(value), r);
    }
    TranslationKeepsMeaning(rules, policy, m);
    BuiltMeaning(template, value, host, m);
  }

  // ----- with ports -----

  /** No earlier rule is about the same destination and ports. */
  predicate Live(rules: seq<Rule>, j: nat)
    requires j < |rules|
  {
    forall k :: 0 <= k < j ==> !(rules[k].to == rules[j].to && rules[k].ports == rules[j].ports)
  }

  /** From the first rule with ports on, every live rule allows. */
  predicate PortsDoNoHarm(rules: seq<Rule>) {
    forall i, j :: 0 <= i <= j < |rules| && rules[i].ports != [] && Live(rules, j) ==> rules[j].kind == Allow
  }

  lemma {:induction false} FirstMatch(rules: seq<Rule>, m: Matcher) returns (f: nat)
    ensures f <= |rules| && forall k :: 0 <= k < f ==> !m(rules[k].to, rules[k].ports)
    ensures f < |rules| ==> m(rules[f].to, rules[f].ports) && Live(rules, f) && Verdict(rules, m) == rules[f].kind
    ensures f == |rules| ==> Verdict(rules, m) == Allow
  {
    f := 0;
    if rules != [] && !m(rules[0].to, rules[0].ports) {
      f := FirstMatch(rules[1..], m);
      f := f + 1;
      assert forall k :: 0 < k < |rules| ==> rules[k] == rules[1..][k - 1];
    }
  }

  lemma {:induction false} FirstPolicyMatch(policy: seq<PolicyRule>, m: Matcher) returns (g: nat)
    ensures g <= |policy| && forall k :: 0 <= k < g ==> !m(policy[k].to, [])
    ensures g < |policy| ==> m(policy[g].to, []) && PolicyVerdict(policy, m) == policy[g].kind
    ensures g == |policy| ==> PolicyVerdict(policy, m) == Allow
  {
    g := 0;
    if policy != [] && !m(policy[0].to, []) {
      g := FirstPolicyMatch(policy[1..], m);
      g := g + 1;
      assert forall k :: 0 < k < |policy| ==> policy[k] == policy[1..][k - 1];
    }
  }

  /** With the condition both lists decide alike: either before any port is looked at, or both allow. */
  lemma HarmlessPortsKeepMeaning(rules: seq<Rule>, policy: seq<PolicyRule>, m: Matcher)
    requires IsTranslation(rules, policy) && PortsDoNoHarm(rules)
    ensures PolicyVerdict(policy, m) == Verdict(rules, m)
  {
    var f := FirstMatch(rules, m);
    var g := FirstPolicyMatch(policy, m);
    assert forall k :: 0 <= k < |rules| ==> policy[k] == Translate(rules[k]);
    if i :| 0 <= i < |rules| && i <= f && i <= g && rules[i].ports != [] {
      assert g < |rules| ==> Live(rules, g);
    } else {
      assert f == g;
    }
  }

  /** Without it some traffic tells them apart. */
  lemma HarmShows(rules: seq<Rule>, policy: seq<PolicyRule>, i: nat, j: nat) returns (m: Matcher)
    requires IsTranslation(rules, policy) && i <= j < |rules|
    requires rules[i].ports != [] && Live(rules, j) && rules[j].kind != Allow
    ensures PolicyVerdict(policy, m) != Verdict(rules, m)
  {
    var one: Matcher := (to, ports) => to == rules[j].to && ports == rules[j].ports;
    var f := FirstMatch(rules, one);
    var g := FirstPolicyMatch(policy, one);
    assert f == j;
    m := one;
    if rules[j].ports == [] && PolicyVerdict(policy, one) == rules[j].kind {
      m := (to, ports) => one(to, ports) || (to == rules[i].to && ports == rules[i].ports);
      f := FirstMatch(rules, m);
      var h := FirstPolicyMatch(policy, m);
      assert f <= i && h == g;
      if rules[f].kind == rules[j].kind {
        m := HarmOfOne(rules, policy, f);
      }
    }
  }

  /** A live rule with ports that does not allow becomes one for all ports. */
  lemma HarmOfOne(rules: seq<Rule>, policy: seq<PolicyRule>, j: nat) returns (m: Matcher)
    requires IsTranslation(rules, policy) && j < |rules|
    requires rules[j].ports != [] && Live(rules, j) && rules[j].kind != Allow
    ensures PolicyVerdict(policy, m) != Verdict(rules, m)
  {
    m := (to, ports) => to == rules[j].to && ports == rules[j].ports;
    var f := FirstMatch(rules, m);
    var g := FirstPolicyMatch(policy, m);
    assert f == j;
  }

  /** Main result: the translation drops the ports, and keeps the meaning for all traffic exactly when from the first
      rule with ports on every live rule allows. */
  lemma TranslationIff(rules: seq<Rule>, policy: seq<PolicyRule>)
    requires IsTranslation(rules, policy)
    ensures (forall m: Matcher :: PolicyVerdict(policy, m) == Verdict(rules, m)) <==> PortsDoNoHarm(rules)
  {
    if PortsDoNoHarm(rules) {
      forall m: Matcher ensures PolicyVerdict(policy, m) == Verdict(rules, m) {
        HarmlessPortsKeepMeaning(rules, policy, m);
      }
    } else {
      var i, j :| 0 <= i <= j < |rules| && rules[i].ports != [] && Live(rules, j) && rules[j].kind != Allow;
      var m := HarmShows(rules, policy, i, j);
    }
  }
}
