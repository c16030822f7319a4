/** One reconcile of the agent's config Secret (controllers/managedfusion_controller.go):
    the API calls it issues and what it does with each reply. */
module SecretMachine {
  import opened ObjectMeta
  import opened Cluster

  datatype Pc =
    | ListAll
    | DeleteNext(i: nat)     // the offering at position i of the list
    | DropFinalizer
    | DropNamespace
    | AddFinalizer
    | Install(phase: nat)

  /** `seen` is history only: how many offerings had ever been created when the list was read. */
  datatype Local =
    | Idle
    | Reading(rid: nat)
    | Working(rid: nat, pc: Pc, obj: Secret, items: seq<Item>, seen: nat)

  /** Phase order of reconcilePhases: relabel Secret, RBAC ConfigMap, Service, Prometheus, Alertmanager,
      its Secret, its config, ServiceMonitor, NetworkPolicy, and the two CRD-dependent egress objects. */
  const PHASES: nat := 11
  const EGRESS_FIREWALL_PHASE: nat := 9
  const EGRESS_NETWORK_POLICY_PHASE: nat := 10

  predicate Enabled(phase: nat, known: set<string>) {
    && (phase == EGRESS_FIREWALL_PHASE ==> EGRESS_FIREWALL_CRD in known)
    && (phase == EGRESS_NETWORK_POLICY_PHASE ==> EGRESS_NETWORK_POLICY_CRD in known)
  }

  function NextCall(l: Local): Call
    requires !l.Idle?
  {
    if l.Reading? then GetSecret
    else
      match l.pc
      case ListAll => ListOfferings
      case DeleteNext(i) => DeleteOffering(if i < |l.items| then l.items[i].key else Key("", ""))
      case DropFinalizer => UpdateSecret(l.obj.(finalizers := Without(l.obj.finalizers, FINALIZER)))
      case DropNamespace => DeleteNamespace(AGENT_NAMESPACE)
      case AddFinalizer => UpdateSecret(l.obj.(finalizers := l.obj.finalizers + [FINALIZER]))
      case Install(phase) => Ensure(AgentObject(phase))
  }

  /** Go to the next listed offering without a deletion mark; stop at the end of the list. */
  function SkipMarked(l: Local, i: nat): (m: Local)
    requires l.Working?
    ensures m.Working? ==>
              && m.pc.DeleteNext? && m == l.(pc := m.pc)
              && i <= m.pc.i < |l.items| && !l.items[m.pc.i].deleting
    ensures !m.Reading?
    decreases |l.items| - i
  {
    if i >= |l.items| then Idle
    else if l.items[i].deleting then SkipMarked(l, i + 1)
    else l.(pc := DeleteNext(i))
  }

  function EnterPhase(l: Local, phase: nat, known: set<string>): Local
    requires l.Working?
    decreases PHASES - phase
  {
    if phase >= PHASES then Idle
    else if Enabled(phase, known) then l.(pc := Install(phase))
    else EnterPhase(l, phase + 1, known)
  }

  lemma {:induction false} EnterPhaseStays(l: Local, phase: nat, known: set<string>)
    requires l.Working?
    ensures var m := EnterPhase(l, phase, known);
            m.Idle? || (m.Working? && m.pc.Install? && m == l.(pc := m.pc)
                        && phase <= m.pc.phase < PHASES && Enabled(m.pc.phase, known))
    decreases PHASES - phase
  {
    if phase < PHASES && !Enabled(phase, known) {
      EnterPhaseStays(l, phase + 1, known);
    }
  }

  function Opened(rid: nat, s: Secret, known: set<string>): Local {
    var l := Working(rid, ListAll, s, [], 0);
    if !s.parses then Idle
    else if s.deleting then l
    else if FINALIZER in s.finalizers then EnterPhase(l, 0, known)
    else l.(pc := AddFinalizer)
  }

  /** Wherever a reply leads, number and Secret stay, unless the reply brought the Secret. */
  lemma PhasesStay(l: Local, known: set<string>, r: Reply)
    requires !l.Idle?
    ensures l.Reading? && r.ASecret? ==>
              var m := Opened(l.rid, r.secret, known);
              m.Working? ==>
                m.rid == l.rid && m.obj == r.secret && (m.pc.Install? || m.pc.ListAll? || m.pc.AddFinalizer?)
    ensures l.Working? && l.pc.AddFinalizer? && r.ASecret? ==>
              var m := EnterPhase(l.(obj := r.secret), 0, known);
              m.Idle? || (m.Working? && m.pc.Install? && m == l.(obj := r.secret, pc := m.pc))
    ensures l.Working? && l.pc.Install? ==>
              var m := EnterPhase(l, l.pc.phase + 1, known);
              m.Idle? || (m.Working? && m.pc.Install? && m == l.(pc := m.pc))
  {
    if l.Reading? && r.ASecret? {
      EnterPhaseStays(Working(l.rid, ListAll, r.secret, [], 0), 0, known);
    } else if l.Working? && l.pc.AddFinalizer? && r.ASecret? {
      EnterPhaseStays(l.(obj := r.secret), 0, known);
    } else if l.Working? && l.pc.Install? {
      EnterPhaseStays(l, l.pc.phase + 1, known);
    }
  }

  /** `created` is the history count of offering creations at the time of the reply. */
  function AfterReply(l: Local, known: set<string>, r: Reply, created: nat): Local
    requires !l.Idle?
  {
    if l.Reading? then if r.ASecret? then Opened(l.rid, r.secret, known) else Idle
    else
      match l.pc
      case ListAll =>
        if !r.Listed? then Idle
        else if r.items == [] then
          l.(pc := if FINALIZER in l.obj.finalizers then DropFinalizer else DropNamespace, seen := created)
        else SkipMarked(l.(items := r.items, seen := created), 0)
      case DeleteNext(i) => SkipMarked(l, i + 1)    // a failed delete does not stop the loop
      case DropFinalizer => if r.ASecret? then l.(pc := DropNamespace, obj := r.secret) else Idle
      case DropNamespace => Idle
      case AddFinalizer => if r.ASecret? then EnterPhase(l.(obj := r.secret), 0, known) else Idle
      case Install(phase) => if r.Done? then EnterPhase(l, phase + 1, known) else Idle
  }

  predicate Teardown(pc: Pc) {
    pc.ListAll? || pc.DeleteNext? || pc.DropFinalizer? || pc.DropNamespace?
  }
}
