/** CRDs installed after the agent started: no gated phase runs before its CRDs are recorded, and the
    agent exits for a missing watch at most once per installation of a gated CRD. */
module Restarts {
  import opened Cluster
  import opened Runs
  import opened Sets
  import Off = OfferingMachine
  import Sec = SecretMachine

  /** Past the gates. */
  predicate InPlugin(pc: Off.Pc) {
    Off.Gated(pc) || pc.ReadForDelete? || pc.CheckConsumers? || pc.ReadForUpdate?
  }

  predicate Recorded(kind: Kind, known: set<string>) {
    Off.Gates(kind)[0] in known && Off.Gates(kind)[1] in known
  }

  ghost predicate GateInv(l: Off.Local, known: set<string>) {
    l.Working? ==>
      && (InPlugin(l.pc) ==> Recorded(l.obj.kind, known))
      && (l.pc.Gate? ==> Off.NthGate(l.obj.kind, l.pc.crd) !in known)
  }

  /** Gated CRDs that are installed and not recorded. */
  function Pending(w: World): set<string> {
    GATED * w.cluster.crds - w.known
  }

  ghost predicate RestartInv(w: World) {
    && (!w.up ==> w.off.Idle? && w.sec.Idle?)
    && GateInv(w.off, w.known)
    && w.exits + (if w.up then |Pending(w)| else 0) <= w.installs
  }

  lemma GateMoves(l: Off.Local, known: set<string>, r: Reply)
    requires !l.Idle? && GateInv(l, known)
    ensures var next := Off.AfterReply(l, known, r);
            && (next.Go? ==> GateInv(next.local, known))
            && (next.Exit? ==> l.Working? && l.pc.Gate? && r.Done?)
  {
  }

  lemma OtherCallsKeepCrds(c: Cluster, call: Call, fate: Fate, order: seq<Key>)
    ensures var (d, r) := Deliver(c, call, fate, order);
            d.crds == c.crds && (call.GetCrd? && r.Done? ==> call.name in c.crds)
  {
  }

  lemma SmallerSet(a: set<string>, b: set<string>, x: string)
    requires b <= a + {x}
    ensures |b| <= |a| + (if x in b - a then 1 else 0)
  {
    if x in b {
      SubsetSize(b - {x}, a);
      if x in a { SubsetSize(b, a); }
    } else {
      SubsetSize(b, a);
    }
  }

  lemma OfferingKeepsRestarts(w: World, fate: Fate)
    requires RestartInv(w) && w.up && !w.off.Idle?
    ensures RestartInv(StepOffering(w, fate))
  {
    var call := Off.NextCall(w.off);
    var r := Deliver(w.cluster, call, fate, []).1;
    OtherCallsKeepCrds(w.cluster, call, fate, []);
    GateMoves(w.off, w.known, r);
    var v := StepOffering(w, fate);
    if Off.AfterReply(w.off, w.known, r).Exit? {
      var crd := Off.NthGate(w.off.obj.kind, w.off.pc.crd);
      assert crd in Pending(w);
      assert |Pending(w)| >= 1;
    } else {
      assert Pending(v) == Pending(w);
    }
  }

  lemma EnvironmentKeepsRestarts(w: World, a: Action)
    requires RestartInv(w)
    ensures RestartInv(StepEnvironment(w, a))
  {
    var v := StepEnvironment(w, a);
    if a.InstallCrd? {
      SmallerSet(Pending(w), Pending(v), a.name);
    } else {
      SubsetSize(Pending(v), Pending(w));
    }
  }

  lemma DoKeepsRestarts(w: World, e: Event)
    requires RestartInv(w)
    ensures RestartInv(Do(w, e))
  {
    match e
    case OfferingCall(fate) => if w.up && !w.off.Idle? { OfferingKeepsRestarts(w, fate); }
    case SecretCall(fate, order) =>
      if w.up && !w.sec.Idle? { OtherCallsKeepCrds(w.cluster, Sec.NextCall(w.sec), fate, order); }
    case Environment(a) => EnvironmentKeepsRestarts(w, a);
    case Boot => assert Pending(Do(w, e)) == {} || w.up;
    case _ =>
  }

  lemma {:induction false} RunKeepsRestarts(es: seq<Event>)
    ensures RestartInv(Run(Start(), es))
  {
    if es == [] {
      assert Pending(Start()) == {};
    } else {
      RunKeepsRestarts(es[..|es| - 1]);
      DoKeepsRestarts(Run(Start(), es[..|es| - 1]), es[|es| - 1]);
    }
  }

  /** Main result: however often CRDs come and go and the process dies, the missing-watch exits
      are at most as many as the installations of gated CRDs. */
  lemma ExitsAreBounded(es: seq<Event>)
    ensures Run(Start(), es).exits <= Run(Start(), es).installs
  {
    RunKeepsRestarts(es);
  }

  /** Whenever the next call of an offering reconcile is a gated one, both CRDs of its kind were
      recorded when the process started. */
  lemma GatedCallsAreRecorded(es: seq<Event>)
    ensures var w := Run(Start(), es);
            w.off.Working? && Off.Gated(w.off.pc) ==>
              forall crd :: crd in Off.Gates(w.off.obj.kind) ==> crd in w.known
  {
    RunKeepsRestarts(es);
  }
}
