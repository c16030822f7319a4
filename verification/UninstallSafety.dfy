/** When the agent lets go of its config Secret and of its own namespace, no offering and no
    StorageCluster is left, provided nobody creates offerings during the uninstall. */
module UninstallSafety {
  import opened Wrappers
  import opened Cluster
  import opened Runs
  import opened StorageSafety
  import Off = OfferingMachine
  import Sec = SecretMachine

  /** The Secret reconcile has read an empty list and is about to let go. */
  predicate LettingGo(l: Sec.Local) {
    l.Working? && (l.pc.DropFinalizer? || l.pc.DropNamespace?)
  }

  /** While nothing was created since the list was read, there is still nothing. */
  ghost predicate WindowInv(w: World) {
    LettingGo(w.sec) ==>
      w.sec.seen <= w.created && (w.created == w.sec.seen ==> w.cluster.offerings == map[])
  }

  ghost predicate ClosingInv(w: World) {
    && (w.cluster.secret.Some? && w.cluster.secret.value.deleting ==> w.closing)
    && (w.sec.Working? && w.sec.obj.deleting ==> w.closing)
  }

  /** No offering is created once the Secret has been marked for deletion. */
  ghost predicate Quiet(es: seq<Event>) {
    es != [] ==>
      && Quiet(es[..|es| - 1])
      && (es[|es| - 1].Environment? && es[|es| - 1].action.CreateOffering? ==> !Run(Start(), es[..|es| - 1]).closing)
  }

  lemma NothingFromNothing(c: Cluster, call: Call, fate: Fate, order: seq<Key>)
    requires c.offerings == map[]
    ensures Deliver(c, call, fate, order).0.offerings == map[]
    ensures var r := Deliver(c, call, fate, order).1; r.Listed? ==> r.items == []
  {
    if order != [] {
      assert order[0] in (set key | key in order);
    }
  }

  lemma EmptyListMeansNone(c: Cluster, call: Call, fate: Fate, order: seq<Key>)
    requires call.ListOfferings?
    ensures var (d, r) := Deliver(c, call, fate, order); d == c && (r.Listed? && r.items == [] ==> c.offerings == map[])
  {
    if Enumerates(c, order) {
      if order == [] {
        assert c.offerings.Keys == {};
      } else {
        assert order[0] in (set key | key in order);
      }
    }
  }

  lemma SecretKeepsWindow(w: World, fate: Fate, order: seq<Key>)
    requires Inv(w) && WindowInv(w) && w.up && !w.sec.Idle?
    ensures WindowInv(StepSecret(w, fate, order))
  {
    var call := Sec.NextCall(w.sec);
    if w.cluster.offerings == map[] { NothingFromNothing(w.cluster, call, fate, order); }
    if call.ListOfferings? { EmptyListMeansNone(w.cluster, call, fate, order); }
    SecretShape(w.cluster, w.sec, w.known, call, fate, order, w.created);
  }

  /** Where the Secret reconcile can go from where it is. */
  lemma SecretShape(c: Cluster, l: Sec.Local, known: set<string>, call: Call, fate: Fate, order: seq<Key>, created: nat)
    requires !l.Idle? && call == Sec.NextCall(l)
    ensures var r := Deliver(c, call, fate, order).1;
            var m := Sec.AfterReply(l, known, r, created);
            && (LettingGo(m) ==>
                  || (LettingGo(l) && m.seen == l.seen)
                  || (l.Working? && l.pc.ListAll? && r.Listed? && r.items == [] && m.seen == created))
            && (m.Working? && m.obj.deleting ==>
                  (l.Working? && l.obj.deleting) || (c.secret.Some? && c.secret.value.deleting))
            && (m.Working? ==> m.rid == l.rid)
  {
    Sec.PhasesStay(l, known, Deliver(c, call, fate, order).1);
  }

  lemma EnvironmentKeepsWindow(w: World, a: Action)
    requires WindowInv(w) && ClosingInv(w)
    ensures WindowInv(StepEnvironment(w, a)) && ClosingInv(StepEnvironment(w, a))
  {
  }

  lemma DoKeepsWindow(w: World, e: Event)
    requires Inv(w) && WindowInv(w) && ClosingInv(w)
    ensures WindowInv(Do(w, e)) && ClosingInv(Do(w, e))
  {
    match e
    case OfferingCall(fate) =>
      if w.up && !w.off.Idle? {
        OtherCallsKeepSecret(w.cluster, Off.NextCall(w.off), fate, []);
        if w.cluster.offerings == map[] {
          NothingFromNothing(w.cluster, Off.NextCall(w.off), fate, []);
        }
      }
    case Environment(a) => EnvironmentKeepsWindow(w, a);
    case SecretCall(fate, order) =>
      if w.up && !w.sec.Idle? {
        SecretKeepsWindow(w, fate, order);
        SecretShape(w.cluster, w.sec, w.known, Sec.NextCall(w.sec), fate, order, w.created);
      }
    case _ =>
  }

  lemma {:induction false} RunKeepsWindow(es: seq<Event>)
    ensures var w := Run(Start(), es); Inv(w) && WindowInv(w) && ClosingInv(w)
  {
    ReachableInv(es);
    if es != [] {
      ReachableInv(es[..|es| - 1]);
      RunKeepsWindow(es[..|es| - 1]);
      DoKeepsWindow(Run(Start(), es[..|es| - 1]), es[|es| - 1]);
    }
  }

  /** In a quiet run nothing is created between the list and the letting go. */
  lemma {:induction false} QuietWindow(es: seq<Event>)
    requires Quiet(es)
    ensures var w := Run(Start(), es); LettingGo(w.sec) ==> w.created == w.sec.seen
  {
    if es != [] {
      var front, e := es[..|es| - 1], es[|es| - 1];
      var w := Run(Start(), front);
      QuietWindow(front);
      RunKeepsWindow(front);
      if e.SecretCall? && w.up && !w.sec.Idle? {
        SecretShape(w.cluster, w.sec, w.known, Sec.NextCall(w.sec), e.fate, e.order, w.created);
      }
    }
  }

  ghost predicate SecretHeld(c: Cluster) {
    c.secret.Some? && FINALIZER in c.secret.value.finalizers
  }

  /** An event after which the agent's finalizer is no longer on a Secret that carried it. */
  ghost predicate Releases(w: World, e: Event) {
    SecretHeld(w.cluster) && !SecretHeld(Do(w, e).cluster)
  }

  // ----- main results -----

  /** Whoever else does what: the finalizer leaves the Secret only in a Secret reconcile that has read an
      empty list, and unless an offering was created since that list, nothing is left. */
  lemma ReleaseIsSafeWithinItsWindow(es: seq<Event>, e: Event)
    requires Releases(Run(Start(), es), e)
    ensures var w := Run(Start(), es);
            && e.SecretCall? && LettingGo(w.sec) && w.sec.pc.DropFinalizer?
            && (w.created == w.sec.seen ==> w.cluster.offerings == map[] && w.cluster.storage == map[])
  {
    var w := Run(Start(), es);
    RunKeepsWindow(es);
    OnlyDropReleases(w, e);
    if w.created == w.sec.seen {
      NoOfferingNoStorage(w.cluster);
    }
  }

  lemma OnlyDropReleases(w: World, e: Event)
    requires Inv(w) && Releases(w, e)
    ensures e.SecretCall? && w.up && LettingGo(w.sec) && w.sec.pc.DropFinalizer?
  {
    if e.OfferingCall? && w.up && !w.off.Idle? {
      OtherCallsKeepSecret(w.cluster, Off.NextCall(w.off), e.fate, []);
    } else if e.SecretCall? && w.up && !w.sec.Idle? && !Sec.NextCall(w.sec).UpdateSecret? {
      OtherCallsKeepSecret(w.cluster, Sec.NextCall(w.sec), e.fate, e.order);
    }
  }

  lemma OtherCallsKeepSecret(c: Cluster, call: Call, fate: Fate, order: seq<Key>)
    requires !call.UpdateSecret?
    ensures Deliver(c, call, fate, order).0.secret == c.secret
  {
  }

  lemma NoOfferingNoStorage(c: Cluster)
    requires Covered(c) && c.offerings == map[]
    ensures c.storage == map[]
  {
    assert forall ns :: !Held(c, ns);
    assert c.storage.Keys == {};
  }

  /** With no offering created once the Secret is deleting, no offering and no StorageCluster
      exists when the Secret's finalizer goes, nor afterwards. */
  lemma QuietReleaseLeavesNothing(es: seq<Event>, e: Event)
    requires Quiet(es + [e]) && Releases(Run(Start(), es), e)
    ensures Run(Start(), es).cluster.offerings == map[] && Run(Start(), es).cluster.storage == map[]
    ensures Do(Run(Start(), es), e).cluster.offerings == map[] && Do(Run(Start(), es), e).cluster.storage == map[]
  {
    assert (es + [e])[..|es|] == es;
    ReleaseIsSafeWithinItsWindow(es, e);
    QuietWindow(es);
  }

  /** The same when the agent deletes its own namespace. */
  lemma QuietNamespaceDeletion(es: seq<Event>)
    requires Quiet(es)
    ensures var w := Run(Start(), es);
            (!w.sec.Idle? && Sec.NextCall(w.sec) == DeleteNamespace(AGENT_NAMESPACE) ==>
               w.cluster.offerings == map[] && w.cluster.storage == map[])
  {
    var w := Run(Start(), es);
    RunKeepsWindow(es);
    QuietWindow(es);
    if LettingGo(w.sec) {
      NoOfferingNoStorage(w.cluster);
    }
  }
}
