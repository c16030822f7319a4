/** What the agent keeps during an uninstall whatever it does, failing calls, crashes and interleaved reconciles
    included: each StorageCluster has somebody to delete it, and nothing that was settled comes undone. */
module UninstallTurns {
  import opened Cluster
  import opened Runs
  import opened StorageSafety
  import opened ConcurrencyControl
  import opened UninstallProgress
  import opened UninstallRounds
  import opened UninstallOutcomes
  import opened UninstallEnabled
  import Off = OfferingMachine
  import Sec = SecretMachine

  /** A DataFoundation offering that will delete the StorageCluster of this namespace. */
  predicate Tends(c: Cluster, key: Key) {
    && key in c.offerings && FINALIZER in c.offerings[key].finalizers
    && c.offerings[key].kind == DF && c.offerings[key].config.Config?
  }

  ghost predicate Tended(c: Cluster, ns: string) {
    exists key: Key :: Tends(c, key) && key.ns == ns
  }

  /** Nothing outside the agent is in the way for good: the CRDs are installed, and each StorageCluster is on its
      way out or tended. */
  ghost predicate Attended(c: Cluster) {
    Recorded(c.crds) && forall ns :: ns in c.storage && !c.storage[ns].deleting ==> Tended(c, ns)
  }

  /** The StorageClusters that are neither being deleted nor ready. */
  function Unready(c: Cluster): set<string> {
    set ns | ns in c.storage && !c.storage[ns].deleting && !c.storage[ns].ready
  }

  // ----- what one call does -----

  /** What a call does to storage and to those who tend it. */
  ghost predicate CallEffect(c: Cluster, d: Cluster) {
    && d.crds == c.crds && d.consumers == c.consumers
    && (forall key :: Tends(c, key) && key.ns in c.storage ==> Tends(d, key))
    && (forall ns :: ns in d.storage && !d.storage[ns].deleting ==>
          if ns in c.storage then !c.storage[ns].deleting && d.storage[ns].ready == c.storage[ns].ready
          else Tended(d, ns))
  }

  /** A reconcile in flight knows kind and config of its offering, and is in the plugin of its kind. */
  ghost predicate Current(c: Cluster, l: Off.Local) {
    l.Working? ==>
      && (l.key in c.offerings ==> c.offerings[l.key].kind == l.obj.kind && c.offerings[l.key].config == l.obj.config)
      && (l.pc.OnboardingKey? || l.pc.ReadForUpdate? || l.pc.WriteNewStorage? ==> l.obj.kind == DF)
  }

  lemma OfferingCallEffects(c: Cluster, l: Off.Local)
    requires WellFormed(c) && !l.Idle? && OfferingInv(c, l) && Current(c, l)
    ensures CallEffect(c, Serve(c, Off.NextCall(l), []).0)
  {
    if l.Working? && l.pc.WriteNewStorage? {
      CreationEffect(c, l);
    } else if l.Working? && (l.pc.DropFinalizer? || l.pc.AddFinalizer?) {
      FinalizerEffect(c, l);
    } else {
      StorageEffect(c, Off.NextCall(l));
    }
  }

  /** Dropping the finalizer presupposes that no StorageCluster needs the offering. */
  lemma FinalizerEffect(c: Cluster, l: Off.Local)
    requires WellFormed(c) && OfferingInv(c, l) && l.Working? && (l.pc.DropFinalizer? || l.pc.AddFinalizer?)
    ensures CallEffect(c, Serve(c, Off.NextCall(l), []).0)
  {
  }

  lemma StorageEffect(c: Cluster, call: Call)
    requires WellFormed(c) && !call.UpdateOffering? && !call.DeleteOffering? && !call.CreateStorage?
    ensures CallEffect(c, Serve(c, call, []).0)
  {
  }

  /** The StorageCluster it creates is tended by its offering. */
  lemma CreationEffect(c: Cluster, l: Off.Local)
    requires WellFormed(c) && OfferingInv(c, l) && Current(c, l) && l.Working? && l.pc.WriteNewStorage?
    ensures CallEffect(c, Serve(c, Off.NextCall(l), []).0)
  {
    assert Holds(c, l.key);
    assert Tends(Serve(c, Off.NextCall(l), []).0, l.key);
  }

  lemma SecretCallEffects(c: Cluster, l: Sec.Local, order: seq<Key>)
    requires WellFormed(c) && !l.Idle?
    ensures CallEffect(c, Serve(c, Sec.NextCall(l), order).0)
  {
    if l.Working? && l.pc.DeleteNext? {
      DeletionEffect(c, Sec.NextCall(l));
    }
  }

  lemma DeletionEffect(c: Cluster, call: Call)
    requires WellFormed(c) && call.DeleteOffering?
    ensures CallEffect(c, Serve(c, call, []).0)
  {
  }

  lemma EffectKeepsAttended(c: Cluster, d: Cluster)
    requires Attended(c) && CallEffect(c, d)
    ensures Attended(d)
  {
    forall ns | ns in d.storage && !d.storage[ns].deleting ensures Tended(d, ns) {
      if ns in c.storage {
        var key: Key :| Tends(c, key) && key.ns == ns;
        assert Tends(d, key);
      }
    }
  }

  /** Only a reply to the two finalizer updates brings a new copy, of the same kind and config. */
  lemma ReplyStaysCurrent(c: Cluster, l: Off.Local, known: set<string>)
    requires !l.Idle? && Current(c, l)
    ensures var (d, r) := Serve(c, Off.NextCall(l), []);
            Off.AfterReply(l, known, r).Go? ==> Current(d, Off.AfterReply(l, known, r).local)
  {
    if l.Working? && (l.pc.DropFinalizer? || l.pc.AddFinalizer?) {
      UpdateStaysCurrent(c, l, known);
    } else if l.Working? {
      assert Serve(c, Off.NextCall(l), []).0.offerings == c.offerings;
    }
  }

  lemma UpdateStaysCurrent(c: Cluster, l: Off.Local, known: set<string>)
    requires l.Working? && Current(c, l) && (l.pc.DropFinalizer? || l.pc.AddFinalizer?)
    ensures var (d, r) := Serve(c, Off.NextCall(l), []);
            Off.AfterReply(l, known, r).Go? ==> Current(d, Off.AfterReply(l, known, r).local)
  {
  }

  /** Without a reply the reconcile ends. */
  lemma FailureEnds(l: Off.Local, known: set<string>)
    requires !l.Idle?
    ensures Off.AfterReply(l, known, Failed) == Off.Go(Off.Idle)
  {
  }

  // ----- what one event does -----

  /** Nothing new, and every offering keeps its kind and config. */
  ghost predicate Settles(c: Cluster, d: Cluster) {
    NoMoreOfferings(c, d) && TouchesOnlyItsFinalizer(c, d) && d.crds == c.crds && d.consumers == c.consumers
  }

  ghost predicate SettlesStorage(c: Cluster, d: Cluster) {
    NoMoreStorage(c, d) && Unready(d) <= Unready(c)
  }

  /** The agent in the middle of an uninstall. */
  ghost predicate Engaged(w: World) {
    Inv(w) && Attended(w.cluster) && Current(w.cluster, w.off) && (w.cluster.secret.Some? ==> Winding(w.cluster))
  }

  lemma OfferingEventKeeps(w: World, fate: Fate)
    requires Inv(w) && Attended(w.cluster) && Current(w.cluster, w.off) && w.up && !w.off.Idle?
    ensures var v := StepOffering(w, fate);
            CallEffect(w.cluster, v.cluster) && Attended(v.cluster) && Current(v.cluster, v.off)
  {
    OfferingCallEffects(w.cluster, w.off);
    EffectKeepsAttended(w.cluster, Serve(w.cluster, Off.NextCall(w.off), []).0);
    if fate == Served {
      ReplyStaysCurrent(w.cluster, w.off, w.known);
    } else {
      FailureEnds(w.off, w.known);
    }
  }

  lemma SecretEventKeeps(w: World, fate: Fate, order: seq<Key>)
    requires Inv(w) && Attended(w.cluster) && Current(w.cluster, w.off) && w.up && !w.sec.Idle?
    ensures var v := StepSecret(w, fate, order);
            CallEffect(w.cluster, v.cluster) && Attended(v.cluster) && Current(v.cluster, v.off)
  {
    SecretCallEffects(w.cluster, w.sec, order);
    EffectKeepsAttended(w.cluster, Serve(w.cluster, Sec.NextCall(w.sec), order).0);
    StepTouchesOnlyItsFinalizer(w, SecretCall(fate, order));
  }

  lemma EventKeepsAttended(w: World, e: Event)
    requires Inv(w) && Attended(w.cluster) && Current(w.cluster, w.off) && AgentEvent(e)
    ensures var v := Do(w, e); CallEffect(w.cluster, v.cluster) && Attended(v.cluster) && Current(v.cluster, v.off)
  {
    if e.OfferingCall? && w.up && !w.off.Idle? {
      OfferingEventKeeps(w, e.fate);
    } else if e.SecretCall? && w.up && !w.sec.Idle? {
      SecretEventKeeps(w, e.fate, e.order);
    }
  }

  lemma EventKeepsEngaged(w: World, e: Event)
    requires Engaged(w) && AgentEvent(e)
    ensures Engaged(Do(w, e))
  {
    DoKeepsInv(w, e);
    EventKeepsAttended(w, e);
    StepShrinks(w, e);
    if AgentStep(e) && w.cluster.secret.Some? {
      CallKeepsWinding(w, e);
    }
  }

  lemma EventSettles(w: World, e: Event)
    requires Engaged(w) && AgentEvent(e)
    ensures Settles(w.cluster, Do(w, e).cluster)
  {
    EventKeepsAttended(w, e);
    StepShrinks(w, e);
    EventTouchesOnlyItsFinalizer(w, e);
  }

  lemma EventTouchesOnlyItsFinalizer(w: World, e: Event)
    requires Inv(w) && AgentEvent(e)
    ensures TouchesOnlyItsFinalizer(w.cluster, Do(w, e).cluster)
  {
    if AgentStep(e) {
      StepTouchesOnlyItsFinalizer(w, e);
    } else {
      assert Do(w, e).cluster == w.cluster;
      NothingTouched(w.cluster);
    }
  }

  lemma NothingTouched(c: Cluster)
    ensures TouchesOnlyItsFinalizer(c, c)
  {
  }

  lemma EffectSettlesStorage(c: Cluster, d: Cluster)
    requires CallEffect(c, d) && NoMoreStorage(c, d)
    ensures SettlesStorage(c, d)
  {
    forall ns | ns in Unready(d) ensures ns in Unready(c) {
      assert ns in d.storage.Keys;
    }
  }

  /** With every offering marked and no reconcile installing, storage only goes. */
  lemma EventSettlesStorage(w: World, e: Event)
    requires Engaged(w) && AgentEvent(e) && Marking(w) == 0
    ensures Marking(Do(w, e)) == 0 && SettlesStorage(w.cluster, Do(w, e).cluster)
  {
    EventKeepsAttended(w, e);
    StepShrinks(w, e);
    EffectSettlesStorage(w.cluster, Do(w, e).cluster);
  }

  // ----- what any run of the agent does -----

  lemma SettlesOn(c: Cluster, m: Cluster, d: Cluster)
    requires Settles(c, m) && Settles(m, d)
    ensures Settles(c, d)
  {
  }

  /** What the agent can reach from w. */
  ghost predicate Reached(w: World, v: World) {
    && Engaged(v) && Settles(w.cluster, v.cluster) && (v.known == w.known || v.known == w.cluster.crds)
    && (Marking(w) == 0 ==> Marking(v) == 0 && SettlesStorage(w.cluster, v.cluster))
  }

  lemma ReachedOn(w: World, m: World, e: Event)
    requires Reached(w, m) && AgentEvent(e)
    ensures Reached(w, Do(m, e))
  {
    EventKeepsEngaged(m, e);
    EventSettles(m, e);
    SettlesOn(w.cluster, m.cluster, Do(m, e).cluster);
    if Marking(w) == 0 {
      EventSettlesStorage(m, e);
    }
  }

  lemma {:induction false} AgentRunSettles(w: World, es: seq<Event>)
    requires Engaged(w) && AgentOnly(es)
    ensures Reached(w, Run(w, es))
  {
    if es != [] {
      AgentRunSettles(w, es[..|es| - 1]);
      ReachedOn(w, Run(w, es[..|es| - 1]), es[|es| - 1]);
    }
  }

  lemma OfferingRoundIsAgentRun(w: World, key: Key) returns (es: seq<Event>)
    requires Uninstalling(w)
    ensures AgentOnly(es) && OfferingRound(w, key) == Run(w, es)
    ensures var v := OfferingRound(w, key); v.up && v.off.Idle? && v.sec.Idle?
  {
    var calls := OfferingRoundIsRun(w, key);
    es := [StartOffering(key)] + calls + [Boot];
  }

  lemma SecretRoundIsAgentRun(w: World, order: seq<Key>) returns (es: seq<Event>)
    requires Uninstalling(w)
    ensures AgentOnly(es) && SecretRound(w, order) == Run(w, es)
    ensures var v := SecretRound(w, order); v.up && v.off.Idle? && v.sec.Idle?
  {
    var calls := SecretRoundIsRun(w, order);
    es := [StartSecret] + calls;
  }
}
