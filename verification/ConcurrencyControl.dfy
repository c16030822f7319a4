/** What resourceVersions buy: in every run the agent's writes change only what they are meant
    to change, however the others interleave. */
module ConcurrencyControl {
  import opened ObjectMeta
  import opened Cluster
  import opened Runs
  import opened StorageSafety
  import DeviceSets
  import Off = OfferingMachine
  import Sec = SecretMachine

  predicate AgentStep(e: Event) {
    e.OfferingCall? || e.SecretCall?
  }

  /** An agent call leaves every offering as it was, up to the agent's own finalizer, the
      version and the deletion mark; it creates none, takes no mark off, and makes one vanish only if nobody
      else's finalizer is on it. */
  ghost predicate TouchesOnlyItsFinalizer(c: Cluster, d: Cluster) {
    && (forall key :: key in d.offerings ==>
          && key in c.offerings
          && d.offerings[key].kind == c.offerings[key].kind
          && d.offerings[key].config == c.offerings[key].config
          && (c.offerings[key].deleting ==> d.offerings[key].deleting)
          && Without(d.offerings[key].finalizers, FINALIZER) == Without(c.offerings[key].finalizers, FINALIZER))
    && (forall key :: key in c.offerings && key !in d.offerings ==>
          Without(c.offerings[key].finalizers, FINALIZER) == [])
  }

  lemma OtherCallsTouchNothing(c: Cluster, call: Call, fate: Fate, order: seq<Key>)
    requires !call.UpdateOffering?
    ensures TouchesOnlyItsFinalizer(c, Deliver(c, call, fate, order).0)
  {
    if call.DeleteOffering? && call.key in c.offerings {
      assert c.offerings[call.key].finalizers == [] ==> Without(c.offerings[call.key].finalizers, FINALIZER) == [];
    }
  }

  lemma FinalizerUpdate(c: Cluster, l: Off.Local, fate: Fate)
    requires l.Working? && OfferingInv(c, l) && (l.pc.DropFinalizer? || l.pc.AddFinalizer?)
    ensures TouchesOnlyItsFinalizer(c, Deliver(c, Off.NextCall(l), fate, []).0)
  {
    WithoutIgnores(l.obj.finalizers, FINALIZER);
    if l.key in c.offerings && c.offerings[l.key].version == l.obj.version {
      assert c.offerings[l.key] == l.obj;
    }
  }

  lemma StepTouchesOnlyItsFinalizer(w: World, e: Event)
    requires Inv(w) && AgentStep(e)
    ensures TouchesOnlyItsFinalizer(w.cluster, Do(w, e).cluster)
  {
    if e.OfferingCall? && w.up && !w.off.Idle? {
      if w.off.Working? && (w.off.pc.DropFinalizer? || w.off.pc.AddFinalizer?) {
        FinalizerUpdate(w.cluster, w.off, e.fate);
      } else {
        OtherCallsTouchNothing(w.cluster, Off.NextCall(w.off), e.fate, []);
      }
    } else if e.SecretCall? && w.up && !w.sec.Idle? {
      OtherCallsTouchNothing(w.cluster, Sec.NextCall(w.sec), e.fate, e.order);
    }
  }

  lemma AgentTouchesOnlyItsFinalizer(es: seq<Event>, e: Event)
    requires AgentStep(e)
    ensures TouchesOnlyItsFinalizer(Run(Start(), es).cluster, Do(Run(Start(), es), e).cluster)
  {
    ReachableInv(es);
    StepTouchesOnlyItsFinalizer(Run(Start(), es), e);
  }

  ghost predicate NeverDownscales(w: World, v: World, ns: string) {
    ns in w.cluster.storage && ns in v.cluster.storage ==>
      && w.cluster.storage[ns].count <= v.cluster.storage[ns].count
      && (w.cluster.storage[ns].count != v.cluster.storage[ns].count ==>
            && w.off.Working? && w.off.key.ns == ns && w.off.obj.config.Config?
            && v.cluster.storage[ns].count ==
              DeviceSets.TargetCount(w.off.obj.config.capacity, w.cluster.storage[ns].count))
  }

  /** Which calls leave every count alone. */
  lemma OtherCallsKeepCounts(c: Cluster, call: Call, fate: Fate, order: seq<Key>, ns: string)
    requires call.UpdateStorage? ==> call.ns != ns
    requires ns in c.storage && ns in Deliver(c, call, fate, order).0.storage
    ensures Deliver(c, call, fate, order).0.storage[ns].count == c.storage[ns].count
  {
  }

  /** The versioned write of a StorageCluster replaces a count that is still the one read. */
  lemma StorageWriteKeepsUp(c: Cluster, l: Off.Local, fate: Fate, ns: string)
    requires OfferingInv(c, l) && l.Working? && l.pc.WriteStorage? && l.key.ns == ns && ns in c.storage
    ensures var d := Deliver(c, Off.NextCall(l), fate, []).0;
            ns in d.storage ==> d.storage[ns].count == c.storage[ns].count ||
                                d.storage[ns].count == Off.NewCount(l.obj.config, c.storage[ns].count)
  {
    if c.storage[ns].version == l.sc.value.version {
      assert c.storage[ns] == l.sc.value;
    }
  }

  lemma StepNeverDownscales(w: World, e: Event, ns: string)
    requires Inv(w) && AgentStep(e)
    ensures NeverDownscales(w, Do(w, e), ns)
  {
    var v := Do(w, e);
    if ns in w.cluster.storage && ns in v.cluster.storage {
      if e.OfferingCall? && w.up && !w.off.Idle? {
        if w.off.Working? && w.off.pc.WriteStorage? && w.off.key.ns == ns {
          StorageWriteKeepsUp(w.cluster, w.off, e.fate, ns);
        } else {
          OtherCallsKeepCounts(w.cluster, Off.NextCall(w.off), e.fate, [], ns);
        }
      } else if e.SecretCall? && w.up && !w.sec.Idle? {
        OtherCallsKeepCounts(w.cluster, Sec.NextCall(w.sec), e.fate, e.order, ns);
      }
    }
  }

  /** No call of the agent lowers a device-set count, even when others edit the StorageCluster
      between its read and its write; what it writes is the target for the current count. */
  lemma AgentNeverDownscales(es: seq<Event>, e: Event, ns: string)
    requires AgentStep(e)
    ensures NeverDownscales(Run(Start(), es), Do(Run(Start(), es), e), ns)
  {
    ReachableInv(es);
    StepNeverDownscales(Run(Start(), es), e, ns);
  }
}
