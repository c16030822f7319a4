/** Uninstallation makes progress: a potential that no event raises once nothing new is created,
    that every productive step lowers, and that the agent alone can lower unless it must wait for the
    ocs-operator or for storage consumers to go. */
module UninstallProgress {
  import opened Cluster
  import opened Runs
  import opened Sets
  import opened StorageSafety
  import Off = OfferingMachine
  import Sec = SecretMachine

  lemma {:induction false} NamespacesOf(keys: set<Key>)
    ensures |set key | key in keys :: key.ns| <= |keys|
  {
    if key :| key in keys {
      NamespacesOf(keys - {key});
      assert (set k | k in keys :: k.ns) == (set k | k in keys - {key} :: k.ns) + {key.ns};
    }
  }

  /** One offering holds the StorageCluster of only one namespace. */
  lemma StorageBound(c: Cluster)
    requires Covered(c)
    ensures |c.storage| <= |c.offerings|
  {
    var namespaces := set key | key in c.offerings.Keys :: key.ns;
    forall ns | ns in c.storage.Keys ensures ns in namespaces {
      var key: Key :| Holds(c, key) && key.ns == ns;
    }
    SubsetSize(c.storage.Keys, namespaces);
    NamespacesOf(c.offerings.Keys);
  }

  // ----- the potential -----

  function Unmarked(c: Cluster): set<Key> {
    set key | key in c.offerings && !c.offerings[key].deleting
  }

  function UnmarkedStorage(c: Cluster): set<string> {
    set ns | ns in c.storage && !c.storage[ns].deleting
  }

  /** A reconcile in flight that took its offering for one to install. */
  predicate Installing(l: Off.Local) {
    l.Working? && !l.obj.deleting
  }

  /** Offerings still to be marked, or a reconcile that may still create a StorageCluster. */
  function Marking(w: World): nat {
    if Unmarked(w.cluster) != {} then |Unmarked(w.cluster)| + 1
    else if Installing(w.off) then 1 else 0
  }

  function Teardown(c: Cluster): nat {
    |c.storage| + |UnmarkedStorage(c)|
  }

  function Potential(w: World): nat {
    Marking(w) + |w.cluster.offerings|
    + (if Marking(w) > 0 then 2 * |w.cluster.offerings| else Teardown(w.cluster))
    + (if w.cluster.secret.Some? then 1 else 0)
  }

  /** Nothing new is created: no offering and no config Secret. */
  predicate NothingNew(e: Event) {
    e.Environment? ==> !e.action.CreateOffering? && !e.action.CreateSecret?
  }

  /** The steps that bring the uninstall nearer to its end. */
  ghost predicate Productive(w: World, e: Event) {
    var v := Do(w, e);
    || Unmarked(v.cluster) < Unmarked(w.cluster)
    || v.cluster.offerings.Keys < w.cluster.offerings.Keys
    || (Marking(w) == 0 && (v.cluster.storage.Keys < w.cluster.storage.Keys ||
      UnmarkedStorage(v.cluster) < UnmarkedStorage(w.cluster)))
    || (w.cluster.secret.Some? && v.cluster.secret.None?)
  }

  // ----- no step takes back what was gained -----

  ghost predicate NoMoreOfferings(c: Cluster, d: Cluster) {
    && d.offerings.Keys <= c.offerings.Keys
    && Unmarked(d) <= Unmarked(c)
    && (c.secret.None? ==> d.secret.None?)
  }

  ghost predicate NoMoreStorage(c: Cluster, d: Cluster) {
    d.storage.Keys <= c.storage.Keys && UnmarkedStorage(d) <= UnmarkedStorage(c)
  }

  lemma DeliverShrinks(c: Cluster, call: Call, fate: Fate, order: seq<Key>)
    ensures var d := Deliver(c, call, fate, order).0;
            NoMoreOfferings(c, d) && (!call.CreateStorage? ==> NoMoreStorage(c, d))
  {
  }

  lemma PerformShrinks(c: Cluster, a: Action)
    requires !a.CreateOffering? && !a.CreateSecret?
    ensures NoMoreOfferings(c, Perform(c, a)) && NoMoreStorage(c, Perform(c, a))
  {
  }

  /** A reconcile starts installing only on an offering that is unmarked at that moment. */
  lemma InstallingStarts(c: Cluster, l: Off.Local, d: Cluster, known: set<string>, fate: Fate)
    requires WellFormed(c) && !l.Idle? && OfferingInv(c, l) && d == Deliver(c, Off.NextCall(l), fate, []).0
    ensures var next := Off.AfterReply(l, known, Deliver(c, Off.NextCall(l), fate, []).1);
            next.Go? && Installing(next.local) ==> Installing(l) || Unmarked(d) != {}
  {
    if l.Reading? && l.key in c.offerings && !c.offerings[l.key].deleting {
      assert l.key in Unmarked(d);
    }
  }

  /** Every event of a run in which nothing new is created keeps these three. */
  lemma StepShrinks(w: World, e: Event)
    requires Inv(w) && NothingNew(e)
    ensures var v := Do(w, e);
            && NoMoreOfferings(w.cluster, v.cluster)
            && (Installing(v.off) ==> Installing(w.off) || Unmarked(v.cluster) != {})
            && (!Installing(w.off) ==> NoMoreStorage(w.cluster, v.cluster))
  {
    match e
    case OfferingCall(fate) =>
      if w.up && !w.off.Idle? {
        DeliverShrinks(w.cluster, Off.NextCall(w.off), fate, []);
        InstallingStarts(w.cluster, w.off, Deliver(w.cluster, Off.NextCall(w.off), fate, []).0, w.known, fate);
      }
    case SecretCall(fate, order) =>
      if w.up && !w.sec.Idle? { DeliverShrinks(w.cluster, Sec.NextCall(w.sec), fate, order); }
    case Environment(a) => PerformShrinks(w.cluster, a);
    case _ =>
  }

  lemma MarkingNeverRises(w: World, v: World)
    requires Unmarked(v.cluster) <= Unmarked(w.cluster)
    requires Installing(v.off) ==> Installing(w.off) || Unmarked(v.cluster) != {}
    ensures Marking(v) <= Marking(w)
    ensures Unmarked(v.cluster) < Unmarked(w.cluster) ==> Marking(v) < Marking(w)
  {
    SubsetSize(Unmarked(v.cluster), Unmarked(w.cluster));
  }

  lemma TeardownBound(c: Cluster)
    requires Covered(c)
    ensures Teardown(c) <= 2 * |c.offerings|
  {
    StorageBound(c);
    SubsetSize(UnmarkedStorage(c), c.storage.Keys);
  }

  lemma TeardownNeverRises(c: Cluster, d: Cluster)
    requires NoMoreStorage(c, d)
    ensures Teardown(d) <= Teardown(c)
    ensures d.storage.Keys < c.storage.Keys || UnmarkedStorage(d) < UnmarkedStorage(c) ==> Teardown(d) < Teardown(c)
  {
    SubsetSize(d.storage.Keys, c.storage.Keys);
    SubsetSize(UnmarkedStorage(d), UnmarkedStorage(c));
  }

  /** Main result, one event: the potential never rises, and a productive step lowers it. */
  lemma PotentialDescends(w: World, e: Event)
    requires Inv(w) && NothingNew(e)
    ensures Potential(Do(w, e)) <= Potential(w)
    ensures Productive(w, e) ==> Potential(Do(w, e)) < Potential(w)
  {
    var v := Do(w, e);
    DoKeepsInv(w, e);
    StepShrinks(w, e);
    MarkingNeverRises(w, v);
    SubsetSize(v.cluster.offerings.Keys, w.cluster.offerings.Keys);
    TeardownBound(v.cluster);
    if Marking(w) == 0 {
      TeardownNeverRises(w.cluster, v.cluster);
    }
  }

  /** How many events of a run were productive. */
  ghost function ProductiveSteps(w: World, es: seq<Event>): nat {
    if es == [] then 0
    else
      var front := es[..|es| - 1];
      ProductiveSteps(w, front) + (if Productive(Run(w, front), es[|es| - 1]) then 1 else 0)
  }

  /** Main result, whole runs: from any reachable world, a run that creates nothing new has at most
      Potential many productive steps. */
  lemma {:induction false} ProductiveStepsAreBounded(w: World, es: seq<Event>)
    requires Inv(w) && forall i :: 0 <= i < |es| ==> NothingNew(es[i])
    ensures ProductiveSteps(w, es) + Potential(Run(w, es)) <= Potential(w)
  {
    if es != [] {
      var front := es[..|es| - 1];
      ProductiveStepsAreBounded(w, front);
      RunKeepsInv(w, front);
      PotentialDescends(Run(w, front), es[|es| - 1]);
    }
  }
}
