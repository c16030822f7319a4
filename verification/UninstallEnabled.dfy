/** When the agent alone can take an uninstall further: exactly when some offering is unmarked, none is left,
    or one of them is not kept waiting. */
module UninstallEnabled {
  import opened Cluster
  import opened Runs
  import opened Sets
  import opened StorageSafety
  import opened UninstallProgress
  import opened UninstallRounds
  import opened UninstallOutcomes
  import Off = OfferingMachine
  import Sec = SecretMachine

  /** The gate of the DataFoundation plugin stays closed: a CRD is unrecorded, and one is not even installed, so
      that recording them anew does not help. */
  predicate Shut(w: World) {
    !Recorded(w.known) && !Recorded(w.cluster.crds)
  }

  /** The offering has a StorageCluster in its namespace that its reconcile will not delete: on its
      way out already, not ready, still used, behind a closed gate, or not the business of this
      offering. */
  predicate Waits(w: World, key: Key)
    requires key in w.cluster.offerings
  {
    var o := w.cluster.offerings[key];
    && key.ns in w.cluster.storage
    && (w.cluster.storage[key.ns].deleting || !w.cluster.storage[key.ns].ready || w.cluster.consumers > 0
        || o.kind == DFC || o.config.Malformed? || Shut(w))
  }

  ghost predicate Blocked(w: World) {
    && w.cluster.offerings != map[]
    && (forall key :: key in w.cluster.offerings ==> w.cluster.offerings[key].deleting && Waits(w, key))
  }

  // ----- unblocked means progress -----

  lemma MarkingLowers(w: World, order: seq<Key>)
    requires Uninstalling(w) && Unmarked(w.cluster) != {} && Enumerates(w.cluster, order)
    ensures Potential(SecretRound(w, order)) < Potential(w)
  {
    var v := SecretRound(w, order);
    MarksEveryOffering(w, order);
    var calls := SecretRoundIsRun(w, order);
    PotentialCompares(w, v);
  }

  /** Between reconciles the potential can be compared through the objects alone. */
  lemma PotentialCompares(w: World, v: World)
    requires Inv(w) && Inv(v) && w.off.Idle? && v.off.Idle?
    requires NoMoreOfferings(w.cluster, v.cluster) && NoMoreStorage(w.cluster, v.cluster)
    ensures Potential(v) <= Potential(w)
    ensures Unmarked(v.cluster) < Unmarked(w.cluster) ==> Potential(v) < Potential(w)
    ensures v.cluster.offerings.Keys < w.cluster.offerings.Keys ==> Potential(v) < Potential(w)
    ensures w.cluster.secret.Some? && v.cluster.secret.None? ==> Potential(v) < Potential(w)
    ensures Unmarked(w.cluster) == {} && UnmarkedStorage(v.cluster) < UnmarkedStorage(w.cluster) ==>
            Potential(v) < Potential(w)
  {
    MarkingNeverRises(w, v);
    SubsetSize(v.cluster.offerings.Keys, w.cluster.offerings.Keys);
    TeardownBound(v.cluster);
    TeardownNeverRises(w.cluster, v.cluster);
  }

  lemma ReleaseLowers(w: World, key: Key)
    requires Uninstalling(w) && key in w.cluster.offerings && w.cluster.offerings[key].deleting
    requires key.ns !in w.cluster.storage
    ensures Potential(OfferingRound(w, key)) < Potential(w)
  {
    var v := OfferingRound(w, key);
    ReleasesTheOffering(w, key);
    var calls := OfferingRoundIsRun(w, key);
    assert key in w.cluster.offerings.Keys && key !in v.cluster.offerings.Keys;
    PotentialCompares(w, v);
  }

  lemma DeletionLowers(w: World, key: Key)
    requires Uninstalling(w) && key in w.cluster.offerings && w.cluster.offerings[key].deleting && Recorded(w.known)
    requires Unmarked(w.cluster) == {} && key.ns in w.cluster.storage && !Waits(w, key)
    ensures Potential(OfferingRound(w, key)) < Potential(w)
  {
    var c, v := w.cluster, OfferingRound(w, key);
    DeletesTheStorage(w, key);
    var calls := OfferingRoundIsRun(w, key);
    assert key.ns in UnmarkedStorage(c) && key.ns !in UnmarkedStorage(v.cluster);
    forall ns | ns in v.cluster.storage
      ensures ns in c.storage && (ns == key.ns || v.cluster.storage[ns] == c.storage[ns])
    {
      if ns != key.ns {
        assert ns in v.cluster.storage - {key.ns};
        assert (v.cluster.storage - {key.ns})[ns] == (c.storage - {key.ns})[ns];
      }
    }
    PotentialCompares(w, v);
  }

  lemma SecretGoneLowers(w: World, order: seq<Key>)
    requires Uninstalling(w) && w.cluster.offerings == map[] && Enumerates(w.cluster, order)
    ensures Potential(SecretRound(w, order)) < Potential(w)
  {
    ReleasesTheSecret(w, order);
    var calls := SecretRoundIsRun(w, order);
    PotentialCompares(w, SecretRound(w, order));
  }

  /** The next round to play; the Secret's list in whatever order the server has. */
  datatype Next = SecretNext | OfferingNext(key: Key)

  ghost predicate Lowers(w: World, next: Next) {
    match next
    case SecretNext => forall order :: Enumerates(w.cluster, order) ==> Potential(SecretRound(w, order)) < Potential(w)
    case OfferingNext(key) => Potential(OfferingRound(w, key)) < Potential(w)
  }

  /** The one reconcile does not lower the potential but restarts the process, after which it does. */
  ghost predicate LowersAfterRestart(w: World, key: Key) {
    var v := OfferingRound(w, key);
    v.cluster == w.cluster && v.known == w.cluster.crds && Uninstalling(v) &&
      Potential(OfferingRound(v, key)) < Potential(w)
  }

  /** Main result: unless it is blocked, one complete reconcile lowers the potential, or restarts the process
      for a missing watch so that the next one does. */
  lemma UnblockedMeansProgress(w: World) returns (next: Next)
    requires Uninstalling(w) && !Blocked(w)
    ensures Lowers(w, next) || (next.OfferingNext? && LowersAfterRestart(w, next.key))
  {
    var c := w.cluster;
    if Unmarked(c) != {} {
      next := SecretNext;
      forall order | Enumerates(c, order) ensures Potential(SecretRound(w, order)) < Potential(w) {
        MarkingLowers(w, order);
      }
    } else if c.offerings == map[] {
      next := SecretNext;
      forall order | Enumerates(c, order) ensures Potential(SecretRound(w, order)) < Potential(w) {
        SecretGoneLowers(w, order);
      }
    } else {
      var key :| key in c.offerings && !(c.offerings[key].deleting && Waits(w, key));
      assert key !in Unmarked(c);
      next := OfferingNext(key);
      if key.ns !in c.storage {
        ReleaseLowers(w, key);
      } else if Recorded(w.known) {
        DeletionLowers(w, key);
      } else {
        RestartHelps(w, key);
      }
    }
  }

  lemma RestartHelps(w: World, key: Key)
    requires Uninstalling(w) && key in w.cluster.offerings && w.cluster.offerings[key].deleting && !Recorded(w.known)
    requires Unmarked(w.cluster) == {} && key.ns in w.cluster.storage && !Waits(w, key)
    ensures LowersAfterRestart(w, key)
  {
    RestartRecords(w, key);
    OfferingRoundKeeps(w, key);
    DeletionLowers(OfferingRound(w, key), key);
  }

  // ----- blocked means waiting -----

  predicate AgentEvent(e: Event) {
    !e.Environment?
  }

  ghost predicate AgentOnly(es: seq<Event>) {
    forall i :: 0 <= i < |es| ==> AgentEvent(es[i])
  }

  /** Everything but versions is as it was. */
  ghost predicate SameButVersions(c: Cluster, d: Cluster) {
    && d == c.(storage := d.storage, clock := d.clock)
    && d.storage.Keys == c.storage.Keys
    && (forall ns :: ns in c.storage ==> d.storage[ns] == c.storage[ns].(version := d.storage[ns].version))
  }

  /** The places a reconcile can be in while everything is blocked; shut tells whether the gate is. */
  ghost predicate WaitingOffering(c: Cluster, l: Off.Local, shut: bool) {
    l.Working? ==>
      && l.key in c.offerings && l.obj == c.offerings[l.key] && l.obj.deleting && l.key.ns in c.storage
      && (l.pc.CheckStorage? || l.pc.Gate? || l.pc.ReadForDelete? || l.pc.CheckConsumers? || l.pc.DropStorage?)
      && (l.pc.ReadForDelete? || l.pc.CheckConsumers? || l.pc.DropStorage? ==>
            l.obj.kind == DF && l.obj.config.Config? && !shut)
      && (l.pc.CheckConsumers? ==> c.storage[l.key.ns].ready)
      && (l.pc.DropStorage? ==> c.storage[l.key.ns].deleting)
  }

  ghost predicate WaitingLocals(w0: World, w: World) {
    && WaitingOffering(w0.cluster, w.off, Shut(w0)) && (w.sec.Working? ==> w.sec.pc.ListAll?)
    && (w.known == w0.known || w.known == w0.cluster.crds)
  }

  lemma BlockedOfferingCall(w0: World, d: Cluster, l: Off.Local, fate: Fate)
    requires WellFormed(d) && Blocked(w0) && SameButVersions(w0.cluster, d) && !l.Idle?
    requires WaitingOffering(w0.cluster, l, Shut(w0))
    ensures SameButVersions(w0.cluster, Deliver(d, Off.NextCall(l), fate, []).0)
  {
  }

  lemma BlockedOfferingReply(w0: World, d: Cluster, l: Off.Local, known: set<string>, fate: Fate)
    requires Blocked(w0) && SameButVersions(w0.cluster, d) && !l.Idle? && WaitingOffering(w0.cluster, l, Shut(w0))
    requires Shut(w0) ==> !Recorded(known)
    ensures var next := Off.AfterReply(l, known, Deliver(d, Off.NextCall(l), fate, []).1);
            next.Go? ==> WaitingOffering(w0.cluster, next.local, Shut(w0))
  {
  }

  lemma {:induction false} AllMarkedSkips(l: Sec.Local, i: nat)
    requires l.Working? && forall j :: 0 <= j < |l.items| ==> l.items[j].deleting
    ensures Sec.SkipMarked(l, i).Idle?
    decreases |l.items| - i
  {
    if i < |l.items| {
      AllMarkedSkips(l, i + 1);
    }
  }

  lemma BlockedList(c: Cluster, l: Sec.Local, known: set<string>, order: seq<Key>, created: nat)
    requires (forall key :: key in c.offerings ==> c.offerings[key].deleting) && c.offerings != map[]
    requires l.Working? && l.pc.ListAll? && Enumerates(c, order)
    ensures Sec.AfterReply(l, known, Listed(Items(c, order)), created).Idle?
  {
    forall i | 0 <= i < |order| ensures order[i] in c.offerings {
      assert order[i] in (set key | key in order);
    }
    ItemsOf(c, order);
    var some :| some in c.offerings;
    assert some in c.offerings.Keys;
    assert |order| > 0;
    AllMarkedSkips(l.(items := Items(c, order), seen := created), 0);
  }

  lemma BlockedSecretStep(w0: World, w: World, fate: Fate, order: seq<Key>)
    requires Blocked(w0) && SameButVersions(w0.cluster, w.cluster) && w.up && !w.sec.Idle?
    requires (w.sec.Working? ==> w.sec.pc.ListAll?)
    requires w0.cluster.secret.Some? && w0.cluster.secret.value.deleting
    ensures var v := StepSecret(w, fate, order); v.cluster == w.cluster && (v.sec.Working? ==> v.sec.pc.ListAll?)
  {
    if w.sec.Working? && Enumerates(w.cluster, order) {
      BlockedList(w.cluster, w.sec, w.known, order, w.created);
    }
  }

  lemma BlockedOfferingStep(w0: World, w: World, fate: Fate)
    requires WellFormed(w.cluster) && Blocked(w0) && SameButVersions(w0.cluster, w.cluster) && WaitingLocals(w0, w)
    requires w.up && !w.off.Idle?
    ensures var v := StepOffering(w, fate); SameButVersions(w0.cluster, v.cluster) && WaitingLocals(w0, v)
  {
    BlockedOfferingCall(w0, w.cluster, w.off, fate);
    BlockedOfferingReply(w0, w.cluster, w.off, w.known, fate);
  }

  lemma BlockedStep(w0: World, w: World, e: Event)
    requires WellFormed(w.cluster) && Blocked(w0) && SameButVersions(w0.cluster, w.cluster) && WaitingLocals(w0, w)
    requires w0.cluster.secret.Some? && w0.cluster.secret.value.deleting && AgentEvent(e)
    ensures var v := Do(w, e); SameButVersions(w0.cluster, v.cluster) && WaitingLocals(w0, v)
  {
    if e.OfferingCall? && w.up && !w.off.Idle? {
      BlockedOfferingStep(w0, w, e.fate);
    } else if e.SecretCall? && w.up && !w.sec.Idle? {
      BlockedSecretStep(w0, w, e.fate, e.order);
    }
  }

  /** Main result, the other direction: while it is blocked, no reconcile, with or without failures, and no
      crash or restart moves the uninstall at all. */
  lemma {:induction false} BlockedMeansWaiting(w0: World, es: seq<Event>)
    requires Uninstalling(w0) && Blocked(w0) && AgentOnly(es)
    ensures var w := Run(w0, es); SameButVersions(w0.cluster, w.cluster) && WaitingLocals(w0, w)
  {
    if es != [] {
      var front, e := es[..|es| - 1], es[|es| - 1];
      var w := Run(w0, front);
      BlockedMeansWaiting(w0, front);
      RunKeepsInv(w0, front);
      BlockedStep(w0, w, e);
    }
  }
}
