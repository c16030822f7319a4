/** What each complete reconcile of an uninstall achieves. */
module UninstallOutcomes {
  import opened Wrappers
  import opened ObjectMeta
  import opened Cluster
  import opened Runs
  import opened StorageSafety
  import opened UninstallProgress
  import opened UninstallRounds
  import Off = OfferingMachine
  import Sec = SecretMachine

  /** An uninstall between two reconciles. */
  ghost predicate Uninstalling(w: World) {
    Inv(w) && w.up && w.off == Off.Idle && w.sec == Sec.Idle && Winding(w.cluster)
  }

  /** Both CRDs that the DataFoundation plugin looks for are in this set. */
  predicate Recorded(crds: set<string>) {
    STORAGE_CLUSTER_CRD in crds && OCS_INITIALIZATION_CRD in crds
  }

  lemma OnlyOurFinalizer(finalizers: seq<string>)
    requires finalizers != [] && Without(finalizers, FINALIZER) == []
    ensures FINALIZER in finalizers
  {
    if FINALIZER !in finalizers {
      WithoutAbsent(finalizers, FINALIZER);
    }
  }

  /** The round ends between two reconciles again, unless the Secret is gone. */
  lemma OfferingRoundKeeps(w: World, key: Key)
    requires Uninstalling(w)
    ensures var v := OfferingRound(w, key);
            Potential(v) <= Potential(w) && (v.cluster.secret.Some? ==> Uninstalling(v))
  {
    DoKeepsInv(w, StartOffering(key));
    EndsUninstalling(Do(w, StartOffering(key)));
  }

  lemma EndsUninstalling(w: World)
    requires Inv(w) && w.up && w.sec.Idle? && Winding(w.cluster)
    ensures var v := Do(FinishOffering(w), Boot);
            Potential(v) <= Potential(w) && (v.cluster.secret.Some? ==> Uninstalling(v))
  {
    FinishOfferingKeeps(w);
    BootKeeps(FinishOffering(w));
  }

  lemma BootKeeps(w: World)
    requires Inv(w) && w.off.Idle? && w.sec.Idle?
    ensures var v := Do(w, Boot);
            && Potential(v) == Potential(w) && v.cluster == w.cluster
            && (Winding(w.cluster) ==> Uninstalling(v))
  {
    DoKeepsInv(w, Boot);
  }

  // ----- the Secret reconcile -----

  lemma {:induction false} ItemsOf(c: Cluster, order: seq<Key>)
    requires forall i :: 0 <= i < |order| ==> order[i] in c.offerings
    ensures |Items(c, order)| == |order|
    ensures forall i :: 0 <= i < |order| ==> Items(c, order)[i] == Item(order[i], c.offerings[order[i]].deleting)
  {
    if order != [] {
      ItemsOf(c, order[1..]);
    }
  }

  lemma SecretAtList(w: World, order: seq<Key>) returns (v: World)
    requires Uninstalling(w)
    ensures SecretRound(w, order) == FinishSecret(v, order) && v.up && v.cluster == w.cluster
    ensures v.sec.Working? && v.sec.pc.ListAll? && v.sec.obj == w.cluster.secret.value
  {
    var started := Do(w, StartSecret);
    v := Do(started, SecretCall(Served, order));
  }

  /** No offering is left: one Secret reconcile makes the Secret vanish and has the agent's namespace
      deleted. */
  lemma ReleasesTheSecret(w: World, order: seq<Key>)
    requires Uninstalling(w) && w.cluster.offerings == map[] && Enumerates(w.cluster, order)
    ensures var v := SecretRound(w, order);
            v.cluster == w.cluster.(secret := None, terminating := w.cluster.terminating + {AGENT_NAMESPACE},
              clock := v.cluster.clock)
  {
    OnlyOurFinalizer(w.cluster.secret.value.finalizers);
    var listing := SecretAtList(w, order);
    var dropping := FindsNoOffering(listing, order);
    var dropped := DropsSecretFinalizer(dropping, order);
    DropsAgentNamespace(dropped, order);
  }

  /** An empty list: the finalizer is next. */
  lemma FindsNoOffering(w: World, order: seq<Key>) returns (v: World)
    requires w.up && w.sec.Working? && w.sec.pc.ListAll? && FINALIZER in w.sec.obj.finalizers
    requires w.cluster.offerings == map[] && Enumerates(w.cluster, order)
    ensures FinishSecret(w, order) == FinishSecret(v, order) && v.up && v.cluster == w.cluster
    ensures v.sec.Working? && v.sec.pc.DropFinalizer? && v.sec.obj == w.sec.obj
  {
    assert Items(w.cluster, order) == [];
    v := Do(w, SecretCall(Served, order));
  }

  /** Nobody else's finalizer is left, so the Secret goes with the agent's. */
  lemma DropsSecretFinalizer(w: World, order: seq<Key>) returns (v: World)
    requires w.up && w.sec.Working? && w.sec.pc.DropFinalizer? && w.cluster.secret == Some(w.sec.obj)
    requires w.sec.obj.deleting && Without(w.sec.obj.finalizers, FINALIZER) == []
    ensures FinishSecret(w, order) == FinishSecret(v, order) && v.up
    ensures v.cluster == w.cluster.(secret := None, clock := v.cluster.clock)
    ensures v.sec.Working? && v.sec.pc.DropNamespace?
  {
    v := Do(w, SecretCall(Served, order));
  }

  lemma DropsAgentNamespace(w: World, order: seq<Key>)
    requires w.up && w.sec.Working? && w.sec.pc.DropNamespace?
    ensures FinishSecret(w, order).cluster ==
            w.cluster.(terminating := w.cluster.terminating + {AGENT_NAMESPACE})
  {
    var v := Do(w, SecretCall(Served, order));
    assert v.sec.Idle?;
  }

  /** d is c with some offerings marked; those without a finalizer are gone. */
  ghost predicate OnlyMarks(c: Cluster, d: Cluster) {
    && d == c.(offerings := d.offerings, clock := d.clock)
    && (forall key :: key in d.offerings ==>
          key in c.offerings &&
          d.offerings[key] ==
            c.offerings[key].(deleting := d.offerings[key].deleting, version := d.offerings[key].version))
    && (forall key :: key in c.offerings && c.offerings[key].finalizers != [] ==> key in d.offerings)
  }

  /** Every unmarked offering is still ahead in the list. */
  ghost predicate Ahead(c: Cluster, items: seq<Item>, i: nat) {
    forall key :: key in Unmarked(c) ==> exists j :: i <= j < |items| && items[j] == Item(key, false)
  }

  lemma {:induction false} SkipsToNext(c: Cluster, l: Sec.Local, i: nat)
    requires l.Working? && Ahead(c, l.items, i)
    ensures var m := Sec.SkipMarked(l, i);
            if m.Idle? then Unmarked(c) == {}
            else m.Working? && m.pc.DeleteNext? && m == l.(pc := m.pc) && Ahead(c, l.items, m.pc.i)
    decreases |l.items| - i
  {
    if i < |l.items| && l.items[i].deleting {
      forall key | key in Unmarked(c) ensures exists j :: i + 1 <= j < |l.items| && l.items[j] == Item(key, false) {
        var j :| i <= j < |l.items| && l.items[j] == Item(key, false);
        assert j != i;
      }
      SkipsToNext(c, l, i + 1);
    }
  }

  lemma DeleteMarks(w: World, order: seq<Key>)
    requires w.up && w.sec.Working? && w.sec.pc.DeleteNext? && w.sec.pc.i < |w.sec.items|
    requires Ahead(w.cluster, w.sec.items, w.sec.pc.i)
    ensures var v := Do(w, SecretCall(Served, order));
            && OnlyMarks(w.cluster, v.cluster) && Ahead(v.cluster, w.sec.items, w.sec.pc.i + 1)
            && v == w.(cluster := v.cluster, sec := v.sec, log := v.log) &&
              v.sec == Sec.SkipMarked(w.sec, w.sec.pc.i + 1)
  {
    var v := Do(w, SecretCall(Served, order));
    var items, i := w.sec.items, w.sec.pc.i;
    forall key | key in Unmarked(v.cluster) ensures exists j :: i + 1 <= j < |items| && items[j] == Item(key, false) {
      assert key in Unmarked(w.cluster);
      var j :| i <= j < |items| && items[j] == Item(key, false);
      assert j != i;
    }
  }

  /** From anywhere in the loop the rest of the reconcile marks whatever is still unmarked. */
  lemma {:induction false} LoopMarksAll(w: World, order: seq<Key>)
    requires w.up && (w.sec.Idle? ==> Unmarked(w.cluster) == {})
    requires !w.sec.Idle? ==>
               w.sec.Working? && w.sec.pc.DeleteNext? && w.sec.pc.i < |w.sec.items| &&
                 Ahead(w.cluster, w.sec.items, w.sec.pc.i)
    ensures var v := FinishSecret(w, order); OnlyMarks(w.cluster, v.cluster) && Unmarked(v.cluster) == {}
    decreases SecretStage(w.sec), StageLeft(w.sec)
  {
    if !w.sec.Idle? {
      DeleteMarks(w, order);
      var v := Do(w, SecretCall(Served, order));
      SkipsToNext(v.cluster, w.sec, w.sec.pc.i + 1);
      LoopMarksAll(v, order);
    }
  }

  lemma ListsEverything(c: Cluster, order: seq<Key>)
    requires Enumerates(c, order) && c.offerings != map[]
    ensures Items(c, order) != [] && Ahead(c, Items(c, order), 0)
  {
    forall i | 0 <= i < |order| ensures order[i] in c.offerings {
      assert order[i] in (set key | key in order);
    }
    ItemsOf(c, order);
    forall key | key in c.offerings ensures key in order {
      assert key in c.offerings.Keys;
    }
    var some :| some in c.offerings;
    assert some in order;
    forall key | key in Unmarked(c) ensures exists j :: 0 <= j < |order| && Items(c, order)[j] == Item(key, false) {
      var j :| 0 <= j < |order| && order[j] == key;
      assert Items(c, order)[j] == Item(key, false);
    }
  }

  /** Whatever the order of the list, one Secret reconcile marks every offering and changes nothing else. */
  lemma MarksEveryOffering(w: World, order: seq<Key>)
    requires Uninstalling(w) && w.cluster.offerings != map[] && Enumerates(w.cluster, order)
    ensures var v := SecretRound(w, order); OnlyMarks(w.cluster, v.cluster) && Unmarked(v.cluster) == {}
  {
    var w1 := SecretAtList(w, order);
    ListsEverything(w.cluster, order);
    var filled := w1.sec.(items := Items(w.cluster, order), seen := w1.created);
    SkipsToNext(w.cluster, filled, 0);
    var w2 := Do(w1, SecretCall(Served, order));
    assert w2.cluster == w.cluster && w2.sec == Sec.SkipMarked(filled, 0);
    LoopMarksAll(w2, order);
  }

  // ----- the offering reconcile -----

  lemma AtStorageCheck(w: World, key: Key) returns (v: World)
    requires Uninstalling(w) && key in w.cluster.offerings && w.cluster.offerings[key].deleting
    ensures OfferingRound(w, key) == Do(FinishOffering(v), Boot)
    ensures v.up && v.sec.Idle? && v.cluster == w.cluster && v.known == w.known
    ensures v.off == Off.Working(w.rids, key, Off.CheckStorage, w.cluster.offerings[key], None)
  {
    var started := Do(w, StartOffering(key));
    assert started.off == Off.Reading(w.rids, key);
    v := Do(started, OfferingCall(Served));
  }

  /** After the release the plugin still runs, and finds nothing to do. */
  lemma RestIsIdle(w: World)
    requires w.up && w.sec.Idle?
    requires w.off.Idle? ||
             (w.off.Working? && w.off.obj.deleting &&
              (w.off.pc.Gate? || (w.off.pc.ReadForDelete? && w.off.key.ns !in w.cluster.storage)))
    ensures FinishOffering(w).cluster == w.cluster && FinishOffering(w).known == w.known
  {
    if !w.off.Idle? {
      var v := Do(w, OfferingCall(Served));
      assert v.cluster == w.cluster && v.off.Idle?;
    }
  }

  lemma DropsFinalizer(w: World) returns (v: World)
    requires w.up && w.sec.Idle? && w.off.Working? && w.off.pc.CheckStorage? && w.off.obj.deleting
    requires w.off.key in w.cluster.offerings
    requires w.off.obj == w.cluster.offerings[w.off.key] && w.off.key.ns !in w.cluster.storage
    requires FINALIZER in w.off.obj.finalizers && Without(w.off.obj.finalizers, FINALIZER) == []
    ensures FinishOffering(w) == FinishOffering(v) && v.up && v.sec.Idle? && v.known == w.known
    ensures v.cluster == w.cluster.(offerings := w.cluster.offerings - {w.off.key}, clock := v.cluster.clock)
    ensures v.off.Working? && v.off.pc.DropNamespace? && v.off.key == w.off.key && v.off.obj.deleting
  {
    var found := Do(w, OfferingCall(Served));
    assert found.off == w.off.(pc := Off.DropFinalizer) && found.cluster == w.cluster;
    v := Do(found, OfferingCall(Served));
  }

  lemma DropsNamespace(w: World) returns (v: World)
    requires w.up && w.sec.Idle? && w.off.Working? && w.off.pc.DropNamespace? && w.off.obj.deleting
    ensures FinishOffering(w) == FinishOffering(v) && v.up && v.sec.Idle? && v.known == w.known
    ensures v.cluster == w.cluster.(terminating := w.cluster.terminating + {w.off.key.ns})
    ensures v.off.Idle? ||
            (v.off.Working? && v.off.key == w.off.key && v.off.obj.deleting &&
             (v.off.pc.Gate? || v.off.pc.ReadForDelete?))
  {
    v := Do(w, OfferingCall(Served));
  }

  /** A marked offering whose namespace has no StorageCluster is gone after one reconcile, and its namespace is
      being deleted; nothing else changes. */
  lemma ReleasesTheOffering(w: World, key: Key)
    requires Uninstalling(w) && key in w.cluster.offerings && w.cluster.offerings[key].deleting
    requires key.ns !in w.cluster.storage
    ensures var v := OfferingRound(w, key);
            && v.cluster == w.cluster.(offerings := w.cluster.offerings - {key},
                                       terminating := w.cluster.terminating + {key.ns}, clock := v.cluster.clock)
            && (v.known == w.known || v.known == w.cluster.crds)
  {
    OnlyOurFinalizer(w.cluster.offerings[key].finalizers);
    var w1 := AtStorageCheck(w, key);
    var w2 := DropsFinalizer(w1);
    var w3 := DropsNamespace(w2);
    RestIsIdle(w3);
  }

  /** The StorageCluster of this namespace as a delete leaves it. */
  ghost predicate StorageDeleted(c: Cluster, d: Cluster, ns: string)
    requires ns in c.storage
  {
    && d == c.(storage := d.storage, clock := d.clock)
    && d.storage - {ns} == c.storage - {ns}
    && (if c.storage[ns].guarded
        then ns in d.storage && d.storage[ns] == c.storage[ns].(deleting := true, version := d.storage[ns].version)
        else ns !in d.storage)
  }

  lemma ReachesTheDelete(w: World) returns (v: World)
    requires w.up && w.off.Working? && w.off.pc.CheckStorage? && w.off.key.ns in w.cluster.storage && Recorded(w.known)
    requires w.off.obj.kind == DF && w.off.obj.deleting && w.off.obj.config.Config?
    requires w.cluster.storage[w.off.key.ns].ready && w.cluster.consumers == 0
    ensures FinishOffering(w) == FinishOffering(v) && v.up && v.cluster == w.cluster && v.known == w.known
    ensures v.off == w.off.(pc := Off.DropStorage)
  {
    var found := FindsTheStorage(w);
    var read := ReadsItReady(found);
    v := CountsNoConsumer(read);
  }

  lemma FindsTheStorage(w: World) returns (v: World)
    requires w.up && w.off.Working? && w.off.pc.CheckStorage? && w.off.key.ns in w.cluster.storage && Recorded(w.known)
    requires w.off.obj.kind == DF && w.off.obj.deleting && w.off.obj.config.Config?
    ensures FinishOffering(w) == FinishOffering(v) && v.up && v.cluster == w.cluster && v.known == w.known
    ensures v.off == w.off.(pc := Off.ReadForDelete)
  {
    v := Do(w, OfferingCall(Served));
  }

  lemma ReadsItReady(w: World) returns (v: World)
    requires w.up && w.off.Working? && w.off.pc.ReadForDelete? && w.off.key.ns in w.cluster.storage
    requires w.cluster.storage[w.off.key.ns].ready
    ensures FinishOffering(w) == FinishOffering(v) && v.up && v.cluster == w.cluster && v.known == w.known
    ensures v.off == w.off.(pc := Off.CheckConsumers)
  {
    v := Do(w, OfferingCall(Served));
  }

  lemma CountsNoConsumer(w: World) returns (v: World)
    requires w.up && w.off.Working? && w.off.pc.CheckConsumers? && w.cluster.consumers == 0
    ensures FinishOffering(w) == FinishOffering(v) && v.up && v.cluster == w.cluster && v.known == w.known
    ensures v.off == w.off.(pc := Off.DropStorage)
  {
    v := Do(w, OfferingCall(Served));
  }

  /** A marked DataFoundation offering gets its ready and unused StorageCluster deleted in one reconcile. */
  lemma DeletesTheStorage(w: World, key: Key)
    requires Uninstalling(w) && key in w.cluster.offerings && w.cluster.offerings[key].deleting && Recorded(w.known)
    requires w.cluster.offerings[key].kind == DF && w.cluster.offerings[key].config.Config?
    requires key.ns in w.cluster.storage && w.cluster.storage[key.ns].ready && w.cluster.consumers == 0
    ensures var v := OfferingRound(w, key); StorageDeleted(w.cluster, v.cluster, key.ns) && v.known == w.known
  {
    var w1 := AtStorageCheck(w, key);
    var w2 := ReachesTheDelete(w1);
    IssuesTheDelete(w2);
  }

  lemma IssuesTheDelete(w: World)
    requires w.up && w.off.Working? && w.off.pc.DropStorage? && w.off.key.ns in w.cluster.storage
    ensures var v := FinishOffering(w);
            v.up && v.known == w.known && StorageDeleted(w.cluster, v.cluster, w.off.key.ns)
  {
    var v := Do(w, OfferingCall(Served));
    assert v.off.Idle? && v.up;
    assert StorageDeleted(w.cluster, v.cluster, w.off.key.ns);
  }

  /** With a CRD unrecorded but both installed, the reconcile ends the process, and the next one records them. */
  lemma RestartRecords(w: World, key: Key)
    requires Uninstalling(w) && key in w.cluster.offerings && w.cluster.offerings[key].deleting
    requires w.cluster.offerings[key].kind == DF && w.cluster.offerings[key].config.Config?
    requires key.ns in w.cluster.storage && !Recorded(w.known) && Recorded(w.cluster.crds)
    ensures var v := OfferingRound(w, key); v.cluster == w.cluster && v.known == w.cluster.crds
  {
    var checking := AtStorageCheck(w, key);
    var gated := StopsAtTheGate(checking);
    GateEndsTheProcess(gated);
  }

  lemma StopsAtTheGate(w: World) returns (v: World)
    requires w.up && w.off.Working? && w.off.pc.CheckStorage? && w.off.key.ns in w.cluster.storage
    requires w.off.obj.kind == DF && w.off.obj.config.Config? && !Recorded(w.known)
    ensures FinishOffering(w) == FinishOffering(v) && v.up && v.cluster == w.cluster && v.known == w.known
    ensures v.off.Working? && v.off.pc.Gate? && v.off.obj.kind == DF
  {
    v := Do(w, OfferingCall(Served));
  }

  lemma GateEndsTheProcess(w: World)
    requires w.up && w.off.Working? && w.off.pc.Gate? && w.off.obj.kind == DF && Recorded(w.cluster.crds)
    ensures !FinishOffering(w).up && FinishOffering(w).cluster == w.cluster
  {
    var v := Do(w, OfferingCall(Served));
    assert !v.up && v.cluster == w.cluster;
  }
}
