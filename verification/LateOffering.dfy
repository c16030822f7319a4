/** Why offerings must not be created during the uninstall: the Secret's finalizer can go while a
    StorageCluster exists. */
module LateOffering {
  import opened Wrappers
  import opened ObjectMeta
  import opened Cluster
  import opened Runs
  import opened UninstallSafety
  import Off = OfferingMachine
  import Sec = SecretMachine

  const CONFIG: Config := Config(4, "key", "", "")

  /** The agent runs, with the storage CRDs recorded, and the config Secret is marked for deletion. */
  lemma SecretMarked() returns (es: seq<Event>, w: World)
    ensures w == Run(Start(), es)
    ensures w.up && w.off == Off.Idle && w.sec == Sec.Idle && w.known == {STORAGE_CLUSTER_CRD, OCS_INITIALIZATION_CRD}
    ensures w.cluster.offerings == map[] && w.cluster.storage == map[] && w.closing
    ensures w.cluster.secret.Some? && w.cluster.secret.value.finalizers == [FINALIZER]
    ensures w.cluster.secret.value.deleting && w.cluster.secret.value.parses
  {
    es := [];
    w := Start();
    es, w := Extend(Start(), es, w, Environment(InstallCrd(STORAGE_CLUSTER_CRD)));
    es, w := Extend(Start(), es, w, Environment(InstallCrd(OCS_INITIALIZATION_CRD)));
    es, w := Extend(Start(), es, w, Boot);
    es, w := Extend(Start(), es, w, Environment(CreateSecret([FINALIZER], true)));
    es, w := Extend(Start(), es, w, Environment(MarkSecret));
  }

  /** The Secret reconcile has listed no offerings and is about to drop its finalizer. */
  lemma SecretAboutToRelease() returns (es: seq<Event>, w: World)
    ensures w == Run(Start(), es)
    ensures w.up && w.off == Off.Idle && w.known == {STORAGE_CLUSTER_CRD, OCS_INITIALIZATION_CRD}
    ensures w.cluster.offerings == map[] && w.cluster.storage == map[]
    ensures w.cluster.secret.Some? && w.cluster.secret.value.finalizers == [FINALIZER]
    ensures w.sec.Working? && w.sec.pc.DropFinalizer? && w.sec.obj == w.cluster.secret.value
    ensures w.closing
  {
    es, w := SecretMarked();
    es, w := Extend(Start(), es, w, StartSecret);
    es, w := Extend(Start(), es, w, SecretCall(Served, []));
    assert w.sec.Working? && w.sec.pc.ListAll?;
    es, w := Extend(Start(), es, w, SecretCall(Served, []));
  }

  ghost predicate SameSecretSide(w: World, v: World) {
    v.up && v.known == w.known && v.cluster.secret == w.cluster.secret && v.sec == w.sec
  }

  /** An offering is created now and its reconcile gets as far as the OLM objects. */
  lemma OfferingArrives(w0: World, key: Key) returns (es: seq<Event>, w: World)
    requires w0.up && w0.off == Off.Idle && key !in w0.cluster.offerings && key.ns !in w0.cluster.storage
    ensures w == Run(w0, es) && SameSecretSide(w0, w) && key.ns !in w.cluster.storage
    ensures w.off.Working? && w.off.pc == Off.Olm(0) && w.off.key == key
    ensures w.off.obj.kind == DF && w.off.obj.config == CONFIG && !w.off.obj.deleting
  {
    es, w := Extend(w0, [], w0, Environment(CreateOffering(key, [FINALIZER], DF, CONFIG)));
    assert key in w.cluster.offerings;
    es, w := Extend(w0, es, w, StartOffering(key));
    es, w := Extend(w0, es, w, OfferingCall(Served));
  }

  lemma OlmObjectsDone(w0: World, w1: World, es1: seq<Event>) returns (es: seq<Event>, w: World)
    requires w1 == Run(w0, es1) && w1.up && STORAGE_CLUSTER_CRD in w1.known && OCS_INITIALIZATION_CRD in w1.known
    requires w1.off.Working? && w1.off.pc == Off.Olm(0)
    requires w1.off.obj.kind == DF && w1.off.obj.config == CONFIG && !w1.off.obj.deleting
    ensures w == Run(w0, es) && SameSecretSide(w1, w) && w.cluster.storage == w1.cluster.storage
    ensures w.off == w1.off.(pc := Off.OnboardingKey)
  {
    w, es := w1, es1;
    es, w := Extend(w0, es, w, OfferingCall(Served));
    es, w := Extend(w0, es, w, OfferingCall(Served));
    assert w.off == w1.off.(pc := Off.Olm(2));
    es, w := Extend(w0, es, w, OfferingCall(Served));
  }

  /** It creates its StorageCluster. */
  lemma OfferingInstalls(w0: World, w1: World, es1: seq<Event>) returns (es: seq<Event>, w: World)
    requires w1 == Run(w0, es1) && w1.up && w1.off.Working? && w1.off.pc == Off.OnboardingKey
    requires w1.off.key.ns !in w1.cluster.storage && w1.off.obj.config == CONFIG
    ensures w == Run(w0, es) && SameSecretSide(w1, w) && w1.off.key.ns in w.cluster.storage
  {
    w, es := w1, es1;
    es, w := Extend(w0, es, w, OfferingCall(Served));
    es, w := Extend(w0, es, w, OfferingCall(Served));
    CreatesStorage(w);
    es, w := Extend(w0, es, w, OfferingCall(Served));
  }

  lemma CreatesStorage(w: World)
    requires w.up && w.off.Working? && w.off.pc == Off.WriteNewStorage && w.off.key.ns !in w.cluster.storage
    ensures SameSecretSide(w, Do(w, OfferingCall(Served)))
    ensures w.off.key.ns in Do(w, OfferingCall(Served)).cluster.storage
  {
  }

  /** From every world in which the agent is about to drop its finalizer from the Secret, no offering reconcile is under
      way and the storage CRDs are recorded, an offering created now, in any namespace without a StorageCluster, can be
      installed before the Secret is let go. */
  lemma ReleaseWithStorageLeft(w0: World, key: Key) returns (es: seq<Event>, e: Event)
    requires w0.up && w0.off == Off.Idle && STORAGE_CLUSTER_CRD in w0.known && OCS_INITIALIZATION_CRD in w0.known
    requires w0.sec.Working? && w0.sec.pc.DropFinalizer? && w0.cluster.secret == Some(w0.sec.obj)
    requires FINALIZER in w0.sec.obj.finalizers
    requires key !in w0.cluster.offerings && key.ns !in w0.cluster.storage
    ensures Releases(Run(w0, es), e) && key.ns in Do(Run(w0, es), e).cluster.storage
  {
    var w;
    es, w := OfferingArrives(w0, key);
    es, w := OlmObjectsDone(w0, w, es);
    es, w := OfferingInstalls(w0, w, es);
    e := SecretCall(Served, []);
    LetsGo(w);
  }

  lemma LetsGo(w: World)
    requires w.up && w.sec.Working? && w.sec.pc.DropFinalizer? && w.cluster.secret == Some(w.sec.obj)
    requires FINALIZER in w.sec.obj.finalizers
    ensures Releases(w, SecretCall(Served, [])) && Do(w, SecretCall(Served, [])).cluster.storage == w.cluster.storage
  {
    WithoutIsExact(w.sec.obj.finalizers, FINALIZER);
  }

  /** And such worlds are reachable. */
  lemma ReachableReleaseWithStorageLeft(key: Key) returns (es: seq<Event>, e: Event)
    ensures Releases(Run(Start(), es), e) && key.ns in Do(Run(Start(), es), e).cluster.storage
  {
    var es0, w0 := SecretAboutToRelease();
    var more;
    more, e := ReleaseWithStorageLeft(w0, key);
    RunConcat(Start(), es0, more);
    es := es0 + more;
  }
}
