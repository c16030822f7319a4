/** What every run keeps: a StorageCluster is always held by an offering of its namespace, copies
    in memory are never mistaken for current objects, and counts never go down under the agent. */
module StorageSafety {
  import opened Wrappers
  import opened ObjectMeta
  import opened Cluster
  import opened Runs
  import Off = OfferingMachine
  import Sec = SecretMachine

  ghost predicate Holds(c: Cluster, key: Key) {
    key in c.offerings && FINALIZER in c.offerings[key].finalizers
  }

  ghost predicate Held(c: Cluster, ns: string) {
    exists key: Key :: Holds(c, key) && key.ns == ns
  }

  /** The main safety property: no StorageCluster without an offering that holds the finalizer. */
  ghost predicate Covered(c: Cluster) {
    forall ns :: ns in c.storage ==> Held(c, ns)
  }

  /** Versions are below the clock, and nothing stays marked without a finalizer. */
  ghost predicate WellFormed(c: Cluster) {
    && (forall key :: key in c.offerings ==>
          c.offerings[key].version < c.clock && (c.offerings[key].deleting ==> c.offerings[key].finalizers != []))
    && (forall ns :: ns in c.storage ==>
          c.storage[ns].version < c.clock && (c.storage[ns].deleting ==> c.storage[ns].guarded))
    && (c.secret.Some? ==>
          c.secret.value.version < c.clock && (c.secret.value.deleting ==> c.secret.value.finalizers != []))
  }

  /** An object that changed carries a new version. */
  ghost predicate Reversions(c: Cluster, d: Cluster) {
    && c.clock <= d.clock
    && (forall key :: key in d.offerings ==>
          d.offerings[key].version >= c.clock || (key in c.offerings && d.offerings[key] == c.offerings[key]))
    && (forall ns :: ns in d.storage ==>
          d.storage[ns].version >= c.clock || (ns in c.storage && d.storage[ns] == c.storage[ns]))
    && (d.secret.Some? ==> d.secret.value.version >= c.clock || d.secret == c.secret)
  }

  ghost predicate KeepsHolders(c: Cluster, d: Cluster) {
    forall key :: Holds(c, key) ==> Holds(d, key)
  }

  ghost predicate NoNewStorage(c: Cluster, d: Cluster) {
    forall ns :: ns in d.storage ==> ns in c.storage
  }

  // ----- what a copy in memory is worth -----

  ghost predicate FreshOffering(c: Cluster, key: Key, copy: Offering) {
    && copy.version < c.clock
    && (key in c.offerings && c.offerings[key].version == copy.version ==> c.offerings[key] == copy)
  }

  ghost predicate FreshStorage(c: Cluster, ns: string, copy: StorageCluster) {
    && copy.version < c.clock
    && (ns in c.storage && c.storage[ns].version == copy.version ==> c.storage[ns] == copy)
  }

  ghost predicate FreshSecret(c: Cluster, copy: Secret) {
    && copy.version < c.clock
    && (c.secret.Some? && c.secret.value.version == copy.version ==> c.secret.value == copy)
  }

  ghost predicate OfferingInv(c: Cluster, l: Off.Local) {
    l.Working? ==>
      && FreshOffering(c, l.key, l.obj)
      && (l.sc.Some? ==> FreshStorage(c, l.key.ns, l.sc.value))
      && (l.pc.WriteStorage? ==> l.sc.Some?)
      && (l.pc.WriteNewStorage? || l.pc.WriteStorage? || l.pc.ReadForUpdate? ==>
        l.obj.config.Config? && l.obj.config.capacity > 0)
      && (Off.Teardown(l.pc) ==> l.obj.deleting)
      && (Off.Install(l.pc) ==> !l.obj.deleting)
      && (!l.obj.deleting && !l.pc.AddFinalizer? ==> Holds(c, l.key))
      && (l.pc.DropFinalizer? ==> l.key.ns !in c.storage)
  }

  ghost predicate SecretInv(c: Cluster, l: Sec.Local) {
    l.Working? ==>
      && FreshSecret(c, l.obj)
      && (Sec.Teardown(l.pc) ==> l.obj.deleting)
      && (!Sec.Teardown(l.pc) ==> !l.obj.deleting)
  }

  ghost predicate Inv(w: World) {
    WellFormed(w.cluster) && Covered(w.cluster) && OfferingInv(w.cluster, w.off) && SecretInv(w.cluster, w.sec)
  }

  // ----- the API server -----

  lemma PerformEffects(c: Cluster, a: Action)
    requires WellFormed(c)
    ensures var d := Perform(c, a);
            WellFormed(d) && Reversions(c, d) && KeepsHolders(c, d) && NoNewStorage(c, d)
  {
    if a.CreateOffering? || a.EditOffering? || a.MarkOffering? {
      PerformOnOffering(c, a);
    } else if a.EditStorage? || a.MarkStorage? || a.PurgeStorage? {
      PerformOnStorage(c, a);
    }
  }

  lemma PerformOnOffering(c: Cluster, a: Action)
    requires WellFormed(c) && (a.CreateOffering? || a.EditOffering? || a.MarkOffering?)
    ensures var d := Perform(c, a);
            WellFormed(d) && Reversions(c, d) && KeepsHolders(c, d) && NoNewStorage(c, d)
  {
  }

  lemma PerformOnStorage(c: Cluster, a: Action)
    requires WellFormed(c) && (a.EditStorage? || a.MarkStorage? || a.PurgeStorage?)
    ensures var d := Perform(c, a);
            WellFormed(d) && Reversions(c, d) && KeepsHolders(c, d) && NoNewStorage(c, d)
  {
  }

  predicate KeepsFinalizerOn(call: Call) {
    call.UpdateOffering? ==> FINALIZER in call.offering.finalizers
  }

  lemma ServeEffects(c: Cluster, call: Call, order: seq<Key>)
    requires WellFormed(c)
    ensures var d := Serve(c, call, order).0;
            && WellFormed(d) && Reversions(c, d)
            && (KeepsFinalizerOn(call) ==> KeepsHolders(c, d))
            && (!call.CreateStorage? ==> NoNewStorage(c, d))
  {
    if call.UpdateOffering? || call.DeleteOffering? {
      ServeOnOffering(c, call, order);
    } else if call.CreateStorage? || call.UpdateStorage? || call.DeleteStorage? {
      ServeOnStorage(c, call, order);
    }
  }

  lemma ServeOnOffering(c: Cluster, call: Call, order: seq<Key>)
    requires WellFormed(c) && (call.UpdateOffering? || call.DeleteOffering?)
    ensures var d := Serve(c, call, order).0;
            && WellFormed(d) && Reversions(c, d)
            && (KeepsFinalizerOn(call) ==> KeepsHolders(c, d))
            && (!call.CreateStorage? ==> NoNewStorage(c, d))
  {
  }

  lemma ServeOnStorage(c: Cluster, call: Call, order: seq<Key>)
    requires WellFormed(c) && (call.CreateStorage? || call.UpdateStorage? || call.DeleteStorage?)
    ensures var d := Serve(c, call, order).0;
            && WellFormed(d) && Reversions(c, d)
            && (KeepsFinalizerOn(call) ==> KeepsHolders(c, d))
            && (!call.CreateStorage? ==> NoNewStorage(c, d))
  {
  }

  lemma DeliverEffects(c: Cluster, call: Call, fate: Fate, order: seq<Key>)
    requires WellFormed(c)
    ensures var d := Deliver(c, call, fate, order).0;
            && WellFormed(d) && Reversions(c, d)
            && (KeepsFinalizerOn(call) ==> KeepsHolders(c, d))
            && (!call.CreateStorage? ==> NoNewStorage(c, d))
  {
    ServeEffects(c, call, order);
  }

  lemma CoveredStays(c: Cluster, d: Cluster)
    requires Covered(c) && KeepsHolders(c, d) && NoNewStorage(c, d)
    ensures Covered(d)
  {
    forall ns | ns in d.storage ensures Held(d, ns) {
      var key: Key :| Holds(c, key) && key.ns == ns;
      assert Holds(d, key);
    }
  }

  /** A step of somebody else leaves what a waiting offering reconcile relies on. */
  lemma OfferingInvStays(c: Cluster, d: Cluster, l: Off.Local)
    requires WellFormed(c) && OfferingInv(c, l)
    requires Reversions(c, d) && KeepsHolders(c, d) && NoNewStorage(c, d)
    ensures OfferingInv(d, l)
  {
  }

  lemma SecretInvStays(c: Cluster, d: Cluster, l: Sec.Local)
    requires SecretInv(c, l) && Reversions(c, d)
    ensures SecretInv(d, l)
  {
  }

  // ----- one step of each party -----

  lemma EnvironmentKeepsInv(w: World, a: Action)
    requires Inv(w)
    ensures Inv(StepEnvironment(w, a))
  {
    var d := Perform(w.cluster, a);
    PerformEffects(w.cluster, a);
    CoveredStays(w.cluster, d);
    OfferingInvStays(w.cluster, d, w.off);
    SecretInvStays(w.cluster, d, w.sec);
  }

  lemma SecretKeepsInv(w: World, fate: Fate, order: seq<Key>)
    requires Inv(w) && w.up && !w.sec.Idle?
    ensures Inv(StepSecret(w, fate, order))
  {
    var call := Sec.NextCall(w.sec);
    var (d, reply) := Deliver(w.cluster, call, fate, order);
    DeliverEffects(w.cluster, call, fate, order);
    CoveredStays(w.cluster, d);
    OfferingInvStays(w.cluster, d, w.off);
    SecretInvStays(w.cluster, d, w.sec);
    SecretMoves(w.cluster, w.sec, d, w.known, call, fate, order, w.created);
  }

  lemma SecretMoves(c: Cluster, l: Sec.Local, d: Cluster, known: set<string>, call: Call, fate: Fate, order: seq<Key>,
        created: nat)
    requires WellFormed(c) && !l.Idle? && SecretInv(c, l) && call == Sec.NextCall(l)
    requires d == Deliver(c, call, fate, order).0 && SecretInv(d, l)
    ensures SecretInv(d, Sec.AfterReply(l, known, Deliver(c, call, fate, order).1, created))
  {
    Sec.PhasesStay(l, known, Deliver(c, call, fate, order).1);
  }

  lemma OfferingKeepsInv(w: World, fate: Fate)
    requires Inv(w) && w.up && !w.off.Idle?
    ensures Inv(StepOffering(w, fate))
  {
    var c, l := w.cluster, w.off;
    var call := Off.NextCall(l);
    var (d, reply) := Deliver(c, call, fate, []);
    DeliverEffects(c, call, fate, []);
    SecretInvStays(c, d, w.sec);
    OfferingCoverStays(c, l, d, call, fate);
    OfferingMoves(c, l, d, w.known, call, fate);
  }

  /** The two delicate calls: the finalizer goes only where no StorageCluster is, and a
      StorageCluster is created only where the finalizer is held. */
  lemma DropFinalizerCovers(c: Cluster, l: Off.Local, d: Cluster, fate: Fate)
    requires Covered(c) && l.Working? && l.pc.DropFinalizer? && OfferingInv(c, l)
    requires d == Deliver(c, Off.NextCall(l), fate, []).0
    ensures Covered(d)
  {
    forall ns | ns in d.storage ensures Held(d, ns) {
      var key: Key :| Holds(c, key) && key.ns == ns;
      assert key != l.key;
      assert Holds(d, key);
    }
  }

  lemma CreateStorageCovers(c: Cluster, l: Off.Local, d: Cluster, fate: Fate)
    requires Covered(c) && l.Working? && l.pc.WriteNewStorage? && OfferingInv(c, l)
    requires d == Deliver(c, Off.NextCall(l), fate, []).0
    ensures Covered(d)
  {
    assert d.offerings == c.offerings;
    forall ns | ns in d.storage ensures Held(d, ns) {
      if ns == l.key.ns {
        assert Holds(d, l.key);
      } else {
        var key: Key :| Holds(c, key) && key.ns == ns;
        assert Holds(d, key);
      }
    }
  }

  lemma OfferingCoverStays(c: Cluster, l: Off.Local, d: Cluster, call: Call, fate: Fate)
    requires WellFormed(c) && Covered(c) && !l.Idle? && OfferingInv(c, l) && call == Off.NextCall(l)
    requires d == Deliver(c, call, fate, []).0
    ensures Covered(d)
  {
    if l.Working? && l.pc.DropFinalizer? {
      DropFinalizerCovers(c, l, d, fate);
    } else if l.Working? && l.pc.WriteNewStorage? {
      CreateStorageCovers(c, l, d, fate);
    } else {
      DeliverEffects(c, call, fate, []);
      CoveredStays(c, d);
    }
  }

  /** The part of the invariant that does not look at the program point. */
  ghost predicate Settled(c: Cluster, l: Off.Local)
    requires l.Working?
  {
    && FreshOffering(c, l.key, l.obj)
    && (l.sc.Some? ==> FreshStorage(c, l.key.ns, l.sc.value))
    && (!l.obj.deleting ==> Holds(c, l.key))
  }

  lemma EnterConfigInv(c: Cluster, l: Off.Local, known: set<string>)
    requires l.Working? && Settled(c, l)
    ensures OfferingInv(c, Off.EnterConfig(l, known))
  {
  }

  lemma OfferingMoves(c: Cluster, l: Off.Local, d: Cluster, known: set<string>, call: Call, fate: Fate)
    requires WellFormed(c) && Covered(c) && !l.Idle? && OfferingInv(c, l) && call == Off.NextCall(l)
    requires d == Deliver(c, call, fate, []).0
    ensures var next := Off.AfterReply(l, known, Deliver(c, call, fate, []).1);
            next.Go? ==> OfferingInv(d, next.local)
  {
    if l.Reading? {
    } else if l.pc.DropFinalizer? || l.pc.AddFinalizer? {
      UpdateMoves(c, l, d, known, call, fate);
    } else if l.pc.WriteNewStorage? {
      CreateMoves(c, l, d, known, fate);
    } else if l.pc.ReadForUpdate? {
      ReadMoves(c, l, d, known, fate);
    } else {
      DeliverEffects(c, call, fate, []);
      OfferingInvStays(c, d, l);
      EnterConfigInv(d, l, known);
      AdvanceInv(d, l, known, Deliver(c, call, fate, []).1);
    }
  }

  lemma UpdateMoves(c: Cluster, l: Off.Local, d: Cluster, known: set<string>, call: Call, fate: Fate)
    requires WellFormed(c) && l.Working? && OfferingInv(c, l) && call == Off.NextCall(l)
    requires l.pc.DropFinalizer? || l.pc.AddFinalizer?
    requires d == Deliver(c, call, fate, []).0
    ensures var next := Off.AfterReply(l, known, Deliver(c, call, fate, []).1);
            next.Go? ==> OfferingInv(d, next.local)
  {
    var r := Deliver(c, call, fate, []).1;
    if r.AnOffering? {
      assert c.offerings[l.key] == l.obj;
      assert l.pc.AddFinalizer? ==> Holds(d, l.key);
      assert l.sc.Some? ==> FreshStorage(d, l.key.ns, l.sc.value);
    }
  }

  /** Moving on from a call that leaves the offerings alone. */
  lemma AdvanceInv(d: Cluster, l: Off.Local, known: set<string>, r: Reply)
    requires l.Working? && OfferingInv(d, l) && OfferingInv(d, Off.EnterConfig(l, known))
    requires !l.pc.DropFinalizer? && !l.pc.AddFinalizer? && !l.pc.WriteNewStorage? && !l.pc.ReadForUpdate?
    requires l.pc.CheckStorage? && r.NotFound? ==> l.key.ns !in d.storage
    ensures var next := Off.AfterReply(l, known, r); next.Go? ==> OfferingInv(d, next.local)
  {
  }

  lemma ReadMoves(c: Cluster, l: Off.Local, d: Cluster, known: set<string>, fate: Fate)
    requires WellFormed(c) && l.Working? && l.pc.ReadForUpdate? && OfferingInv(c, l)
    requires d == Deliver(c, Off.NextCall(l), fate, []).0
    ensures var next := Off.AfterReply(l, known, Deliver(c, Off.NextCall(l), fate, []).1);
            next.Go? ==> OfferingInv(d, next.local)
  {
    var r := Deliver(c, Off.NextCall(l), fate, []).1;
    if r.AStorage? {
      assert FreshStorage(d, l.key.ns, r.sc);
      ReadStorageInv(d, l, r.sc);
    }
  }

  lemma CreateMoves(c: Cluster, l: Off.Local, d: Cluster, known: set<string>, fate: Fate)
    requires WellFormed(c) && l.Working? && l.pc.WriteNewStorage? && OfferingInv(c, l)
    requires d == Deliver(c, Off.NextCall(l), fate, []).0
    ensures var next := Off.AfterReply(l, known, Deliver(c, Off.NextCall(l), fate, []).1);
            next.Go? ==> OfferingInv(d, next.local)
  {
    assert d.offerings == c.offerings;
  }

  lemma ReadStorageInv(d: Cluster, l: Off.Local, sc: StorageCluster)
    requires l.Working? && l.pc.ReadForUpdate? && OfferingInv(d, l) && FreshStorage(d, l.key.ns, sc)
    ensures OfferingInv(d, l.(sc := Some(sc), pc := Off.WriteStorage))
    ensures OfferingInv(d, l.(sc := Some(sc), pc := Off.AfterStorage(0)))
  {
  }

  lemma DoKeepsInv(w: World, e: Event)
    requires Inv(w)
    ensures Inv(Do(w, e))
  {
    match e
    case OfferingCall(fate) => if w.up && !w.off.Idle? { OfferingKeepsInv(w, fate); }
    case SecretCall(fate, order) => if w.up && !w.sec.Idle? { SecretKeepsInv(w, fate, order); }
    case Environment(a) => EnvironmentKeepsInv(w, a);
    case _ =>
  }

  lemma {:induction false} RunKeepsInv(w: World, es: seq<Event>)
    requires Inv(w)
    ensures Inv(Run(w, es))
  {
    if es != [] {
      RunKeepsInv(w, es[..|es| - 1]);
      DoKeepsInv(Run(w, es[..|es| - 1]), es[|es| - 1]);
    }
  }

  lemma ReachableInv(es: seq<Event>)
    ensures Inv(Run(Start(), es))
  {
    RunKeepsInv(Start(), es);
  }

  // ----- main results -----

  /** After any run of both controllers, failures, crashes and everybody else's actions, every
      namespace with a StorageCluster has an offering that still carries the agent's finalizer. */
  lemma StorageIsAlwaysHeld(es: seq<Event>, ns: string)
    requires ns in Run(Start(), es).cluster.storage
    ensures exists key: Key ::
              var c := Run(Start(), es).cluster;
              key.ns == ns && key in c.offerings && FINALIZER in c.offerings[key].finalizers
  {
    ReachableInv(es);
    var c := Run(Start(), es).cluster;
    var key: Key :| Holds(c, key) && key.ns == ns;
  }
}
