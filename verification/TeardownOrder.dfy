/** The order of teardown over the whole call log: what the agent must have seen, in the same
    reconcile and earlier in the log, before it lets go of anything. */
module TeardownOrder {
  import opened Wrappers
  import opened ObjectMeta
  import opened Cluster
  import opened Runs
  import opened StorageSafety
  import opened UninstallSafety
  import Off = OfferingMachine
  import Sec = SecretMachine

  // ----- evidence in the log -----

  /** Entry i: the reconcile read its offering and found it marked for deletion. */
  ghost predicate ReadMarked(log: seq<Entry>, i: int, rid: nat, key: Key) {
    && 0 <= i < |log| && log[i].who == Offerings && log[i].rid == rid && log[i].call == GetOffering(key)
    && log[i].reply.AnOffering? && log[i].reply.offering.deleting
  }

  /** Entry i: the reconcile read or wrote its offering and saw it without the finalizer. */
  ghost predicate SawOfferingFree(log: seq<Entry>, i: int, rid: nat, key: Key) {
    && 0 <= i < |log| && log[i].who == Offerings && log[i].rid == rid
    && (log[i].call == GetOffering(key) || (log[i].call.UpdateOffering? && log[i].call.key == key))
    && log[i].reply.AnOffering? && FINALIZER !in log[i].reply.offering.finalizers
  }

  ghost predicate SawNoStorage(log: seq<Entry>, i: int, rid: nat, ns: string) {
    0 <= i < |log| && log[i] == Entry(Offerings, rid, GetStorage(ns), NotFound)
  }

  ghost predicate SawStorageReady(log: seq<Entry>, i: int, rid: nat, ns: string) {
    && 0 <= i < |log| && log[i].who == Offerings && log[i].rid == rid && log[i].call == GetStorage(ns)
    && log[i].reply.AStorage? && log[i].reply.sc.ready
  }

  ghost predicate SawNoConsumers(log: seq<Entry>, i: int, rid: nat) {
    0 <= i < |log| && log[i] == Entry(Offerings, rid, ListConsumers, Count(0))
  }

  ghost predicate ReadSecretMarked(log: seq<Entry>, i: int, rid: nat) {
    && 0 <= i < |log| && log[i].who == Secrets && log[i].rid == rid && log[i].call == GetSecret
    && log[i].reply.ASecret? && log[i].reply.secret.deleting
  }

  ghost predicate SawSecretFree(log: seq<Entry>, i: int, rid: nat) {
    && 0 <= i < |log| && log[i].who == Secrets && log[i].rid == rid
    && (log[i].call == GetSecret || log[i].call.UpdateSecret?)
    && log[i].reply.ASecret? && FINALIZER !in log[i].reply.secret.finalizers
  }

  ghost predicate SawNoOfferings(log: seq<Entry>, i: int, rid: nat) {
    0 <= i < |log| && log[i] == Entry(Secrets, rid, ListOfferings, Listed([]))
  }

  ghost predicate SawUnmarked(log: seq<Entry>, i: int, rid: nat, key: Key) {
    && 0 <= i < |log| && log[i].who == Secrets && log[i].rid == rid && log[i].call == ListOfferings
    && log[i].reply.Listed? && Item(key, false) in log[i].reply.items
  }

  // ----- what each call must be preceded by -----

  ghost predicate MayRelease(past: seq<Entry>, rid: nat, key: Key) {
    exists g, j :: g < j && ReadMarked(past, g, rid, key) && SawNoStorage(past, j, rid, key.ns)
  }

  ghost predicate MayDropNamespace(past: seq<Entry>, rid: nat, ns: string) {
    exists key: Key, j, k :: key.ns == ns && MayRelease(past, rid, key)
      && SawNoStorage(past, j, rid, ns) && SawOfferingFree(past, k, rid, key)
  }

  ghost predicate MayDropStorage(past: seq<Entry>, rid: nat, ns: string) {
    exists key: Key, g, j, k :: key.ns == ns && g < j < k
      && ReadMarked(past, g, rid, key) && SawStorageReady(past, j, rid, ns) && SawNoConsumers(past, k, rid)
  }

  ghost predicate MayReleaseSecret(past: seq<Entry>, rid: nat) {
    exists g, j :: g < j && ReadSecretMarked(past, g, rid) && SawNoOfferings(past, j, rid)
  }

  ghost predicate MayDropAgent(past: seq<Entry>, rid: nat) {
    && MayReleaseSecret(past, rid)
    && exists k :: SawSecretFree(past, k, rid)
  }

  ghost predicate MayDeleteOffering(past: seq<Entry>, rid: nat, key: Key) {
    exists g, j :: g < j && ReadSecretMarked(past, g, rid) && SawUnmarked(past, j, rid, key)
  }

  /** The call of entry e was justified by the entries before it. */
  ghost predicate Justified(past: seq<Entry>, e: Entry) {
    match e.call
    case UpdateOffering(key, o) =>
      e.who == Offerings && (FINALIZER !in o.finalizers ==> MayRelease(past, e.rid, key))
    case DeleteNamespace(ns) =>
      if e.who == Offerings then MayDropNamespace(past, e.rid, ns)
      else ns == AGENT_NAMESPACE && MayDropAgent(past, e.rid)
    case DeleteStorage(ns) => e.who == Offerings && MayDropStorage(past, e.rid, ns)
    case UpdateSecret(s) =>
      e.who == Secrets && (FINALIZER !in s.finalizers ==> MayReleaseSecret(past, e.rid))
    case DeleteOffering(key) => e.who == Secrets && MayDeleteOffering(past, e.rid, key)
    case _ => true
  }

  // ----- the invariant -----

  ghost predicate OfferingTrail(log: seq<Entry>, l: Off.Local) {
    l.Working? ==>
      && (l.obj.deleting ==> exists g :: ReadMarked(log, g, l.rid, l.key))
      && (l.obj.deleting && FINALIZER !in l.obj.finalizers ==> exists k :: SawOfferingFree(log, k, l.rid, l.key))
      && (l.pc.DropFinalizer? || l.pc.DropNamespace? ==> MayRelease(log, l.rid, l.key))
      && (l.pc.DropNamespace? ==> exists k :: SawOfferingFree(log, k, l.rid, l.key))
      && (l.pc.CheckConsumers? ==>
            exists g, j :: g < j && ReadMarked(log, g, l.rid, l.key) && SawStorageReady(log, j, l.rid, l.key.ns))
      && (l.pc.DropStorage? ==> MayDropStorage(log, l.rid, l.key.ns))
  }

  ghost predicate SecretTrail(log: seq<Entry>, l: Sec.Local) {
    l.Working? ==>
      && (l.obj.deleting ==> exists g :: ReadSecretMarked(log, g, l.rid))
      && (l.obj.deleting && FINALIZER !in l.obj.finalizers ==> exists k :: SawSecretFree(log, k, l.rid))
      && (LettingGo(l) ==> MayReleaseSecret(log, l.rid))
      && (l.pc.DropNamespace? ==> exists k :: SawSecretFree(log, k, l.rid))
      && (l.pc.DeleteNext? ==> l.pc.i < |l.items| && !l.items[l.pc.i].deleting)
      && (l.pc.DeleteNext? ==>
            exists g, j :: g < j && ReadSecretMarked(log, g, l.rid)
                           && 0 <= j < |log| && log[j] == Entry(Secrets, l.rid, ListOfferings, Listed(l.items)))
  }

  ghost predicate LogInv(w: World) {
    && (forall i :: 0 <= i < |w.log| ==> Justified(w.log[..i], w.log[i]))
    && OfferingTrail(w.log, w.off) && SecretTrail(w.log, w.sec)
  }

  // ----- the log only grows -----

  lemma EvidenceStays(log: seq<Entry>, e: Entry)
    ensures forall i, rid, key :: ReadMarked(log, i, rid, key) ==> ReadMarked(log + [e], i, rid, key)
    ensures forall i, rid, key :: SawOfferingFree(log, i, rid, key) ==> SawOfferingFree(log + [e], i, rid, key)
    ensures forall i, rid, ns :: SawNoStorage(log, i, rid, ns) ==> SawNoStorage(log + [e], i, rid, ns)
    ensures forall i, rid, ns :: SawStorageReady(log, i, rid, ns) ==> SawStorageReady(log + [e], i, rid, ns)
    ensures forall i, rid :: SawNoConsumers(log, i, rid) ==> SawNoConsumers(log + [e], i, rid)
  {
  }

  lemma SecretEvidenceStays(log: seq<Entry>, e: Entry)
    ensures forall i, rid :: ReadSecretMarked(log, i, rid) ==> ReadSecretMarked(log + [e], i, rid)
    ensures forall i, rid :: SawSecretFree(log, i, rid) ==> SawSecretFree(log + [e], i, rid)
    ensures forall i, rid :: SawNoOfferings(log, i, rid) ==> SawNoOfferings(log + [e], i, rid)
  {
  }

  lemma OfferingTrailStays(log: seq<Entry>, e: Entry, l: Off.Local)
    requires OfferingTrail(log, l)
    ensures OfferingTrail(log + [e], l)
  {
    EvidenceStays(log, e);
    if l.Working? {
      if l.pc.DropFinalizer? || l.pc.DropNamespace? {
        var g, j :| g < j && ReadMarked(log, g, l.rid, l.key) && SawNoStorage(log, j, l.rid, l.key.ns);
        assert ReadMarked(log + [e], g, l.rid, l.key) && SawNoStorage(log + [e], j, l.rid, l.key.ns);
      }
      if l.pc.DropStorage? {
        var key: Key, g, j, k :| key.ns == l.key.ns && g < j < k
          && ReadMarked(log, g, l.rid, key) && SawStorageReady(log, j, l.rid, l.key.ns) &&
            SawNoConsumers(log, k, l.rid);
        assert ReadMarked(log + [e], g, l.rid, key) && SawStorageReady(log + [e], j, l.rid, l.key.ns)
               && SawNoConsumers(log + [e], k, l.rid);
      }
    }
  }

  lemma SecretTrailStays(log: seq<Entry>, e: Entry, l: Sec.Local)
    requires SecretTrail(log, l)
    ensures SecretTrail(log + [e], l)
  {
    SecretEvidenceStays(log, e);
    if l.Working? {
      if LettingGo(l) {
        var g, j :| g < j && ReadSecretMarked(log, g, l.rid) && SawNoOfferings(log, j, l.rid);
        assert ReadSecretMarked(log + [e], g, l.rid) && SawNoOfferings(log + [e], j, l.rid);
      }
      if l.pc.DeleteNext? {
        var g, j :| g < j && ReadSecretMarked(log, g, l.rid)
                    && 0 <= j < |log| && log[j] == Entry(Secrets, l.rid, ListOfferings, Listed(l.items));
        assert ReadSecretMarked(log + [e], g, l.rid) && (log + [e])[j] == log[j];
      }
    }
  }

  // ----- the offering reconcile -----

  lemma OfferingCallJustified(log: seq<Entry>, l: Off.Local, r: Reply)
    requires !l.Idle? && OfferingTrail(log, l)
    ensures Justified(log, Entry(Offerings, l.rid, Off.NextCall(l), r))
  {
    if l.Working? && l.pc.DropNamespace? {
      var g, j :| g < j && ReadMarked(log, g, l.rid, l.key) && SawNoStorage(log, j, l.rid, l.key.ns);
      var k :| SawOfferingFree(log, k, l.rid, l.key);
    }
  }

  lemma ReadingLeavesTrail(log: seq<Entry>, l: Off.Local, known: set<string>, r: Reply)
    requires l.Reading?
    ensures var next := Off.AfterReply(l, known, r);
            next.Go? && OfferingTrail(log + [Entry(Offerings, l.rid, Off.NextCall(l), r)], next.local)
  {
    var more, n := log + [Entry(Offerings, l.rid, Off.NextCall(l), r)], |log|;
    if r.AnOffering? && r.offering.deleting {
      assert ReadMarked(more, n, l.rid, l.key);
      assert FINALIZER !in r.offering.finalizers ==> SawOfferingFree(more, n, l.rid, l.key);
    }
  }

  lemma ConsumersLeaveTrail(log: seq<Entry>, l: Off.Local, more: seq<Entry>)
    requires l.Working? && l.pc.CheckConsumers? && OfferingTrail(log, l)
    requires more == log + [Entry(Offerings, l.rid, ListConsumers, Count(0))]
    ensures MayDropStorage(more, l.rid, l.key.ns)
  {
    var h, j :| h < j && ReadMarked(log, h, l.rid, l.key) && SawStorageReady(log, j, l.rid, l.key.ns);
    assert ReadMarked(more, h, l.rid, l.key) && SawStorageReady(more, j, l.rid, l.key.ns) &&
      SawNoConsumers(more, |log|, l.rid);
  }

  lemma OfferingTrailMoves(c: Cluster, log: seq<Entry>, l: Off.Local, known: set<string>, r: Reply)
    requires !l.Idle? && OfferingTrail(log, l) && OfferingInv(c, l)
    requires l.Working? && (l.pc.DropFinalizer? || l.pc.AddFinalizer?) && r.AnOffering? ==>
               r.offering == Off.NextCall(l).offering.(version := r.offering.version)
    ensures var next := Off.AfterReply(l, known, r);
            next.Go? ==> OfferingTrail(log + [Entry(Offerings, l.rid, Off.NextCall(l), r)], next.local)
  {
    var e := Entry(Offerings, l.rid, Off.NextCall(l), r);
    OfferingTrailStays(log, e, l);
    if l.Reading? {
      ReadingLeavesTrail(log, l, known, r);
    } else if l.obj.deleting {
      DeletingLeavesTrail(log, l, known, r);
    }
  }

  lemma FinalizerLeavesTrail(log: seq<Entry>, l: Off.Local, r: Reply)
    requires l.Working? && l.pc.DropFinalizer? && r.AnOffering?
    requires r.offering == Off.NextCall(l).offering.(version := r.offering.version)
    ensures SawOfferingFree(log + [Entry(Offerings, l.rid, Off.NextCall(l), r)], |log|, l.rid, l.key)
  {
    WithoutIsExact(l.obj.finalizers, FINALIZER);
  }

  lemma DeletingLeavesTrail(log: seq<Entry>, l: Off.Local, known: set<string>, r: Reply)
    requires l.Working? && l.obj.deleting && OfferingTrail(log, l) && !Off.Install(l.pc)
    requires OfferingTrail(log + [Entry(Offerings, l.rid, Off.NextCall(l), r)], l)
    requires l.pc.DropFinalizer? && r.AnOffering? ==>
            r.offering == Off.NextCall(l).offering.(version := r.offering.version)
    ensures var next := Off.AfterReply(l, known, r);
            next.Go? ==> OfferingTrail(log + [Entry(Offerings, l.rid, Off.NextCall(l), r)], next.local)
  {
    var more, n := log + [Entry(Offerings, l.rid, Off.NextCall(l), r)], |log|;
    var g :| ReadMarked(log, g, l.rid, l.key);
    assert ReadMarked(more, g, l.rid, l.key);
    match l.pc
    case CheckStorage =>
      if r.NotFound? { assert SawNoStorage(more, n, l.rid, l.key.ns); }
    case DropFinalizer =>
      if r.AnOffering? { FinalizerLeavesTrail(log, l, r); }
    case ReadForDelete =>
      if r.AStorage? && r.sc.ready { assert SawStorageReady(more, n, l.rid, l.key.ns); }
    case CheckConsumers =>
      if r == Count(0) { ConsumersLeaveTrail(log, l, more); }
    case _ =>
  }

  // ----- the Secret reconcile -----

  lemma SecretCallJustified(log: seq<Entry>, l: Sec.Local, r: Reply)
    requires !l.Idle? && SecretTrail(log, l)
    ensures Justified(log, Entry(Secrets, l.rid, Sec.NextCall(l), r))
  {
    if l.Working? && l.pc.DeleteNext? {
      var g, j :| g < j && ReadSecretMarked(log, g, l.rid)
                  && 0 <= j < |log| && log[j] == Entry(Secrets, l.rid, ListOfferings, Listed(l.items));
      assert Item(l.items[l.pc.i].key, false) == l.items[l.pc.i];
      assert SawUnmarked(log, j, l.rid, l.items[l.pc.i].key);
    }
  }

  lemma DeletionTrail(log: seq<Entry>, l: Sec.Local, i: nat, g: int, j: int)
    requires l.Working? && l.obj.deleting && g < j && ReadSecretMarked(log, g, l.rid)
    requires 0 <= j < |log| && log[j] == Entry(Secrets, l.rid, ListOfferings, Listed(l.items))
    requires FINALIZER !in l.obj.finalizers ==> exists k :: SawSecretFree(log, k, l.rid)
    ensures SecretTrail(log, Sec.SkipMarked(l, i))
  {
  }

  lemma SecretTrailMoves(c: Cluster, log: seq<Entry>, l: Sec.Local, known: set<string>, r: Reply, created: nat)
    requires !l.Idle? && SecretTrail(log, l) && SecretInv(c, l)
    requires l.Working? && (l.pc.DropFinalizer? || l.pc.AddFinalizer?) && r.ASecret? ==>
               r.secret == Sec.NextCall(l).secret.(version := r.secret.version)
    ensures SecretTrail(log + [Entry(Secrets, l.rid, Sec.NextCall(l), r)], Sec.AfterReply(l, known, r, created))
  {
    var e := Entry(Secrets, l.rid, Sec.NextCall(l), r);
    var more := log + [e];
    SecretTrailStays(log, e, l);
    Sec.PhasesStay(l, known, r);
    if l.Reading? {
      if r.ASecret? && r.secret.deleting {
        assert ReadSecretMarked(more, |log|, l.rid);
        assert FINALIZER !in r.secret.finalizers ==> SawSecretFree(more, |log|, l.rid);
      }
    } else if Sec.Teardown(l.pc) {
      SecretTeardownMoves(log, l, known, r, created);
    }
  }

  lemma SecretTeardownMoves(log: seq<Entry>, l: Sec.Local, known: set<string>, r: Reply, created: nat)
    requires l.Working? && Sec.Teardown(l.pc) && l.obj.deleting && SecretTrail(log, l)
    requires SecretTrail(log + [Entry(Secrets, l.rid, Sec.NextCall(l), r)], l)
    requires l.pc.DropFinalizer? && r.ASecret? ==> r.secret == Sec.NextCall(l).secret.(version := r.secret.version)
    ensures SecretTrail(log + [Entry(Secrets, l.rid, Sec.NextCall(l), r)], Sec.AfterReply(l, known, r, created))
  {
    var e := Entry(Secrets, l.rid, Sec.NextCall(l), r);
    var more := log + [e];
    var n := |log|;
    match l.pc
    case ListAll =>
      var g :| ReadSecretMarked(log, g, l.rid);
      assert ReadSecretMarked(more, g, l.rid);
      if r.Listed? {
        if r.items == [] { assert SawNoOfferings(more, n, l.rid); }
        else { DeletionTrail(more, l.(items := r.items, seen := created), 0, g, n); }
      }
    case DeleteNext(i) =>
      var g, j :| g < j && ReadSecretMarked(log, g, l.rid)
                  && 0 <= j < |log| && log[j] == Entry(Secrets, l.rid, ListOfferings, Listed(l.items));
      assert ReadSecretMarked(more, g, l.rid) && more[j] == log[j];
      DeletionTrail(more, l, i + 1, g, j);
    case DropFinalizer =>
      if r.ASecret? {
        WithoutIsExact(l.obj.finalizers, FINALIZER);
        assert SawSecretFree(more, n, l.rid);
      }
    case DropNamespace =>
  }

  // ----- whole runs -----

  lemma LogGrows(w: World, e: Entry)
    requires forall i :: 0 <= i < |w.log| ==> Justified(w.log[..i], w.log[i])
    requires Justified(w.log, e)
    ensures var log := w.log + [e]; forall i :: 0 <= i < |log| ==> Justified(log[..i], log[i])
  {
    var log := w.log + [e];
    forall i | 0 <= i < |log| ensures Justified(log[..i], log[i]) {
      assert log[..i] == w.log[..i];
      assert w.log[..|w.log|] == w.log;
    }
  }

  lemma UpdateReplies(c: Cluster, call: Call, fate: Fate, order: seq<Key>)
    ensures var r := Deliver(c, call, fate, order).1;
            && (call.UpdateOffering? && r.AnOffering? ==>
                  call.key in c.offerings && c.offerings[call.key].version == call.offering.version
                  && r.offering == call.offering.(deleting := c.offerings[call.key].deleting, version := c.clock))
            && (call.UpdateSecret? && r.ASecret? ==>
                  c.secret.Some? && c.secret.value.version == call.secret.version
                  && r.secret == call.secret.(deleting := c.secret.value.deleting, version := c.clock))
  {
  }

  lemma OfferingKeepsLog(w: World, fate: Fate)
    requires Inv(w) && LogInv(w) && w.up && !w.off.Idle?
    ensures LogInv(StepOffering(w, fate))
  {
    var call := Off.NextCall(w.off);
    var r := Deliver(w.cluster, call, fate, []).1;
    UpdateReplies(w.cluster, call, fate, []);
    OfferingCallJustified(w.log, w.off, r);
    OfferingTrailMoves(w.cluster, w.log, w.off, w.known, r);
    SecretTrailStays(w.log, Entry(Offerings, w.off.rid, call, r), w.sec);
    LogGrows(w, Entry(Offerings, w.off.rid, call, r));
  }

  lemma SecretKeepsLog(w: World, fate: Fate, order: seq<Key>)
    requires Inv(w) && LogInv(w) && w.up && !w.sec.Idle?
    ensures LogInv(StepSecret(w, fate, order))
  {
    var call := Sec.NextCall(w.sec);
    var r := Deliver(w.cluster, call, fate, order).1;
    UpdateReplies(w.cluster, call, fate, order);
    SecretCallJustified(w.log, w.sec, r);
    SecretTrailMoves(w.cluster, w.log, w.sec, w.known, r, w.created);
    OfferingTrailStays(w.log, Entry(Secrets, w.sec.rid, call, r), w.off);
    LogGrows(w, Entry(Secrets, w.sec.rid, call, r));
  }

  lemma DoKeepsLog(w: World, e: Event)
    requires Inv(w) && LogInv(w)
    ensures LogInv(Do(w, e))
  {
    if e.OfferingCall? && w.up && !w.off.Idle? {
      OfferingKeepsLog(w, e.fate);
    } else if e.SecretCall? && w.up && !w.sec.Idle? {
      SecretKeepsLog(w, e.fate, e.order);
    }
  }

  lemma {:induction false} RunKeepsLog(es: seq<Event>)
    ensures LogInv(Run(Start(), es))
  {
    if es != [] {
      RunKeepsLog(es[..|es| - 1]);
      ReachableInv(es[..|es| - 1]);
      DoKeepsLog(Run(Start(), es[..|es| - 1]), es[|es| - 1]);
    }
  }

  /** Main result: in every run, whatever fails or interleaves, each call at each position of the
      log was justified by what the same reconcile had seen before it. */
  lemma EveryCallIsJustified(es: seq<Event>, i: nat)
    requires i < |Run(Start(), es).log|
    ensures var log := Run(Start(), es).log; Justified(log[..i], log[i])
  {
    RunKeepsLog(es);
  }

  /** The namespace deletions spelled out: the agent's own only after an empty offering list and with the
      finalizer seen off the Secret, an offering's only after its StorageCluster read as NotFound
      and with the finalizer seen off the offering, all in the same reconcile. */
  lemma NamespacesGoLast(es: seq<Event>, i: nat, ns: string)
    requires i < |Run(Start(), es).log| && Run(Start(), es).log[i].call == DeleteNamespace(ns)
    ensures var log := Run(Start(), es).log;
            var rid := log[i].rid;
            && (log[i].who == Secrets ==>
                  && ns == AGENT_NAMESPACE
                  && (exists j :: j < i && SawNoOfferings(log, j, rid))
                  && (exists k :: k < i && SawSecretFree(log, k, rid)))
            && (log[i].who == Offerings ==>
                  exists key: Key, j, k :: key.ns == ns && j < i && k < i
                    && SawNoStorage(log, j, rid, ns) && SawOfferingFree(log, k, rid, key))
  {
    EveryCallIsJustified(es, i);
    var log := Run(Start(), es).log;
    var past, rid := log[..i], log[i].rid;
    if log[i].who == Secrets {
      var g, j :| g < j && ReadSecretMarked(past, g, rid) && SawNoOfferings(past, j, rid);
      var k :| SawSecretFree(past, k, rid);
      assert SawNoOfferings(log, j, rid) && SawSecretFree(log, k, rid);
    } else {
      var key: Key, j, k :| key.ns == ns && MayRelease(past, rid, key)
        && SawNoStorage(past, j, rid, ns) && SawOfferingFree(past, k, rid, key);
      assert SawNoStorage(log, j, rid, ns) && SawOfferingFree(log, k, rid, key);
    }
  }

  /** A StorageCluster is deleted only for an offering read as deleting, after reading phase Ready
      and then an empty consumer list. */
  lemma StorageGoesOnlyWhenIdle(es: seq<Event>, i: nat, ns: string)
    requires i < |Run(Start(), es).log| && Run(Start(), es).log[i].call == DeleteStorage(ns)
    ensures var log := Run(Start(), es).log;
            var rid := log[i].rid;
            exists key: Key, g, j, k :: key.ns == ns && g < j < k < i
              && ReadMarked(log, g, rid, key) && SawStorageReady(log, j, rid, ns) && SawNoConsumers(log, k, rid)
  {
    EveryCallIsJustified(es, i);
    var log := Run(Start(), es).log;
    var past, rid := log[..i], log[i].rid;
    var key: Key, g, j, k :| key.ns == ns && g < j < k
      && ReadMarked(past, g, rid, key) && SawStorageReady(past, j, rid, ns) && SawNoConsumers(past, k, rid);
    assert ReadMarked(log, g, rid, key) && SawStorageReady(log, j, rid, ns) && SawNoConsumers(log, k, rid);
  }

  // ----- one number, one reconcile -----

  ghost predicate Numbered(w: World) {
    && (forall i :: 0 <= i < |w.log| ==> w.log[i].rid < w.rids)
    && (!w.off.Idle? ==> w.off.rid < w.rids)
    && (!w.sec.Idle? ==> w.sec.rid < w.rids)
  }

  lemma ReplyKeepsNumber(l: Sec.Local, known: set<string>, r: Reply, created: nat)
    requires !l.Idle?
    ensures var m := Sec.AfterReply(l, known, r, created); m.Idle? || m.rid == l.rid
  {
    Sec.PhasesStay(l, known, r);
  }

  lemma OfferingReplyKeepsNumber(l: Off.Local, known: set<string>, r: Reply)
    requires !l.Idle?
    ensures var next := Off.AfterReply(l, known, r); next.Exit? || next.local.Idle? || next.local.rid == l.rid
  {
  }

  lemma DoKeepsNumbers(w: World, e: Event)
    requires Numbered(w)
    ensures Numbered(Do(w, e))
  {
    if e.OfferingCall? && w.up && !w.off.Idle? {
      OfferingReplyKeepsNumber(w.off, w.known, Deliver(w.cluster, Off.NextCall(w.off), e.fate, []).1);
    } else if e.SecretCall? && w.up && !w.sec.Idle? {
      ReplyKeepsNumber(w.sec, w.known, Deliver(w.cluster, Sec.NextCall(w.sec), e.fate, e.order).1, w.created);
    }
  }

  lemma {:induction false} RunKeepsNumbers(es: seq<Event>)
    ensures Numbered(Run(Start(), es))
  {
    if es != [] {
      RunKeepsNumbers(es[..|es| - 1]);
      DoKeepsNumbers(Run(Start(), es[..|es| - 1]), es[|es| - 1]);
    }
  }

  /** A reconcile starts with a number no entry of the log carries, so that evidence under its number is its own. */
  lemma StartsAreFresh(es: seq<Event>, e: Event)
    requires e.StartOffering? || e.StartSecret?
    ensures var w, v := Run(Start(), es), Do(Run(Start(), es), e);
            && (forall i :: 0 <= i < |v.log| ==> v.log[i].rid < w.rids)
            && (v.off != w.off ==> v.off.rid == w.rids < v.rids)
            && (v.sec != w.sec ==> v.sec.rid == w.rids < v.rids)
  {
    RunKeepsNumbers(es);
  }
}
