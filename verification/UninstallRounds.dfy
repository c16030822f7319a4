/** Whole reconciles: what one complete reconcile without failures does to an uninstall, whatever the order of
    the lists. A process that exits for a missing watch is started again. */
module UninstallRounds {
  import opened ObjectMeta
  import opened Cluster
  import opened Runs
  import opened StorageSafety
  import opened ConcurrencyControl
  import opened UninstallProgress
  import Off = OfferingMachine
  import Sec = SecretMachine

  // ----- running a reconcile to its end -----

  /** A bound on the calls an offering reconcile still issues. */
  function CallsLeft(l: Off.Local): nat {
    if l.Idle? then 0 else if l.Reading? then 40
    else
      match l.pc
      case CheckStorage => 30
      case DropFinalizer => 29
      case DropNamespace => 28
      case AddFinalizer => 30
      case Olm(i) => if i < 2 then 27 - i else 25
      case Gate(_) => 1
      case ReadForDelete => 20
      case CheckConsumers => 19
      case DropStorage => 18
      case OnboardingKey => 20
      case ReadForUpdate => 19
      case WriteNewStorage => 18
      case WriteStorage => 18
      case AfterStorage(i) => if i < 5 then 17 - i else 12
      case ClientPhase(i) => if i < 4 then 20 - i else 16
  }

  lemma CallsRunOut(l: Off.Local, known: set<string>, r: Reply)
    requires !l.Idle?
    ensures var next := Off.AfterReply(l, known, r); next.Go? ==> CallsLeft(next.local) < CallsLeft(l)
  {
  }

  /** The rest of an offering reconcile, every call served. */
  function FinishOffering(w: World): World
    decreases CallsLeft(w.off)
  {
    if !w.up || w.off.Idle? then w
    else
      CallsRunOut(w.off, w.known, Deliver(w.cluster, Off.NextCall(w.off), Served, []).1);
      FinishOffering(Do(w, OfferingCall(Served)))
  }

  function SecretStage(l: Sec.Local): nat {
    if l.Idle? then 0 else if l.Reading? then 4
    else
      match l.pc
      case ListAll => 3
      case AddFinalizer => 3
      case DropFinalizer => 2
      case DropNamespace => 1
      case DeleteNext(_) => 1
      case Install(_) => 1
  }

  function StageLeft(l: Sec.Local): nat {
    if !l.Working? then 0
    else
      match l.pc
      case DeleteNext(i) => if i < |l.items| then |l.items| - i else 0
      case Install(phase) => if phase < Sec.PHASES then Sec.PHASES - phase else 0
      case _ => 0
  }

  lemma StagesRunOut(l: Sec.Local, known: set<string>, r: Reply, created: nat)
    requires !l.Idle?
    ensures var m := Sec.AfterReply(l, known, r, created);
            SecretStage(m) < SecretStage(l) ||
            (SecretStage(m) == SecretStage(l) && StageLeft(m) < StageLeft(l))
  {
    if l.Reading? {
      if r.ASecret? {
        Sec.EnterPhaseStays(Sec.Working(l.rid, Sec.ListAll, r.secret, [], 0), 0, known);
      }
    } else if l.pc.AddFinalizer? && r.ASecret? {
      Sec.EnterPhaseStays(l.(obj := r.secret), 0, known);
    } else if l.pc.Install? {
      Sec.EnterPhaseStays(l, l.pc.phase + 1, known);
    }
  }

  /** The rest of a Secret reconcile, every call served and the list in this order. */
  function FinishSecret(w: World, order: seq<Key>): World
    decreases SecretStage(w.sec), StageLeft(w.sec)
  {
    if !w.up || w.sec.Idle? then w
    else
      StagesRunOut(w.sec, w.known, Deliver(w.cluster, Sec.NextCall(w.sec), Served, order).1, w.created);
      FinishSecret(Do(w, SecretCall(Served, order)), order)
  }

  /** One complete offering reconcile; Boot does nothing unless the process exited. */
  function OfferingRound(w: World, key: Key): World {
    Do(FinishOffering(Do(w, StartOffering(key))), Boot)
  }

  function SecretRound(w: World, order: seq<Key>): World {
    FinishSecret(Do(w, StartSecret), order)
  }

  // ----- they are runs -----

  lemma RunCons(w: World, e: Event, es: seq<Event>)
    ensures Run(w, [e] + es) == Run(Do(w, e), es)
  {
    assert [e][..0] == [];
    RunConcat(w, [e], es);
  }

  lemma {:induction false} FinishOfferingIsRun(w: World) returns (es: seq<Event>)
    ensures FinishOffering(w) == Run(w, es) && forall i :: 0 <= i < |es| ==> es[i] == OfferingCall(Served)
    decreases CallsLeft(w.off)
  {
    es := [];
    if w.up && !w.off.Idle? {
      CallsRunOut(w.off, w.known, Deliver(w.cluster, Off.NextCall(w.off), Served, []).1);
      es := FinishOfferingIsRun(Do(w, OfferingCall(Served)));
      RunCons(w, OfferingCall(Served), es);
      es := [OfferingCall(Served)] + es;
    }
  }

  lemma {:induction false} FinishSecretIsRun(w: World, order: seq<Key>) returns (es: seq<Event>)
    ensures FinishSecret(w, order) == Run(w, es) && forall i :: 0 <= i < |es| ==> es[i] == SecretCall(Served, order)
    decreases SecretStage(w.sec), StageLeft(w.sec)
  {
    es := [];
    if w.up && !w.sec.Idle? {
      StagesRunOut(w.sec, w.known, Deliver(w.cluster, Sec.NextCall(w.sec), Served, order).1, w.created);
      es := FinishSecretIsRun(Do(w, SecretCall(Served, order)), order);
      RunCons(w, SecretCall(Served, order), es);
      es := [SecretCall(Served, order)] + es;
    }
  }

  /** A round is a run: the start, served calls only, and a restart if the process exited; it ends idle. */
  lemma OfferingRoundIsRun(w: World, key: Key) returns (calls: seq<Event>)
    requires Inv(w) && w.up && w.off.Idle? && w.sec.Idle?
    ensures forall i :: 0 <= i < |calls| ==> calls[i] == OfferingCall(Served)
    ensures OfferingRound(w, key) == Run(w, [StartOffering(key)] + calls + [Boot])
    ensures var v := OfferingRound(w, key); v.up && v.off.Idle? && v.sec.Idle? && Inv(v)
  {
    var started := Do(w, StartOffering(key));
    DoKeepsInv(w, StartOffering(key));
    FinishOfferingKeeps(started);
    calls := FinishOfferingIsRun(started);
    RunCons(w, StartOffering(key), calls);
    RunSnoc(w, [StartOffering(key)] + calls, Boot);
    DoKeepsInv(FinishOffering(started), Boot);
  }

  lemma SecretRoundIsRun(w: World, order: seq<Key>) returns (calls: seq<Event>)
    requires Inv(w) && w.up && w.off.Idle? && w.sec.Idle?
    ensures forall i :: 0 <= i < |calls| ==> calls[i] == SecretCall(Served, order)
    ensures SecretRound(w, order) == Run(w, [StartSecret] + calls)
    ensures var v := SecretRound(w, order); v.up && v.off.Idle? && v.sec.Idle? && Inv(v)
  {
    var started := Do(w, StartSecret);
    DoKeepsInv(w, StartSecret);
    FinishSecretKeeps(started, order);
    calls := FinishSecretIsRun(started, order);
    RunCons(w, StartSecret, calls);
  }

  // ----- what every reconcile of an uninstall keeps -----

  /** The Secret is being deleted, it decodes, and nobody else's finalizer is left. */
  ghost predicate Winding(c: Cluster) {
    && c.secret.Some? && c.secret.value.deleting && c.secret.value.parses
    && Without(c.secret.value.finalizers, FINALIZER) == []
    && forall key :: key in c.offerings ==> Without(c.offerings[key].finalizers, FINALIZER) == []
  }

  lemma SecretUpdateKeepsWinding(c: Cluster, l: Sec.Local, fate: Fate, order: seq<Key>)
    requires Winding(c) && !l.Idle? && SecretInv(c, l)
    ensures var d := Deliver(c, Sec.NextCall(l), fate, order).0;
            d.secret.Some? ==>
              Without(d.secret.value.finalizers, FINALIZER) == [] && d.secret.value.deleting && d.secret.value.parses
  {
    if l.Working? && (l.pc.DropFinalizer? || l.pc.AddFinalizer?) {
      WithoutIgnores(l.obj.finalizers, FINALIZER);
      FinalizerUpdateKeepsWinding(c, l.obj, Sec.NextCall(l), fate, order);
    } else {
      OtherCallsKeepSecret(c, Sec.NextCall(l), fate, order);
    }
  }

  lemma FinalizerUpdateKeepsWinding(c: Cluster, copy: Secret, call: Call, fate: Fate, order: seq<Key>)
    requires Winding(c) && FreshSecret(c, copy) && call.UpdateSecret?
    requires call.secret == copy.(finalizers := call.secret.finalizers)
    requires Without(call.secret.finalizers, FINALIZER) == Without(copy.finalizers, FINALIZER)
    ensures var d := Deliver(c, call, fate, order).0;
            d.secret.Some? ==>
              Without(d.secret.value.finalizers, FINALIZER) == [] && d.secret.value.deleting && d.secret.value.parses
  {
  }

  lemma OtherCallsKeepSecret(c: Cluster, call: Call, fate: Fate, order: seq<Key>)
    requires !call.UpdateSecret?
    ensures Deliver(c, call, fate, order).0.secret == c.secret
  {
  }

  lemma CallKeepsWinding(w: World, e: Event)
    requires Inv(w) && AgentStep(e) && Winding(w.cluster)
    ensures var d := Do(w, e).cluster; d.secret.Some? ==> Winding(d)
  {
    StepTouchesOnlyItsFinalizer(w, e);
    if e.SecretCall? && w.up && !w.sec.Idle? {
      SecretUpdateKeepsWinding(w.cluster, w.sec, e.fate, e.order);
    } else if e.OfferingCall? && w.up && !w.off.Idle? {
      OtherCallsKeepSecret(w.cluster, Off.NextCall(w.off), e.fate, []);
    }
  }

  lemma {:induction false} FinishOfferingKeeps(w: World)
    requires Inv(w) && w.sec.Idle? && (w.up || w.off.Idle?)
    ensures var v := FinishOffering(w);
            && Inv(v) && v.off.Idle? && v.sec.Idle? && v.known == w.known
            && Potential(v) <= Potential(w)
            && (Winding(w.cluster) && v.cluster.secret.Some? ==> Winding(v.cluster))
    decreases CallsLeft(w.off)
  {
    if w.up && !w.off.Idle? {
      var e := OfferingCall(Served);
      CallsRunOut(w.off, w.known, Deliver(w.cluster, Off.NextCall(w.off), Served, []).1);
      DoKeepsInv(w, e);
      PotentialDescends(w, e);
      OtherCallsKeepSecret(w.cluster, Off.NextCall(w.off), Served, []);
      if Winding(w.cluster) { CallKeepsWinding(w, e); }
      StaysBetween(w);
      FinishOfferingKeeps(Do(w, e));
    }
  }

  lemma StaysBetween(w: World)
    requires w.sec.Idle? && w.up && !w.off.Idle?
    ensures var v := Do(w, OfferingCall(Served)); v.sec.Idle? && (v.up || v.off.Idle?) && v.known == w.known
  {
  }

  lemma {:induction false} FinishSecretKeeps(w: World, order: seq<Key>)
    requires Inv(w) && w.off.Idle? && w.up
    ensures var v := FinishSecret(w, order);
            && Inv(v) && v.up && v.off.Idle? && v.sec.Idle? && v.known == w.known
            && Potential(v) <= Potential(w)
            && (w.cluster.secret.None? ==> v.cluster.secret.None?)
            && (Winding(w.cluster) && v.cluster.secret.Some? ==> Winding(v.cluster))
    decreases SecretStage(w.sec), StageLeft(w.sec)
  {
    if !w.sec.Idle? {
      var e := SecretCall(Served, order);
      StagesRunOut(w.sec, w.known, Deliver(w.cluster, Sec.NextCall(w.sec), Served, order).1, w.created);
      DoKeepsInv(w, e);
      PotentialDescends(w, e);
      StepShrinks(w, e);
      if Winding(w.cluster) {
        CallKeepsWinding(w, e);
      }
      FinishSecretKeeps(Do(w, e), order);
    }
  }
}
