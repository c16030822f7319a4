/** The offering reconciler as the agent runs it, statement by statement. Every API call it issues is proved to be
    the call OfferingMachine issues next, whatever the earlier replies were and whatever others did in between, so
    each execution is a run of module Runs. */
module OfferingReconcilers {
  import opened Wrappers
  import opened ObjectMeta
  import opened Cluster
  import opened Runs
  import opened Client
  import DeviceSets
  import Off = OfferingMachine

  /** What the plugin returns when it has nothing to call: a DataFoundation offering without a usable key is an
      error, a client offering on its way out is done. */
  function ConfigOutcome(o: Offering): Outcome {
    if o.config.Config? && o.kind == DFC then Finished else Error
  }

  /** The result and error a reconcile returns, from the call that turned out to be its last. */
  function OutcomeOf(c: Called): Outcome {
    var r := c.reply;
    if !c.local.Working? then if r.NotFound? then Finished else Error
    else
      match c.local.pc
      case CheckStorage => if r.AStorage? then ConfigOutcome(c.local.obj) else Error
      case DropNamespace => if r.Done? || r.NotFound? then ConfigOutcome(c.local.obj) else Error
      case Olm(_) => if r.Done? then ConfigOutcome(c.local.obj) else Error
      case Gate(_) => if r.Done? then Exited else Error
      case ReadForDelete => if r.AStorage? then Finished else Error
      case CheckConsumers => if r.Count? then Requeue else Error
      case DropStorage => if r.Done? || r.NotFound? then Finished else Error
      case AfterStorage(_) => if r.Done? then Finished else Error
      case ClientPhase(i) => if r.Done? && i >= 4 then Finished else Error
      case _ => Error
  }

  /** A complete reconcile of this request in world w, and what it returns: it starts once, all calls are the
      machine's, and the last event is the call after which it is idle. */
  ghost predicate Execution(w: World, request: Key, es: seq<Event>, outcome: Outcome) {
    && es != [] && es[0] == StartOffering(request)
    && (forall i :: 1 <= i < |es| ==> Continues(Offerings, es[i]))
    && Run(w, es).off.Idle?
    && LastCall(w, es).Some? && outcome == OutcomeOf(LastCall(w, es).value)
  }

  /** Only a start wakes an idle offering side. */
  lemma {:induction false} IdleStaysIdle(w: World, es: seq<Event>, k: nat)
    requires 1 <= k <= |es| && Run(w, es[..k]).off.Idle? && forall i :: k <= i < |es| ==> Continues(Offerings, es[i])
    ensures Run(w, es).off.Idle?
  {
    if k < |es| {
      var front := es[..|es| - 1];
      assert front[..k] == es[..k];
      IdleStaysIdle(w, front, k);
    } else {
      assert es[..k] == es;
    }
  }

  /** Main result, offerings: two reconciles of one request in the same world that meet the same events, in the
      same order, run the same calls and return the same, whatever was left in the fields. */
  lemma FieldsPlayNoPart(w: World, request: Key, es: seq<Event>, x: Outcome, fs: seq<Event>, y: Outcome,
        schedule: seq<Event>)
    requires Execution(w, request, es, x) && Execution(w, request, fs, y)
    requires es <= schedule && fs <= schedule
    ensures es == fs && x == y
  {
    if |es| < |fs| {
      assert fs[..|es|] == es && fs[..|fs| - 1][..|es|] == es;
      IdleStaysIdle(w, fs[..|fs| - 1], |es|);
    } else if |fs| < |es| {
      assert es[..|fs|] == fs && es[..|es| - 1][..|fs|] == fs;
      IdleStaysIdle(w, es[..|es| - 1], |fs|);
    }
  }

  /** A reconcile whose last call failed returns an error. */
  lemma FailureIsError(c: Called)
    requires !c.local.Idle? && c.reply.Failed?
    ensures OutcomeOf(c) == Error && Off.AfterReply(c.local, c.known, c.reply) == Off.Go(Off.Idle)
  {
  }

  /** A write that meets no object to write, or a gate without its CRD, ends the reconcile with an error; so does
      a plugin that cannot read what it needs. */
  lemma NotFoundIsError(c: Called)
    requires !c.local.Idle? && c.reply.NotFound?
    requires var call := Off.NextCall(c.local);
             call.UpdateOffering? || call.CreateStorage? || call.UpdateStorage? || call.Ensure? || call.GetCrd? ||
               call.ListConsumers?
    ensures OutcomeOf(c) == Error && Off.AfterReply(c.local, c.known, c.reply) == Off.Go(Off.Idle)
  {
  }

  /** A namespace or a StorageCluster that is gone already is as good as deleted. */
  lemma GoneIsDeleted(c: Called)
    requires !c.local.Idle? && c.reply.NotFound?
    requires Off.NextCall(c.local).DeleteNamespace? || Off.NextCall(c.local).DeleteStorage?
    ensures Off.AfterReply(c.local, c.known, c.reply) == Off.AfterReply(c.local, c.known, Done)
    ensures OutcomeOf(c) == OutcomeOf(c.(reply := Done))
  {
  }

  /** A requeue is asked for exactly when the last call found consumers. */
  lemma RequeueIff(c: Called)
    requires !c.local.Idle? && Off.AfterReply(c.local, c.known, c.reply) == Off.Go(Off.Idle)
    ensures OutcomeOf(c) == Requeue <==> Off.NextCall(c.local) == ListConsumers && c.reply.Count? && c.reply.n > 0
  {
  }

  class OfferingReconciler {
    var client: Api
    var namespace: string
    var key: Key
    var offering: Offering
    var storageCluster: Option<StorageCluster>

    constructor (client: Api, stale: Offering)
      ensures this.client == client
    {
      this.client, this.offering := client, stale;
      this.namespace, this.key, this.storageCluster := "", Key("", ""), None;
    }

    /** The fields agree with the machine at program point pc. */
    ghost predicate At(pc: Off.Pc)
      reads this, client
    {
      && Live() && client.world.up
      && client.world.off.Working? && client.world.off.pc == pc
      && client.world.off.key == key && key.ns == namespace
      && client.world.off.obj == offering && client.world.off.sc == storageCluster
    }

    ghost predicate Live()
      reads this, client
    {
      client.Valid() && client.self == Offerings
    }

    /** The reconcile is over, and this is what it returns. */
    ghost predicate Over(outcome: Outcome)
      reads this, client
    {
      && Live() && client.world.off.Idle?
      && (outcome == Exited <==> !client.world.up)
      && client.last.Some? && outcome == OutcomeOf(client.last.value)
    }

    /** The same reconcile goes on. */
    twostate predicate Onward()
      reads this, client
    {
      client == old(client) && client.origin == old(client.origin) && client.first == old(client.first)
    }

    /** initReconciler */
    method Begin(request: Key)
      requires client.world.up && client.world.off.Idle?
      modifies this, client
      ensures client == old(client) && Live() && client.origin == old(client.world)
      ensures client.first == StartOffering(request)
      ensures client.world ==
              old(client.world).(off := Off.Reading(old(client.world).rids, request),
                rids := old(client.world).rids + 1)
      ensures namespace == request.ns && key == request && storageCluster == None
    {
      client.Begin(Offerings, StartOffering(request));
      namespace, key, storageCluster := request.ns, request, None;
    }

    /** Main contract: from any stale field values, one execution is a complete reconcile of this request in the
        world it finds, and returns what its last call decides. */
    method Reconcile(request: Key) returns (outcome: Outcome)
      requires client.world.up && client.world.off.Idle?
      modifies this, client
      ensures client == old(client) && client.world == Run(old(client.world), client.trace)
      ensures Execution(old(client.world), request, client.trace, outcome)
      ensures outcome == Exited <==> !client.world.up
    {
      Begin(request);
      var r := client.Offering(GetOffering(key));
      if r.AnOffering? {
        offering := r.offering;
        outcome := ReconcilePhases();
      } else {
        outcome := if r.NotFound? then Finished else Error;
      }
      assert client.Records(client.trace);
    }

    /** The API part of the branch on DeletionTimestamp is done; the config is decoded next. */
    ghost predicate AtConfig()
      reads this, client
    {
      && Live() && client.world.up && storageCluster == None && key.ns == namespace
      && (exists rid, pc ::
            client.world.off == Off.EnterConfig(Off.Working(rid, key, pc, offering, None), client.world.known))
      && client.last.Some?
      && (client.world.off.Idle? ==> OutcomeOf(client.last.value) == ConfigOutcome(offering))
    }

    method ReconcilePhases() returns (outcome: Outcome)
      requires At(if offering.deleting then Off.CheckStorage else if FINALIZER in offering.finalizers
              then Off.Olm(0) else Off.AddFinalizer)
      requires storageCluster == None
      modifies this, client
      ensures Onward()
      ensures Over(outcome)
    {
      var proceed;
      if offering.deleting {
        proceed := TryToRelease();
      } else {
        proceed := InstallOlmObjects();
      }
      if !proceed || offering.config.Malformed? {
        return Error;
      }
      outcome := PluginReconcile();
    }

    method TryToRelease() returns (proceed: bool)
      requires At(Off.CheckStorage) && storageCluster == None
      modifies this, client
      ensures Onward()
      ensures if proceed then AtConfig() else Over(Error)
    {
      var r := client.Offering(GetStorage(namespace));
      if !r.NotFound? {
        return r.AStorage?;
      }
      var found := Contains(offering.finalizers, FINALIZER);
      if found {
        var finalizers := Remove(offering.finalizers, FINALIZER);
        r := client.Offering(UpdateOffering(key, offering.(finalizers := finalizers)));
        if !r.AnOffering? {
          return false;
        }
        offering := r.offering;
      }
      proceed := DropNamespace();
    }

    method DropNamespace() returns (proceed: bool)
      requires At(Off.DropNamespace) && storageCluster == None
      modifies client
      ensures Onward()
      ensures if proceed then AtConfig() else Over(Error)
    {
      var r := client.Offering(DeleteNamespace(namespace));
      return r.Done? || r.NotFound?;
    }

    method InstallOlmObjects() returns (proceed: bool)
      requires At(if FINALIZER in offering.finalizers then Off.Olm(0) else Off.AddFinalizer) && storageCluster == None
      modifies this, client
      ensures Onward()
      ensures if proceed then AtConfig() else Over(Error)
    {
      var found := Contains(offering.finalizers, FINALIZER);
      if !found {
        var r := client.Offering(UpdateOffering(key, offering.(finalizers := offering.finalizers + [FINALIZER])));
        if !r.AnOffering? {
          return false;
        }
        offering := r.offering;
      }
      proceed := ReconcileOlm();
    }

    method ReconcileOlm() returns (proceed: bool)
      requires At(Off.Olm(0)) && storageCluster == None
      modifies client
      ensures Onward()
      ensures if proceed then AtConfig() else Over(Error)
    {
      proceed := EnsureOne(OperatorGroup, Off.Olm(0));
      if !proceed { return; }
      proceed := EnsureOne(CatalogSource, Off.Olm(1));
      if !proceed { return; }
      proceed := EnsureOne(Subscription, Off.Olm(2));
    }

    method PluginReconcile() returns (outcome: Outcome)
      requires AtConfig() && offering.config.Config?
      modifies this, client
      ensures Onward()
      ensures Over(outcome)
    {
      var crds := Off.Gates(offering.kind);
      if crds[0] !in client.world.known {
        var r := client.Offering(GetCrd(crds[0]));
        return if r.Done? then Exited else Error;
      }
      if crds[1] !in client.world.known {
        var r := client.Offering(GetCrd(crds[1]));
        return if r.Done? then Exited else Error;
      }
      match offering.kind
      case DF =>
        if offering.deleting { outcome := DeleteStorageCluster(); } else { outcome := InstallDataFoundation(); }
      case DFC =>
        if offering.deleting { outcome := Finished; } else { outcome := InstallClient(); }
    }

    method DeleteStorageCluster() returns (outcome: Outcome)
      requires At(Off.ReadForDelete)
      modifies this, client
      ensures Onward()
      ensures Over(outcome)
    {
      var r := client.Offering(GetStorage(namespace));
      if !r.AStorage? { return Error; }
      if !r.sc.ready { return Finished; }
      outcome := DeleteIfUnused();
    }

    method DeleteIfUnused() returns (outcome: Outcome)
      requires At(Off.CheckConsumers)
      modifies client
      ensures Onward()
      ensures Over(outcome)
    {
      var r := client.Offering(ListConsumers);
      if !r.Count? { return Error; }
      if r.n > 0 { return Requeue; }
      r := client.Offering(DeleteStorage(namespace));
      return if r.Done? || r.NotFound? then Finished else Error;
    }

    method InstallDataFoundation() returns (outcome: Outcome)
      requires Live() && client.world.up && storageCluster == None && offering.config.Config? && key.ns == namespace
      requires if offering.config.validationKey == "" then Over(Error) else At(Off.OnboardingKey)
      modifies this, client
      ensures Onward()
      ensures Over(outcome)
    {
      if offering.config.validationKey == "" { return Error; }
      var r := client.Offering(Ensure(OnboardingSecret));
      if !r.Done? { return Error; }
      if offering.config.capacity <= 0 { return Error; }
      var ok := ReconcileStorageCluster();
      if !ok { return Error; }
      outcome := ReconcileAfterStorage();
    }

    method ReconcileAfterStorage() returns (outcome: Outcome)
      requires At(Off.AfterStorage(0))
      modifies this, client
      ensures Onward()
      ensures Over(outcome)
    {
      var ok := EnsureOne(MonitoringLabels, Off.AfterStorage(0));
      if !ok { return Error; }
      ok := EnsureOne(OcsCsv, Off.AfterStorage(1));
      if !ok { return Error; }
      ok := EnsureOne(CephNetworkPolicy, Off.AfterStorage(2));
      if !ok { return Error; }
      outcome := ReconcileRest();
    }

    method ReconcileRest() returns (outcome: Outcome)
      requires At(Off.AfterStorage(3))
      modifies this, client
      ensures Onward()
      ensures Over(outcome)
    {
      var ok := EnsureOne(ProviderNetworkPolicy, Off.AfterStorage(3));
      if !ok { return Error; }
      ok := EnsureOne(RookConfigMap, Off.AfterStorage(4));
      if !ok { return Error; }
      ok := EnsureOne(OcsInitialization, Off.AfterStorage(5));
      return if ok then Finished else Error;
    }

    /** The StorageCluster is created with the count for the capacity if it was not found, left alone if its count is no
        less and the rest is aligned, and else updated to the larger count. */
    ghost predicate LastStorageCall()
      reads this, client
      requires offering.config.Config? && offering.config.capacity > 0
    {
      var wanted := DeviceSets.DesiredCount(offering.config.capacity);
      && client.last.Some?
      && !client.last.value.local.Idle?
      && Off.NextCall(client.last.value.local) ==
         match storageCluster
         case None => CreateStorage(namespace, wanted)
         case Some(sc) =>
           if sc.aligned && wanted <= sc.count then GetStorage(namespace)
           else
             UpdateStorage(namespace, sc.(aligned := true, count := if sc.count < wanted then wanted else sc.count))
    }

    /** CreateOrUpdate of the StorageCluster. */
    method ReconcileStorageCluster() returns (ok: bool)
      requires At(Off.ReadForUpdate) && storageCluster == None
      requires offering.config.Config? && offering.config.capacity > 0
      modifies this, client
      ensures Onward() && offering == old(offering)
      ensures if ok then At(Off.AfterStorage(0)) && LastStorageCall() else client.world.up && Over(Error)
    {
      var r := client.Offering(GetStorage(namespace));
      if r.NotFound? {
        DeviceSets.CountIsPositive(offering.config.capacity);
        ok := WriteStorage(Off.WriteNewStorage, CreateStorage(namespace, Off.NewCount(offering.config, 0)));
        return;
      }
      if !r.AStorage? {
        return false;
      }
      storageCluster := Some(r.sc);
      ok := UpdateStorageCluster(r.sc);
    }

    /** The update half: write the StorageCluster that was read if the desired one differs. */
    method UpdateStorageCluster(sc: StorageCluster) returns (ok: bool)
      requires offering.config.Config? && offering.config.capacity > 0 && storageCluster == Some(sc)
      requires var desired := sc.(count := Off.NewCount(offering.config, sc.count), aligned := true);
               At(if desired == sc then Off.AfterStorage(0) else Off.WriteStorage)
      requires client.last.Some? && !client.last.value.local.Idle?
      requires Off.NextCall(client.last.value.local) == GetStorage(namespace)
      modifies this, client
      ensures Onward() && offering == old(offering)
      ensures if ok then At(Off.AfterStorage(0)) && LastStorageCall() else client.world.up && Over(Error)
    {
      var desired := sc.(count := Off.NewCount(offering.config, sc.count), aligned := true);
      if desired == sc {
        return true;
      }
      ok := WriteStorage(Off.WriteStorage, UpdateStorage(namespace, desired));
    }

    method WriteStorage(ghost pc: Off.Pc, call: Call) returns (ok: bool)
      requires At(pc) && (pc.WriteNewStorage? || pc.WriteStorage?) && Off.NextCall(client.world.off) == call
      modifies client
      ensures Onward()
      ensures if ok then At(Off.AfterStorage(0)) && client.last.Some? && !client.last.value.local.Idle? &&
              Off.NextCall(client.last.value.local) == call
              else client.world.up && Over(Error)
    {
      var r := client.Offering(call);
      return r.Done?;
    }

    /** One CreateOrUpdate, or one update of a listed object, that only continues or gives up. */
    method EnsureOne(resource: Resource, ghost pc: Off.Pc) returns (ok: bool)
      requires At(pc) && (pc.Olm? || pc.AfterStorage? || pc.ClientPhase?)
      requires Off.NextCall(client.world.off) == Ensure(resource)
      modifies client
      ensures Onward() && Live() && client.world.up && client.world.known == old(client.world.known)
      ensures client.last.Some? && client.last.value.local == old(client.world.off)
      ensures (ok <==> client.last.value.reply.Done?)
      ensures client.world.off ==
              if ok then Off.AfterReply(old(client.world.off), old(client.world.known), Done).local else Off.Idle
    {
      var r := client.Offering(Ensure(resource));
      return r.Done?;
    }

    method InstallClient() returns (outcome: Outcome)
      requires At(Off.ClientPhase(0)) && offering.config.Config?
      modifies this, client
      ensures Onward()
      ensures Over(outcome)
    {
      var ok := EnsureOne(OcsClientCsv, Off.ClientPhase(0));
      if !ok { return Error; }
      if offering.config.endpoint == "" { return Error; }
      if offering.config.ticket == "" { return Error; }
      ok := EnsureOne(StorageClient, Off.ClientPhase(1));
      if !ok { return Error; }
      outcome := InstallClaims();
    }

    method InstallClaims() returns (outcome: Outcome)
      requires At(Off.ClientPhase(2)) && offering.config.Config?
      modifies this, client
      ensures Onward()
      ensures Over(outcome)
    {
      var ok := EnsureOne(BlockClaim, Off.ClientPhase(2));
      if !ok { return Error; }
      ok := EnsureOne(FilesystemClaim, Off.ClientPhase(3));
      if !ok { return Error; }
      ok := EnsureOne(KmsConfigMap, Off.ClientPhase(4));
      return if ok then Finished else Error;
    }
  }
}
