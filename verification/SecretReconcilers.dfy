/** The reconciler of the config Secret as the agent runs it, statement by statement; every API call it issues is
    proved to be the call SecretMachine issues next. */
module SecretReconcilers {
  import opened ObjectMeta
  import opened Cluster
  import opened Runs
  import opened Client
  import Sec = SecretMachine

  /** The result and error a Secret reconcile returns, from its last call and the number of failed deletes. */
  function SecretOutcome(c: SecretCalled, errors: nat): Outcome {
    var r := c.reply;
    if !c.local.Working? then if r.NotFound? then Finished else Error
    else
      match c.local.pc
      case ListAll => if r.Listed? then Finished else Error
      case DeleteNext(_) => if errors > 0 then Error else Requeue
      case DropNamespace => if r.Done? || r.NotFound? then Finished else Error
      case Install(_) => if r.Done? then Finished else Error
      case _ => Error
  }

  /** A complete Secret reconcile in world w, and what it returns. */
  ghost predicate SecretExecution(w: World, es: seq<Event>, outcome: Outcome) {
    && es != [] && es[0] == StartSecret
    && (forall i :: 1 <= i < |es| ==> Continues(Secrets, es[i]))
    && Run(w, es).sec.Idle?
    && LastSecretCall(w, es).Some? && outcome == SecretOutcome(LastSecretCall(w, es).value, Errors(w, es))
  }

  // ----- failures -----

  /** A write that meets no object ends the reconcile with an error. */
  lemma NotFoundIsError(c: SecretCalled, known: set<string>, created: nat, errors: nat)
    requires !c.local.Idle? && c.reply.NotFound?
    requires var call := Sec.NextCall(c.local); call.UpdateSecret? || call.Ensure? || call.ListOfferings?
    ensures SecretOutcome(c, errors) == Error && Sec.AfterReply(c.local, known, c.reply, created).Idle?
  {
  }

  /** The loop goes on alike whatever a delete returned. */
  lemma LoopIgnoresReplies(l: Sec.Local, known: set<string>, r: Reply, created: nat)
    requires l.Working? && l.pc.DeleteNext?
    ensures Sec.AfterReply(l, known, r, created) == Sec.AfterReply(l, known, Done, created)
  {
  }

  /** The reconcile is in the loop over the offerings, or over. */
  predicate Looping(l: Sec.Local) {
    l.Idle? || (l.Working? && l.pc.DeleteNext?)
  }

  lemma LoopGoesOn(w: World, e: Event)
    requires Looping(w.sec) && Continues(Secrets, e)
    ensures Looping(Do(w, e).sec)
  {
  }

  lemma {:induction false} LoopStays(w: World, es: seq<Event>, k: nat)
    requires k <= |es| && Looping(Run(w, es[..k]).sec) && forall i :: k <= i < |es| ==> Continues(Secrets, es[i])
    ensures Looping(Run(w, es).sec)
  {
    if k < |es| {
      var front := es[..|es| - 1];
      assert front[..k] == es[..k];
      LoopStays(w, front, k);
      LoopGoesOn(Run(w, front), es[|es| - 1]);
    } else {
      assert es[..k] == es;
    }
  }

  lemma {:induction false} ErrorsAddUp(w: World, es: seq<Event>, k: nat)
    requires 0 < k <= |es| && LastSecretCall(w, es[..k]).Some? && FailedDelete(LastSecretCall(w, es[..k]).value)
    ensures Errors(w, es) > 0
  {
    if k < |es| {
      assert es[..|es| - 1][..k] == es[..k];
      ErrorsAddUp(w, es[..|es| - 1], k);
    } else {
      assert es[..k] == es;
    }
  }

  /** The k-th event is a call of this reconcile, and it got no answer. */
  ghost predicate FailedAt(w: World, es: seq<Event>, k: nat)
    requires 0 < k <= |es|
  {
    LastSecretCall(w, es[..k]).Some? && LastSecretCall(w, es[..k]).value.reply.Failed?
  }

  /** A failed call ends the reconcile, except in the loop, where it is the end that is an error. */
  lemma FailureEndsOrLoops(w: World, es: seq<Event>, k: nat)
    requires 0 < k <= |es| && FailedAt(w, es, k)
    ensures Run(w, es[..k]).sec.Idle? || FailedDelete(LastSecretCall(w, es[..k]).value)
  {
    var front := es[..k][..k - 1];
    var l := Run(w, front).sec;
    assert Run(w, es[..k]) == Do(Run(w, front), es[..k][k - 1]);
  }

  /** Whichever call of a Secret reconcile fails, it returns an error, never a requeue. */
  lemma AnyFailureIsError(w: World, es: seq<Event>, outcome: Outcome, k: nat)
    requires SecretExecution(w, es, outcome) && 0 < k <= |es| && FailedAt(w, es, k)
    ensures outcome == Error
  {
    var last := LastSecretCall(w, es).value;
    FailureEndsOrLoops(w, es, k);
    if FailedDelete(LastSecretCall(w, es[..k]).value) {
      ErrorsAddUp(w, es, k);
      var l := Run(w, es[..k][..k - 1]).sec;
      assert es[..k][..k - 1] == es[..k - 1];
      LoopStays(w, es[..|es| - 1], k - 1) by {
        assert es[..|es| - 1][..k - 1] == es[..k - 1];
      }
    } else if k < |es| {
      SecretIdleStaysIdle(w, es[..|es| - 1], k) by {
        assert es[..|es| - 1][..k] == es[..k];
      }
    } else {
      assert es[..k] == es;
    }
  }

  lemma {:induction false} SecretIdleStaysIdle(w: World, es: seq<Event>, k: nat)
    requires 1 <= k <= |es| && Run(w, es[..k]).sec.Idle? && forall i :: k <= i < |es| ==> Continues(Secrets, es[i])
    ensures Run(w, es).sec.Idle?
  {
    if k < |es| {
      var front := es[..|es| - 1];
      assert front[..k] == es[..k];
      SecretIdleStaysIdle(w, front, k);
    } else {
      assert es[..k] == es;
    }
  }

  /** Main result, the Secret: two reconciles in the same world that meet the same events, in the same order, run the
      same calls and return the same, whatever was left in the field. */
  lemma SecretFieldsPlayNoPart(w: World, es: seq<Event>, x: Outcome, fs: seq<Event>, y: Outcome, schedule: seq<Event>)
    requires SecretExecution(w, es, x) && SecretExecution(w, fs, y)
    requires es <= schedule && fs <= schedule
    ensures es == fs && x == y
  {
    if |es| < |fs| {
      assert fs[..|es|] == es && fs[..|fs| - 1][..|es|] == es;
      SecretIdleStaysIdle(w, fs[..|fs| - 1], |es|);
    } else if |fs| < |es| {
      assert es[..|fs|] == fs && es[..|es| - 1][..|fs|] == fs;
      SecretIdleStaysIdle(w, es[..|es| - 1], |fs|);
    }
  }

  class SecretReconciler {
    var client: Api
    var secret: Secret

    constructor (client: Api, stale: Secret)
      ensures this.client == client
    {
      this.client, this.secret := client, stale;
    }

    /** A reconcile is over, or has entered the phases at some point of the order. */
    ghost predicate At(l: Sec.Local)
      reads this, client
    {
      Live() && client.world.sec == l
    }

    ghost predicate Live()
      reads this, client
    {
      client.Valid() && client.self == Secrets && client.world.up
    }

    /** The reconcile is over, and this is what it returns. */
    ghost predicate Over(outcome: Outcome)
      reads this, client
    {
      && At(Sec.Idle)
      && client.lastSecret.Some? && outcome == SecretOutcome(client.lastSecret.value, client.errors)
    }

    /** The same reconcile goes on. */
    twostate predicate Onward()
      reads this, client
    {
      client == old(client) && client.origin == old(client.origin) && client.first == old(client.first)
    }

    /** initReconciler */
    method Begin()
      requires client.world.up && client.world.sec.Idle?
      modifies client
      ensures Live() && client.origin == old(client.world) && client.first == StartSecret && client.errors == 0
      ensures client.world ==
              old(client.world).(sec := Sec.Reading(old(client.world).rids), rids := old(client.world).rids + 1)
    {
      client.Begin(Secrets, StartSecret);
    }

    /** Main contract: one execution is a complete reconcile of the Secret in the world it finds, and returns what
        its last call and the failed deletes decide. */
    method Reconcile() returns (outcome: Outcome)
      requires client.world.up && client.world.sec.Idle?
      modifies this, client
      ensures client == old(client) && client.world == Run(old(client.world), client.trace)
      ensures SecretExecution(old(client.world), client.trace, outcome)
    {
      Begin();
      var r := client.Secret(GetSecret);
      if r.ASecret? {
        secret := r.secret;
        if secret.parses {
          outcome := ReconcilePhases();
        } else {
          outcome := Error;
        }
      } else {
        outcome := if r.NotFound? then Finished else Error;
      }
      assert client.Records(client.trace);
    }

    method ReconcilePhases() returns (outcome: Outcome)
      requires Live() && client.errors == 0 && secret.parses
      requires exists rid :: client.world.sec == Sec.Opened(rid, secret, client.world.known)
      modifies this, client
      ensures Onward()
      ensures Over(outcome)
    {
      if secret.deleting {
        outcome := Uninstall();
      } else {
        outcome := Install();
      }
    }

    /** The branch for a Secret that is here to stay. */
    method Install() returns (outcome: Outcome)
      requires Live() && secret.parses && !secret.deleting
      requires exists rid :: client.world.sec == Sec.Opened(rid, secret, client.world.known)
      modifies this, client
      ensures Onward()
      ensures Over(outcome)
    {
      ghost var rid :| client.world.sec == Sec.Opened(rid, secret, client.world.known);
      ghost var l := Sec.Working(rid, Sec.ListAll, secret, [], 0);
      ghost var first: nat := 0;
      var found := Contains(secret.finalizers, FINALIZER);
      if !found {
        var r := client.Secret(UpdateSecret(secret.(finalizers := secret.finalizers + [FINALIZER])));
        if !r.ASecret? {
          return Error;
        }
        secret := r.secret;
        l := l.(pc := Sec.AddFinalizer, obj := secret);
      }
      assert At(Sec.EnterPhase(l, first, client.world.known));
      outcome := InstallPhases();
    }

    /** The branch for a Secret marked for deletion. */
    method Uninstall() returns (outcome: Outcome)
      requires Live() && client.errors == 0
      requires client.world.sec.Working? && client.world.sec.pc.ListAll? && client.world.sec.obj == secret
      modifies this, client
      ensures Onward()
      ensures Over(outcome)
    {
      ghost var l := client.world.sec;
      var r := client.Secret(ListOfferings);
      ghost var created :| client.world.sec == Sec.AfterReply(l, client.world.known, r, created);
      if !r.Listed? {
        return Error;
      }
      if |r.items| > 0 {
        assert client.world.sec == Sec.SkipMarked(Sec.Working(l.rid, l.pc, secret, r.items, created), 0);
        outcome := DeleteOfferings(r.items);
      } else {
        outcome := LetGo();
      }
    }

    /** No offering is left: release the Secret, then delete the agent's namespace. */
    method LetGo() returns (outcome: Outcome)
      requires Live() && client.world.sec.Working? && client.world.sec.obj == secret
      requires client.world.sec.pc == if FINALIZER in secret.finalizers then Sec.DropFinalizer else Sec.DropNamespace
      modifies this, client
      ensures Onward()
      ensures Over(outcome)
    {
      var found := Contains(secret.finalizers, FINALIZER);
      if found {
        var finalizers := Remove(secret.finalizers, FINALIZER);
        var r := client.Secret(UpdateSecret(secret.(finalizers := finalizers)));
        if !r.ASecret? {
          return Error;
        }
        secret := r.secret;
      }
      var r := client.Secret(DeleteNamespace(AGENT_NAMESPACE));
      return if r.Done? || r.NotFound? then Finished else Error;
    }

    /** Delete every listed offering that is not marked yet, collecting errors instead of stopping. */
    method DeleteOfferings(items: seq<Item>) returns (outcome: Outcome)
      requires Live() && client.errors == 0 && client.lastSecret.Some? && client.lastSecret.value.local.Working?
      requires client.lastSecret.value.local.pc.ListAll? && client.lastSecret.value.reply.Listed?
      requires exists rid, pc, seen ::
                 client.world.sec == Sec.SkipMarked(Sec.Working(rid, pc, secret, items, seen), 0)
      modifies client
      ensures Onward()
      ensures Over(outcome)
      ensures outcome == Finished <==> forall i :: 0 <= i < |items| ==> items[i].deleting
    {
      var found, errors := false, 0;
      ghost var rid, pc, seen :| client.world.sec == Sec.SkipMarked(Sec.Working(rid, pc, secret, items, seen), 0);
      ghost var l := Sec.Working(rid, pc, secret, items, seen);
      for i := 0 to |items|
        invariant Live() && Onward()
        invariant found <==> exists j :: 0 <= j < i && !items[j].deleting
        invariant errors > 0 ==> found
        invariant l.Working? && l.items == items && client.world.sec == Sec.SkipMarked(l, i)
        invariant errors == client.errors && client.lastSecret.Some?
        invariant SecretOutcome(client.lastSecret.value, errors) ==
                  if errors > 0 then Error else if found then Requeue else Finished
      {
        if !items[i].deleting {
          found := true;
          l := l.(pc := Sec.DeleteNext(i));
          var r := client.Secret(DeleteOffering(items[i].key));
          if !r.Done? && !r.NotFound? {
            errors := errors + 1;
          }
        }
      }
      return if errors > 0 then Error else if found then Requeue else Finished;
    }

    /** The last call was a phase, and it succeeded. */
    ghost predicate Installed()
      reads client, this
    {
      && client.lastSecret.Some? && client.lastSecret.value.reply.Done?
      && client.lastSecret.value.local.Working? && client.lastSecret.value.local.pc.Install?
    }

    /** The reconcile goes on with this phase, or with the next enabled one. */
    ghost predicate InPhase(phase: nat)
      reads this, client
    {
      && (phase > 0 ==> Installed())
      && (exists l: Sec.Local, p: nat :: p == phase && l.Working? && At(Sec.EnterPhase(l, p, client.world.known)))
    }

    /** One phase; skipped when it is not enabled. */
    method Phase(phase: nat) returns (ok: bool)
      requires phase < Sec.PHASES && InPhase(phase)
      modifies client
      ensures Onward()
      ensures if ok then InPhase(phase + 1) else Over(Error)
    {
      ghost var l: Sec.Local :| l.Working? && At(Sec.EnterPhase(l, phase, client.world.known));
      if !Sec.Enabled(phase, client.world.known) {
        return true;
      }
      assert client.world.sec == l.(pc := Sec.Install(phase));
      var r := client.Secret(Ensure(AgentObject(phase)));
      if r.Done? {
        assert At(Sec.EnterPhase(l.(pc := Sec.Install(phase)), phase + 1, client.world.known));
      }
      return r.Done?;
    }

    /** Relabel Secret, RBAC ConfigMap, Service. */
    method InstallPrometheusInputs() returns (ok: bool)
      requires InPhase(0)
      modifies client
      ensures Onward()
      ensures if ok then InPhase(3) else Over(Error)
    {
      ok := Phase(0);
      if !ok { return; }
      ok := Phase(1);
      if !ok { return; }
      ok := Phase(2);
    }

    /** Prometheus and Alertmanager, with the Secret and the config of the latter. */
    method InstallMonitoring() returns (ok: bool)
      requires InPhase(3)
      modifies client
      ensures Onward()
      ensures if ok then InPhase(7) else Over(Error)
    {
      ok := Phase(3);
      if !ok { return; }
      ok := Phase(4);
      if !ok { return; }
      ok := Phase(5);
      if !ok { return; }
      ok := Phase(6);
    }

    /** ServiceMonitor, proxy NetworkPolicy, and the egress objects as far as their CRDs were recorded. */
    method InstallNetwork() returns (ok: bool)
      requires InPhase(7)
      modifies client
      ensures Onward()
      ensures if ok then InPhase(11) else Over(Error)
    {
      ok := Phase(7);
      if !ok { return; }
      ok := Phase(8);
      if !ok { return; }
      ok := Phase(9);
      if !ok { return; }
      ok := Phase(10);
    }

    method InstallPhases() returns (outcome: Outcome)
      requires InPhase(0)
      modifies client
      ensures Onward()
      ensures Over(outcome)
    {
      var ok := InstallPrometheusInputs();
      if !ok { return Error; }
      ok := InstallMonitoring();
      if !ok { return Error; }
      ok := InstallNetwork();
      return if ok then Finished else Error;
    }
  }
}
