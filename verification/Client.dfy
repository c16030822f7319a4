/** The client through which both reconcilers call the API server: every call is a step of the machines of
    OfferingMachine and SecretMachine, and anything may happen before it. */
module Client {
  import opened Wrappers
  import opened Cluster
  import opened Runs
  import Off = OfferingMachine
  import Sec = SecretMachine

  datatype Outcome = Finished | Error | Requeue | Exited

  predicate Foreign(self: Controller, e: Event) {
    match e
    case StartOffering(_) => self != Offerings
    case OfferingCall(_) => self != Offerings
    case StartSecret => self != Secrets
    case SecretCall(_, _) => self != Secrets
    case Environment(_) => true
    case _ => false
  }

  /** What can happen between the calls of one reconcile: no second start of it, and not the end of the process. */
  predicate Continues(self: Controller, e: Event) {
    match e
    case StartOffering(_) => self != Offerings
    case StartSecret => self != Secrets
    case Crash => false
    case Boot => false
    case _ => true
  }

  /** A call of an offering reconcile: where it stood, the CRDs recorded, and the reply. */
  datatype Called = Called(local: Off.Local, known: set<string>, reply: Reply)

  /** The call an event issues in world w, if it does. */
  function CallOf(w: World, e: Event): Option<Called> {
    if !e.OfferingCall? || !w.up || w.off.Idle? then None
    else Some(Called(w.off, w.known, Deliver(w.cluster, Off.NextCall(w.off), e.fate, []).1))
  }

  /** The call that was the last event of a run, if it was one. */
  ghost function LastCall(w: World, es: seq<Event>): Option<Called> {
    if es == [] then None else CallOf(Run(w, es[..|es| - 1]), es[|es| - 1])
  }

  /** A call of a Secret reconcile: where it stood, and the reply. */
  datatype SecretCalled = SecretCalled(local: Sec.Local, reply: Reply)

  function SecretCallOf(w: World, e: Event): Option<SecretCalled> {
    if !e.SecretCall? || !w.up || w.sec.Idle? then None
    else Some(SecretCalled(w.sec, Deliver(w.cluster, Sec.NextCall(w.sec), e.fate, e.order).1))
  }

  ghost function LastSecretCall(w: World, es: seq<Event>): Option<SecretCalled> {
    if es == [] then None else SecretCallOf(Run(w, es[..|es| - 1]), es[|es| - 1])
  }

  /** A delete of an offering that failed. */
  predicate FailedDelete(c: SecretCalled) {
    c.local.Working? && c.local.pc.DeleteNext? && !c.reply.Done? && !c.reply.NotFound?
  }

  /** How many deletes failed in a run. */
  ghost function Errors(w: World, es: seq<Event>): nat {
    if es == [] then 0
    else
      var last := LastSecretCall(w, es);
      Errors(w, es[..|es| - 1]) + if last.Some? && FailedDelete(last.value) then 1 else 0
  }

  /** The client: a handle on the world, with the run since the reconcile started as history. */
  class Api {
    var world: World
    ghost var self: Controller
    ghost var origin: World
    ghost var first: Event
    ghost var trace: seq<Event>
    ghost var last: Option<Called>
    ghost var lastSecret: Option<SecretCalled>
    ghost var errors: nat

    /** These events are a run to the present world that starts once, and the other fields are about it. */
    ghost predicate Records(es: seq<Event>)
      reads this
    {
      && es != [] && es[0] == first
      && (forall i :: 1 <= i < |es| ==> Continues(self, es[i]))
      && world == Run(origin, es)
      && last == LastCall(origin, es) && lastSecret == LastSecretCall(origin, es) && errors == Errors(origin, es)
    }

    /** Quantified, so that the definition of a run is in sight only where Records is asked for. */
    ghost predicate Valid()
      reads this
    {
      forall es :: es == trace ==> Records(es)
    }

    constructor (w: World)
      ensures world == w
    {
      world := w;
    }

    method Begin(self: Controller, e: Event)
      modifies this
      ensures Valid() && this.self == self && origin == old(world) && first == e
      ensures world == Do(old(world), e)
      ensures !e.SecretCall? ==> errors == 0
    {
      RunSnoc(world, [], e);
      assert [] + [e] == [e] && [e][..0] == [];
      this.self, origin, first, trace := self, world, e, [e];
      world := Do(world, e);
      last, lastSecret, errors := LastCall(origin, trace), LastSecretCall(origin, trace), Errors(origin, trace);
      assert trace[..|trace| - 1] == [] && Run(origin, []) == origin && Errors(origin, []) == 0;
      assert Records(trace);
    }

    /** One more event, and its history. */
    method Append(e: Event)
      requires Valid() && Continues(self, e)
      modifies this
      ensures Valid() && world == Do(old(world), e)
      ensures origin == old(origin) && self == old(self) && first == old(first)
      ensures last == CallOf(old(world), e) && lastSecret == SecretCallOf(old(world), e)
      ensures errors == old(errors) + if lastSecret.Some? && FailedDelete(lastSecret.value) then 1 else 0
    {
      assert Records(trace);
      RunSnoc(origin, trace, e);
      trace := trace + [e];
      assert trace[..|trace| - 1] == old(trace);
      last, lastSecret := CallOf(world, e), SecretCallOf(world, e);
      world, errors := Do(world, e), Errors(origin, trace);
      assert Records(trace);
    }

    /** What may happen before a call of one controller: everything but its own steps and the end
        of the process. */
    method Others(who: Controller)
      requires Valid() && who == self
      modifies this
      ensures Valid() && origin == old(origin) && self == old(self) && first == old(first)
      ensures world.up == old(world.up) && world.known == old(world.known)
      ensures self == Offerings ==> world.off == old(world.off)
      ensures self == Secrets ==> world.sec == old(world.sec) && errors == old(errors)
    {
      var events: seq<Event> := *;
      for i := 0 to |events|
        invariant Valid() && origin == old(origin) && self == old(self) && first == old(first)
        invariant world.up == old(world.up) && world.known == old(world.known)
        invariant self == Offerings ==> world.off == old(world.off)
        invariant self == Secrets ==> world.sec == old(world.sec) && errors == old(errors)
      {
        var e := events[i];
        if Foreign(who, e) && Do(world, e).up == world.up {
          Append(e);
        }
      }
    }

    method Offering(call: Call) returns (r: Reply)
      requires Valid() && self == Offerings
      requires world.up && !world.off.Idle? && call == Off.NextCall(world.off)
      modifies this
      ensures Valid() && origin == old(origin) && self == old(self) && first == old(first)
      ensures last == Some(Called(old(world).off, old(world).known, r))
      ensures world.known == old(world.known)
      ensures var next := Off.AfterReply(old(world.off), old(world.known), r);
              if next.Exit? then !world.up && world.off.Idle? else world.up && world.off == next.local
    {
      Others(Offerings);
      var fate: Fate := *;
      r := Deliver(world.cluster, call, fate, []).1;
      Append(OfferingCall(fate));
    }

    method Secret(call: Call) returns (r: Reply)
      requires Valid() && self == Secrets
      requires world.up && !world.sec.Idle? && call == Sec.NextCall(world.sec)
      modifies this
      ensures Valid() && origin == old(origin) && self == old(self) && first == old(first)
      ensures world.known == old(world.known) && world.up
      ensures lastSecret == Some(SecretCalled(old(world).sec, r))
      ensures errors == old(errors) + if FailedDelete(SecretCalled(old(world).sec, r)) then 1 else 0
      ensures exists created :: world.sec == Sec.AfterReply(old(world.sec), old(world.known), r, created)
    {
      Others(Secrets);
      var fate: Fate := *;
      var order: seq<Key> := *;
      r := Deliver(world.cluster, call, fate, order).1;
      assert StepSecret(world, fate, order).sec == Sec.AfterReply(world.sec, world.known, r, world.created);
      Append(SecretCall(fate, order));
    }
  }
}
