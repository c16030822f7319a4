/** Both controllers, the API server and everybody else, interleaved one API call at a time.
    A call may be lost before or after it takes effect, and the process may die between calls. */
module Runs {
  import opened Wrappers
  import opened Cluster
  import Off = OfferingMachine
  import Sec = SecretMachine

  datatype Controller = Offerings | Secrets

  /** One call the agent issued and the reply it saw. */
  datatype Entry = Entry(who: Controller, rid: nat, call: Call, reply: Reply)

  /** `known` are the CRDs recorded when the process started. The last four fields are history:
      missing-watch exits, CRD installations, offering creations, and whether the Secret was
      ever marked for deletion. */
  datatype World = World(
    cluster: Cluster,
    up: bool,
    known: set<string>,
    off: Off.Local,
    sec: Sec.Local,
    log: seq<Entry>,
    rids: nat,
    exits: nat,
    installs: nat,
    created: nat,
    closing: bool)

  datatype Fate = Served | RequestLost | ReplyLost

  datatype Event =
    | StartOffering(key: Key)
    | OfferingCall(fate: Fate)
    | StartSecret
    | SecretCall(fate: Fate, order: seq<Key>)
    | Crash
    | Boot
    | Environment(action: Action)

  const GATED: set<string> :=
    {STORAGE_CLUSTER_CRD, OCS_INITIALIZATION_CRD, STORAGE_CLIENT_CRD, STORAGE_CLASS_CLAIM_CRD}

  function Empty(): Cluster {
    Cluster(map[], map[], 0, None, {}, {}, 0)
  }

  function Start(): World {
    World(Empty(), false, {}, Off.Idle, Sec.Idle, [], 0, 0, 0, 0, false)
  }

  function Deliver(c: Cluster, call: Call, fate: Fate, order: seq<Key>): (Cluster, Reply) {
    var (after, reply) := Serve(c, call, order);
    match fate
    case Served => (after, reply)
    case RequestLost => (c, Failed)
    case ReplyLost => (after, Failed)
  }

  function StepOffering(w: World, fate: Fate): World
    requires w.up && !w.off.Idle?
  {
    var call := Off.NextCall(w.off);
    var (after, reply) := Deliver(w.cluster, call, fate, []);
    var next := Off.AfterReply(w.off, w.known, reply);
    var logged := w.(cluster := after, log := w.log + [Entry(Offerings, w.off.rid, call, reply)]);
    if next.Exit? then logged.(up := false, off := Off.Idle, sec := Sec.Idle, exits := w.exits + 1)
    else logged.(off := next.local)
  }

  function StepSecret(w: World, fate: Fate, order: seq<Key>): World
    requires w.up && !w.sec.Idle?
  {
    var call := Sec.NextCall(w.sec);
    var (after, reply) := Deliver(w.cluster, call, fate, order);
    w.(cluster := after,
       log := w.log + [Entry(Secrets, w.sec.rid, call, reply)],
       sec := Sec.AfterReply(w.sec, w.known, reply, w.created))
  }

  function StepEnvironment(w: World, a: Action): World {
    w.(cluster := Perform(w.cluster, a),
       installs := w.installs + (if a.InstallCrd? && a.name in GATED && a.name !in w.cluster.crds then 1 else 0),
       created := w.created + (if a.CreateOffering? && a.key !in w.cluster.offerings then 1 else 0),
       closing := w.closing || (a.MarkSecret? && w.cluster.secret.Some?))
  }

  /** One event; an event that is not enabled changes nothing. */
  function Do(w: World, e: Event): World {
    match e
    case StartOffering(key) =>
      if w.up && w.off.Idle? then w.(off := Off.Reading(w.rids, key), rids := w.rids + 1) else w
    case OfferingCall(fate) => if w.up && !w.off.Idle? then StepOffering(w, fate) else w
    case StartSecret =>
      if w.up && w.sec.Idle? then w.(sec := Sec.Reading(w.rids), rids := w.rids + 1) else w
    case SecretCall(fate, order) => if w.up && !w.sec.Idle? then StepSecret(w, fate, order) else w
    case Crash => w.(up := false, off := Off.Idle, sec := Sec.Idle)
    case Boot => if w.up then w else w.(up := true, known := w.cluster.crds)
    case Environment(a) => StepEnvironment(w, a)
  }

  function Run(w: World, es: seq<Event>): World {
    if es == [] then w else Do(Run(w, es[..|es| - 1]), es[|es| - 1])
  }

  lemma {:induction false} RunConcat(w: World, a: seq<Event>, b: seq<Event>)
    ensures Run(w, a + b) == Run(Run(w, a), b)
  {
    if b == [] {
      assert a + b == a;
    } else {
      var front := b[..|b| - 1];
      assert (a + b)[..|a + b| - 1] == a + front;
      RunConcat(w, a, front);
    }
  }

  lemma RunSnoc(w: World, es: seq<Event>, e: Event)
    ensures Run(w, es + [e]) == Do(Run(w, es), e)
  {
    assert (es + [e])[..|es|] == es;
  }

  /** Extend a run by one event. */
  lemma Extend(w0: World, es: seq<Event>, w: World, e: Event) returns (fs: seq<Event>, v: World)
    requires w == Run(w0, es)
    ensures fs == es + [e] && v == Do(w, e) && v == Run(w0, fs)
  {
    fs, v := es + [e], Do(w, e);
    RunSnoc(w0, es, e);
  }
}
