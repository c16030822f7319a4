/** A whole reconcile of the config Secret, written out for every Secret and every cluster: its calls, what becomes of
    the Secret, and what it returns. */
module SecretTranscripts {
  import opened Wrappers
  import opened ObjectMeta
  import opened Cluster
  import opened Runs
  import opened StorageSafety
  import opened UninstallRounds
  import opened UninstallOutcomes
  import opened Client
  import opened SecretReconcilers
  import opened Transcripts
  import Sec = SecretMachine

  // ----- the script -----

  /** A delete for each listed offering that is not marked, in the order of the list. */
  function Deletes(items: seq<Item>): seq<Call> {
    if items == [] then []
    else (if items[0].deleting then [] else [DeleteOffering(items[0].key)]) + Deletes(items[1..])
  }

  function Listing(c: Cluster, order: seq<Key>): (items: seq<Item>)
    requires forall key :: key in order ==> key in c.offerings
    ensures |items| == |order|
    ensures forall i :: 0 <= i < |order| ==> items[i] == Item(order[i], c.offerings[order[i]].deleting)
  {
    seq(|order|, i requires 0 <= i < |order| => Item(order[i], c.offerings[order[i]].deleting))
  }

  function UninstallScript(c: Cluster, s: Secret, order: seq<Key>): seq<Call>
    requires forall key :: key in order ==> key in c.offerings
  {
    [ListOfferings] +
    if order != [] then Deletes(Listing(c, order)) else LetGoScript(s)
  }

  function LetGoScript(s: Secret): seq<Call> {
    (if "misf.ibm.com/finalizer" !in s.finalizers then []
     else [UpdateSecret(s.(finalizers := Without(s.finalizers, "misf.ibm.com/finalizer")))]) +
    [DeleteNamespace("managed-fusion")]
  }

  const COMMON: seq<Call> := [
    Ensure(AgentObject(0)), Ensure(AgentObject(1)), Ensure(AgentObject(2)), Ensure(AgentObject(3)),
    Ensure(AgentObject(4)), Ensure(AgentObject(5)), Ensure(AgentObject(6)), Ensure(AgentObject(7)),
    Ensure(AgentObject(8))]

  /** The nine common objects; then the firewall and the network policy, each if its own CRD was recorded. */
  function AgentScript(known: set<string>): seq<Call> {
    COMMON +
    (if "egressfirewalls.k8s.ovn.org" in known then [Ensure(AgentObject(9))] else []) +
    (if "egressnetworkpolicies.network.openshift.io" in known then [Ensure(AgentObject(10))] else [])
  }

  function SecretScript(c: Cluster, known: set<string>, order: seq<Key>): seq<Call>
    requires forall key :: key in order ==> key in c.offerings
  {
    [GetSecret] +
    if c.secret.None? || !c.secret.value.parses then []
    else if c.secret.value.deleting then UninstallScript(c, c.secret.value, order)
    else
      var s := c.secret.value;
      (if "misf.ibm.com/finalizer" in s.finalizers then []
       else [UpdateSecret(s.(finalizers := s.finalizers + ["misf.ibm.com/finalizer"]))]) +
      AgentScript(known)
  }

  /** What it returns: a requeue as long as some offering had to be marked. */
  function SecretRoundOutcome(c: Cluster): Outcome {
    if c.secret.None? then Finished
    else if !c.secret.value.parses then Error
    else if c.secret.value.deleting && exists key :: key in c.offerings && !c.offerings[key].deleting then Requeue
    else Finished
  }

  // ----- what is issued -----

  /** The calls a Secret reconcile still issues, every call served and the list in this order. */
  function SecretIssued(w: World, order: seq<Key>): seq<Call>
    decreases SecretStage(w.sec), StageLeft(w.sec)
  {
    if !w.up || w.sec.Idle? then []
    else
      StagesRunOut(w.sec, w.known, Deliver(w.cluster, Sec.NextCall(w.sec), Served, order).1, w.created);
      [Sec.NextCall(w.sec)] + SecretIssued(Do(w, SecretCall(Served, order)), order)
  }

  /** What a Secret reconcile returns, every call served. */
  function SecretReturned(w: World, order: seq<Key>): Outcome
    requires w.up && !w.sec.Idle?
    decreases SecretStage(w.sec), StageLeft(w.sec)
  {
    var reply := Deliver(w.cluster, Sec.NextCall(w.sec), Served, order).1;
    StagesRunOut(w.sec, w.known, reply, w.created);
    var v := Do(w, SecretCall(Served, order));
    if v.sec.Idle? then SecretOutcome(SecretCalled(w.sec, reply), 0) else SecretReturned(v, order)
  }

  lemma {:induction false} SecretIssuedIsLogged(w: World, order: seq<Key>)
    ensures Calls(FinishSecret(w, order).log) == Calls(w.log) + SecretIssued(w, order)
    decreases SecretStage(w.sec), StageLeft(w.sec)
  {
    if w.up && !w.sec.Idle? {
      StagesRunOut(w.sec, w.known, Deliver(w.cluster, Sec.NextCall(w.sec), Served, order).1, w.created);
      var v := Do(w, SecretCall(Served, order));
      SecretIssuedIsLogged(v, order);
      assert Calls(v.log) == Calls(w.log) + [Sec.NextCall(w.sec)];
    }
  }

  /** The rest of the reconcile issues these calls, ends in this world, and returns this. Quantified, so that the three
      functions are in sight only where one of them is asked for. */
  ghost predicate SecretDoes(w: World, order: seq<Key>, calls: seq<Call>, end: World, outcome: Outcome) {
    && w.up && !w.sec.Idle?
    && forall u: World :: u == w ==>
         SecretIssued(u, order) == calls && FinishSecret(u, order) == end && SecretReturned(u, order) == outcome
  }

  /** One more call is served. */
  ghost predicate SecretMoves(w: World, order: seq<Key>, call: Call, v: World) {
    w.up && !w.sec.Idle? && Sec.NextCall(w.sec) == call && v == Do(w, SecretCall(Served, order))
  }

  lemma SecretMoved(w: World, order: seq<Key>, call: Call) returns (v: World)
    requires w.up && !w.sec.Idle? && Sec.NextCall(w.sec) == call
    ensures SecretMoves(w, order, call, v) && v.up && v.known == w.known && v.created == w.created
    ensures v.cluster == Serve(w.cluster, call, order).0
    ensures v.sec == Sec.AfterReply(w.sec, w.known, Serve(w.cluster, call, order).1, w.created)
  {
    v := Do(w, SecretCall(Served, order));
  }

  lemma SecretMovesOn(w: World, order: seq<Key>, call: Call, v: World, calls: seq<Call>, end: World, outcome: Outcome)
    requires SecretMoves(w, order, call, v) && SecretDoes(v, order, calls, end, outcome)
    ensures SecretDoes(w, order, [call] + calls, end, outcome)
  {
    assert SecretIssued(v, order) == calls;
  }

  lemma SecretMovesToTheEnd(w: World, order: seq<Key>, call: Call, v: World)
    requires SecretMoves(w, order, call, v) && v.sec.Idle?
    ensures SecretDoes(w, order, [call], v, SecretOutcome(SecretCalled(w.sec, Serve(w.cluster, call, order).1), 0))
  {
    assert SecretIssued(v, order) == [] && FinishSecret(v, order) == v;
  }

  // ----- the phases -----

  /** The script from this phase on. */
  function AgentScriptFrom(known: set<string>, phase: nat): seq<Call>
    decreases 11 - phase
  {
    if phase >= 11 then []
    else
      (if (phase == 9 && "egressfirewalls.k8s.ovn.org" !in known) ||
         (phase == 10 && "egressnetworkpolicies.network.openshift.io" !in known) then []
       else [Ensure(AgentObject(phase))]) + AgentScriptFrom(known, phase + 1)
  }

  lemma EgressScript(known: set<string>)
    ensures AgentScriptFrom(known, 9) ==
            (if "egressfirewalls.k8s.ovn.org" in known then [Ensure(AgentObject(9))] else []) +
            (if "egressnetworkpolicies.network.openshift.io" in known then [Ensure(AgentObject(10))] else [])
  {
    assert AgentScriptFrom(known, 11) == [];
  }

  lemma CommonAt(phase: nat)
    requires phase < 9
    ensures COMMON[phase] == Ensure(AgentObject(phase))
  {
  }

  lemma {:induction false} CommonScript(known: set<string>, phase: nat, nine: nat)
    requires phase <= nine == 9
    ensures AgentScriptFrom(known, phase) == COMMON[phase..] + AgentScriptFrom(known, nine)
    decreases nine - phase
  {
    if phase < nine {
      CommonAt(phase);
      assert COMMON[phase..] == [COMMON[phase]] + COMMON[phase + 1..];
      CommonScript(known, phase + 1, nine);
    }
  }

  lemma AgentScriptIs(known: set<string>)
    ensures AgentScriptFrom(known, 0) == AgentScript(known)
  {
    EgressScript(known);
    CommonScript(known, 0, 9);
    assert COMMON[0..] == COMMON;
  }

  lemma {:induction false} NoPhaseLeft(l: Sec.Local, phase: nat, known: set<string>)
    requires l.Working? && phase <= 11
    ensures Sec.EnterPhase(l, phase, known).Idle? <==> AgentScriptFrom(known, phase) == []
    decreases 11 - phase
  {
    if phase < 11 && !Sec.Enabled(phase, known) {
      NoPhaseLeft(l, phase + 1, known);
    }
  }

  lemma {:induction false} PhasesDo(w: World, order: seq<Key>, l: Sec.Local, phase: nat) returns (end: World)
    requires w.up && l.Working? && w.sec == Sec.EnterPhase(l, phase, w.known) && !w.sec.Idle?
    ensures SecretDoes(w, order, AgentScriptFrom(w.known, phase), end, Finished) && end.cluster == w.cluster
    decreases 11 - phase
  {
    if !Sec.Enabled(phase, w.known) {
      end := PhasesDo(w, order, l, phase + 1);
    } else {
      var call := Ensure(AgentObject(phase));
      var v := SecretMoved(w, order, call);
      NoPhaseLeft(w.sec, phase + 1, w.known);
      if v.sec.Idle? {
        end := v;
        SecretMovesToTheEnd(w, order, call, v);
        assert [call] + [] == [call];
      } else {
        end := PhasesDo(v, order, w.sec, phase + 1);
        SecretMovesOn(w, order, call, v, AgentScriptFrom(w.known, phase + 1), end, Finished);
      }
    }
  }

  // ----- the branches -----

  lemma {:induction false} NothingToDelete(l: Sec.Local, i: nat)
    requires l.Working? && i <= |l.items|
    ensures Sec.SkipMarked(l, i).Idle? <==> Deletes(l.items[i..]) == []
    ensures Sec.SkipMarked(l, i).Idle? <==> forall j :: i <= j < |l.items| ==> l.items[j].deleting
    decreases |l.items| - i
  {
    if i < |l.items| && l.items[i].deleting {
      NothingToDelete(l, i + 1);
    }
  }

  lemma {:induction false} LoopDoes(w: World, order: seq<Key>, l: Sec.Local, i: nat) returns (end: World)
    requires w.up && l.Working? && i < |l.items| && w.sec == Sec.SkipMarked(l, i) && !w.sec.Idle?
    ensures SecretDoes(w, order, Deletes(l.items[i..]), end, Requeue)
    decreases |l.items| - i
  {
    if l.items[i].deleting {
      end := LoopDoes(w, order, l, i + 1);
    } else {
      var call := DeleteOffering(l.items[i].key);
      var v := SecretMoved(w, order, call);
      NothingToDelete(w.sec, i + 1);
      if v.sec.Idle? {
        end := v;
        SecretMovesToTheEnd(w, order, call, v);
        assert [call] + [] == [call];
      } else {
        end := LoopDoes(v, order, w.sec, i + 1);
        SecretMovesOn(w, order, call, v, Deletes(l.items[i + 1..]), end, Requeue);
      }
    }
  }

  lemma LetGoDoes(w: World, order: seq<Key>) returns (end: World)
    requires w.up && w.sec.Working? && w.cluster.secret == Some(w.sec.obj)
    requires w.sec.pc == if FINALIZER in w.sec.obj.finalizers then Sec.DropFinalizer else Sec.DropNamespace
    ensures SecretDoes(w, order, LetGoScript(w.sec.obj), end, Finished)
  {
    if w.sec.pc.DropFinalizer? {
      var s := w.sec.obj;
      var update := UpdateSecret(s.(finalizers := Without(s.finalizers, FINALIZER)));
      var v := SecretMoved(w, order, update);
      end := NamespaceGoes(v, order);
      SecretMovesOn(w, order, update, v, [DeleteNamespace("managed-fusion")], end, Finished);
    } else {
      end := NamespaceGoes(w, order);
    }
  }

  lemma NamespaceGoes(w: World, order: seq<Key>) returns (end: World)
    requires w.up && w.sec.Working? && w.sec.pc.DropNamespace?
    ensures SecretDoes(w, order, [DeleteNamespace("managed-fusion")], end, Finished)
  {
    end := SecretMoved(w, order, DeleteNamespace("managed-fusion"));
    SecretMovesToTheEnd(w, order, DeleteNamespace("managed-fusion"), end);
  }

  function UninstallOutcome(c: Cluster, order: seq<Key>): Outcome
    requires forall key :: key in order ==> key in c.offerings
  {
    if exists key :: key in order && !c.offerings[key].deleting then Requeue else Finished
  }

  lemma UninstallDoes(w: World, order: seq<Key>) returns (end: World)
    requires w.up && w.sec.Working? && w.sec.pc.ListAll? && w.cluster.secret == Some(w.sec.obj)
    requires Enumerates(w.cluster, order) && forall key :: key in order ==> key in w.cluster.offerings
    ensures SecretDoes(w, order, UninstallScript(w.cluster, w.sec.obj, order), end, UninstallOutcome(w.cluster, order))
  {
    var items := Listing(w.cluster, order);
    ItemsOf(w.cluster, order);
    assert Items(w.cluster, order) == items;
    var v := SecretMoved(w, order, ListOfferings);
    if order == [] {
      end := LetGoDoes(v, order);
      SecretMovesOn(w, order, ListOfferings, v, LetGoScript(w.sec.obj), end, Finished);
    } else {
      end := DeletesDo(w, order, v);
    }
  }

  lemma DeletesDo(w: World, order: seq<Key>, v: World) returns (end: World)
    requires w.up && w.sec.Working? && w.sec.pc.ListAll? && order != [] && v.up
    requires forall key :: key in order ==> key in w.cluster.offerings
    requires SecretMoves(w, order, ListOfferings, v)
    requires v.sec == Sec.SkipMarked(w.sec.(items := Listing(w.cluster, order), seen := w.created), 0)
    requires Serve(w.cluster, ListOfferings, order).1 == Listed(Listing(w.cluster, order))
    ensures SecretDoes(w, order, UninstallScript(w.cluster, w.sec.obj, order), end, UninstallOutcome(w.cluster, order))
  {
    var items := Listing(w.cluster, order);
    var l := w.sec.(items := items, seen := w.created);
    NothingToDelete(l, 0);
    assert items[0..] == items;
    assert (exists j :: 0 <= j < |items| && !items[j].deleting) <==>
             (exists key :: key in order && !w.cluster.offerings[key].deleting) by {
      if key :| key in order && !w.cluster.offerings[key].deleting {
        var j :| 0 <= j < |order| && order[j] == key;
        assert !items[j].deleting;
      }
    }
    if v.sec.Idle? {
      end := v;
      SecretMovesToTheEnd(w, order, ListOfferings, v);
      assert [ListOfferings] + [] == [ListOfferings];
    } else {
      end := LoopDoes(v, order, l, 0);
      SecretMovesOn(w, order, ListOfferings, v, Deletes(items), end, Requeue);
    }
  }

  /** A Secret that is here to stay holds the finalizer afterwards; nothing else of the protocol has changed. */
  ghost predicate SecretHeld(c: Cluster, d: Cluster) {
    && c.secret.Some? && d.secret.Some?
    && (var s := c.secret.value;
        if "misf.ibm.com/finalizer" in s.finalizers then d == c
        else
          && d == c.(secret := d.secret, clock := d.clock)
          && d.secret.value ==
             s.(finalizers := s.finalizers + ["misf.ibm.com/finalizer"], version := d.secret.value.version))
  }

  lemma InstallDoes(w: World, order: seq<Key>) returns (end: World)
    requires w.up && w.cluster.secret.Some?
    requires var s := w.cluster.secret.value;
             s.parses && !s.deleting && exists rid :: w.sec == Sec.Opened(rid, s, w.known)
    ensures var s := w.cluster.secret.value;
            SecretDoes(w, order,
              (if FINALIZER in s.finalizers then []
               else [UpdateSecret(s.(finalizers := s.finalizers + [FINALIZER]))]) + AgentScript(w.known), end, Finished)
    ensures SecretHeld(w.cluster, end.cluster)
  {
    var s := w.cluster.secret.value;
    var rid :| w.sec == Sec.Opened(rid, s, w.known);
    var l := Sec.Working(rid, Sec.ListAll, s, [], 0);
    AgentScriptIs(w.known);
    NoPhaseLeft(l, 0, w.known);
    assert AgentScript(w.known)[0] == Ensure(AgentObject(0));
    if FINALIZER in s.finalizers {
      end := PhasesDo(w, order, l, 0);
      assert [] + AgentScript(w.known) == AgentScript(w.known);
    } else {
      var update := UpdateSecret(s.(finalizers := s.finalizers + [FINALIZER]));
      var v := SecretMoved(w, order, update);
      NoPhaseLeft(w.sec.(obj := v.cluster.secret.value), 0, w.known);
      end := PhasesDo(v, order, w.sec.(obj := v.cluster.secret.value), 0);
      SecretMovesOn(w, order, update, v, AgentScript(w.known), end, Finished);
    }
  }

  lemma SecretReconcileDoes(w: World, order: seq<Key>) returns (end: World)
    requires Inv(w) && w.up && w.sec.Idle? && Enumerates(w.cluster, order)
    requires forall key :: key in order <==> key in w.cluster.offerings
    ensures SecretDoes(Do(w, StartSecret), order, SecretScript(w.cluster, w.known, order), end,
                       SecretRoundOutcome(w.cluster))
    ensures var c, d := w.cluster, end.cluster;
            if c.secret.None? || !c.secret.value.parses then d == c
            else !c.secret.value.deleting ==> SecretHeld(c, d)
  {
    var reading := Do(w, StartSecret);
    var v := SecretMoved(reading, order, GetSecret);
    var script := SecretScript(w.cluster, w.known, order);
    if w.cluster.secret.None? || !w.cluster.secret.value.parses {
      end := v;
      SecretMovesToTheEnd(reading, order, GetSecret, v);
      assert script == [GetSecret];
    } else {
      if w.cluster.secret.value.deleting {
        end := UninstallDoes(v, order);
      } else {
        assert v.sec == Sec.Opened(w.rids, w.cluster.secret.value, v.known);
        end := InstallDoes(v, order);
      }
      SecretMovesOn(reading, order, GetSecret, v, script[1..], end, SecretRoundOutcome(w.cluster));
      assert [GetSecret] + script[1..] == script;
    }
  }

  lemma Enumerated(c: Cluster, order: seq<Key>)
    requires Enumerates(c, order)
    ensures forall key :: key in order <==> key in c.offerings
  {
    forall key ensures key in order <==> key in c.offerings.Keys {
      assert key in order <==> key in (set k | k in order);
    }
  }

  /** Main result: whatever Secret and offerings it finds, in whatever order they are listed, a complete Secret
      reconcile issues exactly the script; one that installs leaves the Secret held, and one without a
      usable Secret changes nothing. */
  lemma SecretRoundFollowsTheScript(w: World, order: seq<Key>)
    requires Inv(w) && w.up && w.sec.Idle? && Enumerates(w.cluster, order)
    ensures forall key :: key in order <==> key in w.cluster.offerings
    ensures Calls(SecretRound(w, order).log) == Calls(w.log) + SecretScript(w.cluster, w.known, order)
    ensures var c, d := w.cluster, SecretRound(w, order).cluster;
            if c.secret.None? || !c.secret.value.parses then d == c
            else !c.secret.value.deleting ==> SecretHeld(c, d)
  {
    Enumerated(w.cluster, order);
    var end := SecretReconcileDoes(w, order);
    SecretIssuedIsLogged(Do(w, StartSecret), order);
  }

  // ----- executions -----

  ghost predicate AllListed(es: seq<Event>, order: seq<Key>) {
    forall i :: 0 <= i < |es| ==> es[i] == SecretCall(Served, order)
  }

  lemma {:induction false} NothingMoreHappens(w: World, es: seq<Event>, order: seq<Key>)
    requires (!w.up || w.sec.Idle?) && AllListed(es, order)
    ensures Run(w, es) == w
  {
    if es != [] {
      NothingMoreHappens(w, es[..|es| - 1], order);
    }
  }

  lemma LastSecretCallOfRest(w: World, e: Event, es: seq<Event>)
    requires es != []
    ensures LastSecretCall(w, [e] + es) == LastSecretCall(Do(w, e), es)
  {
    var all := [e] + es;
    assert all[..|all| - 1] == [e] + es[..|es| - 1] && all[|all| - 1] == es[|es| - 1];
    RunCons(w, e, es[..|es| - 1]);
  }

  /** A served delete does not fail. */
  lemma {:induction false} NoErrors(w: World, es: seq<Event>, order: seq<Key>)
    requires es != [] && !es[0].SecretCall? && AllListed(es[1..], order)
    ensures Errors(w, es) == 0
  {
    var front := es[..|es| - 1];
    if front != [] {
      assert front[1..] == es[1..][..|es| - 2];
      NoErrors(w, front, order);
      ServedDelete(Run(w, front), es[|es| - 1]);
      assert es[|es| - 1] == es[1..][|es| - 2];
    }
  }

  lemma ServedDelete(w: World, e: Event)
    ensures e.SecretCall? && e.fate == Served && SecretCallOf(w, e).Some? ==> !FailedDelete(SecretCallOf(w, e).value)
  {
  }

  lemma StillListing(w: World, es: seq<Event>, order: seq<Key>)
    requires es != [] && AllListed(es, order) && LastSecretCall(w, es).Some?
    ensures w.up && !w.sec.Idle?
  {
    if !w.up || w.sec.Idle? {
      NothingMoreHappens(w, es[..|es| - 1], order);
    }
  }

  lemma {:induction false} ServedSecretRun(w: World, es: seq<Event>, order: seq<Key>)
    requires w.up && !w.sec.Idle? && es != [] && AllListed(es, order)
    requires LastSecretCall(w, es).Some? && Run(w, es).sec.Idle?
    ensures SecretOutcome(LastSecretCall(w, es).value, 0) == SecretReturned(w, order)
    ensures FinishSecret(w, order) == Run(w, es)
    decreases |es|
  {
    var rest := es[1..];
    var v := SecretMoved(w, order, Sec.NextCall(w.sec));
    assert es == [SecretCall(Served, order)] + rest;
    RunCons(w, SecretCall(Served, order), rest);
    if rest == [] {
      assert es[..|es| - 1] == [];
      assert FinishSecret(v, order) == v;
    } else {
      LastSecretCallOfRest(w, SecretCall(Served, order), rest);
      StillListing(v, rest, order);
      ServedSecretRun(v, rest, order);
    }
  }

  /** Main result, executions: one in which every call is served and nobody else acts follows the script, and returns
      what the outcome table says. */
  lemma ServedSecretExecution(w: World, es: seq<Event>, order: seq<Key>, outcome: Outcome)
    requires Inv(w) && w.up && w.sec.Idle? && Enumerates(w.cluster, order)
    requires SecretExecution(w, es, outcome) && AllListed(es[1..], order)
    ensures outcome == SecretRoundOutcome(w.cluster)
    ensures forall key :: key in order <==> key in w.cluster.offerings
    ensures Calls(Run(w, es).log) == Calls(w.log) + SecretScript(w.cluster, w.known, order)
  {
    var calls := es[1..];
    assert es == [StartSecret] + calls;
    assert es[|es| - 1].SecretCall? && es[0] == StartSecret;
    RunCons(w, StartSecret, calls);
    LastSecretCallOfRest(w, StartSecret, calls);
    NoErrors(w, es, order);
    Enumerated(w.cluster, order);
    var end := SecretReconcileDoes(w, order);
    ServedSecretRun(Do(w, StartSecret), calls, order);
    SecretIssuedIsLogged(Do(w, StartSecret), order);
  }
}
