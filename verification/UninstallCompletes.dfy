/** The uninstall ends: when the ocs-operator and the consumers do their part, the Secret's finalizer goes after
    boundedly many passes over the objects, whatever else happens in between. */
module UninstallCompletes {
  import opened Cluster
  import opened Runs
  import opened Sets
  import opened StorageSafety
  import opened UninstallProgress
  import opened UninstallRounds
  import opened UninstallOutcomes
  import opened UninstallEnabled
  import opened UninstallTurns

  // ----- schedules -----

  /** One complete reconcile without failures, any other run of the agent, or something anybody else does. */
  datatype Round =
    | OfferingTurn(key: Key)
    | SecretTurn(order: seq<Key>)
    | Attempts(events: seq<Event>)
    | Outside(action: Action)

  function Play(w: World, r: Round): World {
    match r
    case OfferingTurn(key) => OfferingRound(w, key)
    case SecretTurn(order) => SecretRound(w, order)
    case Attempts(es) => Run(w, es)
    case Outside(a) => Do(w, Environment(a))
  }

  /** Others leave each StorageCluster attended; and once every offering is marked, they take no step backwards:
      what tends a StorageCluster goes on to, ready stays ready, unused unused. */
  ghost predicate Cooperates(c: Cluster, d: Cluster) {
    && Winding(d) && Attended(d)
    && (Unmarked(c) == {} ==>
          && (c.consumers == 0 ==> d.consumers == 0)
          && Unready(d) <= Unready(c)
          && (forall key :: Tends(c, key) && key in d.offerings ==> Tends(d, key)))
  }

  /** Any reconcile of any offering; a reconcile of the Secret in any list order; reconciles of both kinds at once,
      with lost calls, crashes and restarts, as long as they have ended; and what others do if they create no
      offering and no Secret and cooperate. */
  ghost predicate Fair(w: World, r: Round) {
    match r
    case OfferingTurn(key) => true
    case SecretTurn(order) => Enumerates(w.cluster, order)
    case Attempts(es) => AgentOnly(es) && Run(w, es).up && Run(w, es).off.Idle? && Run(w, es).sec.Idle?
    case Outside(a) => NothingNew(Environment(a)) && Cooperates(w.cluster, Perform(w.cluster, a))
  }

  ghost predicate Underway(w: World) {
    Uninstalling(w) && Attended(w.cluster)
  }

  // ----- what is left to do -----

  /** StorageClusters to be made ready and consumers to leave before storage can be deleted; while offerings are
      unmarked there may be as many as there are offerings. */
  function Settling(c: Cluster): nat {
    if Unmarked(c) != {} then |c.offerings| + 1
    else |Unready(c)| + if c.consumers == 0 then 0 else 1
  }

  /** What is left to do: the potential, storage to be settled, and one restart if a CRD is unrecorded. */
  function ToDo(w: World): nat {
    Potential(w) + Settling(w.cluster) + if Recorded(w.known) then 0 else 1
  }

  ghost predicate Settled(c: Cluster, d: Cluster) {
    SettlesStorage(c, d) && (c.consumers == 0 ==> d.consumers == 0)
  }

  /** No step backwards in any of these respects; storage matters once every offering is marked. */
  ghost predicate Descends(w: World, v: World) {
    && Inv(v) && v.off.Idle?
    && NoMoreOfferings(w.cluster, v.cluster)
    && (Recorded(w.known) ==> Recorded(v.known))
    && (Unmarked(w.cluster) == {} ==> Settled(w.cluster, v.cluster))
  }

  /** Nothing that counts has changed. */
  ghost predicate Still(w: World, v: World) {
    && Unmarked(v.cluster) == Unmarked(w.cluster) && v.cluster.offerings.Keys == w.cluster.offerings.Keys
    && (Recorded(v.known) <==> Recorded(w.known))
    && (Unmarked(w.cluster) == {} ==>
          && v.cluster.storage.Keys == w.cluster.storage.Keys
          && UnmarkedStorage(v.cluster) == UnmarkedStorage(w.cluster) && Unready(v.cluster) == Unready(w.cluster)
          && (v.cluster.consumers == 0 <==> w.cluster.consumers == 0))
  }

  lemma SettlingNeverRises(c: Cluster, d: Cluster)
    requires Covered(c) && Covered(d) && NoMoreOfferings(c, d)
    requires Unmarked(c) == {} ==> Settled(c, d)
    ensures Settling(d) <= Settling(c)
    ensures Unmarked(c) == {} && Settling(d) == Settling(c) ==>
              Unready(d) == Unready(c) && (d.consumers == 0 <==> c.consumers == 0)
  {
    SubsetSize(d.offerings.Keys, c.offerings.Keys);
    if Unmarked(c) == {} {
      SubsetSize(Unready(d), Unready(c));
    } else {
      StorageBound(d);
      SubsetSize(Unready(d), d.storage.Keys);
    }
  }

  lemma PotentialIsStill(w: World, v: World)
    requires Inv(w) && w.off.Idle? && Descends(w, v)
    ensures Potential(v) <= Potential(w)
    ensures Potential(v) == Potential(w) ==>
              && Unmarked(v.cluster) == Unmarked(w.cluster) && v.cluster.offerings.Keys == w.cluster.offerings.Keys
              && (Unmarked(w.cluster) == {} ==>
                    v.cluster.storage.Keys == w.cluster.storage.Keys &&
                    UnmarkedStorage(v.cluster) == UnmarkedStorage(w.cluster))
    ensures w.cluster.secret.Some? && v.cluster.secret.None? ==> Potential(v) < Potential(w)
  {
    MarkingNeverRises(w, v);
    SubsetSize(v.cluster.offerings.Keys, w.cluster.offerings.Keys);
    TeardownBound(v.cluster);
    if Unmarked(w.cluster) == {} {
      TeardownNeverRises(w.cluster, v.cluster);
    }
  }

  /** What is left to do never rises, and it falls unless nothing that counts has changed. */
  lemma DescendsOrStill(w: World, v: World)
    requires Inv(w) && w.off.Idle? && Descends(w, v)
    ensures ToDo(v) < ToDo(w) || (ToDo(v) == ToDo(w) && Still(w, v))
  {
    PotentialIsStill(w, v);
    SettlingNeverRises(w.cluster, v.cluster);
  }

  lemma AgentRunDescends(w: World, es: seq<Event>)
    requires Underway(w) && Fair(w, Attempts(es))
    ensures var v := Run(w, es);
            Settles(w.cluster, v.cluster) && Descends(w, v) && (v.cluster.secret.Some? ==> Underway(v))
  {
    AgentRunSettles(w, es);
  }

  /** A reconcile is one such run. */
  lemma AsAttempts(w: World, r: Round) returns (es: seq<Event>)
    requires Underway(w) && Fair(w, r) && !r.Outside?
    ensures Fair(w, Attempts(es)) && Run(w, es) == Play(w, r)
  {
    match r
    case OfferingTurn(key) => es := OfferingRoundIsAgentRun(w, key);
    case SecretTurn(order) => es := SecretRoundIsAgentRun(w, order);
    case Attempts(events) => es := events;
  }

  lemma RoundDescends(w: World, r: Round)
    requires Underway(w) && Fair(w, r)
    ensures var v := Play(w, r); Descends(w, v) && (v.cluster.secret.Some? ==> Underway(v))
  {
    if r.Outside? {
      DoKeepsInv(w, Environment(r.action));
      StepShrinks(w, Environment(r.action));
    } else {
      var es := AsAttempts(w, r);
      AgentRunDescends(w, es);
    }
  }

  // ----- duties -----

  /** What a pass over the objects brings: the Secret is reconciled, each offering is, a deleted StorageCluster
      goes, an unready one gets ready, the consumers leave. */
  datatype Duty = ReconcileSecret | Reconcile(key: Key) | Purge(ns: string) | MakeReady(ns: string) | Leave

  predicate Meets(r: Round, duty: Duty) {
    match duty
    case ReconcileSecret => r.SecretTurn?
    case Reconcile(key) => r == OfferingTurn(key)
    case Purge(ns) => r == Outside(PurgeStorage(ns))
    case MakeReady(ns) => r.Outside? && r.action.EditStorage? && r.action.ns == ns && r.action.ready
    case Leave => r == Outside(SetConsumers(0))
  }

  predicate Expected(c: Cluster, duty: Duty) {
    match duty
    case ReconcileSecret => true
    case Reconcile(key) => key in c.offerings
    case Purge(ns) => ns in c.storage && c.storage[ns].deleting
    case MakeReady(ns) => ns in Unready(c)
    case Leave => c.consumers > 0
  }

  /** The duties that are useful now. */
  predicate Due(c: Cluster, duty: Duty) {
    && Expected(c, duty)
    && match duty
       case ReconcileSecret => Unmarked(c) != {} || c.offerings == map[]
       case Reconcile(key) =>
         && Unmarked(c) == {}
         && (key.ns !in c.storage || (Tends(c, key) && key.ns in UnmarkedStorage(c) - Unready(c) && c.consumers == 0))
       case _ => Unmarked(c) == {}
  }

  ghost predicate Useful(w: World, r: Round) {
    ToDo(Play(w, r)) < ToDo(w)
  }

  /** While the Secret exists, something is due. */
  lemma SomethingIsDue(c: Cluster) returns (duty: Duty)
    requires Attended(c)
    ensures Due(c, duty)
  {
    if Unmarked(c) != {} || c.offerings == map[] {
      duty := ReconcileSecret;
    } else if c.consumers > 0 {
      duty := Leave;
    } else {
      var key :| key in c.offerings;
      duty := Reconcile(key);
      if key.ns in c.storage {
        if c.storage[key.ns].deleting {
          duty := Purge(key.ns);
        } else if !c.storage[key.ns].ready {
          duty := MakeReady(key.ns);
        } else {
          var tender: Key :| Tends(c, tender) && tender.ns == key.ns;
          duty := Reconcile(tender);
        }
      }
    }
  }

  /** A due duty stays due until something that counts has changed. */
  lemma DueStays(w: World, r: Round, duty: Duty)
    requires Underway(w) && Fair(w, r) && Due(w.cluster, duty) && Underway(Play(w, r)) && Still(w, Play(w, r))
    ensures Due(Play(w, r).cluster, duty)
  {
    var c, d := w.cluster, Play(w, r).cluster;
    match duty
    case ReconcileSecret => assert c.offerings == map[] ==> d.offerings.Keys == {};
    case Reconcile(key) =>
      assert key in c.offerings.Keys && key !in Unmarked(d);
      if Tends(c, key) { TenderStays(w, r, key); }
      assert key.ns in c.storage <==> key.ns in d.storage.Keys;
    case Purge(ns) => assert ns in c.storage.Keys && ns !in UnmarkedStorage(c);
    case _ =>
  }

  lemma TenderStays(w: World, r: Round, key: Key)
    requires Underway(w) && Fair(w, r) && Tends(w.cluster, key) && Unmarked(w.cluster) == {}
    requires var v := Play(w, r); Underway(v) && key in v.cluster.offerings && v.cluster.offerings[key].deleting
    ensures Tends(Play(w, r).cluster, key)
  {
    var d := Play(w, r).cluster;
    OnlyOurFinalizer(d.offerings[key].finalizers);
    if !r.Outside? {
      var es := AsAttempts(w, r);
      AgentRunDescends(w, es);
    }
  }

  // ----- a due round is useful -----

  lemma SecretTurnIsUseful(w: World, order: seq<Key>)
    requires Underway(w) && Enumerates(w.cluster, order) && Due(w.cluster, ReconcileSecret)
    ensures !Still(w, SecretRound(w, order)) || SecretRound(w, order).cluster.secret.None?
  {
    if Unmarked(w.cluster) != {} {
      MarksEveryOffering(w, order);
    } else {
      ReleasesTheSecret(w, order);
    }
  }

  lemma OfferingTurnIsUseful(w: World, key: Key)
    requires Underway(w) && Due(w.cluster, Reconcile(key))
    ensures !Still(w, OfferingRound(w, key))
  {
    var c := w.cluster;
    assert key !in Unmarked(c);
    if key.ns !in c.storage {
      ReleasesTheOffering(w, key);
      assert key in c.offerings.Keys;
    } else if Recorded(w.known) {
      DeletesTheStorage(w, key);
      assert key.ns in UnmarkedStorage(c);
    } else {
      RestartRecords(w, key);
    }
  }

  lemma SecretGoneIsUseful(w: World, v: World)
    requires Inv(w) && w.off.Idle? && Descends(w, v) && w.cluster.secret.Some? && v.cluster.secret.None?
    ensures ToDo(v) < ToDo(w)
  {
    PotentialIsStill(w, v);
    SettlingNeverRises(w.cluster, v.cluster);
  }

  lemma OutsideIsUseful(w: World, r: Round, duty: Duty)
    requires Underway(w) && Due(w.cluster, duty) && Meets(r, duty) && r.Outside?
    ensures !Still(w, Play(w, r))
  {
    var c, d := w.cluster, Play(w, r).cluster;
    match duty
    case Purge(ns) => assert ns in c.storage.Keys && ns !in d.storage.Keys;
    case MakeReady(ns) => assert ns in Unready(c) && ns !in Unready(d);
    case Leave =>
  }

  lemma DueIsUseful(w: World, r: Round, duty: Duty)
    requires Underway(w) && Fair(w, r) && Due(w.cluster, duty) && Meets(r, duty)
    ensures Useful(w, r)
  {
    var v := Play(w, r);
    RoundDescends(w, r);
    DescendsOrStill(w, v);
    match r
    case OfferingTurn(key) => OfferingTurnIsUseful(w, key);
    case SecretTurn(order) =>
      SecretTurnIsUseful(w, order);
      if v.cluster.secret.None? { SecretGoneIsUseful(w, v); }
    case Outside(_) => OutsideIsUseful(w, r, duty);
  }

  // ----- passes -----

  /** A schedule is played until the Secret is gone. */
  function PlayAll(w: World, rs: seq<Round>): World
    decreases |rs|
  {
    if rs == [] || w.cluster.secret.None? then w else PlayAll(Play(w, rs[0]), rs[1..])
  }

  ghost predicate FairAll(w: World, rs: seq<Round>)
    decreases |rs|
  {
    rs != [] && w.cluster.secret.Some? ==> Fair(w, rs[0]) && FairAll(Play(w, rs[0]), rs[1..])
  }

  /** In whatever order, with whatever else in between, and as often as it likes, a pass brings everything that is
      expected when it begins. */
  ghost predicate FullPass(w: World, rs: seq<Round>) {
    FairAll(w, rs) && forall duty :: Expected(w.cluster, duty) ==> exists r :: r in rs && Meets(r, duty)
  }

  lemma {:induction false} ScheduleDescends(w: World, rs: seq<Round>)
    requires Underway(w) && FairAll(w, rs)
    ensures var v := PlayAll(w, rs); ToDo(v) <= ToDo(w) && (v.cluster.secret.Some? ==> Underway(v))
    decreases |rs|
  {
    if rs != [] {
      var v := Play(w, rs[0]);
      RoundDescends(w, rs[0]);
      DescendsOrStill(w, v);
      if v.cluster.secret.Some? {
        ScheduleDescends(v, rs[1..]);
      }
    }
  }

  /** A due duty that is met somewhere in a schedule makes the schedule useful. */
  lemma {:induction false} DueMetIsUseful(w: World, rs: seq<Round>, duty: Duty)
    requires Underway(w) && FairAll(w, rs) && Due(w.cluster, duty) && exists r :: r in rs && Meets(r, duty)
    ensures ToDo(PlayAll(w, rs)) < ToDo(w)
    decreases |rs|
  {
    var v := Play(w, rs[0]);
    RoundDescends(w, rs[0]);
    DescendsOrStill(w, v);
    if Meets(rs[0], duty) {
      DueIsUseful(w, rs[0], duty);
    }
    if v.cluster.secret.Some? {
      if ToDo(v) < ToDo(w) {
        ScheduleDescends(v, rs[1..]);
      } else {
        DueStays(w, rs[0], duty);
        DueMetIsUseful(v, rs[1..], duty);
      }
    } else {
      SecretGoneIsUseful(w, v);
    }
  }

  /** Main result, one pass: it leaves less to do. */
  lemma FullPassIsUseful(w: World, rs: seq<Round>)
    requires Underway(w) && FullPass(w, rs)
    ensures ToDo(PlayAll(w, rs)) < ToDo(w)
  {
    var duty := SomethingIsDue(w.cluster);
    DueMetIsUseful(w, rs, duty);
  }

  function PlayPasses(w: World, passes: seq<seq<Round>>): World
    decreases |passes|
  {
    if passes == [] || w.cluster.secret.None? then w else PlayPasses(PlayAll(w, passes[0]), passes[1..])
  }

  ghost predicate FullPasses(w: World, passes: seq<seq<Round>>)
    decreases |passes|
  {
    passes != [] && w.cluster.secret.Some? ==>
      FullPass(w, passes[0]) && FullPasses(PlayAll(w, passes[0]), passes[1..])
  }

  /** Main result, every schedule: any schedule with as many full passes as there was to do ends with the Secret
      gone. */
  lemma {:induction false} EveryScheduleCompletes(w: World, passes: seq<seq<Round>>)
    requires Underway(w) && FullPasses(w, passes) && |passes| >= ToDo(w)
    ensures PlayPasses(w, passes).cluster.secret.None?
    decreases |passes|
  {
    var v := PlayAll(w, passes[0]);
    FullPassIsUseful(w, passes[0]);
    ScheduleDescends(w, passes[0]);
    if v.cluster.secret.Some? {
      EveryScheduleCompletes(v, passes[1..]);
    }
  }

  // ----- a useful round is always there -----

  lemma {:induction false} Enumeration<T(!new)>(xs: set<T>) returns (order: seq<T>)
    ensures forall x :: x in order <==> x in xs
    ensures forall i, j :: 0 <= i < j < |order| ==> order[i] != order[j]
  {
    if x :| x in xs {
      var rest := Enumeration(xs - {x});
      order := [x] + rest;
    } else {
      order := [];
    }
  }

  lemma ListOfOfferings(c: Cluster) returns (order: seq<Key>)
    ensures Enumerates(c, order)
  {
    order := Enumeration(c.offerings.Keys);
    assert (set key | key in order) == c.offerings.Keys;
  }

  /** A fair round that meets the duty. */
  lemma Meeting(w: World, duty: Duty) returns (r: Round)
    requires Underway(w) && Due(w.cluster, duty)
    ensures Fair(w, r) && Meets(r, duty)
  {
    var c := w.cluster;
    match duty
    case ReconcileSecret =>
      var order := ListOfOfferings(c);
      r := SecretTurn(order);
    case Reconcile(key) => r := OfferingTurn(key);
    case Purge(ns) =>
      r := Outside(PurgeStorage(ns));
      OutsideIsFair(w, PurgeStorage(ns));
    case MakeReady(ns) =>
      var sc := c.storage[ns];
      var a := EditStorage(ns, sc.guarded, true, sc.count, sc.aligned);
      r := Outside(a);
      OutsideIsFair(w, a);
    case Leave =>
      r := Outside(SetConsumers(0));
      OutsideIsFair(w, SetConsumers(0));
  }

  lemma OutsideIsFair(w: World, a: Action)
    requires Underway(w) && (a.PurgeStorage? || a == SetConsumers(0) || (a.EditStorage? && a.ready))
    ensures Fair(w, Outside(a))
  {
    var c, d := w.cluster, Perform(w.cluster, a);
    UpkeepEffect(c, a);
    forall ns | ns in d.storage && !d.storage[ns].deleting ensures Tended(d, ns) {
      var key: Key :| Tends(c, key) && key.ns == ns;
      assert Tends(d, key);
    }
  }

  /** What the operator and the consumers do touches no offering. */
  lemma UpkeepEffect(c: Cluster, a: Action)
    requires a.PurgeStorage? || a == SetConsumers(0) || (a.EditStorage? && a.ready)
    ensures var d := Perform(c, a);
            && d == c.(storage := d.storage, consumers := d.consumers, clock := d.clock)
            && (d.consumers == c.consumers || d.consumers == 0) && Unready(d) <= Unready(c)
            && (forall ns :: ns in d.storage && !d.storage[ns].deleting ==>
                  ns in c.storage && !c.storage[ns].deleting)
  {
  }

  /** Main result, the other half: while the Secret exists some fair round is useful, and it meets one of the
      duties: a reconcile, or what the operator and the consumers do. */
  lemma SomeRoundIsUseful(w: World) returns (r: Round, duty: Duty)
    requires Underway(w)
    ensures Fair(w, r) && Useful(w, r) && Expected(w.cluster, duty) && Meets(r, duty)
  {
    duty := SomethingIsDue(w.cluster);
    r := Meeting(w, duty);
    DueIsUseful(w, r, duty);
  }

  // ----- there is always a full pass -----

  /** A round that is fair in every world. */
  predicate AlwaysFair(r: Round) {
    || r.OfferingTurn?
    || (r.Outside? && (r.action.PurgeStorage? || r.action == SetConsumers(0) ||
      (r.action.EditStorage? && r.action.ready)))
  }

  lemma {:induction false} AlwaysFairIsFair(w: World, rs: seq<Round>)
    requires Underway(w) && forall r :: r in rs ==> AlwaysFair(r)
    ensures FairAll(w, rs)
    decreases |rs|
  {
    if rs != [] {
      assert AlwaysFair(rs[0]);
      if rs[0].Outside? { OutsideIsFair(w, rs[0].action); }
      RoundDescends(w, rs[0]);
      if Play(w, rs[0]).cluster.secret.Some? {
        AlwaysFairIsFair(Play(w, rs[0]), rs[1..]);
      }
    }
  }

  /** What the operator does with a StorageCluster. */
  function Upkeep(c: Cluster, ns: string): Round {
    if ns !in c.storage || c.storage[ns].deleting then Outside(PurgeStorage(ns))
    else
      var sc := c.storage[ns];
      Outside(EditStorage(ns, sc.guarded, true, sc.count, sc.aligned))
  }

  /** The rounds after the Secret's turn. */
  function RestOfPass(c: Cluster, order: seq<Key>, namespaces: seq<string>): (rs: seq<Round>)
    ensures forall r :: r in rs ==> AlwaysFair(r)
    ensures forall key :: key in order ==> OfferingTurn(key) in rs
    ensures forall ns :: ns in namespaces ==> Upkeep(c, ns) in rs
    ensures Outside(SetConsumers(0)) in rs
  {
    if order != [] then [OfferingTurn(order[0])] + RestOfPass(c, order[1..], namespaces)
    else if namespaces != [] then [Upkeep(c, namespaces[0])] + RestOfPass(c, order, namespaces[1..])
    else [Outside(SetConsumers(0))]
  }

  /** Main result: in every uninstall some full pass can be played next. */
  lemma FullPassExists(w: World) returns (rs: seq<Round>)
    requires Underway(w)
    ensures FullPass(w, rs)
  {
    var c := w.cluster;
    var order := ListOfOfferings(c);
    var namespaces := Enumeration(c.storage.Keys);
    var rest := RestOfPass(c, order, namespaces);
    rs := [SecretTurn(order)] + rest;
    RoundDescends(w, rs[0]);
    if Play(w, rs[0]).cluster.secret.Some? {
      AlwaysFairIsFair(Play(w, rs[0]), rest);
    }
    assert rs[1..] == rest;
    forall duty | Expected(c, duty) ensures exists r :: r in rs && Meets(r, duty) {
      RestMeets(c, order, namespaces, duty);
      if duty == ReconcileSecret {
        assert rs[0] in rs && Meets(rs[0], duty);
      } else {
        var r :| r in rest && Meets(r, duty);
        assert r in rs;
      }
    }
  }

  lemma RestMeets(c: Cluster, order: seq<Key>, namespaces: seq<string>, duty: Duty)
    requires Enumerates(c, order) && (forall ns :: ns in namespaces <==> ns in c.storage.Keys) && Expected(c, duty)
    ensures duty != ReconcileSecret ==> exists r :: r in RestOfPass(c, order, namespaces) && Meets(r, duty)
  {
    var rest := RestOfPass(c, order, namespaces);
    match duty
    case ReconcileSecret =>
    case Reconcile(key) =>
      assert key in c.offerings.Keys && key in (set k | k in order);
      assert OfferingTurn(key) in rest && Meets(OfferingTurn(key), duty);
    case Purge(ns) => assert Upkeep(c, ns) in rest && Meets(Upkeep(c, ns), duty);
    case MakeReady(ns) => assert Upkeep(c, ns) in rest && Meets(Upkeep(c, ns), duty);
    case Leave => assert Outside(SetConsumers(0)) in rest && Meets(Outside(SetConsumers(0)), duty);
  }

  // ----- useful rounds only -----

  ghost predicate AllUseful(w: World, rs: seq<Round>)
    decreases |rs|
  {
    rs != [] ==> Useful(w, rs[0]) && AllUseful(Play(w, rs[0]), rs[1..])
  }

  /** So some schedule of at most that many rounds, each of them useful, takes the uninstall to its end. */
  lemma {:induction false} UninstallCompletes(w: World) returns (rs: seq<Round>)
    requires Underway(w)
    ensures FairAll(w, rs) && AllUseful(w, rs) && |rs| <= ToDo(w) && PlayAll(w, rs).cluster.secret.None?
    decreases ToDo(w)
  {
    var r, duty := SomeRoundIsUseful(w);
    RoundDescends(w, r);
    var rest := [];
    if Play(w, r).cluster.secret.Some? {
      rest := UninstallCompletes(Play(w, r));
    }
    rs := [r] + rest;
    assert rs[1..] == rest;
  }
}
