/** Phases that each bring one object to the state they want, run in order until the first error: what a run leaves
    behind when it is cut, and what a later run makes of it. Shared by the offerings' phases and
    the agent's own. */
module Phases {
  import opened Wrappers
  import opened ObjectStore

  /** Bring the object of this key to its wanted state, or stop. */
  datatype Op<K> = Put(id: K) | Stop(reason: string)

  /** `change` is what a phase makes of the object it finds, `always` tells which objects are written even when
      nothing changes. */
  datatype Plan<!K, !V> = Plan(change: (K, Option<V>) -> Result<V>, always: K -> bool)

  datatype Failure<K> = Failure(op: Op<K>, reason: string)

  datatype Outcome<K, V> = Outcome(objects: map<K, V>, error: Option<Failure<K>>)

  function Lookup<K, V>(s: map<K, V>, id: K): Option<V> {
    if id in s then Some(s[id]) else None
  }

  function Step<K, V>(plan: Plan<K, V>, op: Op<K>, s: map<K, V>): Outcome<K, V> {
    match op
    case Stop(reason) => Outcome(s, Some(Failure(op, reason)))
    case Put(id) =>
      var r := plan.change(id, Lookup(s, id));
      if r.Err? then Outcome(s, Some(Failure(op, r.reason))) else Outcome(s[id := r.value], None)
  }

  /** Run until the first error. */
  function Exec<K, V>(plan: Plan<K, V>, ops: seq<Op<K>>, s: map<K, V>): Outcome<K, V> {
    if ops == [] then Outcome(s, None)
    else
      var first := Step(plan, ops[0], s);
      if first.error.Some? then first else Exec(plan, ops[1..], first.objects)
  }

  /** A phase applied to its own result changes nothing. */
  ghost predicate Idempotent<K(!new), V(!new)>(plan: Plan<K, V>) {
    forall id, found ::
      plan.change(id, found).Ok? ==> plan.change(id, Some(plan.change(id, found).value)) == plan.change(id, found)
  }

  lemma {:induction false} ExecConcat<K, V>(plan: Plan<K, V>, a: seq<Op<K>>, b: seq<Op<K>>, s: map<K, V>)
    ensures Exec(plan, a + b, s) ==
            if Exec(plan, a, s).error.Some? then Exec(plan, a, s) else Exec(plan, b, Exec(plan, a, s).objects)
  {
    if a == [] {
      assert a + b == b;
    } else {
      assert (a + b)[1..] == a[1..] + b;
      var first := Step(plan, a[0], s);
      if first.error.None? {
        ExecConcat(plan, a[1..], b, first.objects);
      }
    }
  }

  /** A run with an error is an error-free run up to the phase that fails. */
  lemma {:induction false} ErrorPoint<K, V>(plan: Plan<K, V>, ops: seq<Op<K>>, s: map<K, V>) returns (k: nat)
    requires Exec(plan, ops, s).error.Some?
    ensures k < |ops| && ops[k] == Exec(plan, ops, s).error.value.op
    ensures Exec(plan, ops[..k], s) == Outcome(Exec(plan, ops, s).objects, None)
  {
    k := 0;
    var first := Step(plan, ops[0], s);
    if first.error.None? {
      var i := ErrorPoint(plan, ops[1..], first.objects);
      k := i + 1;
      assert ops[..k][1..] == ops[1..][..i];
    }
  }

  /** What the run leaves of a key that none of its phases names. */
  lemma {:induction false} UntouchedStays<K, V>(plan: Plan<K, V>, ops: seq<Op<K>>, s: map<K, V>, id: K)
    requires Put(id) !in ops
    ensures Lookup(Exec(plan, ops, s).objects, id) == Lookup(s, id)
    ensures var e := Exec(plan, ops, s).error; e.Some? ==> e.value.op in ops
  {
    if ops != [] {
      var first := Step(plan, ops[0], s);
      assert ops[0] != Put(id);
      if first.error.None? {
        UntouchedStays(plan, ops[1..], first.objects, id);
      }
    }
  }

  // ----- settled objects -----

  /** The phase would leave its object as it is. */
  ghost predicate Settled<K, V>(plan: Plan<K, V>, op: Op<K>, s: map<K, V>) {
    op.Put? && op.id in s && plan.change(op.id, Some(s[op.id])) == Ok(s[op.id])
  }

  lemma StepSettles<K(!new), V(!new)>(plan: Plan<K, V>, op: Op<K>, s: map<K, V>)
    requires Idempotent(plan) && Step(plan, op, s).error.None?
    ensures Settled(plan, op, Step(plan, op, s).objects)
  {
    assert plan.change(op.id, Lookup(s, op.id)).Ok?;
  }

  lemma {:induction false} StaysSettled<K, V>(plan: Plan<K, V>, op: Op<K>, ops: seq<Op<K>>, s: map<K, V>)
    requires Settled(plan, op, s)
    ensures Settled(plan, op, Exec(plan, ops, s).objects)
  {
    if ops != [] {
      var first := Step(plan, ops[0], s);
      assert Settled(plan, op, first.objects);
      if first.error.None? {
        StaysSettled(plan, op, ops[1..], first.objects);
      }
    }
  }

  lemma SettledStep<K, V>(plan: Plan<K, V>, op: Op<K>, s: map<K, V>)
    requires Settled(plan, op, s)
    ensures Step(plan, op, s) == Outcome(s, None)
  {
    assert s[op.id := s[op.id]] == s;
  }

  /** A run without errors settles everything it names. */
  lemma {:induction false} SettledAfter<K(!new), V(!new)>(plan: Plan<K, V>, ops: seq<Op<K>>, i: nat, s: map<K, V>)
    requires Idempotent(plan) && i < |ops| && Exec(plan, ops, s).error.None?
    ensures Settled(plan, ops[i], Exec(plan, ops, s).objects)
  {
    var first := Step(plan, ops[0], s);
    if i == 0 {
      StepSettles(plan, ops[0], s);
      StaysSettled(plan, ops[0], ops[1..], first.objects);
    } else {
      SettledAfter(plan, ops[1..], i - 1, first.objects);
    }
  }

  /** Resuming from any prefix of the same list. */
  lemma {:induction false} ResumeSame<K(!new), V(!new)>(plan: Plan<K, V>, ops: seq<Op<K>>, k: nat, s: map<K, V>)
    requires Idempotent(plan) && k <= |ops|
    ensures Exec(plan, ops, Exec(plan, ops[..k], s).objects) == Exec(plan, ops, s)
  {
    if k > 0 {
      var first := Step(plan, ops[0], s);
      assert ops[..k][1..] == ops[1..][..k - 1];
      if first.error.None? {
        var cut := Exec(plan, ops[1..][..k - 1], first.objects).objects;
        StepSettles(plan, ops[0], s);
        StaysSettled(plan, ops[0], ops[1..][..k - 1], first.objects);
        SettledStep(plan, ops[0], cut);
        ResumeSame(plan, ops[1..], k - 1, first.objects);
      }
    }
  }

  // ----- resuming with another list -----

  /** After p, cut or not, q ends as it would have alone: same objects, same error. */
  ghost predicate Converges<K, V>(plan: Plan<K, V>, p: seq<Op<K>>, q: seq<Op<K>>, s: map<K, V>) {
    Exec(plan, q, Exec(plan, p, s).objects) == Exec(plan, q, s)
  }

  /** The phases a run completes. */
  function Done<K, V>(plan: Plan<K, V>, ops: seq<Op<K>>, s: map<K, V>): seq<Op<K>> {
    if ops == [] || Step(plan, ops[0], s).error.Some? then []
    else [ops[0]] + Done(plan, ops[1..], Step(plan, ops[0], s).objects)
  }

  lemma {:induction false} DoneIsErrorFree<K, V>(plan: Plan<K, V>, ops: seq<Op<K>>, s: map<K, V>)
    ensures Exec(plan, Done(plan, ops, s), s) == Outcome(Exec(plan, ops, s).objects, None)
    ensures Done(plan, ops, s) <= ops && (Exec(plan, ops, s).error.None? ==> Done(plan, ops, s) == ops)
  {
    if ops != [] {
      var first := Step(plan, ops[0], s);
      if first.error.None? {
        DoneIsErrorFree(plan, ops[1..], first.objects);
        assert Done(plan, ops, s)[1..] == Done(plan, ops[1..], first.objects);
      }
    }
  }

  lemma {:induction false} DonePrefix<K, V>(plan: Plan<K, V>, ops: seq<Op<K>>, k: nat, s: map<K, V>)
    requires k <= |ops|
    ensures Done(plan, ops[..k], s) <= Done(plan, ops, s)
  {
    if k > 0 {
      var first := Step(plan, ops[0], s);
      if first.error.None? {
        assert ops[..k][1..] == ops[1..][..k - 1];
        DonePrefix(plan, ops[1..], k - 1, first.objects);
      }
    }
  }

  predicate Possible<K, V>(plan: Plan<K, V>, op: Op<K>, s: map<K, V>) {
    op.Put? && plan.change(op.id, Lookup(s, op.id)).Ok?
  }

  lemma PossibleAfter<K(!new), V(!new)>(plan: Plan<K, V>, done: Op<K>, op: Op<K>, s: map<K, V>)
    requires Idempotent(plan) && Possible(plan, done, s) && Possible(plan, op, s)
    ensures var first := Step(plan, done, s).objects;
            Possible(plan, op, first) &&
              plan.change(op.id, Lookup(first, op.id)) == plan.change(op.id, Lookup(s, op.id))
  {
  }

  /** Without errors a run changes each object it names once, whatever the order. */
  lemma {:induction false} ExecPointwise<K(!new), V(!new)>(plan: Plan<K, V>, ops: seq<Op<K>>, s: map<K, V>, id: K)
    requires Idempotent(plan) && forall op :: op in ops ==> Possible(plan, op, s)
    ensures Exec(plan, ops, s).error.None?
    ensures Put(id) in ops ==> Possible(plan, Put(id), s)
    ensures Lookup(Exec(plan, ops, s).objects, id) ==
            if Put(id) in ops then Some(plan.change(id, Lookup(s, id)).value) else Lookup(s, id)
  {
    if ops != [] {
      assert Possible(plan, ops[0], s);
      var first := Step(plan, ops[0], s).objects;
      assert ops == [ops[0]] + ops[1..];
      forall op | op in ops[1..] ensures Possible(plan, op, first) {
        PossibleAfter(plan, ops[0], op, s);
      }
      ExecPointwise(plan, ops[1..], first, id);
      if Put(id) in ops {
        PossibleAfter(plan, ops[0], Put(id), s);
      }
    }
  }

  lemma {:induction false} ErrorFreeIsPossible<K, V>(plan: Plan<K, V>, ops: seq<Op<K>>, s: map<K, V>, op: Op<K>)
    requires Exec(plan, ops, s).error.None? && op in ops
    ensures Possible(plan, op, s)
  {
    if op != ops[0] {
      assert ops == [ops[0]] + ops[1..];
      var first := Step(plan, ops[0], s).objects;
      ErrorFreeIsPossible(plan, ops[1..], first, op);
      assert Lookup(first, op.id) == Lookup(s, op.id);
    }
  }

  /** A run has no error exactly when each of its phases is possible to begin with. */
  lemma ErrorFreeIff<K(!new), V(!new)>(plan: Plan<K, V>, ops: seq<Op<K>>, s: map<K, V>)
    requires Idempotent(plan)
    ensures Exec(plan, ops, s).error.None? <==> forall op :: op in ops ==> Possible(plan, op, s)
  {
    if Exec(plan, ops, s).error.None? {
      forall op | op in ops ensures Possible(plan, op, s) {
        ErrorFreeIsPossible(plan, ops, s, op);
      }
    } else if forall op :: op in ops ==> Possible(plan, op, s) {
      assert ops[0] in ops;
      ExecPointwise(plan, ops, s, ops[0].id);
    }
  }

  /** What an error-free run does to one object. */
  lemma ErrorFreeRun<K(!new), V(!new)>(plan: Plan<K, V>, ops: seq<Op<K>>, s: map<K, V>, id: K)
    requires Idempotent(plan) && Exec(plan, ops, s).error.None?
    ensures Put(id) in ops ==>
              && Possible(plan, Put(id), s) && id in Exec(plan, ops, s).objects
              && Ok(Exec(plan, ops, s).objects[id]) == plan.change(id, Lookup(s, id))
    ensures Put(id) !in ops ==> Lookup(Exec(plan, ops, s).objects, id) == Lookup(s, id)
  {
    forall op | op in ops ensures Possible(plan, op, s) {
      ErrorFreeIsPossible(plan, ops, s, op);
    }
    ExecPointwise(plan, ops, s, id);
    if Put(id) in ops {
      assert Lookup(Exec(plan, ops, s).objects, id) == Some(plan.change(id, Lookup(s, id)).value);
    }
  }

  lemma LookupsDecide<K(!new), V(!new)>(s: map<K, V>, t: map<K, V>)
    requires forall id :: Lookup(s, id) == Lookup(t, id)
    ensures s == t
  {
    forall id ensures (id in s <==> id in t) && (id in s ==> s[id] == t[id]) {
      assert Lookup(s, id) == Lookup(t, id);
    }
  }

  /** t is s with some phases already applied. */
  ghost predicate Ahead<K(!new), V(!new)>(plan: Plan<K, V>, s: map<K, V>, t: map<K, V>) {
    forall id ::
      Lookup(t, id) == Lookup(s, id) ||
      (Possible(plan, Put(id), s) && Lookup(t, id) == Some(plan.change(id, Lookup(s, id)).value))
  }

  /** The same list completes the same phases from either, with the same error, and makes what they name equal. */
  lemma {:induction false} AheadRuns<K(!new), V(!new)>(plan: Plan<K, V>, ops: seq<Op<K>>, s: map<K, V>, t: map<K, V>)
    requires Idempotent(plan) && Ahead(plan, s, t)
    ensures Done(plan, ops, t) == Done(plan, ops, s) && Exec(plan, ops, t).error == Exec(plan, ops, s).error
    ensures Ahead(plan, Exec(plan, ops, s).objects, Exec(plan, ops, t).objects)
    ensures forall id :: Put(id) in Done(plan, ops, s) || Lookup(t, id) == Lookup(s, id) ==>
              Lookup(Exec(plan, ops, t).objects, id) == Lookup(Exec(plan, ops, s).objects, id)
    ensures forall id :: Put(id) !in Done(plan, ops, s) ==>
              && Lookup(Exec(plan, ops, s).objects, id) == Lookup(s, id)
              && Lookup(Exec(plan, ops, t).objects, id) == Lookup(t, id)
  {
    if ops != [] {
      var a, b := Step(plan, ops[0], s), Step(plan, ops[0], t);
      if ops[0].Put? {
        assert Lookup(t, ops[0].id) == Lookup(s, ops[0].id) || Possible(plan, Put(ops[0].id), s);
      }
      if a.error.None? {
        AheadStep(plan, ops[0], s, t);
        AheadRuns(plan, ops[1..], a.objects, b.objects);
      }
    }
  }

  lemma AheadStep<K(!new), V(!new)>(plan: Plan<K, V>, op: Op<K>, s: map<K, V>, t: map<K, V>)
    requires Idempotent(plan) && Ahead(plan, s, t) && Possible(plan, op, s)
    ensures var a, b := Step(plan, op, s), Step(plan, op, t);
            && a.error.None? && b.error.None? && Ahead(plan, a.objects, b.objects)
            && Lookup(a.objects, op.id) == Lookup(b.objects, op.id)
            && forall id :: id != op.id ==>
                 Lookup(a.objects, id) == Lookup(s, id) && Lookup(b.objects, id) == Lookup(t, id)
  {
    assert Lookup(t, op.id) == Lookup(s, op.id) || Possible(plan, Put(op.id), s);
    var a, b := Step(plan, op, s).objects, Step(plan, op, t).objects;
    forall id
      ensures Lookup(b, id) == Lookup(a, id) ||
              (Possible(plan, Put(id), a) && Lookup(b, id) == Some(plan.change(id, Lookup(a, id)).value))
    {
      if id != op.id {
        assert Lookup(a, id) == Lookup(s, id) && Lookup(b, id) == Lookup(t, id);
      }
    }
  }

  lemma RunsAhead<K(!new), V(!new)>(plan: Plan<K, V>, ops: seq<Op<K>>, s: map<K, V>)
    requires Idempotent(plan)
    ensures Ahead(plan, s, Exec(plan, ops, s).objects)
    ensures forall id :: Put(id) in Done(plan, ops, s) ==>
              Possible(plan, Put(id), s) &&
                Lookup(Exec(plan, ops, s).objects, id) == Some(plan.change(id, Lookup(s, id)).value)
    ensures forall id :: Put(id) !in Done(plan, ops, s) ==> Lookup(Exec(plan, ops, s).objects, id) == Lookup(s, id)
    ensures forall op :: op in Done(plan, ops, s) ==> op.Put?
  {
    var done := Done(plan, ops, s);
    DoneIsErrorFree(plan, ops, s);
    forall op | op in done ensures Possible(plan, op, s) {
      ErrorFreeIsPossible(plan, done, s, op);
    }
    forall id
      ensures if Put(id) in done
              then Possible(plan, Put(id), s) &&
                Lookup(Exec(plan, ops, s).objects, id) == Some(plan.change(id, Lookup(s, id)).value)
              else Lookup(Exec(plan, ops, s).objects, id) == Lookup(s, id)
    {
      ExecPointwise(plan, done, s, id);
    }
  }

  /** Main result: after any run, cut or not, another list ends as it would have alone, objects and error, if and
      only if every phase that only the first one completed had nothing to change. */
  lemma ResumeIff<K(!new), V(!new)>(plan: Plan<K, V>, p: seq<Op<K>>, q: seq<Op<K>>, s: map<K, V>)
    requires Idempotent(plan)
    ensures Converges(plan, p, q, s) <==>
            forall op :: op in Done(plan, p, s) && op !in Done(plan, q, s) ==> Settled(plan, op, s)
  {
    var t := Exec(plan, p, s).objects;
    RunsAhead(plan, p, s);
    AheadRuns(plan, q, s, t);
    var twice, alone := Exec(plan, q, t).objects, Exec(plan, q, s).objects;
    if forall op :: op in Done(plan, p, s) && op !in Done(plan, q, s) ==> Settled(plan, op, s) {
      forall id ensures Lookup(twice, id) == Lookup(alone, id) {
        if Put(id) in Done(plan, p, s) && Put(id) !in Done(plan, q, s) {
          assert Settled(plan, Put(id), s);
        }
      }
      LookupsDecide(twice, alone);
    } else {
      var op :| op in Done(plan, p, s) && op !in Done(plan, q, s) && !Settled(plan, op, s);
      assert op == Put(op.id);
      assert Lookup(twice, op.id) == Lookup(t, op.id) && Lookup(alone, op.id) == Lookup(s, op.id);
    }
  }

  /** Two lists that differ only in their first phase complete the same others. */
  lemma FirstDiffers<K(!new), V(!new)>(
    plan: Plan<K, V>, own: Op<K>, other: Op<K>, rest: seq<Op<K>>, k: nat, s: map<K, V>)
    requires Idempotent(plan) && Possible(plan, own, s) && Possible(plan, other, s)
    requires 1 <= k <= |rest| + 1 && own != other && own !in rest
    ensures var p, q := Done(plan, ([own] + rest)[..k], s), Done(plan, [other] + rest, s);
            own in p && own !in q && forall op :: op in p && op != own ==> op in q
  {
    var a, b := Step(plan, own, s).objects, Step(plan, other, s).objects;
    SameDone(plan, own, rest, s);
    SameDone(plan, other, rest, s);
    DonePrefix(plan, rest, k - 1, a);
    DoneIsErrorFree(plan, rest, b);
    assert ([own] + rest)[..k] == [own] + rest[..k - 1];
    DoneCons(plan, own, rest[..k - 1], s);
    DoneCons(plan, other, rest, s);
  }

  lemma DoneCons<K, V>(plan: Plan<K, V>, op: Op<K>, ops: seq<Op<K>>, s: map<K, V>)
    requires Possible(plan, op, s)
    ensures Done(plan, [op] + ops, s) == [op] + Done(plan, ops, Step(plan, op, s).objects)
  {
    assert ([op] + ops)[0] == op && ([op] + ops)[1..] == ops;
  }

  lemma SameDone<K(!new), V(!new)>(plan: Plan<K, V>, op: Op<K>, ops: seq<Op<K>>, s: map<K, V>)
    requires Idempotent(plan) && Possible(plan, op, s)
    ensures Done(plan, ops, Step(plan, op, s).objects) == Done(plan, ops, s)
  {
    AheadRuns(plan, ops, s, Step(plan, op, s).objects);
  }

  // ----- any number of attempts -----

  /** The objects after these lists, each run until its first error. */
  function Final<K, V>(plan: Plan<K, V>, ps: seq<seq<Op<K>>>, s: map<K, V>): map<K, V> {
    if ps == [] then s else Final(plan, ps[1..], Exec(plan, ps[0], s).objects)
  }

  function AllDone<K, V>(plan: Plan<K, V>, ps: seq<seq<Op<K>>>, s: map<K, V>): seq<Op<K>> {
    if ps == [] then [] else Done(plan, ps[0], s) + AllDone(plan, ps[1..], Exec(plan, ps[0], s).objects)
  }

  lemma {:induction false} ChainIsErrorFree<K, V>(plan: Plan<K, V>, ps: seq<seq<Op<K>>>, s: map<K, V>)
    ensures Exec(plan, AllDone(plan, ps, s), s) == Outcome(Final(plan, ps, s), None)
  {
    if ps != [] {
      var t := Exec(plan, ps[0], s).objects;
      DoneIsErrorFree(plan, ps[0], s);
      ChainIsErrorFree(plan, ps[1..], t);
      ExecConcat(plan, Done(plan, ps[0], s), AllDone(plan, ps[1..], t), s);
    }
  }

  /** The same after any number of attempts. */
  lemma AttemptsConvergeIff<K(!new), V(!new)>(plan: Plan<K, V>, ps: seq<seq<Op<K>>>, q: seq<Op<K>>, s: map<K, V>)
    requires Idempotent(plan)
    ensures Exec(plan, q, Final(plan, ps, s)) == Exec(plan, q, s) <==>
            forall op :: op in AllDone(plan, ps, s) && op !in Done(plan, q, s) ==> Settled(plan, op, s)
  {
    var all := AllDone(plan, ps, s);
    ChainIsErrorFree(plan, ps, s);
    DoneIsErrorFree(plan, all, s);
    ResumeIff(plan, all, q, s);
  }

  // ----- the writes a run issues -----

  ghost predicate Writes<K, V>(plan: Plan<K, V>, op: Op<K>, s: map<K, V>, after: map<K, V>) {
    op.Put? && (plan.always(op.id) || Lookup(s, op.id) != Lookup(after, op.id))
  }

  ghost function Advance<K, V>(plan: Plan<K, V>, op: Op<K>, s: Store<K, V>): Store<K, V> {
    var after := Step(plan, op, s.objects).objects;
    Store(after, s.written + if Writes(plan, op, s.objects, after) then [op.id] else [])
  }

  /** Exec, with the writes it issues. */
  ghost function After<K, V>(plan: Plan<K, V>, ops: seq<Op<K>>, s: Store<K, V>): Store<K, V> {
    if ops == [] || Step(plan, ops[0], s.objects).error.Some? then s
    else After(plan, ops[1..], Advance(plan, ops[0], s))
  }

  lemma {:induction false} AfterIsExec<K, V>(plan: Plan<K, V>, ops: seq<Op<K>>, s: Store<K, V>)
    ensures After(plan, ops, s).objects == Exec(plan, ops, s.objects).objects
  {
    if ops != [] && Step(plan, ops[0], s.objects).error.None? {
      AfterIsExec(plan, ops[1..], Advance(plan, ops[0], s));
    }
  }

  lemma {:induction false} AfterConcat<K, V>(plan: Plan<K, V>, a: seq<Op<K>>, b: seq<Op<K>>, s: Store<K, V>)
    ensures After(plan, a + b, s) ==
            if Exec(plan, a, s.objects).error.Some? then After(plan, a, s) else After(plan, b, After(plan, a, s))
  {
    if a == [] {
      assert a + b == b;
    } else {
      assert (a + b)[1..] == a[1..] + b;
      if Step(plan, a[0], s.objects).error.None? {
        AfterConcat(plan, a[1..], b, Advance(plan, a[0], s));
      }
    }
  }

  function Unconditional<K, V>(plan: Plan<K, V>, ops: seq<Op<K>>): seq<K> {
    if ops == [] then []
    else (if ops[0].Put? && plan.always(ops[0].id) then [ops[0].id] else []) + Unconditional(plan, ops[1..])
  }

  lemma {:induction false} UnconditionalAre<K, V>(plan: Plan<K, V>, ops: seq<Op<K>>, id: K)
    ensures id in Unconditional(plan, ops) <==> Put(id) in ops && plan.always(id)
  {
    if ops != [] {
      UnconditionalAre(plan, ops[1..], id);
      assert ops == [ops[0]] + ops[1..];
    }
  }

  lemma {:induction false} SettledRunWrites<K, V>(plan: Plan<K, V>, ops: seq<Op<K>>, s: Store<K, V>)
    requires forall i :: 0 <= i < |ops| ==> Settled(plan, ops[i], s.objects)
    ensures After(plan, ops, s) == Store(s.objects, s.written + Unconditional(plan, ops))
  {
    if ops == [] {
      assert s.written + [] == s.written;
    } else {
      SettledStep(plan, ops[0], s.objects);
      var own := if plan.always(ops[0].id) then [ops[0].id] else [];
      assert Advance(plan, ops[0], s) == Store(s.objects, s.written + own);
      SettledRunWrites(plan, ops[1..], Store(s.objects, s.written + own));
      assert s.written + own + Unconditional(plan, ops[1..]) == s.written + (own + Unconditional(plan, ops[1..]));
    }
  }

  /** After a run without errors the next one changes nothing and issues exactly the unconditional writes. */
  lemma SecondRunRewrites<K(!new), V(!new)>(plan: Plan<K, V>, ops: seq<Op<K>>, s: Store<K, V>)
    requires Idempotent(plan) && Exec(plan, ops, s.objects).error.None?
    ensures var once := After(plan, ops, s);
            After(plan, ops, once) == Store(once.objects, once.written + Unconditional(plan, ops))
  {
    var once := After(plan, ops, s);
    AfterIsExec(plan, ops, s);
    forall i | 0 <= i < |ops| ensures Settled(plan, ops[i], once.objects) {
      SettledAfter(plan, ops, i, s.objects);
    }
    SettledRunWrites(plan, ops, once);
  }

  // ----- how an execution ends -----

  /** Done, refused for a reason of its own, or cut by a failing call (or a crash). */
  datatype Ending<K> = Finished | Refused(failure: Failure<K>) | Cut

  /** An execution of these phases took the store from s to t. */
  ghost predicate Ran<K, V>(
    plan: Plan<K, V>, ops: seq<Op<K>>, s: Store<K, V>, t: Store<K, V>, ending: Ending<K>)
  {
    match ending
    case Finished => t == After(plan, ops, s) && Exec(plan, ops, s.objects).error.None?
    case Refused(failure) => t == After(plan, ops, s) && Exec(plan, ops, s.objects).error == Some(failure)
    case Cut => exists k :: 0 <= k <= |ops| && t == After(plan, ops[..k], s)
  }

  /** Executions compose: one that finished hands over to the next, any other ends the attempt. */
  lemma RanThen<K, V>(
    plan: Plan<K, V>, a: seq<Op<K>>, b: seq<Op<K>>, s: Store<K, V>, t: Store<K, V>, u: Store<K, V>, ending: Ending<K>)
    requires Ran(plan, a, s, t, Finished) && Ran(plan, b, t, u, ending)
    ensures Ran(plan, a + b, s, u, ending)
  {
    ExecConcat(plan, a, b, s.objects);
    AfterConcat(plan, a, b, s);
    AfterIsExec(plan, a, s);
    if ending.Cut? {
      var k :| 0 <= k <= |b| && u == After(plan, b[..k], t);
      assert (a + b)[..|a| + k] == a + b[..k];
      AfterConcat(plan, a, b[..k], s);
    }
  }

  lemma RanStops<K, V>(
    plan: Plan<K, V>, a: seq<Op<K>>, b: seq<Op<K>>, s: Store<K, V>, t: Store<K, V>, ending: Ending<K>)
    requires Ran(plan, a, s, t, ending) && !ending.Finished?
    ensures Ran(plan, a + b, s, t, ending)
  {
    ExecConcat(plan, a, b, s.objects);
    AfterConcat(plan, a, b, s);
    if ending.Cut? {
      var k :| 0 <= k <= |a| && t == After(plan, a[..k], s);
      assert (a + b)[..k] == a[..k];
    }
  }

  /** The piece [i..j) of a list, after the pieces before it. */
  lemma Piece<K, V>(
    plan: Plan<K, V>, p: seq<Op<K>>, i: nat, j: nat, s: Store<K, V>, t: Store<K, V>, u: Store<K, V>, ending: Ending<K>)
    requires i <= j <= |p| && (if i == 0 then t == s else Ran(plan, p[..i], s, t, Finished))
    requires Ran(plan, p[i..j], t, u, ending)
    ensures Ran(plan, if ending.Finished? then p[..j] else p, s, u, ending)
  {
    assert p[..i] + p[i..j] == p[..j] && p[..j] + p[j..] == p;
    if i == 0 {
      assert Ran(plan, p[..i], s, t, Finished);
    }
    RanThen(plan, p[..i], p[i..j], s, t, u, ending);
    if !ending.Finished? {
      RanStops(plan, p[..j], p[j..], s, u, ending);
    }
  }

  lemma NothingRan<K, V>(plan: Plan<K, V>, ops: seq<Op<K>>, s: Store<K, V>)
    ensures Ran(plan, ops, s, s, Cut) && Ran(plan, [], s, s, Finished)
  {
    assert After(plan, ops[..0], s) == s;
  }

  /** One phase: refused, or written as its change says, or cut before or after the write. */
  lemma OneOp<K, V>(plan: Plan<K, V>, op: Op<K>, s: Store<K, V>)
    ensures Exec(plan, [op], s.objects) == Step(plan, op, s.objects)
    ensures After(plan, [op], s) == if Step(plan, op, s.objects).error.Some? then s else Advance(plan, op, s)
    ensures Ran(plan, [op], s, s, Cut) && Ran(plan, [op], s, After(plan, [op], s), Cut)
  {
    assert [op][1..] == [] && [op][..1] == [op];
    NothingRan(plan, [op], s);
  }

  lemma OneMore<K, V>(plan: Plan<K, V>, ops: seq<Op<K>>, i: nat, s: Store<K, V>, t: Store<K, V>)
    requires i < |ops| && Exec(plan, ops[..i], s.objects).error.None? && t == After(plan, ops[..i], s)
    ensures Exec(plan, ops[..i + 1], s.objects) == Step(plan, ops[i], t.objects)
    ensures Step(plan, ops[i], t.objects).error.None? ==> After(plan, ops[..i + 1], s) == Advance(plan, ops[i], t)
  {
    assert ops[..i + 1] == ops[..i] + [ops[i]];
    AfterIsExec(plan, ops[..i], s);
    ExecConcat(plan, ops[..i], [ops[i]], s.objects);
    AfterConcat(plan, ops[..i], [ops[i]], s);
    OneOp(plan, ops[i], t);
  }

  /** An execution, however it ended, is a run of a prefix. */
  lemma RanIsPrefix<K, V>(plan: Plan<K, V>, ops: seq<Op<K>>, s: Store<K, V>, t: Store<K, V>, ending: Ending<K>)
    returns (k: nat)
    requires Ran(plan, ops, s, t, ending)
    ensures k <= |ops| && t.objects == Exec(plan, ops[..k], s.objects).objects && (!ending.Cut? ==> k == |ops|)
  {
    k := |ops|;
    assert ops[..k] == ops;
    if ending.Cut? {
      k :| 0 <= k <= |ops| && t == After(plan, ops[..k], s);
    }
    AfterIsExec(plan, ops[..k], s);
  }
}
