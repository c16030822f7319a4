/** Object metadata and the helpers that edit it in place (utils/utils.go): finalizers,
    labels and owner references. */
module ObjectMeta {
  import opened Wrappers

  datatype OwnerReference = OwnerReference(
    apiVersion: string, kind: string, name: string, uid: string,
    controller: Option<bool>, blockOwnerDeletion: Option<bool>)

  /** What identifies an owner; the controller flag is not part of it. */
  datatype OwnerKey = OwnerKey(apiVersion: string, kind: string, name: string, uid: string)

  function KeyOf(ref: OwnerReference): OwnerKey {
    OwnerKey(ref.apiVersion, ref.kind, ref.name, ref.uid)
  }

  /** The reference that AddOwnerReference writes: blockOwnerDeletion stays unset. */
  function RefTo(owner: OwnerKey, isController: bool): OwnerReference {
    OwnerReference(owner.apiVersion, owner.kind, owner.name, owner.uid, Some(isController), None)
  }

  // ----- lists of strings -----

  method Contains(slice: seq<string>, s: string) returns (found: bool)
    ensures found <==> s in slice
  {
    for i := 0 to |slice|
      invariant s !in slice[..i]
    {
      if slice[i] == s {
        return true;
      }
    }
    return false;
  }

  function Without(slice: seq<string>, s: string): seq<string> {
    if slice == [] then []
    else
      var front := Without(slice[..|slice| - 1], s);
      if slice[|slice| - 1] == s then front else front + [slice[|slice| - 1]]
  }

  method Remove(slice: seq<string>, s: string) returns (result: seq<string>)
    ensures result == Without(slice, s)
  {
    result := [];
    for i := 0 to |slice|
      invariant result == Without(slice[..i], s)
    {
      assert slice[..i + 1][..i] == slice[..i];
      if slice[i] != s {
        result := result + [slice[i]];
      }
    }
    assert slice[..|slice|] == slice;
  }

  /** Without drops every copy of s and no other element. */
  lemma {:induction false} WithoutIsExact(slice: seq<string>, s: string)
    ensures multiset(Without(slice, s)) == multiset(slice)[s := 0]
    ensures s !in Without(slice, s)
    ensures forall t :: t != s ==> (t in Without(slice, s) <==> t in slice)
  {
    if slice != [] {
      var front, last := slice[..|slice| - 1], slice[|slice| - 1];
      assert slice == front + [last];
      WithoutIsExact(front, s);
    }
  }

  /** Adding a finalizer and removing it again restores a list that did not have it. */
  lemma {:induction false} WithoutUndoesAppend(slice: seq<string>, s: string)
    requires s !in slice
    ensures Without(slice + [s], s) == slice
  {
    assert (slice + [s])[..|slice|] == slice;
    WithoutAbsent(slice, s);
  }

  lemma {:induction false} WithoutAbsent(slice: seq<string>, s: string)
    requires s !in slice
    ensures Without(slice, s) == slice
  {
    if slice != [] {
      WithoutAbsent(slice[..|slice| - 1], s);
    }
  }

  /** Neither adding nor removing the finalizer is visible to somebody who ignores it. */
  lemma {:induction false} WithoutIgnores(slice: seq<string>, s: string)
    ensures Without(slice + [s], s) == Without(slice, s)
    ensures Without(Without(slice, s), s) == Without(slice, s)
  {
    assert (slice + [s])[..|slice|] == slice;
    WithoutIsExact(slice, s);
    WithoutAbsent(Without(slice, s), s);
  }

  // ----- owner references -----

  /** Overwrite the first reference with ref's key, or append ref. */
  function Upsert(owners: seq<OwnerReference>, ref: OwnerReference): seq<OwnerReference> {
    if owners == [] then [ref]
    else if KeyOf(owners[0]) == KeyOf(ref) then [ref] + owners[1..]
    else [owners[0]] + Upsert(owners[1..], ref)
  }

  function UpsertAll(owners: seq<OwnerReference>, refs: seq<OwnerReference>): seq<OwnerReference> {
    if refs == [] then owners
    else Upsert(UpsertAll(owners, refs[..|refs| - 1]), refs[|refs| - 1])
  }

  /** The list read as a map; a repeated key counts once, by its first reference. */
  function AsMap(owners: seq<OwnerReference>): map<OwnerKey, OwnerReference> {
    if owners == [] then map[] else AsMap(owners[1..])[KeyOf(owners[0]) := owners[0]]
  }

  /** The references to other owners, in order. */
  function Others(owners: seq<OwnerReference>, key: OwnerKey): seq<OwnerReference> {
    if owners == [] then []
    else (if KeyOf(owners[0]) == key then [] else [owners[0]]) + Others(owners[1..], key)
  }

  ghost predicate UniqueKeys(owners: seq<OwnerReference>) {
    forall i, j :: 0 <= i < j < |owners| ==> KeyOf(owners[i]) != KeyOf(owners[j])
  }

  /** Upsert is insertion into the map, for every list. */
  lemma {:induction false} UpsertRefinesMap(owners: seq<OwnerReference>, ref: OwnerReference)
    ensures AsMap(Upsert(owners, ref)) == AsMap(owners)[KeyOf(ref) := ref]
  {
    if owners != [] && KeyOf(owners[0]) != KeyOf(ref) {
      UpsertRefinesMap(owners[1..], ref);
    }
  }

  lemma {:induction false} UpsertIdempotent(owners: seq<OwnerReference>, ref: OwnerReference)
    ensures Upsert(Upsert(owners, ref), ref) == Upsert(owners, ref)
  {
    if owners != [] && KeyOf(owners[0]) != KeyOf(ref) {
      UpsertIdempotent(owners[1..], ref);
    }
  }

  lemma {:induction false} UpsertKeepsOthers(owners: seq<OwnerReference>, ref: OwnerReference)
    ensures Others(Upsert(owners, ref), KeyOf(ref)) == Others(owners, KeyOf(ref))
  {
    if owners != [] && KeyOf(owners[0]) != KeyOf(ref) {
      UpsertKeepsOthers(owners[1..], ref);
    }
  }

  /** Where Upsert writes, with i the first index holding ref's key, or |owners|. */
  lemma {:induction false} UpsertAt(owners: seq<OwnerReference>, ref: OwnerReference, i: nat)
    requires i <= |owners|
    requires forall j :: 0 <= j < i ==> KeyOf(owners[j]) != KeyOf(ref)
    requires i < |owners| ==> KeyOf(owners[i]) == KeyOf(ref)
    ensures Upsert(owners, ref) == if i < |owners| then owners[i := ref] else owners + [ref]
  {
    if i > 0 {
      UpsertAt(owners[1..], ref, i - 1);
    }
  }

  lemma UpsertKeepsUnique(owners: seq<OwnerReference>, ref: OwnerReference)
    requires UniqueKeys(owners)
    ensures UniqueKeys(Upsert(owners, ref))
  {
    var i := FirstIndex(owners, KeyOf(ref));
    UpsertAt(owners, ref, i);
  }

  function FirstIndex(owners: seq<OwnerReference>, key: OwnerKey): (i: nat)
    ensures i <= |owners|
    ensures forall j :: 0 <= j < i ==> KeyOf(owners[j]) != key
    ensures i < |owners| ==> KeyOf(owners[i]) == key
  {
    if owners == [] || KeyOf(owners[0]) == key then 0 else 1 + FirstIndex(owners[1..], key)
  }

  /** After any sequence of calls each owner carries the reference of the last call for it,
      and every owner never mentioned keeps its own. */
  lemma {:induction false} LastCallWins(owners: seq<OwnerReference>, refs: seq<OwnerReference>, k: nat)
    requires k < |refs|
    requires forall j :: k < j < |refs| ==> KeyOf(refs[j]) != KeyOf(refs[k])
    ensures KeyOf(refs[k]) in AsMap(UpsertAll(owners, refs))
    ensures AsMap(UpsertAll(owners, refs))[KeyOf(refs[k])] == refs[k]
  {
    var front := refs[..|refs| - 1];
    UpsertRefinesMap(UpsertAll(owners, front), refs[|refs| - 1]);
    if k < |front| {
      assert front[k] == refs[k];
      LastCallWins(owners, front, k);
    }
  }

  lemma {:induction false} UnmentionedOwnersStay(owners: seq<OwnerReference>, refs: seq<OwnerReference>, key: OwnerKey)
    requires forall j :: 0 <= j < |refs| ==> KeyOf(refs[j]) != key
    ensures key in AsMap(UpsertAll(owners, refs)) <==> key in AsMap(owners)
    ensures key in AsMap(owners) ==> AsMap(UpsertAll(owners, refs))[key] == AsMap(owners)[key]
    ensures UniqueKeys(owners) ==> UniqueKeys(UpsertAll(owners, refs))
  {
    if refs != [] {
      var front := refs[..|refs| - 1];
      UnmentionedOwnersStay(owners, front, key);
      UpsertRefinesMap(UpsertAll(owners, front), refs[|refs| - 1]);
      if UniqueKeys(owners) {
        UpsertKeepsUnique(UpsertAll(owners, front), refs[|refs| - 1]);
      }
    }
  }

  // ----- labels -----

  function WithLabel(labels: Option<map<string, string>>, key: string, value: string): Option<map<string, string>> {
    Some((if labels.None? then map[] else labels.value)[key := value])
  }

  lemma WithLabelIdempotent(labels: Option<map<string, string>>, key: string, value: string)
    ensures WithLabel(WithLabel(labels, key, value), key, value) == WithLabel(labels, key, value)
  {
    var once := WithLabel(labels, key, value).value;
    assert once[key := value] == once;
  }

  /** The metadata of one API object. */
  class Metadata {
    var finalizers: seq<string>
    var labels: Option<map<string, string>>
    var ownerReferences: seq<OwnerReference>

    constructor (finalizers: seq<string>, labels: Option<map<string, string>>, ownerReferences: seq<OwnerReference>)
      ensures this.finalizers == finalizers && this.labels == labels && this.ownerReferences == ownerReferences
    {
      this.finalizers, this.labels, this.ownerReferences := finalizers, labels, ownerReferences;
    }

    method AddFinalizer(finalizer: string) returns (added: bool)
      modifies this`finalizers
      ensures added <==> finalizer !in old(finalizers)
      ensures finalizers == if added then old(finalizers) + [finalizer] else old(finalizers)
    {
      var found := Contains(finalizers, finalizer);
      if !found {
        finalizers := finalizers + [finalizer];
      }
      return !found;
    }

    method RemoveFinalizer(finalizer: string) returns (removed: bool)
      modifies this`finalizers
      ensures removed <==> finalizer in old(finalizers)
      ensures finalizers == Without(old(finalizers), finalizer)
      ensures !removed ==> finalizers == old(finalizers)
    {
      removed := Contains(finalizers, finalizer);
      if removed {
        finalizers := Remove(finalizers, finalizer);
      } else {
        WithoutAbsent(finalizers, finalizer);
      }
    }

    method AddLabel(key: string, value: string)
      modifies this`labels
      ensures labels == WithLabel(old(labels), key, value)
    {
      if labels == None {
        labels := Some(map[]);
      }
      labels := Some(labels.value[key := value]);
    }

    /** owner is None when the scheme does not know the owner's type. */
    method AddOwnerReference(owner: Option<OwnerKey>, isController: bool) returns (ok: bool)
      modifies this`ownerReferences
      ensures ok <==> owner.Some?
      ensures ownerReferences ==
              if ok then Upsert(old(ownerReferences), RefTo(owner.value, isController)) else old(ownerReferences)
    {
      if owner.None? {
        return false;
      }
      var ref := RefTo(owner.value, isController);
      var index := -1;
      for i := 0 to |ownerReferences|
        invariant index == -1
        invariant forall j :: 0 <= j < i ==> KeyOf(ownerReferences[j]) != KeyOf(ref)
      {
        if KeyOf(ref) == KeyOf(ownerReferences[i]) {
          index := i;
          break;
        }
      }
      UpsertAt(ownerReferences, ref, if index == -1 then |ownerReferences| else index);
      if index != -1 {
        ownerReferences := ownerReferences[index := ref];
      } else {
        ownerReferences := ownerReferences + [ref];
      }
      return true;
    }
  }
}
