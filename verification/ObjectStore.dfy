/** The API server as one reconcile sees it: objects by key, and calls that may fail. */
module ObjectStore {
  /** The objects together with the log of writes. */
  datatype Store<K, V> = Store(objects: map<K, V>, written: seq<K>)

  datatype Reply<V> = Found(value: V) | NotFound | Failed

  /** The next `calls` calls succeed and the one after them fails; when that one is a write it may have taken
      effect all the same. A reconcile stops at its first failing call, and a crash looks the same. */
  class Server<K(==), V> {
    var store: Store<K, V>
    var calls: nat
    var lands: bool

    method Get(key: K) returns (r: Reply<V>)
      modifies this`calls
      ensures r.Found? ==> key in store.objects && r.value == store.objects[key]
      ensures r.NotFound? ==> key !in store.objects
    {
      if calls == 0 {
        return Failed;
      }
      calls := calls - 1;
      return if key in store.objects then Found(store.objects[key]) else NotFound;
    }

    /** A read of something else, whose answer is a parameter of the model. */
    method Poll() returns (ok: bool)
      modifies this`calls
    {
      ok := calls > 0;
      calls := if ok then calls - 1 else 0;
    }

    /** The objects under these keys. */
    method List(keys: seq<K>) returns (ok: bool, items: seq<V>)
      requires forall i :: 0 <= i < |keys| ==> keys[i] in store.objects
      modifies this`calls
      ensures |items| == |keys| && forall i :: 0 <= i < |keys| ==> items[i] == store.objects[keys[i]]
    {
      ok := calls > 0;
      calls := if ok then calls - 1 else 0;
      var objects := store.objects;
      items := seq(|keys|, i requires 0 <= i < |keys| && keys[i] in objects => objects[keys[i]]);
    }

    method Write(key: K, value: V) returns (ok: bool)
      modifies this
      ensures store == old(store) || store == Store(old(store).objects[key := value], old(store).written + [key])
      ensures ok ==> store == Store(old(store).objects[key := value], old(store).written + [key])
    {
      ok := calls > 0;
      if ok || lands {
        store := Store(store.objects[key := value], store.written + [key]);
      }
      calls := if ok then calls - 1 else 0;
    }
  }
}
