/** An in-memory object store standing for the Kubernetes API (nodes, namespaces, secrets, services,
    daemonsets, endpoints) and for containerd's image store.

    The contracts are deliberately loose, the way a remote API is: any call may fail with any error and
    then leave the store as it was. Only the error kinds the modelled code branches on are pinned down:
    a missing object is never returned, NotFound is only reported for a missing object and AlreadyExists
    only for a present one. The bodies are a store that never fails; callers are verified against the
    contracts alone, so their proofs hold for every store that obeys them. */
module Stores {
  import opened Outcomes

  class Store<K(==), V(==)> {
    var objects: map<K, V>
    /** The key an object is stored under (its name, or namespace and name). */
    const keyOf: V -> K

    ghost predicate Valid()
      reads this
    {
      forall k | k in objects :: keyOf(objects[k]) == k
    }

    constructor (keyOf: V -> K, objects: map<K, V>)
      requires forall k | k in objects :: keyOf(objects[k]) == k
      ensures Valid() && this.keyOf == keyOf && this.objects == objects
    {
      this.keyOf := keyOf;
      this.objects := objects;
    }

    method Get(k: K) returns (r: Result<V>)
      requires Valid()
      ensures r.Ok? ==> k in objects && r.value == objects[k] && keyOf(r.value) == k
      ensures k !in objects ==> r.Err?
      ensures r == Err(NotFound) ==> k !in objects
    {
      if k in objects {
        r := Ok(objects[k]);
      } else {
        r := Err(NotFound);
      }
    }

    /** Stores `v` under its key; an object already stored there is never replaced. */
    method Create(v: V) returns (err: Option<Error>)
      requires Valid()
      modifies this`objects
      ensures Valid()
      ensures err.None? ==> keyOf(v) !in old(objects) && objects == old(objects)[keyOf(v) := v]
      ensures err.Some? ==> objects == old(objects)
      ensures keyOf(v) in old(objects) ==> err == Some(AlreadyExists)
      ensures err == Some(AlreadyExists) ==> keyOf(v) in old(objects)
    {
      if keyOf(v) in objects {
        err := Some(AlreadyExists);
      } else {
        objects := objects[keyOf(v) := v];
        err := None;
      }
    }

    /** Replaces the stored object with the key of `v`; it may fail with Conflict when the object
        changed since it was read. */
    method Update(v: V) returns (err: Option<Error>)
      requires Valid()
      modifies this`objects
      ensures Valid()
      ensures err.None? ==> keyOf(v) in old(objects) && objects == old(objects)[keyOf(v) := v]
      ensures err.Some? ==> objects == old(objects)
      ensures keyOf(v) !in old(objects) ==> err == Some(NotFound)
      ensures err == Some(NotFound) ==> keyOf(v) !in old(objects)
    {
      if keyOf(v) in objects {
        objects := objects[keyOf(v) := v];
        err := None;
      } else {
        err := Some(NotFound);
      }
    }

    method Delete(k: K) returns (err: Option<Error>)
      requires Valid()
      modifies this`objects
      ensures Valid()
      ensures err.None? ==> k in old(objects) && objects == old(objects) - {k}
      ensures err.Some? ==> objects == old(objects)
      ensures k !in old(objects) ==> err == Some(NotFound)
      ensures err == Some(NotFound) ==> k !in old(objects)
    {
      if k in objects {
        objects := objects - {k};
        err := None;
      } else {
        err := Some(NotFound);
      }
    }

    /** Every stored object that satisfies `selected`, each once, in an order the store chooses. */
    method List(selected: V -> bool) returns (r: Result<seq<V>>)
      requires Valid()
      ensures r.Ok? ==> forall i | 0 <= i < |r.value| ::
        keyOf(r.value[i]) in objects && objects[keyOf(r.value[i])] == r.value[i] && selected(r.value[i])
      ensures r.Ok? ==> forall k | k in objects && selected(objects[k]) :: objects[k] in r.value
      ensures r.Ok? ==> forall i, j | 0 <= i < j < |r.value| :: keyOf(r.value[i]) != keyOf(r.value[j])
    {
      var left := objects.Keys;
      var found: seq<V> := [];
      while left != {}
        invariant left <= objects.Keys
        invariant forall i | 0 <= i < |found| ::
          keyOf(found[i]) in objects.Keys - left && objects[keyOf(found[i])] == found[i] && selected(found[i])
        invariant forall k | k in objects.Keys - left && selected(objects[k]) :: objects[k] in found
        invariant forall i, j | 0 <= i < j < |found| :: keyOf(found[i]) != keyOf(found[j])
        decreases left
      {
        var k :| k in left;
        if selected(objects[k]) {
          found := found + [objects[k]];
        }
        left := left - {k};
      }
      r := Ok(found);
    }
  }
}
